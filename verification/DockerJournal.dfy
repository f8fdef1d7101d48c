/** The Docker journal of one attempt as it is kept: intents written before a
    create request is forwarded, resources captured from its answer, and the
    sweep that gives them back. */
module DockerJournal {
  import opened Wrappers
  import opened DockerResources
  import opened DockerSweep

  /** A volume of a new container that the request did not name: anonymous, at a
      destination nobody asked for. */
  ghost predicate Implied(mounts: seq<Json>, i: Intent, digest: string -> string, r: Resource) {
    r.implicitVolume && exists k :: 0 <= k < |mounts| && ImpliedBy(mounts[k], i, digest, r.id)
  }

  predicate ImpliedBy(mount: Json, i: Intent, digest: string -> string, id: string) {
    && Text(Field(mount, "Type")) == Some("volume") && Text(Field(mount, "Name")) == Some(id)
    && var at := Text(Field(mount, "Destination")); at.Some? && digest(at.value) !in i.destinations
  }

  /** What a capture may add for an intent, given the inspected body. */
  ghost predicate Captured(v: Json, i: Intent, id: string, digest: string -> string, r: Resource) {
    && r.operation == i.id
    && ((r.kind == i.kind && r.id == id && !r.implicitVolume) || Implied(Listed(v, "Mounts"), i, digest, r))
  }

  lemma OneMoreTarget(items: seq<Json>, k: nat, target: Json -> Option<string>)
    requires k < |items|
    ensures Targets(items[..k + 1], target) == Targets(items[..k], target) + [target(items[k])]
  {
  }

  lemma OneMoreDestination(targets: seq<Option<string>>, at: Option<string>, digest: string -> string)
    ensures Destinations(targets + [at], digest) == Destinations(targets, digest) + if at.Some? then {digest(at.value)} else {}
  {
    var more := targets + [at];
    assert more[|targets|] == at && forall i :: 0 <= i < |targets| ==> more[i] == targets[i];
  }

  /** The volume destinations of the first k binds or mounts. */
  ghost function Seen(items: seq<Json>, k: nat, target: Json -> Option<string>, digest: string -> string): set<string>
    requires k <= |items|
  {
    Destinations(Targets(items[..k], target), digest)
  }

  lemma SeenOneMore(items: seq<Json>, k: nat, target: Json -> Option<string>, digest: string -> string)
    requires k < |items|
    ensures Seen(items, k + 1, target, digest) == Seen(items, k, target, digest) + if target(items[k]).Some? then {digest(target(items[k]).value)} else {}
  {
    OneMoreTarget(items, k, target);
    OneMoreDestination(Targets(items[..k], target), target(items[k]), digest);
  }

  /** The volume destinations of some binds or mounts, None when one is refused. */
  method ReadTargets(items: seq<Json>, refused: Json -> bool, target: Json -> Option<string>, digest: string -> string) returns (found: Option<set<string>>)
    ensures found.Some? <==> forall i :: 0 <= i < |items| ==> !refused(items[i])
    ensures found.Some? ==> found.value == Destinations(Targets(items, target), digest)
  {
    var seen := {};
    var k := 0;
    while k < |items|
      invariant 0 <= k <= |items| && seen == Seen(items, k, target, digest)
      invariant forall i :: 0 <= i < k ==> !refused(items[i])
    {
      SeenOneMore(items, k, target, digest);
      if refused(items[k]) {
        return None;
      }
      var at := target(items[k]);
      if at.Some? {
        seen := seen + {digest(at.value)};
      }
      k := k + 1;
    }
    assert items[..k] == items;
    return Some(seen);
  }

  /** The intent of a create request, read off its body. */
  method BuildIntent(h: Header, path: string, body: Json, id: string, digest: string -> string) returns (r: Intended)
    ensures r == CreationIntent(h, path, body, id, digest)
  {
    var kind := KindOf(path);
    if kind.None? {
      return Untracked;
    }
    if !body.Obj? {
      return Refused;
    }
    if Persistent(kind.value, path, body.fields) {
      return Untracked;
    }
    var labels := OrNull(Field(body, "Labels"));
    var hostConfig := OrNull(Field(body, "HostConfig"));
    if !labels.Null? && !labels.Obj? {
      return Refused;
    }
    var owned := OwnedLabels(h, id, if labels.Obj? then labels.fields else map[]);
    if owned.None? {
      return Refused;
    }
    var binds := ReadTargets(Listed(hostConfig, "Binds"), BindRefused, BindTarget, digest);
    var mounts := ReadTargets(Listed(hostConfig, "Mounts"), MountRefused, MountTarget, digest);
    if binds.None? || mounts.None? {
      return Refused;
    }
    return Tracked(
      Intent(id, kind.value, binds.value + mounts.value, Listed(hostConfig, "VolumesFrom") != [], false),
      Obj(body.fields["Labels" := Obj(owned.value)]));
  }

  class Journal {
    var head: Header
    var intents: seq<Intent>
    var resources: seq<Resource>

    ghost predicate Valid()
      reads this
    {
      ValidJournal(head, intents, resources)
    }

    constructor (h: Header)
      requires ValidHeader(h, [], [])
      ensures Valid() && head == h && intents == [] && resources == []
    {
      head, intents, resources := h, [], [];
    }

    /** Journals the intent of a create request before it is forwarded. The journal
        stays one that load accepts unless the request is tracked, is not for a
        container, and speaks of volumes. */
    method Intend(path: string, body: Json, id: string, digest: string -> string) returns (r: Intended)
      requires Valid() && head.proxy.Some? && ValidOperation(id)
      requires (forall s :: ValidId(digest(s))) && forall i :: 0 <= i < |intents| ==> intents[i].id != id
      modifies this`intents
      ensures r == CreationIntent(head, path, body, id, digest)
      ensures intents == if r.Tracked? then old(intents) + [r.intent] else old(intents)
      ensures Valid() <==> !r.Tracked? || KindOf(path) == Some(Container) || !SpeaksOfVolumes(body)
    {
      r := BuildIntent(head, path, body, id, digest);
      if r.Tracked? {
        TrackedRequestKeepsJournal(head, intents, resources, path, body, id, digest);
        intents := intents + [r.intent];
      }
    }

    method AddResource(r: Resource)
      requires Valid() && ValidResource(intents, r)
      modifies this`resources
      ensures Valid() && resources == Added(old(resources), r) && Known(resources, r)
    {
      ResourceKeepsJournal(head, intents, resources, r);
      var known := false;
      var k := 0;
      while k < |resources| && !known
        invariant 0 <= k <= |resources|
        invariant known ==> Known(resources, r)
        invariant !known ==> forall i :: 0 <= i < k ==> !SameResource(resources[i], r)
      {
        known := SameResource(resources[k], r);
        k := k + 1;
      }
      if !known {
        resources := resources + [r];
      }
    }

    /** Records what a create request made. However it ends, the journal stays one
        that load accepts, nothing recorded is lost, and nothing is added but the
        resource itself and volumes the request did not name. */
    method CaptureCreated(i: Intent, id: string, e: Engine, start: Log, digest: string -> string) returns (ok: bool, log: Log)
      requires Valid() && i in intents
      modifies this`resources
      ensures Valid() && start <= log && old(resources) <= resources
      ensures ValidId(id) ==> start + [Inspect(i.kind, id)] <= log
      ensures var found := Inspected(e, start, i.kind, id);
        if found.Present? && MatchesLabels(head, i.id, LabelsOf(found.body, i.kind)) && Created(found.body).Some?
        then Known(resources, Resource(i.kind, id, Created(found.body).value, i.id, false))
             && AllCaptured(resources, |old(resources)|, found.body, i, id, digest)
             && (if i.kind.Container? && !i.inheritsVolumes
                 then (ok ==> AllHandled(Listed(found.body, "Mounts"), |Listed(found.body, "Mounts")|, i, e, log, digest, resources))
                      && (!ok ==> SomeMountFails(Listed(found.body, "Mounts"), i, e, digest))
                 else ok)
        else resources == old(resources) && ok == found.Gone?
    {
      var found := Inspected(e, start, i.kind, id);
      log := start + if ValidId(id) then [Inspect(i.kind, id)] else [];
      if !found.Present? {
        return found.Gone?, log;
      }
      var v := found.body;
      if !MatchesLabels(head, i.id, LabelsOf(v, i.kind)) || Created(v).None? {
        return false, log;
      }
      IntentIsFound(head, intents, resources, i);
      var r := Resource(i.kind, id, Created(v).value, i.id, false);
      AddResource(r);
      ok := true;
      if i.kind.Container? && !i.inheritsVolumes {
        ghost var own := resources;
        ok, log := CaptureMounts(Listed(v, "Mounts"), i, e, log, digest);
        StillKnown(own, resources, r);
      }
    }

    /** The anonymous volumes of a new container. */
    method CaptureMounts(mounts: seq<Json>, i: Intent, e: Engine, start: Log, digest: string -> string) returns (ok: bool, log: Log)
      requires Valid() && i in intents && i.kind.Container? && !i.inheritsVolumes
      modifies this`resources
      ensures Valid() && start <= log && old(resources) <= resources
      ensures AllImplied(resources, |old(resources)|, mounts, i, digest)
      ensures ok ==> AllHandled(mounts, |mounts|, i, e, log, digest, resources)
      ensures !ok ==> SomeMountFails(mounts, i, e, digest)
    {
      ok, log := true, start;
      var k := 0;
      while k < |mounts|
        invariant 0 <= k <= |mounts| && Valid() && start <= log && old(resources) <= resources
        invariant AllImplied(resources, |old(resources)|, mounts, i, digest)
        invariant AllHandled(mounts, k, i, e, log, digest, resources) && ok
      {
        ghost var before, had := log, resources;
        var r;
        r, log, ok := ReadMount(mounts[k], i, e, log, digest);
        if !ok {
          assert FailsAt(mounts[k], i, e, before, digest);
          return;
        }
        if r.Some? {
          IntentIsFound(head, intents, resources, i);
          assert ImpliedBy(mounts[k], i, digest, r.value.id);
          AddResource(r.value);
        }
        StillHandled(mounts, k, i, e, before, log, digest, had, resources);
        k := k + 1;
      }
    }

    /** The sweep. Only confirmed resources are deleted, containers first, and only
        when applying; every resource is accounted for; an error leaves all of them in
        the journal; and an engine that is not the one journalled is asked nothing
        more. */
    method CleanResources(e: Engine, mode: Mode) returns (r: Option<Tally>, log: Log)
      requires Valid()
      modifies this`resources
      ensures Valid()
      ensures mode.Off? ==> r == Some(Tally([], [], [], 0, 0, 0, 0, 0)) && log == [] && resources == old(resources)
      ensures r.None? ==> multiset(resources) == multiset(old(resources))
      ensures !mode.Off? && r.Some? ==> Balanced(r.value, mode, |old(resources)|) && resources == r.value.kept
      ensures !mode.Off? && r.Some? ==> Swept(e, head, intents, mode, ByRank(old(resources))) == (r.value, true)
      ensures Orderly(e, head, intents, mode, ByRank(old(resources)), log)
      ensures !mode.Off? && !SameEngine(e, head) ==> r.None? && log == [Info] && resources == old(resources)
      ensures !mode.Off? && SameEngine(e, head) ==>
        var (t, ok) := Swept(e, head, intents, mode, ByRank(old(resources)));
        log == t.log && (if ok then r == Some(t) else r.None? && resources == ByRank(old(resources)))
    {
      log := [];
      if mode.Off? {
        return Some(Tally([], [], [], 0, 0, 0, 0, 0)), log;
      }
      var info := e(log, Info);
      log := [Info];
      if info.None? || info.value.status != 200 || Text(Field(info.value.body, "ID")) != Some(head.engine) {
        return None, log;
      }
      SweepSummary(e, head, intents, mode, resources);
      resources := ByRank(resources);
      var t, ok := SweepAll(e, head, intents, mode, resources);
      log := t.log;
      if !ok {
        return None, log;
      }
      resources := t.kept;
      return Some(t), log;
    }
  }

  /** The loop of the sweep. */
  method SweepAll(e: Engine, h: Header, intents: seq<Intent>, mode: Mode, rs: seq<Resource>) returns (t: Tally, ok: bool)
    ensures (t, ok) == Swept(e, h, intents, mode, rs)
  {
    t, ok := Tally([Info], [], [], 0, 0, 0, 0, 0), true;
    var k := 0;
    while k < |rs|
      invariant 0 <= k <= |rs| && ok
      invariant Sweep(VisitorOf(e, h, intents, mode), [Info], rs, k) == (t, true)
    {
      var v := VisitOne(e, h, intents, mode, t.log, rs[k]);
      t := Tallied(t, rs[k], v);
      k := k + 1;
      if v.fate.Failed? {
        ok := false;
        SweepStops(VisitorOf(e, h, intents, mode), [Info], rs, k, |rs|);
        return;
      }
    }
  }

  /** The engine says it is the one the journal was begun with. */
  predicate SameEngine(e: Engine, h: Header) {
    var info := e([], Info);
    info.Some? && info.value.status == 200 && Text(Field(info.value.body, "ID")) == Some(h.engine)
  }

  function Swept(e: Engine, h: Header, intents: seq<Intent>, mode: Mode, rs: seq<Resource>): (Tally, bool) {
    Sweep(VisitorOf(e, h, intents, mode), [Info], rs, |rs|)
  }

  ghost predicate AllCaptured(resources: seq<Resource>, from: nat, v: Json, i: Intent, id: string, digest: string -> string) {
    forall k :: from <= k < |resources| ==> Captured(v, i, id, digest, resources[k])
  }

  ghost predicate AllImplied(resources: seq<Resource>, from: nat, mounts: seq<Json>, i: Intent, digest: string -> string) {
    forall k :: from <= k < |resources| ==> resources[k].operation == i.id && Implied(mounts, i, digest, resources[k])
  }

  /** A mount that calls for a record: a volume by id, where nobody asked for one. */
  predicate CallsFor(mount: Json, i: Intent, digest: string -> string) {
    && Text(Field(mount, "Type")) == Some("volume")
    && var at, name := Text(Field(mount, "Destination")), Text(Field(mount, "Name"));
    && at.Some? && digest(at.value) !in i.destinations && name.Some? && ValidId(name.value)
  }

  /** Asked about at that point, such a volume was gone, was not anonymous, or is in
      the journal. */
  predicate HandledAt(mount: Json, i: Intent, e: Engine, at: Log, digest: string -> string, resources: seq<Resource>) {
    CallsFor(mount, i, digest) ==>
      var name := Text(Field(mount, "Name")).value;
      var found := Inspected(e, at, Volume, name);
      found.Gone? || (found.Present? && (!Anonymous(LabelsOf(found.body, Volume)) || Known(resources, Resource(Volume, name, "", i.id, true))))
  }

  /** Why a mount cannot be recorded: it does not say where it is, or what it is, or
      the engine does not answer about it as it should. */
  predicate FailsAt(mount: Json, i: Intent, e: Engine, at: Log, digest: string -> string) {
    && Text(Field(mount, "Type")) == Some("volume")
    && var to, name := Text(Field(mount, "Destination")), Text(Field(mount, "Name"));
    (to.None? || (digest(to.value) !in i.destinations && (name.None? || (ValidId(name.value) && UnreadableVolume(Inspected(e, at, Volume, name.value))))))
  }

  predicate UnreadableVolume(found: Found) {
    found.Unreadable? || (found.Present? && Anonymous(LabelsOf(found.body, Volume)) && Created(found.body).None?)
  }

  ghost predicate SomeMountFails(mounts: seq<Json>, i: Intent, e: Engine, digest: string -> string) {
    exists k, at: Log :: 0 <= k < |mounts| && FailsAt(mounts[k], i, e, at, digest)
  }

  ghost predicate Handled(mount: Json, i: Intent, e: Engine, log: Log, digest: string -> string, resources: seq<Resource>) {
    exists at: Log :: at <= log && HandledAt(mount, i, e, at, digest, resources)
  }

  ghost predicate AllHandled(mounts: seq<Json>, n: nat, i: Intent, e: Engine, log: Log, digest: string -> string, resources: seq<Resource>) {
    forall k :: 0 <= k < n && k < |mounts| ==> Handled(mounts[k], i, e, log, digest, resources)
  }

  /** What was handled stays handled as the log and the journal grow, and one more
      mount is. */
  lemma StillHandled(mounts: seq<Json>, n: nat, i: Intent, e: Engine, before: Log, log: Log, digest: string -> string, had: seq<Resource>, have: seq<Resource>)
    requires AllHandled(mounts, n, i, e, before, digest, had) && before <= log && had <= have
    requires n < |mounts| && HandledAt(mounts[n], i, e, before, digest, have)
    ensures AllHandled(mounts, n + 1, i, e, log, digest, have)
  {
    forall k | 0 <= k < n + 1 ensures Handled(mounts[k], i, e, log, digest, have) {
      if k < n {
        assert Handled(mounts[k], i, e, before, digest, had);
        var at: Log :| at <= before && HandledAt(mounts[k], i, e, at, digest, had);
        if CallsFor(mounts[k], i, digest) {
          var r := Resource(Volume, Text(Field(mounts[k], "Name")).value, "", i.id, true);
          if Known(had, r) {
            StillKnown(had, have, r);
          }
        }
        assert at <= log && HandledAt(mounts[k], i, e, at, digest, have);
      }
    }
  }

  lemma StillKnown(before: seq<Resource>, after: seq<Resource>, r: Resource)
    requires Known(before, r) && before <= after
    ensures Known(after, r)
  {
    var i :| 0 <= i < |before| && SameResource(before[i], r);
    assert SameResource(after[i], r);
  }

  lemma IntentIsFound(h: Header, intents: seq<Intent>, resources: seq<Resource>, i: Intent)
    requires ValidJournal(h, intents, resources) && i in intents
    ensures FindIntent(intents, i.id) == Some(i) && ValidOperation(i.id)
  {
    var k :| 0 <= k < |intents| && intents[k] == i;
    FindsMember(intents, k);
    assert ValidIntent(intents[k]);
  }

  /** One mount of a new container: the volume to record, if there is one. */
  method ReadMount(mount: Json, i: Intent, e: Engine, start: Log, digest: string -> string) returns (r: Option<Resource>, log: Log, ok: bool)
    ensures start <= log && (r.Some? ==> ok) && (!ok <==> FailsAt(mount, i, e, start, digest))
    ensures log == start + if CallsFor(mount, i, digest) then [Inspect(Volume, Text(Field(mount, "Name")).value)] else []
    ensures ok && r.None? ==> forall resources :: HandledAt(mount, i, e, start, digest, resources)
    ensures r.Some? ==> ValidId(r.value.id) && r.value == Resource(Volume, r.value.id, r.value.created, i.id, true)
    ensures r.Some? ==> ImpliedBy(mount, i, digest, r.value.id)
    ensures r.Some? ==> var found := Inspected(e, start, Volume, r.value.id);
      found.Present? && Anonymous(LabelsOf(found.body, Volume)) && Created(found.body) == Some(r.value.created)
  {
    r, log, ok := None, start, true;
    if Text(Field(mount, "Type")) != Some("volume") {
      return;
    }
    var at := Text(Field(mount, "Destination"));
    if at.None? {
      return None, log, false;
    }
    if digest(at.value) in i.destinations {
      return;
    }
    var name := Text(Field(mount, "Name"));
    if name.None? {
      return None, log, false;
    }
    if !ValidId(name.value) {
      return;
    }
    var found := Inspected(e, log, Volume, name.value);
    log := log + [Inspect(Volume, name.value)];
    if !found.Present? || !Anonymous(LabelsOf(found.body, Volume)) {
      return None, log, !found.Unreadable?;
    }
    if Created(found.body).None? {
      return None, log, false;
    }
    return Some(Resource(Volume, name.value, Created(found.body).value, i.id, true)), log, true;
  }
}
