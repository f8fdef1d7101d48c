/** Which create requests Docker accounting journals, in the terms of the request:
    what a workflow means to keep stays out, and everything else goes in. */
module DockerRequests {
  import opened Wrappers
  import opened DockerResources

  // ---------------------------------------------------------------------------
  // Reading strings
  // ---------------------------------------------------------------------------

  lemma {:induction false} SplitAtFirst(s: string, c: char, t: string)
    requires c !in s
    ensures Split(s + [c] + t, c) == [s] + Split(t, c)
  {
    var whole := s + [c] + t;
    if s == "" {
      assert whole[1..] == t;
    } else {
      SplitAtFirst(s[1..], c, t);
      assert whole[1..] == s[1..] + [c] + t;
      assert [s[0]] + s[1..] == s;
    }
  }

  function Join(pieces: seq<string>, c: char): string
    requires pieces != []
  {
    if |pieces| == 1 then pieces[0] else pieces[0] + [c] + Join(pieces[1..], c)
  }

  /** Splitting loses nothing, and cuts at every separator. */
  lemma {:induction false} SplitIsUndoneByJoin(s: string, c: char)
    ensures Join(Split(s, c), c) == s
    ensures forall i :: 0 <= i < |Split(s, c)| ==> c !in Split(s, c)[i]
  {
    if s != "" {
      SplitIsUndoneByJoin(s[1..], c);
      var rest := Split(s[1..], c);
      if s[0] == c {
        assert ([""] + rest)[1..] == rest;
      } else {
        assert ([[s[0]] + rest[0]] + rest[1..])[1..] == rest[1..];
      }
    }
  }

  lemma {:induction false} AfterFirstSeparator(s: string, c: char, t: string)
    requires c !in s
    ensures AfterFirst(s + [c] + t, c) == Some(t)
  {
    var whole := s + [c] + t;
    if s == "" {
      assert whole[1..] == t;
    } else {
      AfterFirstSeparator(s[1..], c, t);
      assert whole[1..] == s[1..] + [c] + t;
    }
  }

  lemma {:induction false} NoSeparatorNothingAfter(s: string, c: char)
    requires c !in s
    ensures AfterFirst(s, c) == None
  {
    if s != "" {
      NoSeparatorNothingAfter(s[1..], c);
    }
  }

  // ---------------------------------------------------------------------------
  // What a path asks for
  // ---------------------------------------------------------------------------

  /** The endpoint of a path, with a query or without one. */
  ghost predicate PathOf(path: string, endpoint: string) {
    '?' !in endpoint && (path == endpoint || exists query :: path == WithQuery(endpoint, query))
  }

  function WithQuery(endpoint: string, query: string): string {
    endpoint + ['?'] + query
  }

  lemma EndpointOf(path: string, endpoint: string)
    requires PathOf(path, endpoint)
    ensures Split(path, '?')[0] == endpoint
  {
    if path == endpoint {
      NoSeparator(endpoint, '?');
    } else {
      var query :| path == WithQuery(endpoint, query);
      SplitAtFirst(endpoint, '?', query);
    }
  }

  lemma EndsWithItself(prefix: string, suffix: string)
    ensures EndsWith(prefix + suffix, suffix)
  {
    assert (prefix + suffix)[|prefix|..] == suffix;
  }

  lemma LetterFromTheEnd(s: string, suffix: string, k: nat)
    requires EndsWith(s, suffix) && k < |suffix|
    ensures s[|s| - 1 - k] == suffix[|suffix| - 1 - k]
  {
    assert s[|s| - 1 - k] == s[|s| - |suffix|..][|suffix| - 1 - k];
  }

  /** A suffix is told by the letter that sets it apart. */
  lemma EndsOtherwise(s: string, suffix: string, other: string, k: nat)
    requires EndsWith(s, suffix) && k < |suffix| && k < |other| && suffix[|suffix| - 1 - k] != other[|other| - 1 - k]
    ensures !EndsWith(s, other)
  {
    LetterFromTheEnd(s, suffix, k);
    if EndsWith(s, other) {
      LetterFromTheEnd(s, other, k);
    }
  }

  /** The kind is told by the endpoint alone, under any version prefix and query. */
  lemma ContainersCreate(path: string, prefix: string)
    requires PathOf(path, prefix + "/containers/create")
    ensures KindOf(path) == Some(Container)
  {
    EndpointOf(path, prefix + "/containers/create");
    EndsWithItself(prefix, "/containers/create");
  }

  lemma VolumesCreate(path: string, prefix: string)
    requires PathOf(path, prefix + "/volumes/create")
    ensures KindOf(path) == Some(Volume)
  {
    var endpoint := prefix + "/volumes/create";
    EndpointOf(path, endpoint);
    EndsWithItself(prefix, "/volumes/create");
    assert "/volumes/create"[6] == 'e' && "/containers/create"[9] == 'r';
    EndsOtherwise(endpoint, "/volumes/create", "/containers/create", 8);
  }

  lemma NetworksCreate(path: string, prefix: string)
    requires PathOf(path, prefix + "/networks/create")
    ensures KindOf(path) == Some(Network)
  {
    var endpoint := prefix + "/networks/create";
    EndpointOf(path, endpoint);
    EndsWithItself(prefix, "/networks/create");
    assert "/networks/create"[7] == 'k' && "/containers/create"[9] == 'r' && "/volumes/create"[6] == 'e';
    EndsOtherwise(endpoint, "/networks/create", "/containers/create", 8);
    EndsOtherwise(endpoint, "/networks/create", "/volumes/create", 8);
  }

  /** The name a query gives. */
  lemma NameInQuery(endpoint: string, name: string)
    requires '?' !in endpoint && '&' !in name
    ensures QueryName(WithQuery(endpoint, "name=" + name)) == Some(name)
  {
    AfterFirstSeparator(endpoint, '?', "name=" + name);
    var field := "name=" + name;
    assert '&' !in field;
    NoSeparator(field, '&');
    assert field[..5] == "name=" && field[5..] == name;
  }

  // ---------------------------------------------------------------------------
  // What stays out
  // ---------------------------------------------------------------------------

  /** A volume the workflow gave a name outlives the attempt. */
  lemma NamedVolumeIsLeftAlone(h: Header, path: string, body: Json, id: string, digest: string -> string)
    requires KindOf(path) == Some(Volume) && body.Obj? && "Name" in body.fields && body.fields["Name"].Str? && body.fields["Name"].text != ""
    ensures CreationIntent(h, path, body, id, digest) == Untracked
  {
  }

  /** So does anything that carries the retain label. */
  lemma RetainedIsLeftAlone(h: Header, path: string, body: Json, labels: Json, id: string, digest: string -> string)
    requires KindOf(path).Some? && body.Obj? && "Labels" in body.fields && body.fields["Labels"] == labels
    requires labels.Obj? && RETAIN_LABEL in labels.fields && labels.fields[RETAIN_LABEL] == Str("true")
    ensures CreationIntent(h, path, body, id, digest) == Untracked
  {
  }

  /** And a builder, told by its name. */
  lemma NamedBuilderIsLeftAlone(h: Header, endpoint: string, rest: string, body: Json, id: string, digest: string -> string)
    requires '?' !in endpoint && '&' !in rest && body.Obj?
    requires KindOf(WithQuery(endpoint, "name=" + ("buildx_buildkit_" + rest))) == Some(Container)
    ensures CreationIntent(h, WithQuery(endpoint, "name=" + ("buildx_buildkit_" + rest)), body, id, digest) == Untracked
  {
    var name := "buildx_buildkit_" + rest;
    assert '&' !in "buildx_buildkit_";
    NameInQuery(endpoint, name);
    assert "buildx_buildkit_" <= name;
  }

  /** By a mount of its state. */
  lemma MountedBuilderIsLeftAlone(h: Header, path: string, body: Json, mounts: seq<Json>, i: nat, id: string, digest: string -> string)
    requires KindOf(path) == Some(Container) && body.Obj? && Items(Field(OrNull(Field(body, "HostConfig")), "Mounts")) == Some(mounts)
    requires i < |mounts| && Text(Field(mounts[i], "Target")) == Some("/var/lib/buildkit")
    ensures CreationIntent(h, path, body, id, digest) == Untracked
  {
    assert MountsBuildState(mounts[i]);
  }

  /** The parts of a bind: its source, its destination and, perhaps, options. */
  lemma PartsOfBind(source: string, destination: string, options: string)
    requires ':' !in source && ':' !in destination
    ensures |Split(source, ':')| == 1 && Split(source, ':')[0] == source
    ensures Split(source + [':'] + destination, ':') == [source, destination]
    ensures var parts := Split(source + [':'] + (destination + [':'] + options), ':'); |parts| >= 2 && parts[0] == source && parts[1] == destination
  {
    NoSeparator(source, ':');
    SplitAtFirst(source, ':', destination);
    NoSeparator(destination, ':');
    SplitAtFirst(source, ':', destination + [':'] + options);
    SplitAtFirst(destination, ':', options);
  }

  lemma BindOfBuildState(source: string, state: string, options: string)
    requires ':' !in source && state == "/var/lib/buildkit"
    ensures BindsBuildState(Str(source + [':'] + state)) && BindsBuildState(Str(source + [':'] + (state + [':'] + options)))
    ensures BindsBuildState(Str(state))
  {
    assert ':' !in state;
    PartsOfBind(source, state, options);
    NoSeparator(state, ':');
  }

  /** Or by a bind of it; `BindOfBuildState` says which binds those are. */
  lemma BoundBuilderIsLeftAlone(h: Header, path: string, body: Json, binds: seq<Json>, i: nat, id: string, digest: string -> string)
    requires KindOf(path) == Some(Container) && body.Obj? && Items(Field(OrNull(Field(body, "HostConfig")), "Binds")) == Some(binds)
    requires i < |binds| && BindsBuildState(binds[i])
    ensures CreationIntent(h, path, body, id, digest) == Untracked
  {
  }

  // ---------------------------------------------------------------------------
  // What goes in
  // ---------------------------------------------------------------------------

  /** A volume request with a name of its own. */
  predicate IsNamed(body: Json) {
    var name := Text(Field(body, "Name"));
    name.Some? && name.value != ""
  }

  /** The request already carries a label only the agent may set. */
  predicate ClaimsOwnership(labels: Json) {
    labels.Obj? && (HOST_LABEL in labels.fields || ATTEMPT_LABEL in labels.fields || OPERATION_LABEL in labels.fields)
  }

  /** Exactly which requests are journalled: those for a container that is no
      builder, a volume without a name or a network, not to be retained, that can be
      read and do not claim to be the agent's already. */
  lemma TrackedExactlyWhen(h: Header, path: string, body: Json, id: string, digest: string -> string)
    ensures CreationIntent(h, path, body, id, digest).Tracked? <==>
      && KindOf(path).Some? && body.Obj?
      && var labels, hostConfig := OrNull(Field(body, "Labels")), OrNull(Field(body, "HostConfig"));
      && !Retained(labels) && (labels.Null? || labels.Obj?) && !ClaimsOwnership(labels) && Readable(hostConfig)
      && (KindOf(path) == Some(Volume) ==> !IsNamed(body))
      && (KindOf(path) == Some(Container) ==> !IsBuilder(path, hostConfig))
  {
  }

  /** What the intent of a journalled request records, and what is forwarded: the
      body as it was, but for three more labels. */
  lemma TrackedRecordsTheRequest(h: Header, path: string, body: Json, id: string, digest: string -> string)
    requires CreationIntent(h, path, body, id, digest).Tracked?
    ensures var r := CreationIntent(h, path, body, id, digest);
      && r.intent.id == id && Some(r.intent.kind) == KindOf(path) && !r.intent.settled
      && (r.intent.inheritsVolumes <==> Listed(OrNull(Field(body, "HostConfig")), "VolumesFrom") != [])
      && r.body.Obj? && body.Obj? && (forall key :: key != "Labels" ==> Field(r.body, key) == Field(body, key))
      && var labels, given := OrNull(Field(r.body, "Labels")), OrNull(Field(body, "Labels"));
      && (forall key :: key != HOST_LABEL && key != ATTEMPT_LABEL && key != OPERATION_LABEL ==> Field(labels, key) == Field(given, key))
  {
  }

  /** A bind or a mount with a source names its destination; digests stand in for
      destinations, and nothing else is recorded. */
  lemma DestinationsAreThoseNamed(h: Header, path: string, body: Json, id: string, digest: string -> string, d: string)
    requires CreationIntent(h, path, body, id, digest).Tracked?
    ensures var hostConfig := OrNull(Field(body, "HostConfig"));
      d in CreationIntent(h, path, body, id, digest).intent.destinations <==>
        || (exists i :: 0 <= i < |Listed(hostConfig, "Binds")| && BindNames(Listed(hostConfig, "Binds")[i], digest, d))
        || (exists i :: 0 <= i < |Listed(hostConfig, "Mounts")| && MountNames(Listed(hostConfig, "Mounts")[i], digest, d))
  {
    var hostConfig := OrNull(Field(body, "HostConfig"));
    TargetsNamed(Listed(hostConfig, "Binds"), BindTarget, digest, d);
    TargetsNamed(Listed(hostConfig, "Mounts"), MountTarget, digest, d);
  }

  predicate BindNames(bind: Json, digest: string -> string, d: string) {
    BindTarget(bind).Some? && digest(BindTarget(bind).value) == d
  }

  predicate MountNames(mount: Json, digest: string -> string, d: string) {
    MountTarget(mount).Some? && digest(MountTarget(mount).value) == d
  }

  predicate Names(item: Json, target: Json -> Option<string>, digest: string -> string, d: string) {
    target(item).Some? && digest(target(item).value) == d
  }

  lemma TargetsNamed(items: seq<Json>, target: Json -> Option<string>, digest: string -> string, d: string)
    ensures d in Destinations(Targets(items, target), digest) <==> exists i :: 0 <= i < |items| && Names(items[i], target, digest, d)
  {
    var targets := Targets(items, target);
    if i :| 0 <= i < |items| && Names(items[i], target, digest, d) {
      assert targets[i] == target(items[i]);
    }
    if d in Destinations(targets, digest) {
      var i :| 0 <= i < |targets| && targets[i].Some? && digest(targets[i].value) == d;
      assert Names(items[i], target, digest, d);
    }
  }

  /** The destination of a bind is what follows its source. */
  lemma BindTargetIsTheDestination(source: string, destination: string, options: string)
    requires ':' !in source && ':' !in destination
    ensures BindTarget(Str(source + [':'] + destination)) == Some(destination)
    ensures BindTarget(Str(source + [':'] + (destination + [':'] + options))) == Some(destination)
    ensures BindTarget(Str(source)) == None
  {
    PartsOfBind(source, destination, options);
  }

  /** A request is refused for a bind that is no string, and for a mount that has a
      source and nowhere to go. */
  lemma RefusedBindsAndMounts(item: Json)
    ensures BindRefused(item) <==> !item.Str?
    ensures item.Obj? ==> (MountRefused(item) <==>
      ("Source" in item.fields && item.fields["Source"].Str? && item.fields["Source"].text != "" && !("Target" in item.fields && item.fields["Target"].Str?)))
    ensures !item.Obj? ==> !MountRefused(item)
  {
  }

  /** The destination of a mount counts when the mount has a source. */
  lemma MountTargetIsTheTarget(mount: Json)
    requires mount.Obj?
    ensures MountTarget(mount).Some? <==>
      "Source" in mount.fields && mount.fields["Source"].Str? && mount.fields["Source"].text != "" && "Target" in mount.fields && mount.fields["Target"].Str?
    ensures MountTarget(mount).Some? ==> mount.fields["Target"] == Str(MountTarget(mount).value)
  {
  }
}
