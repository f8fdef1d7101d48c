/** The cleanup sweep over a Docker journal, one resource at a time, against an
    engine whose every answer may depend on everything asked before. */
module DockerSweep {
  import opened Wrappers
  import opened DockerResources

  datatype Mode = Off | Report | Apply

  datatype Request = Info | Inspect(kind: Kind, id: string) | Delete(kind: Kind, id: string)

  datatype Reply = Reply(status: nat, body: Json)

  type Log = seq<Request>

  /** The answer to a request after a log of earlier ones; None is an I/O error. */
  type Engine = (Log, Request) -> Option<Reply>

  /** What an inspection found. */
  datatype Found = Unreadable | Gone | Present(body: Json)

  function Inspected(e: Engine, log: Log, kind: Kind, id: string): Found {
    var reply := e(log, Inspect(kind, id));
    if !ValidId(id) || reply.None? then Unreadable
    else if reply.value.status == 404 then Gone
    else if reply.value.status == 200 then Present(reply.value.body)
    else Unreadable
  }

  function Created(v: Json): Option<string> {
    var field := if Field(v, "Created").Some? then Field(v, "Created") else Field(v, "CreatedAt");
    var text := Text(field);
    if text.Some? && text.value != "" then text else None
  }

  predicate Anonymous(labels: Json) {
    Field(labels, ANONYMOUS_LABEL).Some? && !Retained(labels)
  }

  /** Whether the inspected resource is the one its intent made. */
  predicate Owned(h: Header, r: Resource, i: Intent, v: Json) {
    if r.implicitVolume
    then r.kind.Volume? && !i.inheritsVolumes && Anonymous(LabelsOf(v, r.kind))
    else MatchesLabels(h, i.id, LabelsOf(v, r.kind))
  }

  /** An inspection is read off its status: 404 is gone, 200 is there, and anything
      else, an error or an id that is none, is not an answer. */
  lemma InspectionReadsTheStatus(e: Engine, log: Log, kind: Kind, id: string)
    ensures var found, reply := Inspected(e, log, kind, id), e(log, Inspect(kind, id));
      && (found.Gone? <==> ValidId(id) && reply.Some? && reply.value.status == 404)
      && (found.Present? <==> ValidId(id) && reply.Some? && reply.value.status == 200)
      && (found.Present? ==> found.body == reply.value.body)
  {
  }

  /** Docker keeps a container's labels under its configuration, and those of a
      volume or a network at the top. */
  lemma LabelsAreWhereDockerPutsThem(v: Json, kind: Kind, labels: Json)
    ensures kind.Container? && v.Obj? && "Config" in v.fields && v.fields["Config"].Obj? && "Labels" in v.fields["Config"].fields ==>
      LabelsOf(v, kind) == v.fields["Config"].fields["Labels"]
    ensures !kind.Container? && v.Obj? && "Labels" in v.fields ==> LabelsOf(v, kind) == v.fields["Labels"]
    ensures LabelsOf(Null, kind) == Null
  {
  }

  /** The creation fingerprint is the text of `Created`, or where there is no such
      field of `CreatedAt`. */
  lemma CreatedIsTheFingerprint(v: Json, text: string)
    requires v.Obj? && text != ""
    ensures "Created" in v.fields && v.fields["Created"] == Str(text) ==> Created(v) == Some(text)
    ensures "Created" !in v.fields && "CreatedAt" in v.fields && v.fields["CreatedAt"] == Str(text) ==> Created(v) == Some(text)
    ensures "Created" in v.fields && !v.fields["Created"].Str? ==> Created(v) == None
    ensures "Created" in v.fields && v.fields["Created"] == Str("") ==> Created(v) == None
    ensures "Created" !in v.fields && "CreatedAt" !in v.fields ==> Created(v) == None
  {
  }

  /** An anonymous volume is one Docker marked so and nobody asked to retain. */
  lemma AnonymousIsMarkedSo(labels: Json)
    requires labels.Obj?
    ensures Anonymous(labels) <==> ANONYMOUS_LABEL in labels.fields && !(RETAIN_LABEL in labels.fields && labels.fields[RETAIN_LABEL] == Str("true"))
  {
  }

  // ---------------------------------------------------------------------------
  // One resource
  // ---------------------------------------------------------------------------

  datatype Fate = Failed | Absent | Protected | WouldRemove | Removed | Pending

  /** What the sweep does with one resource, and the requests it makes. */
  datatype Visit = Visit(fate: Fate, asked: Log)

  /** A deletion done, or nothing left to delete. */
  predicate Accepted(reply: Option<Reply>) {
    reply.Some? && (reply.value.status == 200 || reply.value.status == 204 || reply.value.status == 404)
  }

  function VisitOwned(e: Engine, mode: Mode, log: Log, r: Resource): Visit {
    if mode.Report? then Visit(WouldRemove, [])
    else
      var reply := e(log, Delete(r.kind, r.id));
      var fate :=
        if reply.None? then Failed
        else if Accepted(reply) then Removed
        else Pending;
      Visit(fate, [Delete(r.kind, r.id)])
  }

  function VisitPresent(e: Engine, h: Header, intents: seq<Intent>, mode: Mode, log: Log, r: Resource, v: Json): Visit {
    var i := FindIntent(intents, r.operation);
    if i.None? then Visit(Failed, [])
    else if !Owned(h, r, i.value, v) then Visit(Protected, [])
    else if Created(v).None? then Visit(Failed, [])
    else if Created(v).value != r.created then Visit(Protected, [])
    else VisitOwned(e, mode, log, r)
  }

  function VisitOne(e: Engine, h: Header, intents: seq<Intent>, mode: Mode, log: Log, r: Resource): Visit {
    var found := Inspected(e, log, r.kind, r.id);
    var look := if ValidId(r.id) then [Inspect(r.kind, r.id)] else [];
    match found
    case Unreadable => Visit(Failed, look)
    case Gone => Visit(Absent, look)
    case Present(v) =>
      var rest := VisitPresent(e, h, intents, mode, log + look, r, v);
      Visit(rest.fate, look + rest.asked)
  }

  /** The resource that the answers show to be the journalled one. */
  predicate Confirms(e: Engine, h: Header, intents: seq<Intent>, log: Log, r: Resource) {
    var found, i := Inspected(e, log, r.kind, r.id), FindIntent(intents, r.operation);
    found.Present? && i.Some? && Owned(h, r, i.value, found.body) && Created(found.body) == Some(r.created)
  }

  /** What becomes of each resource, by what the engine answers: gone is absent, one
      that is not the journalled one is protected, and of the rest a report only
      tells, while a sweep that applies removes those whose deletion is answered
      200, 204 or 404 and keeps every other as pending. */
  lemma FateByTheAnswers(e: Engine, h: Header, intents: seq<Intent>, mode: Mode, log: Log, r: Resource)
    requires ValidId(r.id) && FindIntent(intents, r.operation).Some? && !mode.Off?
    ensures var f := VisitOne(e, h, intents, mode, log, r).fate;
      var found, look, gone := Inspected(e, log, r.kind, r.id), log + [Inspect(r.kind, r.id)], Delete(r.kind, r.id);
      && (f.Absent? <==> found.Gone?)
      && (f.Protected? <==> found.Present? && !Confirms(e, h, intents, log, r)
                            && (Created(found.body).Some? || !Owned(h, r, FindIntent(intents, r.operation).value, found.body)))
      && (f.WouldRemove? <==> mode.Report? && Confirms(e, h, intents, log, r))
      && (f.Removed? <==> mode.Apply? && Confirms(e, h, intents, log, r) && e(look, gone).Some?
                          && (e(look, gone).value.status == 200 || e(look, gone).value.status == 204 || e(look, gone).value.status == 404))
      && (f.Pending? <==> mode.Apply? && Confirms(e, h, intents, log, r) && e(look, gone).Some?
                          && e(look, gone).value.status != 200 && e(look, gone).value.status != 204 && e(look, gone).value.status != 404)
  {
  }

  // ---------------------------------------------------------------------------
  // The whole sweep
  // ---------------------------------------------------------------------------

  /** The requests made, the fate of each resource visited, what is kept, and the
      counts reported. */
  datatype Tally = Tally(log: Log, fates: seq<Fate>, kept: seq<Resource>, absent: nat, protected: nat, candidates: nat, removed: nat, pending: nat)

  predicate IsKept(f: Fate) {
    f.Protected? || f.WouldRemove? || f.Pending?
  }

  function Tallied(t: Tally, r: Resource, v: Visit): Tally {
    Tally(
      t.log + v.asked,
      t.fates + [v.fate],
      if IsKept(v.fate) then t.kept + [r] else t.kept,
      t.absent + Indicator(v.fate.Absent?),
      t.protected + Indicator(v.fate.Protected?),
      t.candidates + Indicator(v.fate.WouldRemove? || v.fate.Removed? || v.fate.Pending?),
      t.removed + Indicator(v.fate.Removed?),
      t.pending + Indicator(v.fate.Pending?))
  }

  type Visitor = (Log, Resource) -> Visit

  function VisitorOf(e: Engine, h: Header, intents: seq<Intent>, mode: Mode): Visitor {
    (log: Log, r: Resource) => VisitOne(e, h, intents, mode, log, r)
  }

  /** The tally after the first n resources. A failed visit stops the sweep with
      its requests made and its resource uncounted. */
  function Sweep(visit: Visitor, log: Log, rs: seq<Resource>, n: nat): (Tally, bool)
    requires n <= |rs|
  {
    if n == 0 then (Tally(log, [], [], 0, 0, 0, 0, 0), true)
    else
      var (t, ok) := Sweep(visit, log, rs, n - 1);
      if !ok then (t, false)
      else
        var v := visit(t.log, rs[n - 1]);
        (Tallied(t, rs[n - 1], v), !v.fate.Failed?)
  }

  // ---------------------------------------------------------------------------
  // Accounting
  // ---------------------------------------------------------------------------

  lemma FatesOfMode(e: Engine, h: Header, intents: seq<Intent>, mode: Mode, log: Log, r: Resource)
    requires !mode.Off?
    ensures var f := VisitOne(e, h, intents, mode, log, r).fate;
      && (mode.Apply? ==> !f.WouldRemove?)
      && (mode.Report? ==> !f.Removed? && !f.Pending?)
  {
  }

  /** Every resource that was visited is accounted for once: absent, protected or
      a candidate, and an applied candidate removed or pending. */
  predicate Balanced(t: Tally, mode: Mode, n: nat) {
    && n == t.absent + t.protected + t.candidates
    && (mode.Apply? ==> t.candidates == t.removed + t.pending && |t.kept| == t.protected + t.pending)
    && (mode.Report? ==> t.removed == 0 && t.pending == 0 && |t.kept| == t.protected + t.candidates)
  }

  lemma {:induction false} SweepBalances(e: Engine, h: Header, intents: seq<Intent>, mode: Mode, log: Log, rs: seq<Resource>, n: nat)
    requires n <= |rs| && !mode.Off? && Sweep(VisitorOf(e, h, intents, mode), log, rs, n).1
    ensures Balanced(Sweep(VisitorOf(e, h, intents, mode), log, rs, n).0, mode, n)
  {
    if n > 0 {
      SweepBalances(e, h, intents, mode, log, rs, n - 1);
      FatesOfMode(e, h, intents, mode, Sweep(VisitorOf(e, h, intents, mode), log, rs, n - 1).0.log, rs[n - 1]);
    }
  }

  /** The tally before the k-th resource was visited. */
  function At(visit: Visitor, log: Log, rs: seq<Resource>, k: nat): Log
    requires k <= |rs|
  {
    Sweep(visit, log, rs, k).0.log
  }

  lemma {:induction false} SweepGoesOn(visit: Visitor, log: Log, rs: seq<Resource>, k: nat, n: nat)
    requires k <= n <= |rs| && Sweep(visit, log, rs, n).1
    ensures Sweep(visit, log, rs, k).1
    decreases n
  {
    if k < n {
      SweepGoesOn(visit, log, rs, k, n - 1);
    }
  }

  /** The resources whose fate is to be kept, in order. */
  function Select(rs: seq<Resource>, fates: seq<Fate>): seq<Resource>
    requires |fates| <= |rs|
    decreases |fates|
  {
    if fates == [] then []
    else
      var last := |fates| - 1;
      Select(rs, fates[..last]) + if IsKept(fates[last]) then [rs[last]] else []
  }

  lemma SelectOneMore(rs: seq<Resource>, fates: seq<Fate>, f: Fate)
    requires |fates| < |rs|
    ensures Select(rs, fates + [f]) == Select(rs, fates) + if IsKept(f) then [rs[|fates|]] else []
  {
    assert (fates + [f])[..|fates|] == fates;
  }

  /** The fates of a sweep are those of its visits. */
  lemma {:induction false} FatesAreVisits(visit: Visitor, log: Log, rs: seq<Resource>, n: nat, k: nat)
    requires k < n <= |rs| && Sweep(visit, log, rs, n).1
    ensures |Sweep(visit, log, rs, n).0.fates| == n
    ensures Sweep(visit, log, rs, n).0.fates[k] == visit(At(visit, log, rs, k), rs[k]).fate
    decreases n
  {
    if n == 1 {
      assert Sweep(visit, log, rs, 0).0.fates == [];
    } else if k < n - 1 {
      FatesAreVisits(visit, log, rs, n - 1, k);
    } else {
      FatesAreVisits(visit, log, rs, n - 1, 0);
    }
  }

  lemma SweepOneMore(visit: Visitor, log: Log, rs: seq<Resource>, n: nat) returns (f: Fate)
    requires n < |rs| && Sweep(visit, log, rs, n + 1).1
    ensures Sweep(visit, log, rs, n).1
    ensures var t, u := Sweep(visit, log, rs, n).0, Sweep(visit, log, rs, n + 1).0;
      u.fates == t.fates + [f] && u.kept == t.kept + if IsKept(f) then [rs[n]] else []
  {
    f := visit(At(visit, log, rs, n), rs[n]).fate;
  }

  /** Kept is exactly the protected, reported and pending resources, in order. */
  lemma {:induction false} SweepKeepsExactly(visit: Visitor, log: Log, rs: seq<Resource>, n: nat)
    requires n <= |rs| && Sweep(visit, log, rs, n).1
    ensures var t := Sweep(visit, log, rs, n).0;
      |t.fates| == n && t.kept == Select(rs, t.fates)
  {
    if n > 0 {
      var f := SweepOneMore(visit, log, rs, n - 1);
      SweepKeepsExactly(visit, log, rs, n - 1);
      SelectOneMore(rs, Sweep(visit, log, rs, n - 1).0.fates, f);
    }
  }

  ghost predicate Distinct(rs: seq<Resource>) {
    forall i, j :: 0 <= i < j < |rs| ==> !SameResource(rs[i], rs[j])
  }

  /** What is selected is some of the resources, and of distinct ones each selected
      was to be kept. */
  lemma {:induction false} SelectedAreKept(rs: seq<Resource>, fates: seq<Fate>, i: nat) returns (k: nat)
    requires |fates| <= |rs| && i < |Select(rs, fates)|
    ensures k < |fates| && IsKept(fates[k]) && Select(rs, fates)[i] == rs[k]
    decreases |fates|
  {
    var last := |fates| - 1;
    if i < |Select(rs, fates[..last])| {
      k := SelectedAreKept(rs, fates[..last], i);
    } else {
      k := last;
    }
  }

  lemma {:induction false} SelectedAreDistinct(rs: seq<Resource>, fates: seq<Fate>)
    requires |fates| <= |rs| && Distinct(rs)
    ensures Distinct(Select(rs, fates))
    decreases |fates|
  {
    if fates != [] {
      var last := |fates| - 1;
      var before := Select(rs, fates[..last]);
      SelectedAreDistinct(rs, fates[..last]);
      forall i | 0 <= i < |before| ensures !SameResource(before[i], rs[last]) {
        var k := SelectedAreKept(rs, fates[..last], i);
        assert !SameResource(rs[k], rs[last]);
      }
    }
  }

  lemma SelectedJournalIsValid(h: Header, intents: seq<Intent>, rs: seq<Resource>, fates: seq<Fate>)
    requires ValidJournal(h, intents, rs) && |fates| <= |rs|
    ensures ValidJournal(h, intents, Select(rs, fates))
  {
    var kept := Select(rs, fates);
    assert Distinct(rs);
    SelectedAreDistinct(rs, fates);
    forall i | 0 <= i < |kept| ensures ValidResource(intents, kept[i]) {
      var k := SelectedAreKept(rs, fates, i);
      assert ValidResource(intents, rs[k]);
    }
  }

  /** What a sweep keeps is still a journal load accepts. */
  lemma KeptJournalIsValid(e: Engine, h: Header, intents: seq<Intent>, mode: Mode, log: Log, rs: seq<Resource>)
    requires ValidJournal(h, intents, rs) && Sweep(VisitorOf(e, h, intents, mode), log, rs, |rs|).1
    ensures ValidJournal(h, intents, Sweep(VisitorOf(e, h, intents, mode), log, rs, |rs|).0.kept)
  {
    SweepKeepsExactly(VisitorOf(e, h, intents, mode), log, rs, |rs|);
    SelectedJournalIsValid(h, intents, rs, Sweep(VisitorOf(e, h, intents, mode), log, rs, |rs|).0.fates);
  }

  // ---------------------------------------------------------------------------
  // What is deleted
  // ---------------------------------------------------------------------------

  /** The i-th request deletes a journalled resource whose ownership and creation
      fingerprint the request just before it confirmed. */
  ghost predicate Justified(e: Engine, h: Header, intents: seq<Intent>, rs: seq<Resource>, log: Log, i: nat)
    requires 0 < i < |log| && log[i].Delete?
  {
    exists k :: 0 <= k < |rs| && Confirmed(e, h, intents, rs[k], log, i)
  }

  ghost predicate Confirmed(e: Engine, h: Header, intents: seq<Intent>, r: Resource, log: Log, i: nat)
    requires 0 < i < |log|
  {
    && log[i] == Delete(r.kind, r.id) && log[i - 1] == Inspect(r.kind, r.id)
    && var found := Inspected(e, log[..i - 1], r.kind, r.id);
    && found.Present? && Created(found.body) == Some(r.created)
    && var intent := FindIntent(intents, r.operation); intent.Some? && Owned(h, r, intent.value, found.body)
  }

  /** A visit deletes at most its own resource, and only right after looking. */
  lemma VisitConfirms(e: Engine, h: Header, intents: seq<Intent>, mode: Mode, log: Log, r: Resource, i: nat)
    requires |log| <= i < |log + VisitOne(e, h, intents, mode, log, r).asked|
    requires (log + VisitOne(e, h, intents, mode, log, r).asked)[i].Delete?
    ensures i == |log| + 1 && mode != Report && Confirmed(e, h, intents, r, log + VisitOne(e, h, intents, mode, log, r).asked, i)
  {
    var all := log + VisitOne(e, h, intents, mode, log, r).asked;
    assert all[..|log|] == log;
    if i > |log| {
      assert all[..i - 1] == log;
    }
  }

  lemma ConfirmedStays(e: Engine, h: Header, intents: seq<Intent>, r: Resource, log: Log, more: Log, i: nat)
    requires 0 < i < |log| && Confirmed(e, h, intents, r, log, i)
    ensures Confirmed(e, h, intents, r, log + more, i)
  {
    assert (log + more)[..i - 1] == log[..i - 1];
  }

  /** Every delete a sweep issues, whether it ends well or in an error. */
  lemma {:induction false} DeletesAreJustified(e: Engine, h: Header, intents: seq<Intent>, mode: Mode, log: Log, rs: seq<Resource>, n: nat, i: nat)
    requires n <= |rs| && |log| <= i < |At(VisitorOf(e, h, intents, mode), log, rs, n)|
    requires At(VisitorOf(e, h, intents, mode), log, rs, n)[i].Delete?
    ensures mode != Report && i > 0 && Justified(e, h, intents, rs, At(VisitorOf(e, h, intents, mode), log, rs, n), i)
    decreases n
  {
    if n > 0 {
      var before := At(VisitorOf(e, h, intents, mode), log, rs, n - 1);
      var v := VisitOne(e, h, intents, mode, before, rs[n - 1]);
      if !Sweep(VisitorOf(e, h, intents, mode), log, rs, n - 1).1 {
        DeletesAreJustified(e, h, intents, mode, log, rs, n - 1, i);
      } else if i < |before| {
        DeletesAreJustified(e, h, intents, mode, log, rs, n - 1, i);
        var k :| 0 <= k < |rs| && Confirmed(e, h, intents, rs[k], before, i);
        ConfirmedStays(e, h, intents, rs[k], before, v.asked, i);
      } else {
        VisitConfirms(e, h, intents, mode, before, rs[n - 1], i);
      }
    }
  }

  // ---------------------------------------------------------------------------
  // Order
  // ---------------------------------------------------------------------------

  function Rank(k: Kind): nat {
    match k
    case Container => 0
    case Volume => 1
    case Network => 2
  }

  ghost predicate Ranked(rs: seq<Resource>) {
    forall i, j :: 0 <= i < j < |rs| ==> Rank(rs[i].kind) <= Rank(rs[j].kind)
  }

  /** In a sweep of ranked resources every delete names a kind no later than the
      resources still to come. */
  lemma {:induction false} DeletesComeInRank(e: Engine, h: Header, intents: seq<Intent>, mode: Mode, rs: seq<Resource>, n: nat)
    requires n <= |rs| && Ranked(rs)
    ensures var log := At(VisitorOf(e, h, intents, mode), [Info], rs, n);
      && [Info] <= log
      && (forall i, k :: 0 <= i < |log| && log[i].Delete? && n <= k < |rs| ==> Rank(log[i].kind) <= Rank(rs[k].kind))
      && (forall i, j :: 0 <= i < j < |log| && log[i].Delete? && log[j].Delete? ==> Rank(log[i].kind) <= Rank(log[j].kind))
  {
    if n > 0 {
      DeletesComeInRank(e, h, intents, mode, rs, n - 1);
      var before := At(VisitorOf(e, h, intents, mode), [Info], rs, n - 1);
      if Sweep(VisitorOf(e, h, intents, mode), [Info], rs, n - 1).1 {
        var after := before + VisitOne(e, h, intents, mode, before, rs[n - 1]).asked;
        forall i | |before| <= i < |after| && after[i].Delete? ensures after[i].kind == rs[n - 1].kind && i == |before| + 1 {
          VisitConfirms(e, h, intents, mode, before, rs[n - 1], i);
        }
      }
    }
  }

  // ---------------------------------------------------------------------------
  // The sort before the sweep
  // ---------------------------------------------------------------------------

  function OfKind(rs: seq<Resource>, k: Kind): seq<Resource> {
    if rs == [] then []
    else if rs[0].kind == k then [rs[0]] + OfKind(rs[1..], k)
    else OfKind(rs[1..], k)
  }

  /** A stable sort by rank: the containers, then the volumes, then the networks,
      each in the order they were. */
  function ByRank(rs: seq<Resource>): seq<Resource> {
    OfKind(rs, Container) + OfKind(rs, Volume) + OfKind(rs, Network)
  }

  lemma {:induction false} OfKindIsOfKind(rs: seq<Resource>, k: Kind)
    ensures forall i :: 0 <= i < |OfKind(rs, k)| ==> OfKind(rs, k)[i].kind == k
  {
    if rs != [] {
      OfKindIsOfKind(rs[1..], k);
    }
  }

  lemma {:induction false} KindsPartition(rs: seq<Resource>)
    ensures multiset(OfKind(rs, Container)) + multiset(OfKind(rs, Volume)) + multiset(OfKind(rs, Network)) == multiset(rs)
  {
    if rs != [] {
      KindsPartition(rs[1..]);
      assert rs == [rs[0]] + rs[1..];
      var k := rs[0].kind;
      assert OfKind(rs, k) == [rs[0]] + OfKind(rs[1..], k);
    }
  }

  lemma SortedByRank(rs: seq<Resource>)
    ensures Ranked(ByRank(rs)) && multiset(ByRank(rs)) == multiset(rs) && |ByRank(rs)| == |rs|
  {
    OfKindIsOfKind(rs, Container);
    OfKindIsOfKind(rs, Volume);
    OfKindIsOfKind(rs, Network);
    KindsPartition(rs);
    assert |multiset(ByRank(rs))| == |ByRank(rs)| && |multiset(rs)| == |rs|;
  }

  lemma {:induction false} OfKindIsDistinct(rs: seq<Resource>, k: Kind)
    requires Distinct(rs)
    ensures Distinct(OfKind(rs, k)) && forall r :: r in OfKind(rs, k) ==> r in rs && r.kind == k
  {
    if rs != [] {
      OfKindIsDistinct(rs[1..], k);
      var rest := OfKind(rs[1..], k);
      forall i | 0 <= i < |rest| ensures !SameResource(rs[0], rest[i]) {
        assert rest[i] in rs[1..];
        var j :| 0 <= j < |rs[1..]| && rs[1..][j] == rest[i];
        assert !SameResource(rs[0], rs[j + 1]);
      }
    }
  }

  lemma SortedIsDistinct(rs: seq<Resource>)
    requires Distinct(rs)
    ensures Distinct(ByRank(rs))
  {
    OfKindIsDistinct(rs, Container);
    OfKindIsDistinct(rs, Volume);
    OfKindIsDistinct(rs, Network);
    var c, v, n := OfKind(rs, Container), OfKind(rs, Volume), OfKind(rs, Network);
    assert forall i :: 0 <= i < |c| ==> c[i] in c;
    assert forall i :: 0 <= i < |v| ==> v[i] in v;
    assert forall i :: 0 <= i < |n| ==> n[i] in n;
  }

  lemma SortedJournalIsValid(h: Header, intents: seq<Intent>, rs: seq<Resource>)
    requires ValidJournal(h, intents, rs)
    ensures ValidJournal(h, intents, ByRank(rs))
  {
    SortedIsDistinct(rs);
    SortedByRank(rs);
    var sorted := ByRank(rs);
    forall i | 0 <= i < |sorted| ensures ValidResource(intents, sorted[i]) {
      assert sorted[i] in multiset(sorted);
      assert sorted[i] in rs;
    }
    assert rs == [] ==> sorted == [];
  }

  /** A failed visit ends the sweep. */
  lemma {:induction false} SweepStops(visit: Visitor, log: Log, rs: seq<Resource>, k: nat, n: nat)
    requires k <= n <= |rs| && !Sweep(visit, log, rs, k).1
    ensures Sweep(visit, log, rs, n) == Sweep(visit, log, rs, k)
    decreases n
  {
    if k < n {
      SweepStops(visit, log, rs, k, n - 1);
    }
  }

  /** Every delete in a log follows the look that confirmed it, and only when
      applying; containers go first, networks last. */
  ghost predicate Orderly(e: Engine, h: Header, intents: seq<Intent>, mode: Mode, rs: seq<Resource>, log: Log) {
    && (forall i :: 0 <= i < |log| && log[i].Delete? ==> mode.Apply? && i > 0 && Justified(e, h, intents, rs, log, i))
    && (forall i, j :: 0 <= i < j < |log| && log[i].Delete? && log[j].Delete? ==> Rank(log[i].kind) <= Rank(log[j].kind))
  }

  lemma SweepIsOrderly(e: Engine, h: Header, intents: seq<Intent>, mode: Mode, rs: seq<Resource>, n: nat)
    requires n <= |rs| && Ranked(rs) && !mode.Off?
    ensures Orderly(e, h, intents, mode, rs, At(VisitorOf(e, h, intents, mode), [Info], rs, n))
  {
    var log := At(VisitorOf(e, h, intents, mode), [Info], rs, n);
    DeletesComeInRank(e, h, intents, mode, rs, n);
    forall i | 0 <= i < |log| && log[i].Delete? ensures mode.Apply? && i > 0 && Justified(e, h, intents, rs, log, i) {
      assert log[0] == Info;
      DeletesAreJustified(e, h, intents, mode, [Info], rs, n, i);
    }
  }

  /** The sweep of a sorted journal, whether it ends well or not. */
  lemma SweepSummary(e: Engine, h: Header, intents: seq<Intent>, mode: Mode, before: seq<Resource>)
    requires ValidJournal(h, intents, before) && !mode.Off?
    ensures var rs := ByRank(before);
      && |rs| == |before| && multiset(rs) == multiset(before) && ValidJournal(h, intents, rs)
      && var (t, ok) := Sweep(VisitorOf(e, h, intents, mode), [Info], rs, |rs|);
      && Orderly(e, h, intents, mode, rs, t.log)
      && (ok ==> Balanced(t, mode, |before|) && ValidJournal(h, intents, t.kept))
  {
    var rs := ByRank(before);
    SortedByRank(before);
    SortedJournalIsValid(h, intents, before);
    SweepIsOrderly(e, h, intents, mode, rs, |rs|);
    if Sweep(VisitorOf(e, h, intents, mode), [Info], rs, |rs|).1 {
      SweepBalances(e, h, intents, mode, [Info], rs, |rs|);
      KeptJournalIsValid(e, h, intents, mode, [Info], rs);
    }
  }

  lemma {:induction false} LogsGrow(visit: Visitor, log: Log, rs: seq<Resource>, k: nat, n: nat)
    requires k <= n <= |rs|
    ensures log <= At(visit, log, rs, k) <= At(visit, log, rs, n)
    decreases n
  {
    if k < n {
      LogsGrow(visit, log, rs, k, n - 1);
    } else if n > 0 {
      LogsGrow(visit, log, rs, k - 1, n - 1);
    }
  }

  /** What was deleted, as the log has it, is not there any more. */
  predicate RemembersAt(e: Engine, log: Log, i: nat) {
    i < |log| && log[i].Delete? && Accepted(e(log[..i], log[i])) ==> !Inspected(e, log, log[i].kind, log[i].id).Present?
  }

  ghost predicate Remembers(e: Engine) {
    forall log, i {:trigger RemembersAt(e, log, i)} :: RemembersAt(e, log, i)
  }

  lemma RemovalWasAccepted(e: Engine, h: Header, intents: seq<Intent>, mode: Mode, log: Log, r: Resource)
    requires VisitOne(e, h, intents, mode, log, r).fate == Removed
    ensures VisitOne(e, h, intents, mode, log, r).asked == [Inspect(r.kind, r.id), Delete(r.kind, r.id)]
    ensures Accepted(e(log + [Inspect(r.kind, r.id)], Delete(r.kind, r.id)))
  {
  }

  lemma RemovedIsGone(e: Engine, log: Log, more: Log, kind: Kind, id: string)
    requires Remembers(e) && Accepted(e(log, Delete(kind, id))) && log + [Delete(kind, id)] <= more
    ensures !Inspected(e, more, kind, id).Present?
  {
    var i := |log|;
    assert more[i] == (log + [Delete(kind, id)])[i] == Delete(kind, id);
    assert more[..i] == (log + [Delete(kind, id)])[..i] == log;
    assert RemembersAt(e, more, i);
  }

  lemma UnlessPresentAbsent(e: Engine, h: Header, intents: seq<Intent>, mode: Mode, log: Log, r: Resource)
    requires !Inspected(e, log, r.kind, r.id).Present? && !VisitOne(e, h, intents, mode, log, r).fate.Failed?
    ensures VisitOne(e, h, intents, mode, log, r).fate == Absent
  {
  }

  lemma {:induction false} EveryVisitSucceeded(visit: Visitor, log: Log, rs: seq<Resource>, k: nat, n: nat)
    requires k < n <= |rs| && Sweep(visit, log, rs, n).1
    ensures !visit(At(visit, log, rs, k), rs[k]).fate.Failed?
  {
    SweepGoesOn(visit, log, rs, k + 1, n);
  }

  /** What one sweep removed before it was interrupted, wherever that was, the next
      sweep that succeeds drops, on an engine that remembers what it deleted. */
  lemma RemovedIsDroppedNextTime(e: Engine, h: Header, intents: seq<Intent>, mode: Mode, log: Log, rs: seq<Resource>, n: nat, j: nat,
      again: Mode, left: seq<Resource>, k: nat)
    requires Remembers(e) && j < n <= |rs| && Sweep(VisitorOf(e, h, intents, mode), log, rs, j).1
    requires VisitOne(e, h, intents, mode, At(VisitorOf(e, h, intents, mode), log, rs, j), rs[j]).fate == Removed
    requires k < |left| && Distinct(left) && SameResource(left[k], rs[j])
    requires Sweep(VisitorOf(e, h, intents, again), At(VisitorOf(e, h, intents, mode), log, rs, n) + [Info], left, |left|).1
    ensures left[k] !in Sweep(VisitorOf(e, h, intents, again), At(VisitorOf(e, h, intents, mode), log, rs, n) + [Info], left, |left|).0.kept
  {
    var at, r := At(VisitorOf(e, h, intents, mode), log, rs, j), rs[j];
    var start := At(VisitorOf(e, h, intents, mode), log, rs, n) + [Info];
    RemovalWasAccepted(e, h, intents, mode, at, r);
    LogsGrow(VisitorOf(e, h, intents, mode), log, rs, j + 1, n);
    LogsGrow(VisitorOf(e, h, intents, again), start, left, k, k);
    var seen := At(VisitorOf(e, h, intents, again), start, left, k);
    assert at + [Inspect(r.kind, r.id), Delete(r.kind, r.id)] == at + [Inspect(r.kind, r.id)] + [Delete(r.kind, r.id)];
    assert at + [Inspect(r.kind, r.id)] + [Delete(r.kind, r.id)] == At(VisitorOf(e, h, intents, mode), log, rs, j + 1);
    RemovedIsGone(e, at + [Inspect(r.kind, r.id)], seen, r.kind, r.id);
    EveryVisitSucceeded(VisitorOf(e, h, intents, again), start, left, k, |left|);
    UnlessPresentAbsent(e, h, intents, again, seen, left[k]);
    AbsentIsDropped(VisitorOf(e, h, intents, again), start, left, k);
  }

  lemma AbsentIsDropped(visit: Visitor, log: Log, rs: seq<Resource>, k: nat)
    requires k < |rs| && Distinct(rs) && Sweep(visit, log, rs, |rs|).1
    requires visit(At(visit, log, rs, k), rs[k]).fate == Absent
    ensures rs[k] !in Sweep(visit, log, rs, |rs|).0.kept
  {
    var t := Sweep(visit, log, rs, |rs|).0;
    SweepKeepsExactly(visit, log, rs, |rs|);
    FatesAreVisits(visit, log, rs, |rs|, k);
    NotKeptIsNotSelected(rs, t.fates, k);
  }

  lemma NotKeptIsNotSelected(rs: seq<Resource>, fates: seq<Fate>, k: nat)
    requires k < |fates| <= |rs| && Distinct(rs) && !IsKept(fates[k])
    ensures rs[k] !in Select(rs, fates)
  {
    var kept := Select(rs, fates);
    forall i | 0 <= i < |kept| ensures kept[i] != rs[k] {
      var j := SelectedAreKept(rs, fates, i);
      if j < k {
        assert !SameResource(rs[j], rs[k]);
      } else {
        assert !SameResource(rs[k], rs[j]);
      }
    }
  }
}
