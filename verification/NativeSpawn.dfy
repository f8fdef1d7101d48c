/** Starting a native listener from a one-shot registration: the start loop, the
    spawn with its durable identity, the abort of a child whose bookkeeping
    failed, and what a supervisor can still tell after a restart. */
module NativeSpawn {
  import opened Wrappers
  import opened Attempts

  const MAX_POST_SPAWN_STOP_ATTEMPTS: nat := 3

  // ---------------------------------------------------------------------------
  // What survives a crash
  // ---------------------------------------------------------------------------

  /** A sidecar file of the attempt. `Torn` is present and unreadable. */
  datatype File = Absent | Torn | Holds(process: ProcessId)

  datatype Sidecar = IdentityFile | FallbackFile | MarkerFile

  /** The processes ever started from the registration, those still running, the
      three sidecar files, and the journal row. A process is told from every
      other by its pid and start time together. */
  datatype Durable = Durable(
    spawned: seq<ProcessId>,
    running: set<ProcessId>,
    identity: File,
    fallback: File,
    marker: File,
    row: RunnerAttempt)

  function Get(d: Durable, s: Sidecar): File {
    match s
    case IdentityFile => d.identity
    case FallbackFile => d.fallback
    case MarkerFile => d.marker
  }

  function Put(d: Durable, s: Sidecar, f: File): Durable {
    match s
    case IdentityFile => d.(identity := f)
    case FallbackFile => d.(fallback := f)
    case MarkerFile => d.(marker := f)
  }

  predicate Names(f: File, ps: seq<ProcessId>) {
    f.Absent? || (ps != [] && (f.Holds? ==> f.process in ps))
  }

  /** One process per registration, files and row that name no other, and a
      conclusion only over a dead one. */
  predicate Safe(d: Durable) {
    && |d.spawned| <= 1 && (forall p :: p in d.running ==> p in d.spawned)
    && Names(d.identity, d.spawned) && Names(d.fallback, d.spawned) && Names(d.marker, d.spawned)
    && IsNative(d.row) && (d.row.execution.processId.Some? ==> d.row.execution.processId.value in d.spawned)
    && (IsTerminal(d.row.state) ==> d.running == {})
  }

  /** Anything at all that would tell a restarted supervisor of a child. */
  predicate Evidence(d: Durable) {
    || !d.identity.Absent? || !d.fallback.Absent? || !d.marker.Absent?
    || (IsNative(d.row) && d.row.execution.processId.Some?)
  }

  /** What one durable effect may do: start the one process, never bring one
      back, and drop evidence only of the dead. */
  predicate Step(d: Durable, e: Durable) {
    && d.spawned <= e.spawned
    && (d.spawned != [] ==> e.running <= d.running)
    && (forall s :: !Get(d, s).Absent? && Get(e, s).Absent? ==> d.running == {})
    && (d.row != e.row ==> !IsTerminal(d.row.state) && CanAdvanceTo(d.row.execution, e.row.execution))
  }

  predicate SafeAt(h: seq<Durable>, i: nat)
    requires i < |h|
  {
    Safe(h[i]) && (i > 0 ==> Step(h[i - 1], h[i]))
  }

  /** Every state a launch passed through. A crash at any point restarts from one
      of them with an empty child map. */
  ghost predicate Chain(h: seq<Durable>) {
    h != [] && forall i :: 0 <= i < |h| ==> SafeAt(h, i)
  }

  lemma ChainGrows(h: seq<Durable>, d: Durable)
    requires Chain(h) && Safe(d) && Step(h[|h| - 1], d)
    ensures Chain(h + [d])
  {
    forall i | 0 <= i < |h| + 1 ensures SafeAt(h + [d], i) {
      if i < |h| {
        assert SafeAt(h, i);
      }
    }
  }

  /** Once there is evidence of a child it lasts for as long as the child does. */
  lemma {:induction false} EvidenceLastsWhileAlive(h: seq<Durable>, i: nat, j: nat)
    requires Chain(h) && i <= j < |h| && Evidence(h[i]) && h[j].running != {}
    ensures Evidence(h[j]) && h[i].spawned == h[j].spawned && h[j].running <= h[i].running
    decreases j
  {
    if i < j {
      assert SafeAt(h, j) && SafeAt(h, j - 1) && SafeAt(h, i);
      assert Get(h[j - 1], IdentityFile) == h[j - 1].identity && Get(h[j], IdentityFile) == h[j].identity;
      assert Get(h[j - 1], FallbackFile) == h[j - 1].fallback && Get(h[j], FallbackFile) == h[j].fallback;
      assert Get(h[j - 1], MarkerFile) == h[j - 1].marker && Get(h[j], MarkerFile) == h[j].marker;
      if h[j - 1].running == {} {
        EmptiedStaysEmpty(h, i, j);
      } else {
        EvidenceLastsWhileAlive(h, i, j - 1);
      }
    }
  }

  lemma {:induction false} EmptiedStaysEmpty(h: seq<Durable>, i: nat, j: nat)
    requires Chain(h) && i < j < |h| && Evidence(h[i]) && h[j - 1].running == {}
    ensures h[j].running == {}
  {
    SpawnedGrows(h, i, j - 1);
    assert SafeAt(h, i) && SafeAt(h, j);
    assert h[j - 1].spawned != [];
  }

  lemma {:induction false} SpawnedGrows(h: seq<Durable>, i: nat, j: nat)
    requires Chain(h) && i <= j < |h|
    ensures h[i].spawned <= h[j].spawned
    decreases j
  {
    if i < j {
      SpawnedGrows(h, i, j - 1);
      assert SafeAt(h, j);
    }
  }

  // ---------------------------------------------------------------------------
  // What a supervisor answers
  // ---------------------------------------------------------------------------

  datatype Liveness = Alive | Dead | Unresolved

  /** The identity a restarted supervisor reads: the file, or its fallback when
      there is no file. None is an unreadable journal. */
  function ReadIdentity(d: Durable): Option<Option<ProcessId>> {
    if d.identity.Holds? then Some(Some(d.identity.process))
    else if d.identity.Torn? then None
    else if d.fallback.Holds? then Some(Some(d.fallback.process))
    else if d.fallback.Torn? then None
    else Some(None)
  }

  /** `observed` is what the owned child says of itself and `recheck` what the
      host says of a recorded identity; None is an error. */
  function IsAlive(child: Option<ProcessId>, observed: Option<bool>, d: Durable, recheck: Option<bool>): Liveness {
    if child.Some? then
      if observed.None? then Unresolved else if observed.value then Alive else Dead
    else
      var read := ReadIdentity(d);
      if read.None? then Unresolved
      else if read.value.None? then
        if (IsNative(d.row) && d.row.execution.processId.Some?) || !d.marker.Absent? then Unresolved else Dead
      else if recheck.None? then Dead
      else if recheck.value then Alive
      else Dead
  }

  /** An answer about a recorded identity is right whenever there is one. */
  predicate TruthfulRecheck(d: Durable, recheck: Option<bool>) {
    var read := ReadIdentity(d);
    read.Some? && read.value.Some? && recheck.Some? ==> (recheck.value <==> read.value.value in d.running)
  }

  /** A restarted supervisor takes a running child for dead exactly when every
      trace of it is missing, or its identity was read and the host could not
      answer about it. */
  lemma LiveChildIsMistakenOnlyWithoutEvidence(d: Durable, p: ProcessId, recheck: Option<bool>)
    requires Safe(d) && p in d.running && TruthfulRecheck(d, recheck)
    ensures IsAlive(None, None, d, recheck).Dead? <==>
      !Evidence(d) || (ReadIdentity(d).Some? && ReadIdentity(d).value.Some? && recheck.None?)
    ensures recheck.Some? && Evidence(d) ==> !IsAlive(None, None, d, recheck).Dead?
  {
    assert d.spawned == [p];
    var read := ReadIdentity(d);
    if read.Some? && read.value.Some? {
      assert read.value.value in d.spawned;
    }
  }

  /** A supervisor that owns the child believes the child, and one that reads an
      identity believes the host: alive when it is, dead when it is gone. */
  lemma AnswersFollowWhatIsSeen(p: ProcessId, d: Durable, seen: bool)
    ensures IsAlive(Some(p), Some(seen), d, None) == if seen then Alive else Dead
    ensures IsAlive(Some(p), None, d, None) == Unresolved
    ensures d.identity.Holds? || (d.identity.Absent? && d.fallback.Holds?) ==> IsAlive(None, None, d, Some(seen)) == if seen then Alive else Dead
    ensures d.identity.Torn? || (d.identity.Absent? && d.fallback.Torn?) ==> IsAlive(None, None, d, Some(seen)) == Unresolved
    ensures d.identity.Absent? && d.fallback.Absent? ==>
      IsAlive(None, None, d, Some(seen)) == if d.marker.Absent? && !(IsNative(d.row) && d.row.execution.processId.Some?) then Dead else Unresolved
  {
  }

  /** The identity that is read is the file's, and the fallback's where there is no
      file. */
  lemma ReadsTheFileFirst(d: Durable, p: ProcessId)
    ensures ReadIdentity(d) == Some(Some(p)) <==> d.identity == Holds(p) || (d.identity.Absent? && d.fallback == Holds(p))
    ensures ReadIdentity(d) == Some(None) <==> d.identity.Absent? && d.fallback.Absent?
  {
  }

  /** A crash at any point of a launch, once there is evidence: as long as the
      child runs the restarted supervisor does not answer that it is dead. */
  lemma CrashKeepsALiveChildVisible(h: seq<Durable>, i: nat, j: nat, recheck: bool)
    requires Chain(h) && i <= j < |h| && Evidence(h[i]) && h[j].running != {}
    requires TruthfulRecheck(h[j], Some(recheck))
    ensures !IsAlive(None, None, h[j], Some(recheck)).Dead? && !IsTerminal(h[j].row.state)
    ensures CountsAgainstCapacity(h[j].row)
  {
    EvidenceLastsWhileAlive(h, i, j);
    assert SafeAt(h, j);
    var p :| p in h[j].running;
    LiveChildIsMistakenOnlyWithoutEvidence(h[j], p, Some(recheck));
  }

  // ---------------------------------------------------------------------------
  // What the host answers
  // ---------------------------------------------------------------------------

  /** A durable write truncates, fills and flushes, and may fail before, between
      or after. */
  datatype Write = Written | FailedBefore | FailedTorn | FailedFull

  datatype Stop = Stopped | StopFailed(died: bool)

  datatype AbortAnswers = AbortAnswers(
    stops: nat -> Stop,
    serialized: bool,
    identity: Write,
    fallback: Write,
    marker: Write,
    removed: Sidecar -> bool)

  /** What one start meets. `ready` covers the program, the host environment and
      Docker accounting, all checked before the spawn, and `refusal` is the reason
      given when there is none. */
  datatype StartAnswers = StartAnswers(
    handoff: bool,
    ready: bool,
    refusal: FailureReason,
    child: Option<ProcessId>,
    handoffDeleted: bool,
    serialized: bool,
    identity: Write,
    dockerRecorded: bool,
    abort: AbortAnswers)

  /** Whether a start gets as far as a process. */
  predicate Spawns(t: StartAnswers) {
    t.handoff && t.ready && t.child.Some?
  }

  datatype StartFailure = StartFailure(retryable: bool, live: Option<ProcessId>, reason: FailureReason)

  /** The reason of a start that left no child running. */
  function ReasonOf(t: StartAnswers): FailureReason {
    if Spawns(t) then ProcessStartFailed else t.refusal
  }

  function AfterWrite(f: File, p: ProcessId, w: Write): File {
    match w
    case Written => Holds(p)
    case FailedBefore => f
    case FailedTorn => Torn
    case FailedFull => Holds(p)
  }

  /** Every durable write an abort tried failed. */
  predicate AllWritesFail(a: AbortAnswers) {
    (!a.serialized || (!a.identity.Written? && !a.fallback.Written?)) && !a.marker.Written?
  }

  /** The identity of a child that would not stop got onto the disk. */
  predicate MadeDurable(a: AbortAnswers) {
    a.serialized && (a.identity.Written? || a.fallback.Written?)
  }

  /** The child was stopped: at once, or, when nothing could be written down about
      it, by one of the further tries. */
  predicate Reaps(a: AbortAnswers) {
    a.stops(0).Stopped? || (!MadeDurable(a) && (a.stops(1).Stopped? || a.stops(2).Stopped?))
  }

  /** A host where nothing was started yet. */
  predicate Untouched(d: Durable) {
    d.spawned == [] && d.running == {} && d.identity.Absent? && d.fallback.Absent? && d.marker.Absent?
  }

  class NativeProcesses {
    var disk: Durable
    var child: Option<ProcessId>
    ghost var history: seq<Durable>

    ghost predicate Valid()
      reads this
    {
      && Chain(history) && disk == history[|history| - 1] && Safe(disk)
      && (child.Some? ==> child.value in disk.spawned)
    }

    constructor (row: RunnerAttempt)
      requires IsNative(row) && row.state == JitReceived && row.execution.processId.None?
      ensures Valid() && Untouched(disk) && child.None? && disk.row == row && history == [disk]
    {
      disk := Durable([], {}, Absent, Absent, Absent, row);
      child := None;
      new;
      history := [disk];
      assert SafeAt(history, 0);
    }

    /** One durable effect. */
    method Commit(d: Durable)
      requires Valid() && Safe(d) && Step(disk, d)
      modifies this`disk, this`history
      ensures Valid() && disk == d && history == old(history) + [d]
    {
      ChainGrows(history, d);
      disk := d;
      history := history + [d];
    }

    /** The child exits by itself. */
    method Exit()
      requires Valid()
      modifies this`disk, this`history
      ensures Valid() && disk == old(disk).(running := {}) && history == old(history) + [disk]
    {
      Commit(disk.(running := {}));
    }

    method WriteFile(s: Sidecar, p: ProcessId, w: Write) returns (ok: bool)
      requires Valid() && p in disk.spawned
      modifies this`disk, this`history
      ensures Valid() && old(history) <= history
      ensures ok == w.Written? && disk == Put(old(disk), s, AfterWrite(Get(old(disk), s), p, w))
    {
      ok := w.Written?;
      if !w.FailedBefore? {
        Commit(Put(disk, s, Torn));
        if !w.FailedTorn? {
          Commit(Put(disk, s, Holds(p)));
        }
      }
    }

    method StopChild(p: ProcessId, s: Stop) returns (ok: bool)
      requires Valid() && disk.spawned == [p]
      modifies this`disk, this`history
      ensures Valid() && old(history) <= history
      ensures ok == s.Stopped? && disk == old(disk).(running := disk.running) && disk.running <= old(disk.running)
      ensures ok ==> disk.running == {}
    {
      ok := s.Stopped?;
      if s.Stopped? || s.died {
        Commit(disk.(running := {}));
      }
    }

    method RemoveIdentityFiles(removed: Sidecar -> bool)
      requires Valid() && disk.running == {}
      modifies this`disk, this`history
      ensures Valid() && old(history) <= history
      ensures disk.running == {} && disk.spawned == old(disk).spawned && disk.row == old(disk).row
      ensures forall s :: Get(disk, s) == if removed(s) then Absent else Get(old(disk), s)
    {
      if removed(IdentityFile) {
        Commit(Put(disk, IdentityFile, Absent));
      }
      if removed(FallbackFile) {
        Commit(Put(disk, FallbackFile, Absent));
      }
      if removed(MarkerFile) {
        Commit(Put(disk, MarkerFile, Absent));
      }
    }

    /** The bounded extra stops of an abort whose identity is not durable. */
    method StopAgain(p: ProcessId, stops: nat -> Stop) returns (reaped: bool)
      requires Valid() && disk.spawned == [p]
      modifies this`disk, this`history
      ensures Valid() && old(history) <= history
      ensures disk == old(disk).(running := disk.running) && disk.running <= old(disk.running)
      ensures reaped ==> disk.running == {}
      ensures reaped <==> exists k :: 1 <= k < MAX_POST_SPAWN_STOP_ATTEMPTS && stops(k).Stopped?
    {
      reaped := false;
      var k: nat := 1;
      while k < MAX_POST_SPAWN_STOP_ATTEMPTS && !reaped
        invariant 1 <= k <= MAX_POST_SPAWN_STOP_ATTEMPTS
        invariant Valid() && old(history) <= history
        invariant disk == old(disk).(running := disk.running) && disk.running <= old(disk.running)
        invariant reaped ==> disk.running == {}
        invariant reaped <==> exists i :: 1 <= i < k && stops(i).Stopped?
      {
        reaped := StopChild(p, stops(k));
        k := k + 1;
      }
    }

    /** Gives up on a child whose bookkeeping failed: it is proven stopped, or
        kept in the child map with whatever durable truth could be written. */
    method AbortSpawnedChild(p: ProcessId, removeIdentity: bool, a: AbortAnswers) returns (f: StartFailure)
      requires Valid() && disk.spawned == [p] && child.None?
      modifies this
      ensures Valid() && old(history) <= history
      ensures !f.retryable && disk.spawned == [p] && disk.row == old(disk).row
      ensures f.live.None? ==> disk.running == {} && child.None? && f.reason == ProcessStartFailed
      ensures f.live.Some? ==> f.live == Some(p) && child == Some(p)
      ensures f.live.Some? && !Evidence(disk) ==> AllWritesFail(a) && !Evidence(old(disk))
      ensures f.live.None? <==> Reaps(a)
      ensures f.reason == if f.live.None? || MadeDurable(a) then ProcessStartFailed else OtherReason
      ensures a.stops(0).Stopped? ==> forall s :: Get(disk, s) == if removeIdentity && a.removed(s) then Absent else Get(old(disk), s)
      ensures !a.stops(0).Stopped? ==>
        && disk.identity == (if a.serialized then AfterWrite(old(disk).identity, p, a.identity) else old(disk).identity)
        && disk.fallback == (if a.serialized && !a.identity.Written? then AfterWrite(old(disk).fallback, p, a.fallback) else old(disk).fallback)
        && disk.marker == (if f.live.Some? && !MadeDurable(a) then AfterWrite(old(disk).marker, p, a.marker) else old(disk).marker)
    {
      f := StartFailure(false, None, ProcessStartFailed);
      var reaped := StopChild(p, a.stops(0));
      if reaped {
        if removeIdentity {
          RemoveIdentityFiles(a.removed);
        }
        return;
      }
      var durable := false;
      var reason := ProcessStartFailed;
      if a.serialized {
        durable := WriteFile(IdentityFile, p, a.identity);
        if !durable {
          durable := WriteFile(FallbackFile, p, a.fallback);
        }
      }
      if !durable {
        reaped := StopAgain(p, a.stops);
        if reaped {
          return;
        }
        var marked := WriteFile(MarkerFile, p, a.marker);
        reason := OtherReason;
      }
      child := Some(p);
      f := StartFailure(false, Some(p), reason);
    }

    /** Spawns the listener and makes its identity durable. */
    method SpawnListener(t: StartAnswers) returns (r: Result<ProcessId, StartFailure>)
      requires Valid() && Untouched(disk) && child.None? && !Evidence(disk) && disk.row.state == JitReceived
      modifies this
      ensures Valid() && old(history) <= history && disk.row == old(disk).row
      ensures disk.spawned == if Spawns(t) then [t.child.value] else []
      ensures r.Ok? ==> Spawns(t) && r.value == t.child.value && child == Some(r.value) && disk.identity == Holds(r.value)
      ensures r.Ok? ==> disk.running == {r.value}
      ensures r.Err? && r.error.retryable <==> !Spawns(t)
      ensures r.Err? && r.error.retryable ==> disk == old(disk) && child.None? && r.error.live.None?
      ensures r.Err? && !r.error.retryable ==>
        if r.error.live.Some?
        then child == r.error.live == t.child && (!Evidence(disk) ==> AllWritesFail(t.abort))
        else disk.running == {} && child.None?
      ensures r.Err? && r.error.live.None? ==> r.error.reason == ReasonOf(t)
      ensures r.Ok? <==> Spawns(t) && t.handoffDeleted && t.serialized && t.identity.Written? && t.dockerRecorded
    {
      if !Spawns(t) {
        return Err(StartFailure(true, None, t.refusal));
      }
      var p := t.child.value;
      Commit(disk.(spawned := [p], running := {p}));
      var written := false;
      if t.handoffDeleted && t.serialized {
        written := WriteFile(IdentityFile, p, t.identity);
      }
      if !written || !t.dockerRecorded {
        var f := AbortSpawnedChild(p, t.handoffDeleted && t.serialized, t.abort);
        return Err(f);
      }
      child := Some(p);
      return Ok(p);
    }

    /** The start loop of a launch. However handoffs, writes, stops and the
        journal fail, it starts at most one process, never starts again once
        there was one, and ends with that process dead or the row still holding
        capacity over a child that is in the map. */
    method Launch(starts: nat -> StartAnswers, demand: nat -> (bool, bool), maxAttempts: nat, recorded: bool)
      returns (r: Option<ProcessId>, issued: nat)
      requires Valid() && Untouched(disk) && child.None? && disk.row.state == JitReceived
      requires disk.row.execution.processId.None? && maxAttempts <= U32_MAX
      modifies this
      ensures Valid() && old(history) <= history
      ensures 1 <= issued <= Max(maxAttempts, 1)
      ensures forall k :: 1 <= k < issued ==> !Spawns(starts(k)) && demand(k) == (true, true)
      ensures |disk.spawned| <= 1 && (disk.spawned != [] <==> Spawns(starts(issued)))
      ensures disk.running != {} ==> CountsAgainstCapacity(disk.row) && child.Some? && disk.running == {child.value}
      ensures disk.running != {} && !Evidence(disk) ==> AllWritesFail(starts(issued).abort) && !recorded
      ensures r.Some? ==> child == r && disk.identity == Holds(r.value) && recorded
      ensures r.Some? ==> disk.row.state == Starting && disk.row.execution.processId == r
      ensures r.None? && recorded && child.None? ==> disk.row.state == Failed && disk.row.outcome == Some(FailedWith(ReasonOf(starts(issued))))
      ensures !recorded ==> disk.row == old(disk).row
    {
      issued := 0;
      while true
        invariant Valid() && old(history) <= history && disk == old(disk) && child.None?
        invariant issued < Max(maxAttempts, 1)
        invariant forall k :: 1 <= k <= issued ==> !Spawns(starts(k)) && demand(k) == (true, true)
        decreases Max(maxAttempts, 1) - issued
      {
        issued := SaturatingAdd(issued, 1, U32_MAX);
        var s := SpawnListener(starts(issued));
        if s.Ok? {
          RecordStarted(s.value, recorded);
          return if recorded then Some(s.value) else None, issued;
        }
        if s.error.live.Some? {
          RecordStarted(s.error.live.value, recorded);
          return None, issued;
        }
        if !s.error.retryable || issued >= Max(maxAttempts, 1) || demand(issued) != (true, true) {
          FailLaunch(recorded, s.error.reason);
          return None, issued;
        }
      }
    }

    method RecordStarted(p: ProcessId, recorded: bool)
      requires Valid() && disk.spawned == [p] && disk.row.state == JitReceived && disk.row.execution.processId.None?
      modifies this`disk, this`history
      ensures Valid() && old(history) <= history
      ensures if recorded then Started(old(disk).row, p) == Some(disk.row) else disk.row == old(disk).row
      ensures disk == old(disk).(row := disk.row)
    {
      if recorded {
        Commit(disk.(row := Started(disk.row, p).value));
      }
    }

    method FailLaunch(recorded: bool, reason: FailureReason)
      requires Valid() && disk.running == {} && disk.row.state == JitReceived
      modifies this`disk, this`history
      ensures Valid() && old(history) <= history
      ensures if recorded then Conclude(old(disk).row, FailedWith(reason)) == Some(disk.row) else disk.row == old(disk).row
      ensures disk == old(disk).(row := disk.row)
    {
      if recorded {
        Commit(disk.(row := Conclude(disk.row, FailedWith(reason)).value));
      }
    }
  }

  /** The error that a restarted supervisor reads as death can meet a launch that
      went well: the child runs, its identity is durable, and the answer is dead. */
  method RecheckErrorLosesALiveChild(row: RunnerAttempt, t: StartAnswers) returns (n: NativeProcesses, p: ProcessId)
    requires IsNative(row) && row.state == JitReceived && row.execution.processId.None?
    requires Spawns(t) && t.handoffDeleted && t.serialized && t.identity.Written? && t.dockerRecorded
    ensures n.Valid() && p in n.disk.running && n.disk.identity == Holds(p) && Evidence(n.disk)
    ensures IsAlive(None, None, n.disk, None).Dead? && TruthfulRecheck(n.disk, None)
  {
    n := new NativeProcesses(row);
    var r := n.SpawnListener(t);
    p := r.value;
  }
}
