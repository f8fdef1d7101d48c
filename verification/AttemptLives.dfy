/** Whole lives of one attempt: exactly which rows its edges can produce, and
    which of those a journal reads back. */
module AttemptLives {
  import opened Wrappers
  import opened Attempts
  import opened Runs

  /** The calls that change an attempt after it was allocated. */
  datatype Edge =
    | TakePrepare
    | TakeEnvironment(environment: EnvironmentId)
    | TakePrepared
    | TakeJit
    | TakeProcess(process: ProcessId)
    | TakeIsolatedStart
    | TakeIdle
    | TakeJob
    | TakeJobBack
    | TakeOutcome(outcome: Outcome)
    | TakeNativeClean
    | TakeDestroy
    | TakeDeferral
    | TakeIsolatedClean

  function Take(a: RunnerAttempt, e: Edge): Option<RunnerAttempt> {
    match e
    case TakePrepare => BeginPrepare(a)
    case TakeEnvironment(x) => PreparedEnvironment(a, x)
    case TakePrepared => MarkPrepared(a)
    case TakeJit => ReceiveJit(a)
    case TakeProcess(pid) => Started(a, pid)
    case TakeIsolatedStart => StartedIsolated(a)
    case TakeIdle => RegisteredIdle(a)
    case TakeJob => AssignedJob(a)
    case TakeJobBack => AssignmentNotTaken(a)
    case TakeOutcome(o) => Conclude(a, o)
    case TakeNativeClean => CleanNative(a)
    case TakeDestroy => BeginDestroy(a)
    case TakeDeferral => DeferCleanup(a)
    case TakeIsolatedClean => CleanIsolated(a)
  }

  /** A refused call leaves the attempt as it was. */
  function Step(a: RunnerAttempt, e: Edge): RunnerAttempt {
    var r := Take(a, e);
    if r.Some? then r.value else a
  }

  /** A new attempt: allocated, with no process and no outcome. An isolated one
      may be allocated with its environment already named. */
  predicate IsFresh(a: RunnerAttempt) {
    a.state == Allocated && a.outcome.None? && (IsNative(a) ==> !Identified(a))
  }

  /** The row names the process or environment it runs in. */
  predicate Identified(a: RunnerAttempt) {
    if IsNative(a) then a.execution.processId.Some? else a.execution.environment.Some?
  }

  predicate IsolatedOnly(s: AttemptState) {
    s == Preparing || s == Prepared || s == Destroying || s == CleanupDeferred
  }

  /** Outcome and state agree. */
  predicate OutcomeFits(a: RunnerAttempt) {
    if a.outcome.None? then
      !IsTerminal(a.state)
    else
      a.state == TerminalState(a.outcome.value) || a.state == Cleaned || (!IsNative(a) && (a.state == Destroying || a.state == CleanupDeferred))
  }

  /** The runner was started, or its environment was announced as prepared. */
  predicate CameToRun(a: RunnerAttempt) {
    || a.state == Prepared || a.state == Starting || a.state == Idle || a.state == Busy
    || a.outcome == Some(CompletedJob) || a.outcome == Some(ExitedIdleWithoutWork)
  }

  predicate NotYetStarted(a: RunnerAttempt) {
    a.state == Allocated || a.state == JitReceived
  }

  /** What a row looks like that the edges can produce. */
  predicate Producible(a: RunnerAttempt) {
    && OutcomeFits(a)
    && (IsNative(a) ==> !IsolatedOnly(a.state))
    && (CameToRun(a) ==> Identified(a))
    && (IsNative(a) && NotYetStarted(a) ==> !Identified(a))
  }

  /** What rebuilding a journalled row checks, of the fields modelled here. */
  predicate Loads(a: RunnerAttempt) {
    && (IsTerminal(a.state) <==> a.outcome.Some?)
    && OutcomeFits(a)
    && !(IsNative(a) && IsolatedOnly(a.state))
    && !(!IsNative(a) && (a.state == JitReceived || a.state == Prepared || a.state == Starting || a.state == Idle || a.state == Busy) && !Identified(a))
  }

  // ---------------------------------------------------------------------------
  // When an edge is taken
  // ---------------------------------------------------------------------------

  predicate Permits(a: RunnerAttempt, e: Edge) {
    match e
    case TakePrepare => !IsNative(a) && a.state == Allocated
    case TakeEnvironment(_) => !IsNative(a) && !Identified(a) && MayStillBeNamed(a.state)
    case TakePrepared => !IsNative(a) && Identified(a) && a.state == Preparing
    case TakeJit => a.state == Allocated || a.state == Prepared
    case TakeProcess(_) => IsNative(a) && a.state == JitReceived
    case TakeIsolatedStart => !IsNative(a) && Identified(a) && a.state == JitReceived
    case TakeIdle => a.state == Starting || a.state == Busy
    case TakeJob => a.state == Starting || a.state == Idle
    case TakeJobBack => a.state == Busy
    case TakeOutcome(CompletedJob) => a.state == Busy
    case TakeOutcome(ExitedIdleWithoutWork) => a.state == Idle
    case TakeOutcome(_) => a.outcome.None?
    case TakeNativeClean => IsNative(a) && IsConcluded(a.state)
    case TakeDestroy => !IsNative(a) && (IsConcluded(a.state) || a.state == CleanupDeferred)
    case TakeDeferral => a.state == Destroying
    case TakeIsolatedClean => !IsNative(a) && (IsConcluded(a.state) || a.state == Destroying)
  }

  /** Before it is prepared, and when it is cleaned up after a prepare whose
      answer was lost. A finished attempt has its environment already. */
  predicate MayStillBeNamed(s: AttemptState) {
    s == Allocated || s == Preparing || s == Failed || s == Orphaned || s == Destroying || s == CleanupDeferred
  }

  /** On a row a life produced, a call is refused exactly where the table says,
      and a call that is refused changes nothing. */
  lemma TakenExactlyWhen(a: RunnerAttempt, e: Edge)
    requires Producible(a)
    ensures Take(a, e).Some? <==> Permits(a, e)
    ensures Step(a, e) != a ==> Permits(a, e)
    ensures Permits(a, e) ==> Step(a, e) != a
  {
    WhereEachStateComesFrom(a.state);
  }

  // ---------------------------------------------------------------------------
  // What lives produce
  // ---------------------------------------------------------------------------

  lemma StepIsProducible(a: RunnerAttempt, e: Edge)
    requires Producible(a)
    ensures Producible(Step(a, e))
  {
    WhereEachStateComesFrom(a.state);
  }

  function LifeOf(a: RunnerAttempt, es: seq<Edge>): RunnerAttempt {
    Run(Step, a, es)
  }

  lemma LivesAreProducible(a: RunnerAttempt, es: seq<Edge>)
    requires IsFresh(a)
    ensures Producible(LifeOf(a, es))
  {
    forall t, e | Producible(t) ensures Producible(Step(t, e)) {
      StepIsProducible(t, e);
    }
    Keeps(Step, Producible, a, es);
  }

  function Rank(a: RunnerAttempt): nat {
    match a.state
    case Allocated => if Identified(a) then 1 else 0
    case Preparing => 2
    case Prepared => 3
    case JitReceived => 2
    case Starting => 3
    case Idle => 4
    case Busy => 4
    case Finished => 5
    case Failed => 5
    case Orphaned => 5
    case Destroying => 6
    case CleanupDeferred => 7
    case Cleaned => 6
  }

  function Unidentified(a: RunnerAttempt): RunnerAttempt {
    a.(execution := if IsNative(a) then Native(None) else a.execution.(environment := None))
  }

  /** The row one call earlier on one way to `a`. */
  function Before(a: RunnerAttempt): RunnerAttempt {
    match a.state
    case Allocated => Unidentified(a)
    case Preparing => a.(state := Allocated)
    case Prepared => a.(state := Preparing)
    case JitReceived => a.(state := Allocated)
    case Starting => (if IsNative(a) then Unidentified(a) else a).(state := JitReceived)
    case Idle => a.(state := Starting)
    case Busy => a.(state := Starting)
    case Finished => a.(outcome := None, state := if a.outcome == Some(CompletedJob) then Busy else Idle)
    case Failed => a.(outcome := None, state := if IsNative(a) && Identified(a) then Starting else Allocated)
    case Orphaned => a.(outcome := None, state := if IsNative(a) && Identified(a) then Starting else Allocated)
    case Destroying => a.(state := if a.outcome.Some? then TerminalState(a.outcome.value) else Failed)
    case CleanupDeferred => a.(state := Destroying)
    case Cleaned => a.(state := if a.outcome.Some? then TerminalState(a.outcome.value) else Failed)
  }

  /** The call that leads from there to `a`. */
  function LastCall(a: RunnerAttempt): Edge
    requires Producible(a) && !IsOrigin(a)
  {
    match a.state
    case Allocated => TakeEnvironment(a.execution.environment.value)
    case Preparing => TakePrepare
    case Prepared => TakePrepared
    case JitReceived => TakeJit
    case Starting => if IsNative(a) then TakeProcess(a.execution.processId.value) else TakeIsolatedStart
    case Idle => TakeIdle
    case Busy => TakeJob
    case Finished => TakeOutcome(a.outcome.value)
    case Failed => TakeOutcome(a.outcome.value)
    case Orphaned => TakeOutcome(a.outcome.value)
    case Destroying => TakeDestroy
    case CleanupDeferred => TakeDeferral
    case Cleaned => if IsNative(a) then TakeNativeClean else TakeIsolatedClean
  }

  predicate IsOrigin(a: RunnerAttempt) {
    a.state == Allocated && !Identified(a)
  }

  lemma EarlierIsProducible(a: RunnerAttempt)
    requires Producible(a) && !IsOrigin(a)
    ensures Producible(Before(a)) && Rank(Before(a)) < Rank(a)
  {
  }

  lemma LastCallLeadsHere(a: RunnerAttempt)
    requires Producible(a) && !IsOrigin(a)
    ensures Step(Before(a), LastCall(a)) == a
  {
    WhereEachStateComesFrom(Before(a).state);
  }

  /** The new attempt a row goes back to: nothing of it but its identity, its
      workspace and where it was to run. */
  function Origin(a: RunnerAttempt): RunnerAttempt {
    Unidentified(a).(state := Allocated, outcome := None)
  }

  lemma {:induction false} ProducibleHasALife(a: RunnerAttempt) returns (es: seq<Edge>)
    requires Producible(a)
    ensures IsFresh(Origin(a)) && LifeOf(Origin(a), es) == a
    decreases Rank(a)
  {
    if IsOrigin(a) {
      assert Origin(a) == a;
      es := [];
    } else {
      EarlierIsProducible(a);
      LastCallLeadsHere(a);
      var before := ProducibleHasALife(Before(a));
      assert Origin(Before(a)) == Origin(a);
      es := before + [LastCall(a)];
      assert es[..|es| - 1] == before;
    }
  }

  /** The rows that lives produce are exactly the producible ones. */
  lemma ProducedExactlyWhen(a: RunnerAttempt)
    ensures (exists f, es :: IsFresh(f) && LifeOf(f, es) == a) <==> Producible(a)
  {
    if f, es :| IsFresh(f) && LifeOf(f, es) == a {
      LivesAreProducible(f, es);
    }
    if Producible(a) {
      var es := ProducibleHasALife(a);
    }
  }

  // ---------------------------------------------------------------------------
  // What is read back
  // ---------------------------------------------------------------------------

  /** An isolated attempt given its JIT configuration before any environment. */
  predicate JitWithoutEnvironment(a: RunnerAttempt) {
    !IsNative(a) && !Identified(a) && a.state == JitReceived
  }

  /** Of the rows lives produce, exactly one family is refused when it is read. */
  lemma ProducedRowLoadsExactlyWhen(a: RunnerAttempt, es: seq<Edge>)
    requires IsFresh(a)
    ensures Loads(LifeOf(a, es)) <==> !JitWithoutEnvironment(LifeOf(a, es))
  {
    LivesAreProducible(a, es);
  }

  /** One accepted call, and the row cannot be read again. */
  lemma AProducedRowIsRefused(id: AttemptId, policy: PolicyId, image: Image, generation: Generation)
    ensures var a := RunnerAttempt(id, policy, Allocated, None, Isolated(None, image, generation), Ephemeral);
      IsFresh(a) && Take(a, TakeJit).Some? && !Loads(LifeOf(a, [TakeJit]))
  {
    var a := RunnerAttempt(id, policy, Allocated, None, Isolated(None, image, generation), Ephemeral);
    assert [TakeJit][..0] == [];
    assert LifeOf(a, []) == a;
    assert LifeOf(a, [TakeJit]) == Step(a, TakeJit);
  }

  /** One call spoils a readable row exactly when it hands the JIT configuration
      to an isolated attempt that has no environment. */
  lemma CallKeepsLoadingExactlyWhen(a: RunnerAttempt, e: Edge)
    requires Loads(a)
    ensures Loads(Step(a, e)) <==> !(e.TakeJit? && !IsNative(a) && !Identified(a) && a.state == Allocated)
  {
    WhereEachStateComesFrom(a.state);
  }

  predicate SameCombination(a: RunnerAttempt, b: RunnerAttempt) {
    a.state == b.state && a.outcome == b.outcome && IsNative(a) == IsNative(b)
  }

  /** The row with an identity where its state needs one, and none before. */
  function Fitted(a: RunnerAttempt): (b: RunnerAttempt)
    ensures SameCombination(a, b)
  {
    if IsNative(a) then a.(execution := Native(if NotYetStarted(a) then None else Some(0)))
    else a.(execution := a.execution.(environment := Some(0)))
  }

  /** The promise of reading a row is exact for the state, the outcome and the
      kind of execution: a combination of these is read in some row if and only if
      some life produces it. */
  lemma ReadsExactlyTheCombinationsProduced(a: RunnerAttempt)
    ensures (exists b :: SameCombination(a, b) && Loads(b)) <==>
      exists f, es :: IsFresh(f) && SameCombination(a, LifeOf(f, es))
  {
    if b :| SameCombination(a, b) && Loads(b) {
      var es := ProducibleHasALife(Fitted(b));
      assert SameCombination(a, LifeOf(Origin(Fitted(b)), es));
    }
    if f, es :| IsFresh(f) && SameCombination(a, LifeOf(f, es)) {
      LivesAreProducible(f, es);
      assert SameCombination(a, Fitted(LifeOf(f, es))) && Loads(Fitted(LifeOf(f, es)));
    }
  }

  /** Reading a row does not show that a life produced it: the check of the
      identity leaves out native attempts and every terminal state. */
  lemma ReadableRowIsProducedExactlyWhen(a: RunnerAttempt)
    requires Loads(a)
    ensures (exists f, es :: IsFresh(f) && LifeOf(f, es) == a) <==>
      (CameToRun(a) ==> Identified(a)) && (IsNative(a) && NotYetStarted(a) ==> !Identified(a))
  {
    ProducedExactlyWhen(a);
  }

  /** A finished job with no environment it could have run in is read back. */
  lemma AnUnproducedRowIsRead(id: AttemptId, policy: PolicyId, image: Image, generation: Generation)
    ensures var a := RunnerAttempt(id, policy, Finished, Some(CompletedJob), Isolated(None, image, generation), Ephemeral);
      Loads(a) && !exists f, es :: IsFresh(f) && LifeOf(f, es) == a
  {
    ProducedExactlyWhen(RunnerAttempt(id, policy, Finished, Some(CompletedJob), Isolated(None, image, generation), Ephemeral));
  }
}
