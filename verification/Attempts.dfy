/** One runner attempt: its state diagram, its execution identity, and the
    edges the agent may take on it. */
module Attempts {
  import opened Wrappers

  type AttemptId = nat
  type PolicyId = nat
  type HostId = nat
  type EnvironmentId = nat
  type Generation = nat
  type Image = nat
  type ProcessId = nat

  datatype AttemptState =
    | Allocated | Preparing | Prepared | JitReceived | Starting | Idle | Busy
    | Finished | Failed | Orphaned | Destroying | CleanupDeferred | Cleaned

  datatype FailureReason =
    | JitRequestFailed
    | JitExpired
    | ProcessStartFailed
    | ProcessExitedUnexpectedly
    | RegistrationTimedOut
    | TerminatedAfterRegistrationTimeout
    | OtherReason

  datatype Outcome =
    | CompletedJob
    | ExitedIdleWithoutWork
    | FailedWith(reason: FailureReason)
    | OrphanedOutcome

  /** What a journal row says about where the runner executes. */
  datatype Execution =
    | Native(processId: Option<ProcessId>)
    | Isolated(environment: Option<EnvironmentId>, image: Image, generation: Generation)

  datatype Workspace = Ephemeral | PersistentSlot(slot: nat)

  datatype RunnerAttempt = RunnerAttempt(
    id: AttemptId,
    policy: PolicyId,
    state: AttemptState,
    outcome: Option<Outcome>,
    execution: Execution,
    workspace: Workspace)

  /** The complete legal transition list; a self-transition is not in it. */
  predicate CanTransition(from: AttemptState, to: AttemptState) {
    match from
    case Allocated => to.JitReceived? || to.Preparing? || to.Failed? || to.Orphaned?
    case Preparing => to.Prepared? || to.Failed? || to.Orphaned?
    case Prepared => to.JitReceived? || to.Failed? || to.Orphaned?
    case JitReceived => to.Starting? || to.Failed? || to.Orphaned?
    case Starting => to.Idle? || to.Busy? || to.Failed? || to.Orphaned?
    case Idle => to.Busy? || to.Finished? || to.Failed? || to.Orphaned?
    case Busy => to.Idle? || to.Finished? || to.Failed? || to.Orphaned?
    case Finished => to.Cleaned? || to.Destroying?
    case Failed => to.Cleaned? || to.Destroying?
    case Orphaned => to.Cleaned? || to.Destroying?
    case Destroying => to.CleanupDeferred? || to.Cleaned?
    case CleanupDeferred => to == Destroying
    case Cleaned => false
  }

  /** The same list read backwards: where each state can be reached from. */
  lemma WhereEachStateComesFrom(s: AttemptState)
    ensures !CanTransition(s, Allocated)
    ensures CanTransition(s, Preparing) <==> s == Allocated
    ensures CanTransition(s, Prepared) <==> s == Preparing
    ensures CanTransition(s, JitReceived) <==> s == Allocated || s == Prepared
    ensures CanTransition(s, Starting) <==> s == JitReceived
    ensures CanTransition(s, Idle) <==> s == Starting || s == Busy
    ensures CanTransition(s, Busy) <==> s == Starting || s == Idle
    ensures CanTransition(s, Finished) <==> s == Idle || s == Busy
    ensures CanTransition(s, Failed) <==> !IsTerminal(s)
    ensures CanTransition(s, Orphaned) <==> !IsTerminal(s)
    ensures CanTransition(s, Destroying) <==> IsConcluded(s) || s == CleanupDeferred
    ensures CanTransition(s, CleanupDeferred) <==> s == Destroying
    ensures CanTransition(s, Cleaned) <==> IsConcluded(s) || s == Destroying
  {
  }

  predicate IsTerminal(s: AttemptState) {
    s.Finished? || s.Failed? || s.Orphaned? || s.Destroying? || s.CleanupDeferred? || s.Cleaned?
  }

  predicate IsConcluded(s: AttemptState) {
    s.Finished? || s.Failed? || s.Orphaned?
  }

  function TerminalState(o: Outcome): AttemptState {
    match o
    case CompletedJob => Finished
    case ExitedIdleWithoutWork => Finished
    case FailedWith(_) => Failed
    case OrphanedOutcome => Orphaned
  }

  /** The states from which an outcome can be recorded. */
  predicate ReachableFrom(o: Outcome, s: AttemptState) {
    match o
    case CompletedJob => s == Busy
    case ExitedIdleWithoutWork => s == Idle
    case FailedWith(_) => !IsTerminal(s)
    case OrphanedOutcome => !IsTerminal(s)
  }

  predicate IsNative(a: RunnerAttempt) {
    a.execution.Native?
  }

  /** An isolated attempt holds capacity until it is cleaned, a native one until
      it is terminal. */
  predicate CountsAgainstCapacity(a: RunnerAttempt) {
    !IsTerminal(a.state) || (!IsNative(a) && a.state != Cleaned)
  }

  predicate HoldsSlotLease(a: RunnerAttempt) {
    a.workspace.PersistentSlot? && a.state != Cleaned
  }

  /** The provider allocation and generation never change after the first
      journal write; the process or environment id may be filled in once. */
  predicate CanAdvanceTo(old_: Execution, new_: Execution) {
    match (old_, new_)
    case (Native(p), Native(q)) => p.None? || p == q
    case (Isolated(e, i, g), Isolated(f, j, h)) => i == j && g == h && (e.None? || e == f)
    case _ => false
  }

  // ---------------------------------------------------------------------------
  // Edges. Each answers None where the source returns an error.
  // ---------------------------------------------------------------------------

  function MoveTo(a: RunnerAttempt, s: AttemptState): (r: Option<RunnerAttempt>) {
    if CanTransition(a.state, s) then Some(a.(state := s)) else None
  }

  function BeginPrepare(a: RunnerAttempt): Option<RunnerAttempt> {
    if IsNative(a) then None else MoveTo(a, Preparing)
  }

  function PreparedEnvironment(a: RunnerAttempt, x: EnvironmentId): Option<RunnerAttempt> {
    if !(a.state.Allocated? || a.state.Preparing? || a.state.Failed? || a.state.Orphaned? || a.state.Destroying? || a.state.CleanupDeferred?) then None
    else if IsNative(a) || a.execution.environment.Some? then None
    else Some(a.(execution := a.execution.(environment := Some(x))))
  }

  function MarkPrepared(a: RunnerAttempt): Option<RunnerAttempt> {
    if IsNative(a) || a.execution.environment.None? then None else MoveTo(a, Prepared)
  }

  function ReceiveJit(a: RunnerAttempt): Option<RunnerAttempt> {
    MoveTo(a, JitReceived)
  }

  function Started(a: RunnerAttempt, pid: ProcessId): Option<RunnerAttempt> {
    if !IsNative(a) || !CanTransition(a.state, Starting) then None
    else Some(a.(state := Starting, execution := Native(Some(pid))))
  }

  function StartedIsolated(a: RunnerAttempt): Option<RunnerAttempt> {
    if IsNative(a) || a.execution.environment.None? then None else MoveTo(a, Starting)
  }

  function RegisteredIdle(a: RunnerAttempt): Option<RunnerAttempt> {
    MoveTo(a, Idle)
  }

  function AssignedJob(a: RunnerAttempt): Option<RunnerAttempt> {
    MoveTo(a, Busy)
  }

  function AssignmentNotTaken(a: RunnerAttempt): Option<RunnerAttempt> {
    if a.state != Busy then None else MoveTo(a, Idle)
  }

  function Conclude(a: RunnerAttempt, o: Outcome): Option<RunnerAttempt> {
    if !ReachableFrom(o, a.state) || !CanTransition(a.state, TerminalState(o)) then None
    else Some(a.(state := TerminalState(o), outcome := Some(o)))
  }

  function CleanNative(a: RunnerAttempt): Option<RunnerAttempt> {
    if a.state == Busy || !IsNative(a) || !IsConcluded(a.state) then None else MoveTo(a, Cleaned)
  }

  function BeginDestroy(a: RunnerAttempt): Option<RunnerAttempt> {
    if IsNative(a) || a.outcome.None? then None else MoveTo(a, Destroying)
  }

  function DeferCleanup(a: RunnerAttempt): Option<RunnerAttempt> {
    if IsNative(a) then None else MoveTo(a, CleanupDeferred)
  }

  function CleanIsolated(a: RunnerAttempt): Option<RunnerAttempt> {
    if IsNative(a) then None else MoveTo(a, Cleaned)
  }
}
