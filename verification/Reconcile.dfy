/** Reconciling journalled attempts against the host and GitHub: what one pass
    writes and signals, in order, for every answer it can get, and what a crash
    between any two of its effects leaves for the next pass. */
module Reconcile {
  import opened Wrappers
  import opened Attempts
  import Runs

  // ---------------------------------------------------------------------------
  // The recovery decision
  // ---------------------------------------------------------------------------

  datatype Github = Registered(busy: bool) | NotRegistered | Unreachable

  datatype Decision =
    | NothingToDo | Wait | Defer | Adopt | CleanIt
    | Observe(state: AttemptState)
    | ConcludeAs(outcome: Outcome)
    | TerminateAs(outcome: Outcome)

  datatype Timeouts = Timeouts(jitHandoff: nat, startup: nat, idle: nat)

  function DecideBeforeStart(s: AttemptState, alive: bool, github: Github, elapsed: int, t: Timeouts): Decision {
    if alive then Adopt
    else if github.Registered? then Observe(if s == Allocated then JitReceived else Starting)
    else if elapsed >= t.jitHandoff then ConcludeAs(FailedWith(if s == Allocated then JitRequestFailed else JitExpired))
    else Wait
  }

  function DecideStarting(alive: bool, github: Github, elapsed: int, t: Timeouts): Decision {
    if github.Registered? then Observe(if github.busy then Busy else Idle)
    else if !alive then ConcludeAs(FailedWith(ProcessExitedUnexpectedly))
    else if elapsed < t.startup then Adopt
    else TerminateAs(FailedWith(RegistrationTimedOut))
  }

  function DecideIdle(alive: bool, github: Github, elapsed: int, t: Timeouts): Decision {
    if github.Registered? then
      if github.busy then Observe(Busy)
      else if !alive then ConcludeAs(OrphanedOutcome)
      else if elapsed >= t.idle then TerminateAs(ExitedIdleWithoutWork)
      else Adopt
    else if alive then Adopt
    else if elapsed >= t.idle then ConcludeAs(ExitedIdleWithoutWork)
    else ConcludeAs(FailedWith(ProcessExitedUnexpectedly))
  }

  /** What to do about one attempt, from its state and two observations. */
  function RecoveryDecision(s: AttemptState, alive: bool, github: Github, elapsed: int, t: Timeouts): Decision {
    if s == Cleaned then NothingToDo
    else if IsTerminal(s) then CleanIt
    else if github.Unreachable? then Defer
    else if s.Allocated? || s.JitReceived? then DecideBeforeStart(s, alive, github, elapsed, t)
    else if s.Starting? then DecideStarting(alive, github, elapsed, t)
    else if s.Idle? then DecideIdle(alive, github, elapsed, t)
    else if s.Busy? then if alive then Adopt else ConcludeAs(OrphanedOutcome)
    else Wait
  }

  /** A decision never gives back the capacity of a process seen alive. */
  predicate Sound(x: Decision, alive: bool) {
    x.ConcludeAs? ==> !alive
  }

  /** Every decision is sound, and every edge or outcome it names is legal from
      the state it was taken in. */
  lemma DecisionsAreLegal(s: AttemptState, alive: bool, github: Github, elapsed: int, t: Timeouts)
    ensures var x := RecoveryDecision(s, alive, github, elapsed, t);
      && Sound(x, alive)
      && (x.TerminateAs? ==> alive)
      && (x.Observe? ==> CanTransition(s, x.state))
      && (x.ConcludeAs? || x.TerminateAs? ==> ReachableFrom(x.outcome, s) && CanTransition(s, TerminalState(x.outcome)))
      && (x.CleanIt? <==> IsTerminal(s) && s != Cleaned)
  {
  }

  // ---------------------------------------------------------------------------
  // The host, and what a pass does to it
  // ---------------------------------------------------------------------------

  /** What survives a crash: the row, the process, the terminate mark, and the
      runner-id sidecar. For an isolated row `running` is its environment. */
  datatype Durable = Durable(row: RunnerAttempt, running: bool, mark: bool, runnerId: bool)

  datatype Effect =
    | Write(row: RunnerAttempt)
    | WriteRunnerId
    | Mark
    | Signal(died: bool)
    | Scrub(markGone: bool)

  function Apply(d: Durable, e: Effect): Durable {
    match e
    case Write(row) => d.(row := row)
    case WriteRunnerId => d.(runnerId := true)
    case Mark => d.(mark := true)
    case Signal(died) => d.(running := d.running && !died)
    case Scrub(markGone) => d.(mark := d.mark && !markGone)
  }

  function ApplyAll(d: Durable, es: seq<Effect>): Durable
    decreases es
  {
    if es == [] then d else ApplyAll(Apply(d, es[0]), es[1..])
  }

  /** What a pass may do in a state: take legal edges, signal only a marked
      process, conclude only over a dead one, scrub only after concluding. A
      decision that concludes over a process seen alive is `misled`. */
  predicate Allowed(d: Durable, e: Effect, misled: bool) {
    match e
    case Write(row) =>
      && CanTransition(d.row.state, row.state) && row.policy == d.row.policy
      && (row.execution == d.row.execution || (row.state.Starting? && CanAdvanceTo(d.row.execution, row.execution)))
      && (IsNative(row) && IsTerminal(row.state) && !IsTerminal(d.row.state) ==> misled || !d.running)
    case WriteRunnerId => !IsTerminal(d.row.state)
    case Mark => !IsTerminal(d.row.state)
    case Signal(_) => d.mark && !IsTerminal(d.row.state)
    case Scrub(_) => IsTerminal(d.row.state)
  }

  predicate AllAllowed(d: Durable, es: seq<Effect>, misled: bool)
    decreases es
  {
    es == [] || (Allowed(d, es[0], misled) && AllAllowed(Apply(d, es[0]), es[1..], misled))
  }

  lemma Cons(d: Durable, e: Effect, es: seq<Effect>, misled: bool)
    ensures ApplyAll(d, [e] + es) == ApplyAll(Apply(d, e), es)
    ensures AllAllowed(d, [e] + es, misled) <==> Allowed(d, e, misled) && AllAllowed(Apply(d, e), es, misled)
  {
    assert ([e] + es)[1..] == es;
  }

  /** A crash cuts a pass short: whatever was done was still allowed. */
  lemma {:induction false} PrefixIsAllowed(d: Durable, es: seq<Effect>, misled: bool, n: nat)
    requires AllAllowed(d, es, misled) && n <= |es|
    ensures AllAllowed(d, es[..n], misled)
    decreases n
  {
    if n > 0 {
      PrefixIsAllowed(Apply(d, es[0]), es[1..], misled, n - 1);
      assert es[..n][1..] == es[1..][..n - 1];
    }
  }

  // ---------------------------------------------------------------------------
  // One pass
  // ---------------------------------------------------------------------------

  datatype Progress = Reconciled | Deferred | Replacement | Errored

  datatype Plan = Plan(effects: seq<Effect>, progress: Progress)

  datatype JobEvidence = RanAJob | NoJob | NoEvidence

  datatype CleanAnswer = NotDue | CleanDeferred(markGone: bool) | CleanFailed(markGone: bool) | CleanDone

  datatype MarkAnswer = Marked | MarkFailed(left: bool)

  datatype StopAnswer = StopDone(died: bool) | StillRunning(died: bool) | StopFailed(died: bool)

  datatype Environment = Missing | Quiet | Live

  /** Everything the host, GitHub and the journal answer during one pass; None is
      an error. The three flags at the end say which journal writes succeed. */
  datatype Answers = Answers(
    inspect: Option<bool>,
    github: Github,
    observedId: bool,
    journalledId: bool,
    idWritten: bool,
    recoveredPid: Option<Option<ProcessId>>,
    completed: bool,
    evidence: JobEvidence,
    decision: Decision,
    marked: MarkAnswer,
    stop: StopAnswer,
    inspectAgain: Option<bool>,
    environment: Option<Environment>,
    owned: Option<bool>,
    clean: CleanAnswer,
    startRecorded: bool,
    edgeRecorded: bool,
    concludeRecorded: bool)

  /** A process that a native answer calls dead is dead. An answer that it is
      alive may be stale by the time it is read. */
  predicate Truthful(d: Durable, a: Answers) {
    IsNative(d.row) ==>
      && (a.inspect == Some(false) ==> !d.running)
      && (a.inspectAgain == Some(false) ==> !d.running || a.stop.died)
  }

  function Prepend(e: Effect, p: Plan): Plan {
    Plan([e] + p.effects, p.progress)
  }

  function Replaced(o: Outcome): Progress {
    if o == FailedWith(JitExpired) || o == FailedWith(ProcessExitedUnexpectedly) then Replacement else Reconciled
  }

  function CleanNativePlan(row: RunnerAttempt, c: CleanAnswer, after: Progress): Plan {
    match c
    case NotDue => Plan([], after)
    case CleanDeferred(gone) => Plan([Scrub(gone)], after)
    case CleanFailed(gone) => Plan([Scrub(gone)], Errored)
    case CleanDone =>
      var cleaned := CleanNative(row);
      if cleaned.None? then Plan([Scrub(true)], Errored) else Plan([Scrub(true), Write(cleaned.value)], after)
  }

  function DestroyingPlan(row: RunnerAttempt, c: CleanAnswer, after: Progress): Plan {
    var end := if c.CleanDone? then CleanIsolated(row) else DeferCleanup(row);
    if c.CleanFailed? || end.None? then Plan([], Errored) else Plan([Write(end.value)], after)
  }

  function CleanIsolatedPlan(row: RunnerAttempt, c: CleanAnswer, after: Progress): Plan {
    if c.NotDue? then Plan([], after)
    else if row.state == Destroying then DestroyingPlan(row, c, after)
    else
      var destroying := BeginDestroy(row);
      if destroying.None? then Plan([], Errored)
      else Prepend(Write(destroying.value), DestroyingPlan(destroying.value, c, after))
  }

  function CleanPlan(row: RunnerAttempt, c: CleanAnswer, after: Progress): Plan {
    if IsNative(row) then CleanNativePlan(row, c, after) else CleanIsolatedPlan(row, c, after)
  }

  function ConcludePlan(row: RunnerAttempt, o: Outcome, a: Answers, after: Progress): Plan {
    var concluded := Conclude(row, o);
    if concluded.None? || !a.concludeRecorded then Plan([], Errored)
    else Prepend(Write(concluded.value), CleanPlan(concluded.value, a.clean, after))
  }

  /** One journalled edge before the rest; an illegal edge or a failed write ends
      the pass. */
  function EdgePlan(to: Option<RunnerAttempt>, recorded: bool, rest: RunnerAttempt -> Plan): Plan {
    if to.None? || !recorded then Plan([], Errored) else Prepend(Write(to.value), rest(to.value))
  }

  datatype Walk = Stay | WalkToBusy | WalkToIdle

  /** How a runner that exited successfully is concluded, if its diagnostics and
      GitHub together say. */
  function CompletedOutcome(s: AttemptState, a: Answers, known: bool): Option<(Walk, Outcome)> {
    if a.evidence.RanAJob? then
      if s.Busy? then Some((Stay, CompletedJob)) else if known then Some((WalkToBusy, CompletedJob)) else None
    else if !s.Busy? then None
    else if a.evidence.NoJob? then Some((WalkToIdle, ExitedIdleWithoutWork))
    else if a.github.NotRegistered? then Some((Stay, CompletedJob))
    else None
  }

  /** The guard of that branch. */
  predicate ExitedByItself(s: AttemptState, a: Answers, alive: bool, known: bool) {
    && !alive && !a.github.Unreachable? && (s.Starting? || s.Idle? || s.Busy?) && a.completed
    && CompletedOutcome(s, a, known).Some?
  }

  function CompletedPlan(row: RunnerAttempt, a: Answers, w: Walk, o: Outcome): Plan {
    match w
    case Stay => ConcludePlan(row, o, a, Reconciled)
    case WalkToBusy => EdgePlan(AssignedJob(row), a.edgeRecorded, r => ConcludePlan(r, o, a, Reconciled))
    case WalkToIdle => EdgePlan(AssignmentNotTaken(row), a.edgeRecorded, r => ConcludePlan(r, o, a, Reconciled))
  }

  function AfterSignalPlan(row: RunnerAttempt, a: Answers, payload: Outcome): Plan {
    if a.stop.StopFailed? then Plan([], Errored)
    else if a.stop.StillRunning? then Plan([], Deferred)
    else if a.inspectAgain.None? then Plan([], Errored)
    else if a.inspectAgain.value then Plan([], Deferred)
    else if payload.ExitedIdleWithoutWork? then ConcludePlan(row, payload, a, Reconciled)
    else ConcludePlan(row, FailedWith(TerminatedAfterRegistrationTimeout), a, Replacement)
  }

  /** Mark durably, signal, look again, and only then conclude. */
  function TerminatePlan(row: RunnerAttempt, a: Answers, payload: Outcome): Plan {
    if a.marked.MarkFailed? then Plan(if a.marked.left then [Mark] else [], Errored)
    else Prepend(Mark, Prepend(Signal(a.stop.died), AfterSignalPlan(row, a, payload)))
  }

  function ObserveEdge(row: RunnerAttempt, s: AttemptState): Option<RunnerAttempt> {
    if s.JitReceived? then ReceiveJit(row)
    else if s.Starting? then
      if IsNative(row) && row.execution.processId.Some? then Started(row, row.execution.processId.value) else None
    else if s.Idle? then RegisteredIdle(row)
    else if s.Busy? then AssignedJob(row)
    else None
  }

  function DecidedPlan(row: RunnerAttempt, a: Answers, known: bool): Plan {
    match a.decision
    case NothingToDo => Plan([], Reconciled)
    case Wait => Plan([], Reconciled)
    case Defer => Plan([], Deferred)
    case Adopt => Plan([], Reconciled)
    case CleanIt => Plan([], if a.clean.NotDue? then Reconciled else Errored)
    case Observe(s) =>
      if !known then Plan([], Errored) else EdgePlan(ObserveEdge(row, s), a.edgeRecorded, _ => Plan([], Reconciled))
    case ConcludeAs(o) => ConcludePlan(row, o, a, Replaced(o))
    case TerminateAs(o) => TerminatePlan(row, a, o)
  }

  /** The part of a native pass that follows the identity recovery. */
  function ObservedPlan(row: RunnerAttempt, mark: bool, a: Answers, alive: bool, known: bool): Plan {
    if ExitedByItself(row.state, a, alive, known) then
      var c := CompletedOutcome(row.state, a, known).value;
      CompletedPlan(row, a, c.0, c.1)
    else if alive && row.state.Busy? && a.github == Registered(false) && a.evidence.NoJob? then
      EdgePlan(AssignmentNotTaken(row), a.edgeRecorded, _ => Plan([], Reconciled))
    else if mark && !alive then
      ConcludePlan(row, FailedWith(TerminatedAfterRegistrationTimeout), a, Replacement)
    else if (row.state.Allocated? || row.state.JitReceived?) && !alive && a.github.Registered? then
      if row.state.Allocated?
      then EdgePlan(ReceiveJit(row), a.edgeRecorded, r => ConcludePlan(r, FailedWith(JitExpired), a, Replacement))
      else ConcludePlan(row, FailedWith(JitExpired), a, Replacement)
    else DecidedPlan(row, a, known)
  }

  function RecoveredPlan(d: Durable, a: Answers, alive: bool, known: bool): Plan {
    if d.row.state.JitReceived? && alive && a.recoveredPid.None? then Plan([], Errored)
    else if d.row.state.JitReceived? && alive && a.recoveredPid.value.Some? then
      EdgePlan(Started(d.row, a.recoveredPid.value.value), a.startRecorded, r => ObservedPlan(r, d.mark, a, alive, known))
    else ObservedPlan(d.row, d.mark, a, alive, known)
  }

  predicate Known(d: Durable, a: Answers) {
    a.journalledId || a.observedId || d.runnerId
  }

  function NativePlan(d: Durable, a: Answers): Plan {
    if d.row.state == Cleaned then
      if d.row.workspace.Ephemeral? && !a.clean.NotDue?
      then Plan([Scrub(true)], if a.clean.CleanFailed? then Errored else Reconciled)
      else Plan([], Reconciled)
    else if IsTerminal(d.row.state) then CleanPlan(d.row, a.clean, Reconciled)
    else if a.inspect.None? then Plan([], Errored)
    else if a.observedId && !d.runnerId then
      if !a.idWritten then Plan([], Errored)
      else Prepend(WriteRunnerId, RecoveredPlan(d, a, a.inspect.value, true))
    else RecoveredPlan(d, a, a.inspect.value, Known(d, a))
  }

  function IsolatedObservedPlan(row: RunnerAttempt, a: Answers, live: bool, known: bool): Plan {
    if row.state.Busy? && !live && a.github.NotRegistered? && a.completed then ConcludePlan(row, CompletedJob, a, Reconciled)
    else if a.decision.TerminateAs? then ConcludePlan(row, a.decision.outcome, a, Replaced(a.decision.outcome))
    else if a.decision.Observe? && !(a.decision.state.Idle? || a.decision.state.Busy?) then Plan([], Errored)
    else DecidedPlan(row, a, known)
  }

  function IsolatedRecoveredPlan(d: Durable, row: RunnerAttempt, a: Answers, live: bool): Plan {
    if a.observedId && !d.runnerId then
      if !a.idWritten then Plan([], Errored)
      else Prepend(WriteRunnerId, IsolatedObservedPlan(row, a, live, true))
    else IsolatedObservedPlan(row, a, live, a.observedId || d.runnerId)
  }

  function IsolatedPlan(d: Durable, a: Answers): Plan {
    if d.row.state == Cleaned then Plan([], Reconciled)
    else if IsTerminal(d.row.state) then CleanPlan(d.row, a.clean, Reconciled)
    else if d.row.state.Allocated? || d.row.state.Preparing? || d.row.state.Prepared? then
      ConcludePlan(d.row, FailedWith(OtherReason), a, Reconciled)
    else if a.environment.None? then Plan([], Deferred)
    else if !a.environment.value.Missing? && a.owned != Some(true) then Plan([], Deferred)
    else if d.row.state.JitReceived? && a.environment.value.Live? then
      EdgePlan(StartedIsolated(d.row), a.startRecorded, r => IsolatedRecoveredPlan(d, r, a, true))
    else IsolatedRecoveredPlan(d, d.row, a, a.environment.value.Live?)
  }

  /** Everything one pass does to one attempt, in order. */
  function PassPlan(d: Durable, a: Answers): Plan {
    if IsNative(d.row) then NativePlan(d, a) else IsolatedPlan(d, a)
  }

  // ---------------------------------------------------------------------------
  // What every pass keeps
  // ---------------------------------------------------------------------------

  /** A plan does only what is allowed, and asks for a replacement only if it
      concluded the attempt. */
  predicate PlanOk(d: Durable, p: Plan, misled: bool) {
    && AllAllowed(d, p.effects, misled)
    && (p.progress.Replacement? ==> !IsTerminal(d.row.state) && IsTerminal(ApplyAll(d, p.effects).row.state))
  }

  /** Same, for a plan in which every way to end well leaves the row terminal. */
  predicate PlanConcludes(d: Durable, p: Plan, misled: bool) {
    AllAllowed(d, p.effects, misled) && (!p.progress.Errored? ==> IsTerminal(ApplyAll(d, p.effects).row.state))
  }

  lemma PrependOk(d: Durable, e: Effect, p: Plan, misled: bool)
    requires Allowed(d, e, misled) && PlanOk(Apply(d, e), p, misled) && !IsTerminal(d.row.state)
    ensures PlanOk(d, Prepend(e, p), misled)
  {
    Cons(d, e, p.effects, misled);
  }

  lemma One(d: Durable, e: Effect, misled: bool)
    requires Allowed(d, e, misled)
    ensures AllAllowed(d, [e], misled) && ApplyAll(d, [e]) == Apply(d, e)
  {
    Cons(d, e, [], misled);
    assert [e] + [] == [e];
  }

  lemma Two(d: Durable, e: Effect, f: Effect, misled: bool)
    requires Allowed(d, e, misled) && Allowed(Apply(d, e), f, misled)
    ensures AllAllowed(d, [e, f], misled) && ApplyAll(d, [e, f]) == Apply(Apply(d, e), f)
  {
    One(Apply(d, e), f, misled);
    Cons(d, e, [f], misled);
    assert [e] + [f] == [e, f];
  }

  lemma CleanNativeConcludes(d: Durable, c: CleanAnswer, after: Progress, misled: bool)
    requires IsNative(d.row) && IsTerminal(d.row.state)
    ensures PlanConcludes(d, CleanNativePlan(d.row, c, after), misled)
  {
    var p := CleanNativePlan(d.row, c, after);
    if |p.effects| == 1 {
      One(d, p.effects[0], misled);
    } else if |p.effects| == 2 {
      Two(d, p.effects[0], p.effects[1], misled);
    }
  }

  lemma DestroyingConcludes(d: Durable, c: CleanAnswer, after: Progress, misled: bool)
    requires !IsNative(d.row) && d.row.state == Destroying
    ensures PlanConcludes(d, DestroyingPlan(d.row, c, after), misled)
  {
    var p := DestroyingPlan(d.row, c, after);
    if p.effects != [] {
      One(d, p.effects[0], misled);
    }
  }

  lemma CleanIsolatedConcludes(d: Durable, c: CleanAnswer, after: Progress, misled: bool)
    requires !IsNative(d.row) && IsTerminal(d.row.state)
    ensures PlanConcludes(d, CleanIsolatedPlan(d.row, c, after), misled)
  {
    if !c.NotDue? {
      if d.row.state == Destroying {
        DestroyingConcludes(d, c, after, misled);
      } else if BeginDestroy(d.row).Some? {
        var e := Write(BeginDestroy(d.row).value);
        DestroyingConcludes(Apply(d, e), c, after, misled);
        Cons(d, e, DestroyingPlan(e.row, c, after).effects, misled);
      }
    }
  }

  lemma CleanConcludes(d: Durable, c: CleanAnswer, after: Progress, misled: bool)
    requires IsTerminal(d.row.state)
    ensures PlanConcludes(d, CleanPlan(d.row, c, after), misled)
  {
    if IsNative(d.row) {
      CleanNativeConcludes(d, c, after, misled);
    } else {
      CleanIsolatedConcludes(d, c, after, misled);
    }
  }

  lemma ConcludeConcludes(d: Durable, o: Outcome, a: Answers, after: Progress, misled: bool)
    requires !IsTerminal(d.row.state) && (IsNative(d.row) ==> misled || !d.running)
    ensures PlanConcludes(d, ConcludePlan(d.row, o, a, after), misled)
    ensures PlanOk(d, ConcludePlan(d.row, o, a, after), misled)
  {
    var c := Conclude(d.row, o);
    if c.Some? && a.concludeRecorded {
      var e := Write(c.value);
      var p := CleanPlan(c.value, a.clean, after);
      CleanConcludes(Apply(d, e), a.clean, after, misled);
      Cons(d, e, p.effects, misled);
    }
  }

  lemma AfterSignalOk(d: Durable, a: Answers, o: Outcome, misled: bool)
    requires IsNative(d.row) && !IsTerminal(d.row.state) && (a.inspectAgain == Some(false) ==> !d.running)
    ensures PlanOk(d, AfterSignalPlan(d.row, a, o), misled)
  {
    if a.stop.StopDone? && a.inspectAgain == Some(false) {
      if o.ExitedIdleWithoutWork? {
        ConcludeConcludes(d, o, a, Reconciled, misled);
      } else {
        ConcludeConcludes(d, FailedWith(TerminatedAfterRegistrationTimeout), a, Replacement, misled);
      }
    }
  }

  lemma TerminateOk(d: Durable, a: Answers, o: Outcome, misled: bool)
    requires IsNative(d.row) && !IsTerminal(d.row.state) && Truthful(d, a)
    ensures PlanOk(d, TerminatePlan(d.row, a, o), misled)
  {
    if a.marked.MarkFailed? {
      One(d, Mark, misled);
    } else {
      var marked := Apply(d, Mark);
      var signalled := Apply(marked, Signal(a.stop.died));
      var rest := AfterSignalPlan(d.row, a, o);
      AfterSignalOk(signalled, a, o, misled);
      PrependOk(marked, Signal(a.stop.died), rest, misled);
      PrependOk(d, Mark, Prepend(Signal(a.stop.died), rest), misled);
    }
  }

  lemma EdgeOk(d: Durable, to: Option<RunnerAttempt>, recorded: bool, rest: RunnerAttempt -> Plan, misled: bool)
    requires !IsTerminal(d.row.state)
    requires to.Some? ==> Allowed(d, Write(to.value), misled)
    requires to.Some? ==> PlanOk(d.(row := to.value), rest(to.value), misled)
    ensures PlanOk(d, EdgePlan(to, recorded, rest), misled)
  {
    if to.Some? && recorded {
      PrependOk(d, Write(to.value), rest(to.value), misled);
    }
  }

  lemma DecidedOk(d: Durable, a: Answers, known: bool, alive: bool)
    requires !IsTerminal(d.row.state) && Truthful(d, a) && (IsNative(d.row) && !alive ==> !d.running)
    requires IsNative(d.row) || !a.decision.TerminateAs?
    ensures PlanOk(d, DecidedPlan(d.row, a, known), !Sound(a.decision, alive))
  {
    var misled := !Sound(a.decision, alive);
    if a.decision.ConcludeAs? {
      ConcludeConcludes(d, a.decision.outcome, a, Replaced(a.decision.outcome), misled);
    } else if a.decision.TerminateAs? {
      TerminateOk(d, a, a.decision.outcome, misled);
    } else if a.decision.Observe? && known {
      EdgeOk(d, ObserveEdge(d.row, a.decision.state), a.edgeRecorded, _ => Plan([], Reconciled), misled);
    }
  }

  lemma CompletedOk(d: Durable, a: Answers, known: bool, misled: bool)
    requires IsNative(d.row) && !d.running && ExitedByItself(d.row.state, a, false, known)
    ensures PlanOk(d, CompletedPlan(d.row, a, CompletedOutcome(d.row.state, a, known).value.0, CompletedOutcome(d.row.state, a, known).value.1), misled)
  {
    var (w, o) := CompletedOutcome(d.row.state, a, known).value;
    if w == Stay {
      ConcludeConcludes(d, o, a, Reconciled, misled);
    } else {
      var to := if w == WalkToBusy then AssignedJob(d.row) else AssignmentNotTaken(d.row);
      if to.Some? {
        ConcludeConcludes(d.(row := to.value), o, a, Reconciled, misled);
      }
      EdgeOk(d, to, a.edgeRecorded, r => ConcludePlan(r, o, a, Reconciled), misled);
    }
  }

  lemma ExpiredOk(d: Durable, a: Answers, misled: bool)
    requires IsNative(d.row) && !d.running && d.row.state == Allocated
    ensures PlanOk(d, EdgePlan(ReceiveJit(d.row), a.edgeRecorded, r => ConcludePlan(r, FailedWith(JitExpired), a, Replacement)), misled)
  {
    var to := ReceiveJit(d.row);
    ConcludeConcludes(d.(row := to.value), FailedWith(JitExpired), a, Replacement, misled);
    EdgeOk(d, to, a.edgeRecorded, r => ConcludePlan(r, FailedWith(JitExpired), a, Replacement), misled);
  }

  lemma ObservedOk(d: Durable, a: Answers, alive: bool, known: bool)
    requires IsNative(d.row) && !IsTerminal(d.row.state) && Truthful(d, a) && (!alive ==> !d.running)
    ensures PlanOk(d, ObservedPlan(d.row, d.mark, a, alive, known), !Sound(a.decision, alive))
  {
    var misled := !Sound(a.decision, alive);
    if ExitedByItself(d.row.state, a, alive, known) {
      CompletedOk(d, a, known, misled);
    } else if alive && d.row.state.Busy? && a.github == Registered(false) && a.evidence.NoJob? {
      EdgeOk(d, AssignmentNotTaken(d.row), a.edgeRecorded, _ => Plan([], Reconciled), misled);
    } else if d.mark && !alive {
      ConcludeConcludes(d, FailedWith(TerminatedAfterRegistrationTimeout), a, Replacement, misled);
    } else if (d.row.state.Allocated? || d.row.state.JitReceived?) && !alive && a.github.Registered? {
      if d.row.state.Allocated? {
        ExpiredOk(d, a, misled);
      } else {
        ConcludeConcludes(d, FailedWith(JitExpired), a, Replacement, misled);
      }
    } else {
      DecidedOk(d, a, known, alive);
    }
  }

  lemma RecoveredOk(d: Durable, a: Answers, alive: bool, known: bool)
    requires IsNative(d.row) && !IsTerminal(d.row.state) && Truthful(d, a) && (!alive ==> !d.running)
    requires d.row.state == JitReceived ==> d.row.execution.processId.None?
    ensures PlanOk(d, RecoveredPlan(d, a, alive, known), !Sound(a.decision, alive))
  {
    if d.row.state.JitReceived? && alive && a.recoveredPid.Some? && a.recoveredPid.value.Some? {
      var to := Started(d.row, a.recoveredPid.value.value);
      ObservedOk(d.(row := to.value), a, alive, known);
      EdgeOk(d, to, a.startRecorded, r => ObservedPlan(r, d.mark, a, alive, known), !Sound(a.decision, alive));
    } else {
      ObservedOk(d, a, alive, known);
    }
  }

  /** A registration that was only received has no process id yet. */
  predicate WellKept(d: Durable) {
    var s := d.row.state;
    IsNative(d.row) && (s.Allocated? || s.Preparing? || s.Prepared? || s.JitReceived?) ==> d.row.execution.processId.None?
  }

  lemma NativePassIsSafe(d: Durable, a: Answers)
    requires IsNative(d.row) && Truthful(d, a) && WellKept(d)
    ensures PlanOk(d, NativePlan(d, a), a.inspect.Some? && !Sound(a.decision, a.inspect.value))
  {
    var misled := a.inspect.Some? && !Sound(a.decision, a.inspect.value);
    if d.row.state == Cleaned {
      One(d, Scrub(true), misled);
    } else if IsTerminal(d.row.state) {
      CleanConcludes(d, a.clean, Reconciled, misled);
      CleanNeverReplaces(d.row, a.clean);
    } else if a.inspect.Some? {
      var alive := a.inspect.value;
      if a.observedId && !d.runnerId {
        var e := Apply(d, WriteRunnerId);
        RecoveredOk(e, a, alive, true);
        assert RecoveredPlan(e, a, alive, true) == RecoveredPlan(d, a, alive, true);
        PrependOk(d, WriteRunnerId, RecoveredPlan(d, a, alive, true), misled);
      } else {
        RecoveredOk(d, a, alive, Known(d, a));
      }
    }
  }

  lemma CleanNeverReplaces(row: RunnerAttempt, c: CleanAnswer)
    ensures !CleanPlan(row, c, Reconciled).progress.Replacement?
  {
  }

  lemma IsolatedObservedOk(d: Durable, a: Answers, live: bool, known: bool, misled: bool)
    requires !IsNative(d.row) && !IsTerminal(d.row.state)
    ensures PlanOk(d, IsolatedObservedPlan(d.row, a, live, known), misled)
  {
    if d.row.state.Busy? && !live && a.github.NotRegistered? && a.completed {
      ConcludeConcludes(d, CompletedJob, a, Reconciled, misled);
    } else if a.decision.TerminateAs? || a.decision.ConcludeAs? {
      ConcludeConcludes(d, a.decision.outcome, a, Replaced(a.decision.outcome), misled);
    } else if a.decision.Observe? && known {
      EdgeOk(d, ObserveEdge(d.row, a.decision.state), a.edgeRecorded, _ => Plan([], Reconciled), misled);
    }
  }

  lemma IsolatedRecoveredOk(d: Durable, row: RunnerAttempt, a: Answers, live: bool, misled: bool)
    requires !IsNative(row) && !IsTerminal(row.state)
    ensures PlanOk(d.(row := row), IsolatedRecoveredPlan(d, row, a, live), misled)
  {
    var e := d.(row := row);
    if a.observedId && !d.runnerId {
      IsolatedObservedOk(Apply(e, WriteRunnerId), a, live, true, misled);
      PrependOk(e, WriteRunnerId, IsolatedObservedPlan(row, a, live, true), misled);
    } else {
      IsolatedObservedOk(e, a, live, a.observedId || d.runnerId, misled);
    }
  }

  lemma IsolatedPassIsSafe(d: Durable, a: Answers, misled: bool)
    requires !IsNative(d.row)
    ensures PlanOk(d, IsolatedPlan(d, a), misled)
  {
    if IsTerminal(d.row.state) {
      CleanConcludes(d, a.clean, Reconciled, misled);
      CleanNeverReplaces(d.row, a.clean);
    } else if d.row.state.Allocated? || d.row.state.Preparing? || d.row.state.Prepared? {
      ConcludeConcludes(d, FailedWith(OtherReason), a, Reconciled, misled);
    } else if a.environment.Some? {
      var live := a.environment.value.Live?;
      assert d.(row := d.row) == d;
      IsolatedRecoveredOk(d, d.row, a, live, misled);
      if d.row.state.JitReceived? && live {
        var to := StartedIsolated(d.row);
        if to.Some? {
          IsolatedRecoveredOk(d, to.value, a, true, misled);
        }
        EdgeOk(d, to, a.startRecorded, r => IsolatedRecoveredPlan(d, r, a, true), misled);
      }
    }
  }

  // ---------------------------------------------------------------------------
  // Runs with crashes
  // ---------------------------------------------------------------------------

  /** A whole pass, a pass cut short by a crash, or the process ending by itself.
      Answers no truthful host gives do not happen. */
  datatype Event = Pass(answers: Answers, cut: Option<nat>) | Exits

  function Done(p: Plan, cut: Option<nat>): seq<Effect> {
    if cut.Some? && cut.value <= |p.effects| then p.effects[..cut.value] else p.effects
  }

  function Step(d: Durable, e: Event): Durable {
    match e
    case Exits => d.(running := false)
    case Pass(a, cut) => if Truthful(d, a) then ApplyAll(d, Done(PassPlan(d, a), cut)) else d
  }

  predicate SoundEvent(e: Event) {
    e.Pass? && e.answers.inspect.Some? ==> Sound(e.answers.decision, e.answers.inspect.value)
  }

  /** A native row is terminal only over a dead process. */
  predicate Inv(d: Durable) {
    WellKept(d) && (IsNative(d.row) && IsTerminal(d.row.state) ==> !d.running)
  }

  lemma PassIsSafe(d: Durable, a: Answers)
    requires Truthful(d, a) && WellKept(d)
    ensures PlanOk(d, PassPlan(d, a), a.inspect.Some? && !Sound(a.decision, a.inspect.value))
  {
    if IsNative(d.row) {
      NativePassIsSafe(d, a);
    } else {
      IsolatedPassIsSafe(d, a, a.inspect.Some? && !Sound(a.decision, a.inspect.value));
    }
  }

  lemma {:induction false} AllowedKeepsInv(d: Durable, es: seq<Effect>)
    requires Inv(d) && AllAllowed(d, es, false)
    ensures Inv(ApplyAll(d, es))
    decreases es
  {
    if es != [] {
      AllowedKeepsInv(Apply(d, es[0]), es[1..]);
    }
  }

  /** What every allowed run of effects leaves: the dead stay dead, terminal rows
      stay terminal, and a mark lasts until the attempt is terminal. */
  predicate Later(d: Durable, e: Durable) {
    && (!d.running ==> !e.running)
    && (IsTerminal(d.row.state) ==> IsTerminal(e.row.state))
    && (d.mark && !IsTerminal(e.row.state) ==> e.mark)
    && (IsNative(d.row) <==> IsNative(e.row)) && d.row.policy == e.row.policy
  }

  lemma {:induction false} AllowedIsLater(d: Durable, es: seq<Effect>, misled: bool)
    requires AllAllowed(d, es, misled)
    ensures Later(d, ApplyAll(d, es)) && (WellKept(d) ==> WellKept(ApplyAll(d, es)))
    decreases es
  {
    if es != [] {
      AllowedIsLater(Apply(d, es[0]), es[1..], misled);
    }
  }

  lemma DoneIsAllowed(d: Durable, p: Plan, cut: Option<nat>, misled: bool)
    requires AllAllowed(d, p.effects, misled)
    ensures AllAllowed(d, Done(p, cut), misled)
  {
    if cut.Some? && cut.value <= |p.effects| {
      PrefixIsAllowed(d, p.effects, misled, cut.value);
    }
  }

  /** Any pass, for any decision, cut anywhere. */
  lemma StepIsLater(d: Durable, e: Event)
    requires WellKept(d)
    ensures Later(d, Step(d, e)) && WellKept(Step(d, e))
  {
    if e.Pass? && Truthful(d, e.answers) {
      var misled := e.answers.inspect.Some? && !Sound(e.answers.decision, e.answers.inspect.value);
      PassIsSafe(d, e.answers);
      DoneIsAllowed(d, PassPlan(d, e.answers), e.cut, misled);
      AllowedIsLater(d, Done(PassPlan(d, e.answers), e.cut), misled);
    }
  }

  lemma StepKeepsInv(d: Durable, e: Event)
    requires Inv(d) && SoundEvent(e)
    ensures Inv(Step(d, e))
  {
    if e.Pass? && Truthful(d, e.answers) {
      PassIsSafe(d, e.answers);
      DoneIsAllowed(d, PassPlan(d, e.answers), e.cut, false);
      AllowedKeepsInv(d, Done(PassPlan(d, e.answers), e.cut));
    }
  }

  function Run(d: Durable, es: seq<Event>): Durable {
    Runs.Run(Step, d, es)
  }

  /** Over every run, with a crash between any two effects of any pass, native
      capacity comes back only over a dead process. */
  lemma {:induction false} CapacityReturnsOverTheDead(d: Durable, es: seq<Event>)
    requires Inv(d) && forall i :: 0 <= i < |es| ==> SoundEvent(es[i])
    ensures Inv(Run(d, es))
    ensures IsNative(Run(d, es).row) && Run(d, es).running ==> CountsAgainstCapacity(Run(d, es).row)
  {
    if es != [] {
      var last := |es| - 1;
      CapacityReturnsOverTheDead(d, es[..last]);
      assert SoundEvent(es[last]);
      StepKeepsInv(Run(d, es[..last]), es[last]);
    }
  }

  /** The state a pass decides from: recovering the process id comes first. */
  function DecidedState(d: Durable, a: Answers): AttemptState {
    if d.row.state.JitReceived? && a.inspect == Some(true) && a.recoveredPid.Some? && a.recoveredPid.value.Some? then Starting
    else d.row.state
  }

  /** The decision in the answers is the one the code takes at that moment. */
  ghost predicate TakesTheDecision(d: Durable, e: Event, t: Timeouts) {
    e.Pass? && e.answers.inspect.Some? ==>
      exists elapsed: int :: e.answers.decision == RecoveryDecision(DecidedState(d, e.answers), e.answers.inspect.value, e.answers.github, elapsed, t)
  }

  lemma DecisionsTakenAreSound(d: Durable, e: Event, t: Timeouts)
    requires TakesTheDecision(d, e, t)
    ensures SoundEvent(e)
  {
    if e.Pass? && e.answers.inspect.Some? {
      var a := e.answers;
      var elapsed: int :| a.decision == RecoveryDecision(DecidedState(d, a), a.inspect.value, a.github, elapsed, t);
      DecisionsAreLegal(DecidedState(d, a), a.inspect.value, a.github, elapsed, t);
    }
  }

  /** The same for the agent as it is: every pass of the run takes the recovery
      decision, and nothing is assumed of it. */
  lemma RecoveryReturnsCapacityOverTheDead(d: Durable, es: seq<Event>, t: Timeouts)
    requires Inv(d) && forall i :: 0 <= i < |es| ==> TakesTheDecision(Run(d, es[..i]), es[i], t)
    ensures Inv(Run(d, es))
    ensures IsNative(Run(d, es).row) && Run(d, es).running ==> CountsAgainstCapacity(Run(d, es).row)
  {
    forall i | 0 <= i < |es| ensures SoundEvent(es[i]) {
      DecisionsTakenAreSound(Run(d, es[..i]), es[i], t);
    }
    CapacityReturnsOverTheDead(d, es);
  }

  lemma {:induction false} RunIsLater(d: Durable, es: seq<Event>)
    requires WellKept(d)
    ensures Later(d, Run(d, es)) && WellKept(Run(d, es))
  {
    if es != [] {
      var last := |es| - 1;
      RunIsLater(d, es[..last]);
      StepIsLater(Run(d, es[..last]), es[last]);
    }
  }

  lemma {:induction false} EffectWasAllowed(d: Durable, es: seq<Effect>, misled: bool, n: nat)
    requires AllAllowed(d, es, misled) && n < |es|
    ensures Allowed(ApplyAll(d, es[..n]), es[n], misled)
    decreases n
  {
    if n > 0 {
      EffectWasAllowed(Apply(d, es[0]), es[1..], misled, n - 1);
      assert es[..n][1..] == es[1..][..n - 1];
    }
  }

  /** Whatever recovery decides, after any run a pass signals only a process whose
      terminate mark is durable, and a pass that was told to terminate concludes
      only over a dead one. */
  lemma TerminationIsOrdered(d: Durable, es: seq<Event>, a: Answers, n: nat)
    requires WellKept(d) && Truthful(Run(d, es), a) && n < |PassPlan(Run(d, es), a).effects|
    ensures var fs := PassPlan(Run(d, es), a).effects;
      var at := ApplyAll(Run(d, es), fs[..n]);
      && (fs[n].Signal? ==> at.mark)
      && (fs[n].Write? && !a.decision.ConcludeAs? && IsNative(fs[n].row) && IsTerminal(fs[n].row.state) && !IsTerminal(at.row.state) ==> !at.running)
  {
    RunIsLater(d, es);
    var e := Run(d, es);
    PassIsSafe(e, a);
    EffectWasAllowed(e, PassPlan(e, a).effects, a.inspect.Some? && !Sound(a.decision, a.inspect.value), n);
  }

  // ---------------------------------------------------------------------------
  // Interrupted terminations
  // ---------------------------------------------------------------------------

  /** A pass in which the host and the journal do what they are asked. */
  predicate Works(a: Answers) {
    a.inspect == Some(false) && a.idWritten && a.edgeRecorded && a.concludeRecorded && !a.clean.CleanFailed?
  }

  lemma ConcludeEnds(row: RunnerAttempt, o: Outcome, a: Answers, after: Progress)
    requires IsNative(row) && !IsTerminal(row.state) && ReachableFrom(o, row.state) && CanTransition(row.state, TerminalState(o)) && Works(a)
    ensures ConcludePlan(row, o, a, after).progress == after
  {
  }

  lemma MarkedDeadIsConcluded(d: Durable, a: Answers, known: bool)
    requires IsNative(d.row) && !IsTerminal(d.row.state) && d.mark && !d.running && Works(a) && Truthful(d, a)
    ensures var p := ObservedPlan(d.row, d.mark, a, false, known);
      && p.progress == (if ExitedByItself(d.row.state, a, false, known) then Reconciled else Replacement)
      && IsTerminal(ApplyAll(d, p.effects).row.state)
  {
    if ExitedByItself(d.row.state, a, false, known) {
      var (w, o) := CompletedOutcome(d.row.state, a, known).value;
      if w == Stay {
        ConcludeEnds(d.row, o, a, Reconciled);
        ConcludeConcludes(d, o, a, Reconciled, false);
      } else {
        var to := if w == WalkToBusy then AssignedJob(d.row) else AssignmentNotTaken(d.row);
        ConcludeEnds(to.value, o, a, Reconciled);
        ConcludeConcludes(d.(row := to.value), o, a, Reconciled, false);
        Cons(d, Write(to.value), ConcludePlan(to.value, o, a, Reconciled).effects, false);
      }
    } else {
      ConcludeEnds(d.row, FailedWith(TerminatedAfterRegistrationTimeout), a, Replacement);
      ConcludeConcludes(d, FailedWith(TerminatedAfterRegistrationTimeout), a, Replacement, false);
    }
  }

  /** A termination interrupted anywhere after its process died is finished by
      the next pass in which the host and the journal work, whatever happened in
      between. It is replaced exactly when the runner was not seen to have exited
      successfully. */
  lemma InterruptedTerminationIsFinished(d: Durable, es: seq<Event>, a: Answers)
    requires IsNative(d.row) && WellKept(d) && d.mark && !d.running && Works(a)
    requires !IsTerminal(Run(d, es).row.state)
    ensures var e := Run(d, es);
      && Truthful(e, a)
      && IsTerminal(Step(e, Pass(a, None)).row.state)
      && PassPlan(e, a).progress == (if ExitedByItself(e.row.state, a, false, Known(e, a)) then Reconciled else Replacement)
  {
    RunIsLater(d, es);
    var e := Run(d, es);
    var p := PassPlan(e, a);
    if a.observedId && !e.runnerId {
      var f := Apply(e, WriteRunnerId);
      MarkedDeadIsConcluded(f, a, true);
      Cons(e, WriteRunnerId, ObservedPlan(e.row, e.mark, a, false, true).effects, false);
    } else {
      MarkedDeadIsConcluded(e, a, Known(e, a));
    }
  }

  /** A crash after n effects of a plan that begins with one more. */
  lemma CutPrepend(d: Durable, e: Effect, p: Plan, n: nat)
    requires n <= |p.effects|
    ensures Prepend(e, p).effects[..n + 1] == [e] + p.effects[..n]
    ensures ApplyAll(d, Prepend(e, p).effects[..n + 1]) == ApplyAll(Apply(d, e), p.effects[..n])
  {
    Cons(d, e, p.effects[..n], false);
  }

  /** The effects of a plan that happened before a crash, if there was one. */
  function Reached(p: Plan, cut: Option<nat>): nat {
    if cut.Some? && cut.value <= |p.effects| then cut.value else |p.effects|
  }

  lemma DoneIsAPrefix(p: Plan, cut: Option<nat>)
    ensures Done(p, cut) == p.effects[..Reached(p, cut)]
  {
  }

  lemma ConcludedPrefix(d: Durable, o: Outcome, a: Answers, after: Progress, n: nat)
    requires IsNative(d.row) && !IsTerminal(d.row.state) && !d.running && n <= |ConcludePlan(d.row, o, a, after).effects|
    ensures var end := ApplyAll(d, ConcludePlan(d.row, o, a, after).effects[..n]);
      if n == 0 then end == d else IsTerminal(end.row.state)
  {
    var p := ConcludePlan(d.row, o, a, after);
    if n > 0 {
      var c := Conclude(d.row, o).value;
      var concluded := Apply(d, Write(c));
      var clean := CleanPlan(c, a.clean, after);
      CutPrepend(d, Write(c), clean, n - 1);
      CleanConcludes(concluded, a.clean, after, false);
      PrefixIsAllowed(concluded, clean.effects, false, n - 1);
      AllowedIsLater(concluded, clean.effects[..n - 1], false);
    }
  }

  /** A termination for idleness, cut after n effects: marked once the first
      happened, and concluded once the third did. */
  lemma IdleTerminationCut(d: Durable, a: Answers, n: nat)
    requires IsNative(d.row) && d.row.state == Idle && Truthful(d, a) && n <= |TerminatePlan(d.row, a, ExitedIdleWithoutWork).effects|
    ensures var end := ApplyAll(d, TerminatePlan(d.row, a, ExitedIdleWithoutWork).effects[..n]);
      && (IsTerminal(end.row.state) <==> n >= 3)
      && (n < 3 ==> end.row == d.row && end.runnerId == d.runnerId && (n > 0 ==> end.mark))
      && (n == 0 ==> end == d)
  {
    var p := TerminatePlan(d.row, a, ExitedIdleWithoutWork);
    if a.marked.MarkFailed? {
      if n == 1 {
        assert p.effects[..1] == [Mark];
        One(d, Mark, false);
      }
    } else if n > 0 {
      var rest := AfterSignalPlan(d.row, a, ExitedIdleWithoutWork);
      var marked := Apply(d, Mark);
      var signalled := Apply(marked, Signal(a.stop.died));
      CutPrepend(d, Mark, Prepend(Signal(a.stop.died), rest), n - 1);
      if n > 1 {
        CutPrepend(marked, Signal(a.stop.died), rest, n - 2);
        if a.stop.StopDone? && a.inspectAgain == Some(false) {
          ConcludedPrefix(signalled, ExitedIdleWithoutWork, a, Reconciled, n - 2);
        }
      }
    }
  }

  /** A pass over a live idle runner that recovery wants stopped. */
  predicate StopsForIdleness(d: Durable, a: Answers) {
    && IsNative(d.row) && d.row.state == Idle && WellKept(d) && Truthful(d, a)
    && a.inspect == Some(true) && a.decision == TerminateAs(ExitedIdleWithoutWork)
  }

  /** What such a pass leaves behind, wherever it is cut: the attempt concluded, its
      row as it was with the mark, or nothing but perhaps the runner id. */
  lemma IdlePassLeaves(d: Durable, a: Answers, cut: Option<nat>)
    requires StopsForIdleness(d, a)
    ensures var e := Step(d, Pass(a, cut));
      IsTerminal(e.row.state) || (e.row == d.row && (e.mark || e.(runnerId := d.runnerId) == d))
  {
    var p := PassPlan(d, a);
    DoneIsAPrefix(p, cut);
    var n := Reached(p, cut);
    var t := TerminatePlan(d.row, a, ExitedIdleWithoutWork);
    if a.observedId && !d.runnerId {
      if a.idWritten && n > 0 {
        var named := Apply(d, WriteRunnerId);
        assert p == Prepend(WriteRunnerId, t);
        CutPrepend(d, WriteRunnerId, t, n - 1);
        IdleTerminationCut(named, a, n - 1);
      }
    } else {
      assert p == t;
      IdleTerminationCut(d, a, n);
    }
  }

  /** Exactly which answers and which cut let that pass record its conclusion: the
      mark written, the stop done, the process seen dead, the write accepted, and
      the agent alive until then. */
  predicate RecordsItsConclusion(d: Durable, a: Answers, cut: Option<nat>) {
    var named := a.observedId && !d.runnerId;
    && (named ==> a.idWritten) && a.marked.Marked? && a.stop.StopDone? && a.inspectAgain == Some(false) && a.concludeRecorded
    && (cut.None? || cut.value >= if named then 4 else 3)
  }

  lemma TerminationHasItsEffects(row: RunnerAttempt, a: Answers)
    requires IsNative(row) && row.state == Idle
    ensures |TerminatePlan(row, a, ExitedIdleWithoutWork).effects| >= 3 <==>
      a.marked.Marked? && a.stop.StopDone? && a.inspectAgain == Some(false) && a.concludeRecorded
  {
  }

  lemma ConcludesExactlyWhen(d: Durable, a: Answers, cut: Option<nat>)
    requires StopsForIdleness(d, a)
    ensures IsTerminal(Step(d, Pass(a, cut)).row.state) <==> RecordsItsConclusion(d, a, cut)
  {
    var p := PassPlan(d, a);
    DoneIsAPrefix(p, cut);
    var n := Reached(p, cut);
    var t := TerminatePlan(d.row, a, ExitedIdleWithoutWork);
    TerminationHasItsEffects(d.row, a);
    if a.observedId && !d.runnerId {
      if a.idWritten {
        var named := Apply(d, WriteRunnerId);
        assert p == Prepend(WriteRunnerId, t);
        if n > 0 {
          CutPrepend(d, WriteRunnerId, t, n - 1);
          IdleTerminationCut(named, a, n - 1);
        }
      }
    } else {
      assert p == t;
      IdleTerminationCut(d, a, n);
    }
  }

  /** The mark does not say why a runner was stopped. Once a pass has marked a
      surplus runner stopped for idleness, and the next pass that works finds it
      dead, it is replaced as if its registration had timed out, unless the first
      pass recorded its conclusion or the second sees that it exited by itself. A
      crash is one way to get there; a stop that answers late, a look that fails
      and a write that is refused are others. A pass that neither marked nor
      concluded it did nothing to it. */
  lemma IdleExitIsReplacedExactlyWhen(d: Durable, a: Answers, cut: Option<nat>, b: Answers)
    requires StopsForIdleness(d, a) && Works(b) && Truthful(Step(d, Pass(a, cut)), b)
    ensures var e := Step(d, Pass(a, cut));
      if e.mark || RecordsItsConclusion(d, a, cut)
      then PassPlan(e, b).progress == Replacement <==> !RecordsItsConclusion(d, a, cut) && !ExitedByItself(Idle, b, false, Known(e, b))
      else e.(runnerId := d.runnerId) == d
  {
    var e := Step(d, Pass(a, cut));
    IdlePassLeaves(d, a, cut);
    ConcludesExactlyWhen(d, a, cut);
    StepIsLater(d, Pass(a, cut));
    if RecordsItsConclusion(d, a, cut) {
      CleanNeverReplaces(e.row, b.clean);
    } else if e.mark {
      InterruptedTerminationIsFinished(e, [], b);
    }
  }

  /** The crash: a surplus runner stopped by its idle timeout is not replaced by the
      pass that stops it, but if the agent dies right after the kill, the pass after
      the restart calls it a registration timeout and asks for a replacement. */
  lemma InterruptedIdleExitIsReplaced(d: Durable, a: Answers, b: Answers)
    requires IsNative(d.row) && d.row.state == Idle && d.running && !d.mark && Truthful(d, a)
    requires a.inspect == Some(true) && !a.observedId && a.github == Registered(false) && a.decision == TerminateAs(ExitedIdleWithoutWork)
    requires a.marked.Marked? && a.stop == StopDone(true) && a.inspectAgain == Some(false) && a.concludeRecorded && !a.clean.CleanFailed?
    requires Works(b) && !b.completed && !b.observedId
    ensures PassPlan(d, a).progress == Reconciled
    ensures var crashed := Step(d, Pass(a, Some(2)));
      && crashed.row == d.row && PassPlan(crashed, b).progress == Replacement
      && ConcludePlan(d.row, FailedWith(TerminatedAfterRegistrationTimeout), b, Replacement) == PassPlan(crashed, b)
  {
    var p := PassPlan(d, a);
    var rest := AfterSignalPlan(d.row, a, ExitedIdleWithoutWork);
    assert p == Prepend(Mark, Prepend(Signal(true), rest));
    assert p.effects == [Mark, Signal(true)] + rest.effects;
    assert p.effects[..2] == [Mark, Signal(true)];
    var marked := Apply(d, Mark);
    Two(d, Mark, Signal(true), false);
    var crashed := Step(d, Pass(a, Some(2)));
    assert crashed == d.(mark := true, running := false);
    assert !ExitedByItself(crashed.row.state, b, false, Known(crashed, b));
    ConcludeEnds(d.row, FailedWith(TerminatedAfterRegistrationTimeout), b, Replacement);
  }

  /** And without one: the stop fails, or answers that the runner is still there,
      while it dies. */
  lemma LateIdleExitIsReplaced(d: Durable, a: Answers, b: Answers)
    requires StopsForIdleness(d, a) && !a.observedId && a.marked.Marked? && !a.stop.StopDone? && a.stop.died
    requires Works(b) && !b.completed
    ensures var e := Step(d, Pass(a, None));
      Truthful(e, b) && !PassPlan(d, a).progress.Replacement? && PassPlan(e, b).progress == Replacement
  {
    var p := PassPlan(d, a);
    assert p.effects == [Mark, Signal(true)] + [];
    assert p.effects == [Mark, Signal(true)];
    var marked := Apply(d, Mark);
    Two(d, Mark, Signal(true), false);
    IdleExitIsReplacedExactlyWhen(d, a, None, b);
  }

  // ---------------------------------------------------------------------------
  // What is replaced
  // ---------------------------------------------------------------------------

  /** The outcomes that leave demand unserved through no choice of the agent's. */
  predicate Warrants(o: Option<Outcome>) {
    || o == Some(FailedWith(JitExpired))
    || o == Some(FailedWith(ProcessExitedUnexpectedly))
    || o == Some(FailedWith(TerminatedAfterRegistrationTimeout))
  }

  /** A pass that ends well asks for a replacement exactly when it left the row
      terminal with such an outcome. */
  predicate Fair(d: Durable, p: Plan) {
    var end := ApplyAll(d, p.effects).row;
    !p.progress.Errored? ==> (p.progress.Replacement? <==> IsTerminal(end.state) && Warrants(end.outcome))
  }

  lemma PrependFair(d: Durable, e: Effect, p: Plan)
    requires Fair(Apply(d, e), p)
    ensures Fair(d, Prepend(e, p))
  {
    Cons(d, e, p.effects, false);
  }

  lemma EdgeFair(d: Durable, to: Option<RunnerAttempt>, recorded: bool, rest: RunnerAttempt -> Plan)
    requires to.Some? ==> Fair(d.(row := to.value), rest(to.value))
    ensures Fair(d, EdgePlan(to, recorded, rest))
  {
    if to.Some? && recorded {
      PrependFair(d, Write(to.value), rest(to.value));
    }
  }

  lemma CleanKeepsOutcome(d: Durable, c: CleanAnswer, after: Progress)
    requires IsNative(d.row) && IsTerminal(d.row.state)
    ensures var p := CleanPlan(d.row, c, after);
      && (p.progress == after || p.progress == Errored)
      && ApplyAll(d, p.effects).row.outcome == d.row.outcome && IsTerminal(ApplyAll(d, p.effects).row.state)
  {
    var p := CleanPlan(d.row, c, after);
    if |p.effects| == 1 {
      One(d, p.effects[0], true);
    } else if |p.effects| == 2 {
      Two(d, p.effects[0], p.effects[1], true);
    }
  }

  lemma ConcludeFair(d: Durable, o: Outcome, a: Answers, after: Progress)
    requires IsNative(d.row) && (after.Replacement? <==> Warrants(Some(o)))
    ensures Fair(d, ConcludePlan(d.row, o, a, after))
  {
    var c := Conclude(d.row, o);
    if c.Some? && a.concludeRecorded {
      CleanKeepsOutcome(Apply(d, Write(c.value)), a.clean, after);
      PrependFair(d, Write(c.value), CleanPlan(c.value, a.clean, after));
    }
  }

  lemma TerminateFair(d: Durable, a: Answers, o: Outcome)
    requires IsNative(d.row) && !IsTerminal(d.row.state)
    ensures Fair(d, TerminatePlan(d.row, a, o))
  {
    if !a.marked.MarkFailed? {
      var marked := Apply(d, Mark);
      var signalled := Apply(marked, Signal(a.stop.died));
      if a.stop.StopDone? && a.inspectAgain == Some(false) {
        if o.ExitedIdleWithoutWork? {
          ConcludeFair(signalled, o, a, Reconciled);
        } else {
          ConcludeFair(signalled, FailedWith(TerminatedAfterRegistrationTimeout), a, Replacement);
        }
      }
      PrependFair(marked, Signal(a.stop.died), AfterSignalPlan(d.row, a, o));
      PrependFair(d, Mark, Prepend(Signal(a.stop.died), AfterSignalPlan(d.row, a, o)));
    }
  }

  /** Recovery never derives the outcome that only the agent's own mark can tell. */
  predicate LeavesMarkAlone(x: Decision) {
    x != ConcludeAs(FailedWith(TerminatedAfterRegistrationTimeout))
  }

  lemma DecisionsLeaveMarkAlone(s: AttemptState, alive: bool, github: Github, elapsed: int, t: Timeouts)
    ensures LeavesMarkAlone(RecoveryDecision(s, alive, github, elapsed, t))
  {
  }

  lemma DecidedFair(d: Durable, a: Answers, known: bool)
    requires IsNative(d.row) && !IsTerminal(d.row.state) && LeavesMarkAlone(a.decision)
    ensures Fair(d, DecidedPlan(d.row, a, known))
  {
    if a.decision.ConcludeAs? {
      ConcludeFair(d, a.decision.outcome, a, Replaced(a.decision.outcome));
    } else if a.decision.TerminateAs? {
      TerminateFair(d, a, a.decision.outcome);
    } else if a.decision.Observe? && known {
      EdgeFair(d, ObserveEdge(d.row, a.decision.state), a.edgeRecorded, _ => Plan([], Reconciled));
    }
  }

  lemma CompletedFair(d: Durable, a: Answers, w: Walk, o: Outcome)
    requires IsNative(d.row) && !Warrants(Some(o))
    ensures Fair(d, CompletedPlan(d.row, a, w, o))
  {
    if w == Stay {
      ConcludeFair(d, o, a, Reconciled);
    } else {
      var to := if w == WalkToBusy then AssignedJob(d.row) else AssignmentNotTaken(d.row);
      if to.Some? {
        ConcludeFair(d.(row := to.value), o, a, Reconciled);
      }
      EdgeFair(d, to, a.edgeRecorded, r => ConcludePlan(r, o, a, Reconciled));
    }
  }

  lemma ObservedFair(d: Durable, a: Answers, alive: bool, known: bool)
    requires IsNative(d.row) && !IsTerminal(d.row.state) && LeavesMarkAlone(a.decision)
    ensures Fair(d, ObservedPlan(d.row, d.mark, a, alive, known))
  {
    if ExitedByItself(d.row.state, a, alive, known) {
      var (w, o) := CompletedOutcome(d.row.state, a, known).value;
      CompletedFair(d, a, w, o);
    } else if alive && d.row.state.Busy? && a.github == Registered(false) && a.evidence.NoJob? {
      EdgeFair(d, AssignmentNotTaken(d.row), a.edgeRecorded, _ => Plan([], Reconciled));
    } else if d.mark && !alive {
      ConcludeFair(d, FailedWith(TerminatedAfterRegistrationTimeout), a, Replacement);
    } else if (d.row.state.Allocated? || d.row.state.JitReceived?) && !alive && a.github.Registered? {
      if d.row.state.Allocated? {
        ConcludeFair(d.(row := ReceiveJit(d.row).value), FailedWith(JitExpired), a, Replacement);
        EdgeFair(d, ReceiveJit(d.row), a.edgeRecorded, r => ConcludePlan(r, FailedWith(JitExpired), a, Replacement));
      } else {
        ConcludeFair(d, FailedWith(JitExpired), a, Replacement);
      }
    } else {
      DecidedFair(d, a, known);
    }
  }

  lemma RecoveredFair(d: Durable, e: Durable, a: Answers, alive: bool, known: bool)
    requires IsNative(d.row) && !IsTerminal(d.row.state) && LeavesMarkAlone(a.decision) && e.row == d.row && e.mark == d.mark
    ensures Fair(e, RecoveredPlan(d, a, alive, known))
  {
    if d.row.state.JitReceived? && alive && a.recoveredPid.Some? && a.recoveredPid.value.Some? {
      var to := Started(d.row, a.recoveredPid.value.value);
      ObservedFair(e.(row := to.value), a, alive, known);
      EdgeFair(e, to, a.startRecorded, r => ObservedPlan(r, d.mark, a, alive, known));
    } else {
      ObservedFair(e, a, alive, known);
    }
  }

  /** Of all native passes over an attempt that is not yet terminal, those that end
      well ask for a replacement exactly when they concluded it with an outcome
      that warrants one, whatever the host, GitHub and the journal answer. */
  lemma ReplacementFollowsTheOutcome(d: Durable, a: Answers)
    requires IsNative(d.row) && !IsTerminal(d.row.state) && LeavesMarkAlone(a.decision)
    ensures Fair(d, PassPlan(d, a))
  {
    if a.inspect.Some? {
      var alive := a.inspect.value;
      RecoveredFair(d, d, a, alive, Known(d, a));
      RecoveredFair(d, Apply(d, WriteRunnerId), a, alive, true);
      PrependFair(d, WriteRunnerId, RecoveredPlan(d, a, alive, true));
    }
  }
}
