/** What a pass journals: the outcome each way a runner can end is recorded with,
    the edge each observation takes, and when recovery decides on which. */
module Outcomes {
  import opened Wrappers
  import opened Attempts
  import opened Reconcile

  /** The row a whole pass leaves. */
  function EndRow(d: Durable, a: Answers): RunnerAttempt {
    ApplyAll(d, PassPlan(d, a).effects).row
  }

  lemma ConcludeJournals(d: Durable, o: Outcome, a: Answers, after: Progress)
    requires IsNative(d.row) && ReachableFrom(o, d.row.state) && CanTransition(d.row.state, TerminalState(o)) && a.concludeRecorded
    ensures var end := ApplyAll(d, ConcludePlan(d.row, o, a, after).effects).row;
      end.outcome == Some(o) && IsTerminal(end.state)
  {
    var c := Conclude(d.row, o).value;
    CleanKeepsOutcome(Apply(d, Write(c)), a.clean, after);
    Cons(d, Write(c), CleanPlan(c, a.clean, after).effects, false);
  }

  lemma EdgeJournals(d: Durable, to: RunnerAttempt, rest: RunnerAttempt -> Plan)
    ensures ApplyAll(d, EdgePlan(Some(to), true, rest).effects) == ApplyAll(d.(row := to), rest(to).effects)
  {
    Cons(d, Write(to), rest(to).effects, false);
  }

  /** The row a pass leaves, whether or not it first learns the runner's id. */
  lemma EndRowIs(d: Durable, a: Answers)
    requires IsNative(d.row) && !IsTerminal(d.row.state) && a.inspect.Some? && a.idWritten
    ensures EndRow(d, a) == ApplyAll(d.(runnerId := d.runnerId || a.observedId), RecoveredPlan(d, a, a.inspect.value, Known(d, a)).effects).row
  {
    if a.observedId && !d.runnerId {
      Cons(d, WriteRunnerId, RecoveredPlan(d, a, a.inspect.value, true).effects, false);
    } else {
      assert d.(runnerId := d.runnerId || a.observedId) == d;
    }
  }

  // ---------------------------------------------------------------------------
  // Runners that are gone
  // ---------------------------------------------------------------------------

  /** A one-shot runner that exited successfully, and whose diagnostics, or GitHub
      where they are silent, tell whether it ran a job. */
  predicate Finished(s: AttemptState, a: Answers, known: bool) {
    && a.completed && !a.github.Unreachable?
    && (if s.Busy? then !a.evidence.NoEvidence? || a.github.NotRegistered?
        else (s.Starting? || s.Idle?) && a.evidence.RanAJob? && known)
  }

  lemma FinishedIsWhatThePassSees(s: AttemptState, a: Answers, known: bool)
    ensures ExitedByItself(s, a, false, known) <==> Finished(s, a, known)
  {
  }

  /** How the row gets to where its outcome can be recorded. */
  lemma FinishedWalks(s: AttemptState, a: Answers, known: bool)
    requires Finished(s, a, known)
    ensures CompletedOutcome(s, a, known)
      == Some((if !s.Busy? then WalkToBusy else if a.evidence.NoJob? then WalkToIdle else Stay, if a.evidence.NoJob? then ExitedIdleWithoutWork else CompletedJob))
  {
  }

  lemma WalkedIsJournalled(d: Durable, a: Answers, w: Walk, o: Outcome)
    requires IsNative(d.row) && Works(a)
    requires if w.Stay? then d.row.state == Busy && o == CompletedJob
      else if w.WalkToBusy? then (d.row.state == Starting || d.row.state == Idle) && o == CompletedJob
      else d.row.state == Busy && o == ExitedIdleWithoutWork
    ensures var p := CompletedPlan(d.row, a, w, o);
      && ApplyAll(d, p.effects).row.outcome == Some(o) && IsTerminal(ApplyAll(d, p.effects).row.state)
      && p.progress == Reconciled
  {
    if w.Stay? {
      ConcludeJournals(d, o, a, Reconciled);
      ConcludeEnds(d.row, o, a, Reconciled);
    } else {
      var to := if w.WalkToBusy? then AssignedJob(d.row).value else AssignmentNotTaken(d.row).value;
      ConcludeJournals(d.(row := to), o, a, Reconciled);
      ConcludeEnds(to, o, a, Reconciled);
      EdgeJournals(d, to, r => ConcludePlan(r, o, a, Reconciled));
    }
  }

  /** A finished runner is journalled by what it did: a job it ran is completed,
      however short, and an assignment it never took up is an idle exit. */
  lemma FinishedRunnerIsJournalledByItsJob(d: Durable, a: Answers)
    requires IsNative(d.row) && Works(a) && Finished(d.row.state, a, Known(d, a))
    ensures EndRow(d, a).outcome == Some(if a.evidence.NoJob? then ExitedIdleWithoutWork else CompletedJob)
    ensures IsTerminal(EndRow(d, a).state) && PassPlan(d, a).progress == Reconciled
  {
    var known := Known(d, a);
    FinishedIsWhatThePassSees(d.row.state, a, known);
    FinishedWalks(d.row.state, a, known);
    EndRowIs(d, a);
    var named := d.(runnerId := d.runnerId || a.observedId);
    var (w, o) := CompletedOutcome(d.row.state, a, known).value;
    WalkedIsJournalled(named, a, w, o);
  }

  /** A decision to conclude, as an outcome the state allows. */
  predicate Concludable(s: AttemptState, x: Decision) {
    x.ConcludeAs? && ReachableFrom(x.outcome, s) && CanTransition(s, TerminalState(x.outcome))
  }

  /** A dead runner that did not finish is journalled by, in this order: the agent's
      own mark, a registration that outlived it before it started, and what
      recovery decided. */
  lemma DeadRunnerIsJournalledByItsCause(d: Durable, a: Answers)
    requires IsNative(d.row) && !IsTerminal(d.row.state) && Works(a) && !Finished(d.row.state, a, Known(d, a))
    ensures d.mark ==> EndRow(d, a).outcome == Some(FailedWith(TerminatedAfterRegistrationTimeout))
    ensures !d.mark && (d.row.state.Allocated? || d.row.state.JitReceived?) && a.github.Registered? ==>
      EndRow(d, a).outcome == Some(FailedWith(JitExpired)) && PassPlan(d, a).progress == Replacement
    ensures !d.mark && !((d.row.state.Allocated? || d.row.state.JitReceived?) && a.github.Registered?) && Concludable(d.row.state, a.decision) ==>
      EndRow(d, a).outcome == Some(a.decision.outcome)
  {
    FinishedIsWhatThePassSees(d.row.state, a, Known(d, a));
    EndRowIs(d, a);
    var named := d.(runnerId := d.runnerId || a.observedId);
    if d.mark {
      ConcludeJournals(named, FailedWith(TerminatedAfterRegistrationTimeout), a, Replacement);
    } else if (d.row.state.Allocated? || d.row.state.JitReceived?) && a.github.Registered? {
      ExpiredIsJournalled(named, a);
      ExpiredIsReplaced(d.row, a);
    } else if Concludable(d.row.state, a.decision) {
      ConcludeJournals(named, a.decision.outcome, a, Replaced(a.decision.outcome));
    }
  }

  function ExpiredPlan(row: RunnerAttempt, a: Answers): Plan {
    if row.state.Allocated?
    then EdgePlan(ReceiveJit(row), a.edgeRecorded, r => ConcludePlan(r, FailedWith(JitExpired), a, Replacement))
    else ConcludePlan(row, FailedWith(JitExpired), a, Replacement)
  }

  lemma ExpiredIsJournalled(d: Durable, a: Answers)
    requires IsNative(d.row) && (d.row.state.Allocated? || d.row.state.JitReceived?) && Works(a)
    ensures ApplyAll(d, ExpiredPlan(d.row, a).effects).row.outcome == Some(FailedWith(JitExpired))
  {
    if d.row.state.Allocated? {
      var received := ReceiveJit(d.row).value;
      ConcludeJournals(d.(row := received), FailedWith(JitExpired), a, Replacement);
      EdgeJournals(d, received, r => ConcludePlan(r, FailedWith(JitExpired), a, Replacement));
    } else {
      ConcludeJournals(d, FailedWith(JitExpired), a, Replacement);
    }
  }

  lemma ExpiredIsReplaced(row: RunnerAttempt, a: Answers)
    requires IsNative(row) && (row.state.Allocated? || row.state.JitReceived?) && Works(a)
    ensures ExpiredPlan(row, a).progress == Replacement
  {
    if row.state.Allocated? {
      ConcludeEnds(ReceiveJit(row).value, FailedWith(JitExpired), a, Replacement);
    } else {
      ConcludeEnds(row, FailedWith(JitExpired), a, Replacement);
    }
  }

  // ---------------------------------------------------------------------------
  // Runners that are there
  // ---------------------------------------------------------------------------

  /** A pass over a live runner in which the journal does what it is asked. */
  predicate Watches(a: Answers) {
    a.inspect == Some(true) && a.idWritten && a.startRecorded && a.edgeRecorded && a.concludeRecorded && a.recoveredPid.Some?
  }

  /** The row a live runner is judged by: one that only received its registration
      and whose process is known is first journalled as starting, under that id. */
  function Caught(row: RunnerAttempt, a: Answers): RunnerAttempt
    requires a.recoveredPid.Some?
  {
    if IsNative(row) && row.state.JitReceived? && a.recoveredPid.value.Some?
    then row.(state := Starting, execution := Native(a.recoveredPid.value))
    else row
  }

  /** It is the row recovery decides from. */
  lemma DecidesFromTheCaughtRow(d: Durable, a: Answers)
    requires IsNative(d.row) && a.recoveredPid.Some?
    ensures DecidedState(d, a) == if a.inspect == Some(true) then Caught(d.row, a).state else d.row.state
  {
  }

  lemma WatchedEndsAs(d: Durable, a: Answers)
    requires IsNative(d.row) && !IsTerminal(d.row.state) && Watches(a)
    ensures EndRow(d, a) == ApplyAll(d.(runnerId := d.runnerId || a.observedId, row := Caught(d.row, a)), ObservedPlan(Caught(d.row, a), d.mark, a, true, Known(d, a)).effects).row
  {
    EndRowIs(d, a);
    var named := d.(runnerId := d.runnerId || a.observedId);
    if d.row.state.JitReceived? && a.recoveredPid.value.Some? {
      EdgeJournals(named, Caught(d.row, a), r => ObservedPlan(r, d.mark, a, true, Known(d, a)));
    }
  }

  predicate NotTaken(row: RunnerAttempt, a: Answers) {
    row.state.Busy? && a.github == Registered(false) && a.evidence.NoJob?
  }

  /** A decision to follow an observation along the diagram; a starting runner has a
      process id. */
  predicate Shows(row: RunnerAttempt, x: Decision) {
    && x.Observe? && CanTransition(row.state, x.state)
    && (x.state.JitReceived? || x.state.Idle? || x.state.Busy? || (x.state.Starting? && IsNative(row) && row.execution.processId.Some?))
  }

  /** A live runner is journalled by what is seen of it: back to idle when its
      assignment was never taken up, to the state recovery observed, or as it was. */
  lemma LiveRunnerIsJournalledAsSeen(d: Durable, a: Answers)
    requires IsNative(d.row) && !IsTerminal(d.row.state) && Watches(a)
    ensures var row := Caught(d.row, a);
      && (NotTaken(row, a) ==> EndRow(d, a) == row.(state := Idle))
      && (!NotTaken(row, a) && (a.decision.Adopt? || a.decision.Wait? || a.decision.Defer? || a.decision.NothingToDo?) ==> EndRow(d, a) == row)
      && (!NotTaken(row, a) && Shows(row, a.decision) ==>
            EndRow(d, a) == if Known(d, a) then row.(state := a.decision.state) else row)
  {
    WatchedEndsAs(d, a);
    var row := Caught(d.row, a);
    var named := d.(runnerId := d.runnerId || a.observedId, row := row);
    if NotTaken(row, a) {
      EdgeJournals(named, row.(state := Idle), _ => Plan([], Reconciled));
    } else if Shows(row, a.decision) && Known(d, a) {
      EdgeJournals(named, row.(state := a.decision.state), _ => Plan([], Reconciled));
    }
  }

  /** A live runner that is stopped, and seen dead after the stop, is journalled by
      why: an idle exit is no failure and is not replaced, a registration timeout is
      both. */
  lemma StoppedRunnerIsJournalledByReason(d: Durable, a: Answers)
    requires IsNative(d.row) && !IsTerminal(d.row.state) && Watches(a) && !NotTaken(Caught(d.row, a), a) && a.decision.TerminateAs?
    requires a.marked.Marked? && a.stop.StopDone? && a.inspectAgain == Some(false) && !a.clean.CleanFailed?
    requires a.decision.outcome.ExitedIdleWithoutWork? ==> Caught(d.row, a).state == Idle
    ensures if a.decision.outcome.ExitedIdleWithoutWork?
      then EndRow(d, a).outcome == Some(ExitedIdleWithoutWork)
      else EndRow(d, a).outcome == Some(FailedWith(TerminatedAfterRegistrationTimeout))
  {
    WatchedEndsAs(d, a);
    var row := Caught(d.row, a);
    var named := d.(runnerId := d.runnerId || a.observedId, row := row);
    StopJournals(named, a, a.decision.outcome);
  }

  lemma StopJournals(d: Durable, a: Answers, payload: Outcome)
    requires IsNative(d.row) && !IsTerminal(d.row.state) && a.concludeRecorded
    requires a.marked.Marked? && a.stop.StopDone? && a.inspectAgain == Some(false)
    requires payload.ExitedIdleWithoutWork? ==> d.row.state == Idle
    ensures ApplyAll(d, TerminatePlan(d.row, a, payload).effects).row.outcome
      == Some(if payload.ExitedIdleWithoutWork? then payload else FailedWith(TerminatedAfterRegistrationTimeout))
  {
    var rest := AfterSignalPlan(d.row, a, payload);
    var marked := Apply(d, Mark);
    var signalled := Apply(marked, Signal(a.stop.died));
    Cons(d, Mark, Prepend(Signal(a.stop.died), rest).effects, false);
    Cons(marked, Signal(a.stop.died), rest.effects, false);
    if payload.ExitedIdleWithoutWork? {
      ConcludeJournals(signalled, payload, a, Reconciled);
    } else {
      ConcludeJournals(signalled, FailedWith(TerminatedAfterRegistrationTimeout), a, Replacement);
    }
  }

  // ---------------------------------------------------------------------------
  // What cleaning leaves
  // ---------------------------------------------------------------------------

  /** What a whole pass leaves. */
  function EndOf(d: Durable, a: Answers): Durable {
    ApplyAll(d, PassPlan(d, a).effects)
  }

  /** A concluded native attempt whose cleanup succeeds is cleaned and its mark is
      gone with its workspace; otherwise the row stays for the next try. */
  lemma ConcludedNativeIsCleaned(d: Durable, a: Answers)
    requires IsNative(d.row) && IsConcluded(d.row.state)
    ensures PassPlan(d, a).progress == if a.clean.CleanFailed? then Errored else Reconciled
    ensures EndOf(d, a) == match a.clean
      case NotDue => d
      case CleanDeferred(gone) => d.(mark := if gone then false else d.mark)
      case CleanFailed(gone) => d.(mark := if gone then false else d.mark)
      case CleanDone => d.(row := d.row.(state := Cleaned), mark := false)
  {
    var p := PassPlan(d, a);
    if |p.effects| == 1 {
      One(d, p.effects[0], true);
    } else if |p.effects| == 2 {
      Two(d, p.effects[0], p.effects[1], true);
    }
  }

  /** A cleaned native attempt is only tidied up after, and only where its workspace
      was its own. */
  lemma CleanedIsOnlyTidied(d: Durable, a: Answers)
    requires d.row.state == Cleaned
    ensures EndRow(d, a) == d.row && (a.clean.CleanFailed? || PassPlan(d, a).progress == Reconciled)
    ensures PassPlan(d, a).effects == if IsNative(d.row) && d.row.workspace.Ephemeral? && !a.clean.NotDue? then [Scrub(true)] else []
  {
    One(d, Scrub(true), true);
  }

  /** An isolated attempt that is over, wherever its cleanup stands, is cleaned when
      that succeeds and put off when it does not. */
  lemma ConcludedIsolatedIsCleaned(d: Durable, a: Answers)
    requires !IsNative(d.row) && IsTerminal(d.row.state) && d.row.state != Cleaned && d.row.outcome.Some?
    ensures PassPlan(d, a).progress == if a.clean.CleanFailed? then Errored else Reconciled
    ensures EndRow(d, a) == match a.clean
      case NotDue => d.row
      case CleanDeferred(_) => d.row.(state := CleanupDeferred)
      case CleanFailed(_) => d.row.(state := Destroying)
      case CleanDone => d.row.(state := Cleaned)
  {
    if !a.clean.NotDue? {
      if d.row.state == Destroying {
        DestroyingEnds(d, a.clean, Reconciled);
      } else {
        var e := Write(BeginDestroy(d.row).value);
        DestroyingEnds(Apply(d, e), a.clean, Reconciled);
        Cons(d, e, DestroyingPlan(e.row, a.clean, Reconciled).effects, true);
      }
    }
  }

  lemma DestroyingEnds(d: Durable, c: CleanAnswer, after: Progress)
    requires !IsNative(d.row) && d.row.state == Destroying
    ensures DestroyingPlan(d.row, c, after).progress == if c.CleanFailed? then Errored else after
    ensures ApplyAll(d, DestroyingPlan(d.row, c, after).effects).row
      == d.row.(state := if c.CleanFailed? then Destroying else if c.CleanDone? then Cleaned else CleanupDeferred)
  {
    var p := DestroyingPlan(d.row, c, after);
    if p.effects != [] {
      One(d, p.effects[0], true);
    }
  }

  /** A pass that cannot look, or cannot write down the runner's id, ends before it
      has changed anything. */
  lemma BlindPassDoesNothing(d: Durable, a: Answers)
    requires IsNative(d.row) && !IsTerminal(d.row.state)
    ensures a.inspect.None? || (a.observedId && !d.runnerId && !a.idWritten) ==> PassPlan(d, a) == Plan([], Errored)
  {
  }

  // ---------------------------------------------------------------------------
  // Isolated runners
  // ---------------------------------------------------------------------------

  lemma DestroyingKeepsOutcome(d: Durable, c: CleanAnswer, after: Progress)
    requires !IsNative(d.row) && d.row.state == Destroying
    ensures ApplyAll(d, DestroyingPlan(d.row, c, after).effects).row.outcome == d.row.outcome
  {
    var p := DestroyingPlan(d.row, c, after);
    if p.effects != [] {
      One(d, p.effects[0], true);
    }
  }

  lemma IsolatedCleanKeepsOutcome(d: Durable, c: CleanAnswer, after: Progress)
    requires !IsNative(d.row) && IsConcluded(d.row.state)
    ensures ApplyAll(d, CleanIsolatedPlan(d.row, c, after).effects).row.outcome == d.row.outcome
  {
    if !c.NotDue? && BeginDestroy(d.row).Some? {
      var e := Write(BeginDestroy(d.row).value);
      DestroyingKeepsOutcome(Apply(d, e), c, after);
      Cons(d, e, DestroyingPlan(e.row, c, after).effects, false);
    }
  }

  lemma IsolatedConcludeJournals(d: Durable, o: Outcome, a: Answers, after: Progress)
    requires !IsNative(d.row) && ReachableFrom(o, d.row.state) && CanTransition(d.row.state, TerminalState(o)) && a.concludeRecorded
    ensures ApplyAll(d, ConcludePlan(d.row, o, a, after).effects).row.outcome == Some(o)
  {
    var c := Conclude(d.row, o).value;
    IsolatedCleanKeepsOutcome(Apply(d, Write(c)), a.clean, after);
    Cons(d, Write(c), CleanPlan(c, a.clean, after).effects, false);
  }

  /** A preparation that a restart interrupted is retired, whatever the provider
      says. */
  lemma InterruptedPreparationIsRetired(d: Durable, a: Answers)
    requires !IsNative(d.row) && (d.row.state.Allocated? || d.row.state.Preparing? || d.row.state.Prepared?) && a.concludeRecorded
    ensures EndRow(d, a).outcome == Some(FailedWith(OtherReason))
  {
    IsolatedConcludeJournals(d, FailedWith(OtherReason), a, Reconciled);
  }

  /** The provider answered, and what is there, if anything, is the attempt's own. */
  predicate ProviderAnswers(a: Answers) {
    a.environment.Some? && (!a.environment.value.Missing? ==> a.owned == Some(true)) && a.idWritten && a.startRecorded && a.edgeRecorded && a.concludeRecorded
  }

  /** The row an isolated attempt is judged by: one that received its registration
      and whose environment runs is first journalled as starting. */
  function Launched(row: RunnerAttempt, a: Answers): RunnerAttempt
    requires a.environment.Some?
  {
    if row.state.JitReceived? && a.environment.value.Live? then row.(state := Starting) else row
  }

  predicate HasRegistered(s: AttemptState) {
    s.JitReceived? || s.Starting? || s.Idle? || s.Busy?
  }

  lemma IsolatedEndsAs(d: Durable, a: Answers)
    requires !IsNative(d.row) && HasRegistered(d.row.state) && ProviderAnswers(a) && d.row.execution.environment.Some?
    ensures EndRow(d, a) == ApplyAll(d.(runnerId := d.runnerId || a.observedId, row := Launched(d.row, a)),
      IsolatedObservedPlan(Launched(d.row, a), a, a.environment.value.Live?, a.observedId || d.runnerId).effects).row
  {
    var row, live := Launched(d.row, a), a.environment.value.Live?;
    var launched := d.(row := row);
    if d.row.state.JitReceived? && live {
      EdgeJournals(d, row, r => IsolatedRecoveredPlan(d, r, a, true));
    } else {
      assert launched == d;
    }
    if a.observedId && !d.runnerId {
      Cons(launched, WriteRunnerId, IsolatedObservedPlan(row, a, live, true).effects, false);
    } else {
      assert d.(runnerId := d.runnerId || a.observedId, row := row) == launched;
    }
  }

  /** A decision to conclude or to terminate, as an outcome the state allows. */
  predicate Ends(s: AttemptState, x: Decision) {
    (x.ConcludeAs? || x.TerminateAs?) && ReachableFrom(x.outcome, s) && CanTransition(s, TerminalState(x.outcome))
  }

  /** An isolated runner is journalled by what is seen of it: a busy one that exited
      successfully and left GitHub's list completed its job; otherwise what recovery
      decided, a termination being concluded for its cleanup to carry out. */
  lemma IsolatedRunnerIsJournalledAsSeen(d: Durable, a: Answers)
    requires !IsNative(d.row) && HasRegistered(d.row.state) && ProviderAnswers(a) && d.row.execution.environment.Some?
    ensures var row := Launched(d.row, a);
      var done := row.state.Busy? && !a.environment.value.Live? && a.github.NotRegistered? && a.completed;
      && (done ==> EndRow(d, a).outcome == Some(CompletedJob))
      && (!done && Ends(row.state, a.decision) ==> EndRow(d, a).outcome == Some(a.decision.outcome))
      && (!done && (a.decision.Adopt? || a.decision.Wait? || a.decision.Defer? || a.decision.NothingToDo?) ==> EndRow(d, a) == row)
      && (!done && a.decision.Observe? && (a.observedId || d.runnerId) && (a.decision.state.Idle? || a.decision.state.Busy?) && CanTransition(row.state, a.decision.state) ==>
            EndRow(d, a) == row.(state := a.decision.state))
  {
    IsolatedEndsAs(d, a);
    var row := Launched(d.row, a);
    var named := d.(runnerId := d.runnerId || a.observedId, row := row);
    if row.state.Busy? && !a.environment.value.Live? && a.github.NotRegistered? && a.completed {
      IsolatedConcludeJournals(named, CompletedJob, a, Reconciled);
    } else if Ends(row.state, a.decision) {
      IsolatedConcludeJournals(named, a.decision.outcome, a, Replaced(a.decision.outcome));
    } else if a.decision.Observe? && (a.decision.state.Idle? || a.decision.state.Busy?) && CanTransition(row.state, a.decision.state) {
      EdgeJournals(named, row.(state := a.decision.state), _ => Plan([], Reconciled));
    }
  }

  /** An observation that is not of a registered runner, or that has no runner id to
      go with it, is an error. */
  lemma IsolatedObservationNeedsARunner(d: Durable, a: Answers)
    requires !IsNative(d.row) && (d.row.state.Starting? || d.row.state.Idle?) && ProviderAnswers(a) && a.decision.Observe?
    requires !(a.decision.state.Idle? || a.decision.state.Busy?) || !(a.observedId || d.runnerId)
    ensures PassPlan(d, a).progress == Errored && EndRow(d, a) == d.row
  {
    if a.observedId && !d.runnerId {
      One(d, WriteRunnerId, true);
    }
  }

  /** A provider that cannot answer, or an environment that is not the attempt's,
      leaves the row as it is and the pass deferred. */
  lemma UnansweredIsDeferred(d: Durable, a: Answers)
    requires !IsNative(d.row) && HasRegistered(d.row.state)
    ensures !IsTerminal(d.row.state) && a.environment == Some(Missing) && a.observedId && !d.runnerId && !a.idWritten ==> PassPlan(d, a) == Plan([], Errored)
    ensures a.environment.None? || (!a.environment.value.Missing? && a.owned != Some(true)) ==>
      EndRow(d, a) == d.row && PassPlan(d, a).progress == Deferred
  {
  }

  // ---------------------------------------------------------------------------
  // When recovery decides what
  // ---------------------------------------------------------------------------

  /** A process is stopped exactly when it is alive and past its deadline: for
      registering, or, once registered and waiting, for getting work. */
  lemma StopsExactlyWhenOverdue(s: AttemptState, alive: bool, github: Github, elapsed: int, t: Timeouts)
    ensures var x := RecoveryDecision(s, alive, github, elapsed, t);
      && (x == TerminateAs(FailedWith(RegistrationTimedOut)) <==> alive && s == Starting && github.NotRegistered? && elapsed >= t.startup)
      && (x == TerminateAs(ExitedIdleWithoutWork) <==> alive && s == Idle && github == Registered(false) && elapsed >= t.idle)
      && (x.TerminateAs? ==> x.outcome == FailedWith(RegistrationTimedOut) || x.outcome == ExitedIdleWithoutWork)
  {
  }

  /** An attempt is concluded exactly when its process is gone and GitHub, which
      could be asked, explains it, and as what. */
  lemma ConcludesExactlyWhenGone(s: AttemptState, alive: bool, github: Github, elapsed: int, t: Timeouts)
    ensures var x := RecoveryDecision(s, alive, github, elapsed, t);
      && (x == ConcludeAs(FailedWith(JitRequestFailed)) <==> !alive && s == Allocated && github.NotRegistered? && elapsed >= t.jitHandoff)
      && (x == ConcludeAs(FailedWith(JitExpired)) <==> !alive && s == JitReceived && github.NotRegistered? && elapsed >= t.jitHandoff)
      && (x == ConcludeAs(FailedWith(ProcessExitedUnexpectedly)) <==>
            !alive && github.NotRegistered? && (s == Starting || (s == Idle && elapsed < t.idle)))
      && (x == ConcludeAs(ExitedIdleWithoutWork) <==> !alive && s == Idle && github.NotRegistered? && elapsed >= t.idle)
      && (x == ConcludeAs(OrphanedOutcome) <==> !alive && ((s == Idle && github == Registered(false)) || (s == Busy && !github.Unreachable?)))
      && (x.ConcludeAs? ==> x.outcome.ExitedIdleWithoutWork? || x.outcome.OrphanedOutcome? || x.outcome.FailedWith?)
      && (x.ConcludeAs? && x.outcome.FailedWith? ==> x.outcome.reason.JitRequestFailed? || x.outcome.reason.JitExpired? || x.outcome.reason.ProcessExitedUnexpectedly?)
  {
  }

  /** A live process within its deadlines. */
  predicate KeepsRunning(s: AttemptState, github: Github, elapsed: int, t: Timeouts) {
    || s == Allocated || s == JitReceived || s == Busy
    || (s == Starting && github.NotRegistered? && elapsed < t.startup)
    || (s == Idle && (github.NotRegistered? || (github == Registered(false) && elapsed < t.idle)))
  }

  /** What GitHub shows moves a row forward by one edge, and everything else leaves
      it: a live process is kept, a question GitHub could not answer waits. */
  lemma FollowsGithubOtherwise(s: AttemptState, alive: bool, github: Github, elapsed: int, t: Timeouts)
    ensures var x := RecoveryDecision(s, alive, github, elapsed, t);
      && (x == Observe(Busy) <==> (s == Starting || s == Idle) && github == Registered(true))
      && (x == Observe(Idle) <==> s == Starting && github == Registered(false))
      && (x == Observe(JitReceived) <==> s == Allocated && !alive && github.Registered?)
      && (x == Observe(Starting) <==> s == JitReceived && !alive && github.Registered?)
      && (x == Defer <==> !IsTerminal(s) && github.Unreachable?)
      && (x == NothingToDo <==> s == Cleaned)
      && (x == Adopt <==> alive && !github.Unreachable? && KeepsRunning(s, github, elapsed, t))
  {
  }
}
