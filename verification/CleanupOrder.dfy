/** What must have happened, earlier in the same cleanup, before an environment is
    stopped or removed and before its row is cleaned: over every run, with crashes,
    abandoned tasks and any number of other tasks in between. */
module CleanupOrder {
  import opened Wrappers
  import opened Attempts
  import opened IsolatedLifecycle
  import Runs

  function StateAt(w: World, es: seq<Event>, n: nat): World
    requires n <= |es|
  {
    Run(w, es[..n])
  }

  lemma NothingYet(w: World, es: seq<Event>)
    ensures StateAt(w, es, 0) == w
  {
    assert es[..0] == [];
  }

  lemma StateAfter(w: World, es: seq<Event>, n: nat)
    requires n < |es|
    ensures StateAt(w, es, n + 1) == Apply(StateAt(w, es, n), es[n])
  {
    assert es[..n + 1][..n] == es[..n];
  }

  /** Event n is a step of cleanup k, which is in flight then. */
  predicate StepsAt(w: World, es: seq<Event>, n: nat, k: nat) {
    n < |es| && es[n].CleanStep? && es[n].task == k && k in StateAt(w, es, n).cleaners
  }

  function TaskAt(w: World, es: seq<Event>, n: nat, k: nat): Cleaner
    requires n <= |es| && k in StateAt(w, es, n).cleaners
  {
    StateAt(w, es, n).cleaners[k]
  }

  predicate SameAttempt(a: RunnerAttempt, b: RunnerAttempt) {
    a.id == b.id && a.execution == b.execution
  }

  predicate InFlight(w: World, es: seq<Event>, i: nat, m: nat, k: nat)
    requires i <= |es| && k in StateAt(w, es, i).cleaners
  {
    m <= |es| && k in StateAt(w, es, m).cleaners && SameAttempt(TaskAt(w, es, i, k).attempt, TaskAt(w, es, m, k).attempt)
  }

  /** One life of a cleanup: it is in flight throughout, for one attempt, so no
      crash, no end and no new beginning of it falls in between. */
  ghost predicate OneLife(w: World, es: seq<Event>, i: nat, n: nat, k: nat) {
    && i <= n <= |es| && k in StateAt(w, es, i).cleaners
    && forall m {:trigger InFlight(w, es, i, m, k)} :: i <= m <= n ==> InFlight(w, es, i, m, k)
  }

  lemma LivesJoin(w: World, es: seq<Event>, i: nat, j: nat, n: nat, k: nat)
    requires OneLife(w, es, i, j, k) && OneLife(w, es, j, n, k)
    ensures OneLife(w, es, i, n, k)
  {
    assert InFlight(w, es, i, j, k);
    forall m | i <= m <= n ensures InFlight(w, es, i, m, k) {
      if m <= j {
        assert InFlight(w, es, i, m, k);
      } else {
        assert InFlight(w, es, j, m, k);
      }
    }
  }

  // ---------------------------------------------------------------------------
  // One step back
  // ---------------------------------------------------------------------------

  /** What a step of a cleanup was answered if it went on to `next`. A listing that
      failed reports nothing and is passed. */
  predicate Answered(w: World, k: nat, ans: Answer, next: CleanPoint)
    requires k in w.cleaners
  {
    var c := w.cleaners[k];
    && Follows(c.point, next)
    && (c.point.Listing? ==> ans.fault || |Reported(w, c.attempt, ans.seen)| <= 1)
    && (c.point.Owning? ==> Owns(w, c.attempt, ans.fault) == Some(true))
    && (next.Relisting? ==> Current(w, c.attempt, ans.fault) == Some(EnvMissing))
  }

  /** The world after a step of cleanup k, as far as its tasks go. */
  ghost predicate OnlyTask(w: World, v: World, k: nat)
    requires k in w.cleaners
  {
    && v.recovered == w.recovered
    && (k in v.cleaners ==> SameAttempt(w.cleaners[k].attempt, v.cleaners[k].attempt))
    && (forall j :: j != k ==> (j in v.cleaners <==> j in w.cleaners))
    && (forall j :: j != k && j in w.cleaners ==> v.cleaners[j] == w.cleaners[j])
  }

  lemma WriteIsOnlyTask(w: World, k: nat, next: Option<RunnerAttempt>, point: Option<CleanPoint>)
    requires k in w.cleaners && (next.Some? ==> SameAttempt(w.cleaners[k].attempt, next.value))
    ensures OnlyTask(w, CleanerWrite(w, k, next, point), k)
  {
  }

  lemma DeferIsOnlyTask(w: World, k: nat)
    requires k in w.cleaners
    ensures OnlyTask(w, Defer(w, k), k)
  {
    WriteIsOnlyTask(w, k, DeferCleanup(w.cleaners[k].attempt), None);
  }

  lemma CleanerAtIsOnlyTask(w: World, k: nat, p: CleanPoint)
    requires k in w.cleaners
    ensures OnlyTask(w, CleanerAt(w, k, p), k)
  {
  }

  lemma OpenIsOnlyTask(w: World, k: nat)
    requires k in w.cleaners
    ensures OnlyTask(w, CleanOpen(w, k), k)
  {
    CleanerAtIsOnlyTask(w, k, Listing);
    WriteIsOnlyTask(w, k, BeginDestroy(w.cleaners[k].attempt), Some(Listing));
  }

  lemma StopIsOnlyTask(w: World, k: nat, ans: Answer)
    requires k in w.cleaners
    ensures OnlyTask(w, CleanStop(w, k, ans), k)
  {
    var a := w.cleaners[k].attempt;
    if HasIdentity(a) {
      var acted := if ans.fault && !ans.effect then w else SetStatus(w, a, Down);
      DeferIsOnlyTask(acted, k);
      CleanerAtIsOnlyTask(acted, k, Removing);
    }
  }

  lemma RemoveIsOnlyTask(w: World, k: nat, ans: Answer)
    requires k in w.cleaners
    ensures OnlyTask(w, CleanRemove(w, k, ans), k)
  {
    var a := w.cleaners[k].attempt;
    if HasIdentity(a) {
      var acted := if ans.fault && !ans.effect then w else RemoveEnvironment(w, a);
      DeferIsOnlyTask(acted, k);
      CleanerAtIsOnlyTask(acted, k, Confirming);
    }
  }

  lemma StepIsOnlyTask(w: World, k: nat, ans: Answer)
    requires k in w.cleaners
    ensures OnlyTask(w, ApplyClean(w, k, ans), k)
  {
    DeferIsOnlyTask(w, k);
    match w.cleaners[k].point
    case Opening => OpenIsOnlyTask(w, k);
    case Listing => CleanerAtIsOnlyTask(w, k, Asking);
    case Asking => CleanerAtIsOnlyTask(w, k, CleanAskPoint(w, k, ans));
    case Owning(live) => CleanerAtIsOnlyTask(w, k, if live then Stopping else Removing);
    case Stopping => StopIsOnlyTask(w, k, ans);
    case Removing => RemoveIsOnlyTask(w, k, ans);
    case Confirming => CleanerAtIsOnlyTask(w, k, Relisting);
    case Relisting => CleanerAtIsOnlyTask(w, k, Releasing);
    case Releasing => WriteIsOnlyTask(w, k, CleanIsolated(w.cleaners[k].attempt), None);
  }

  lemma LaunchWriteLeavesTasks(w: World, p: PolicyId, next: Option<RunnerAttempt>, point: Option<LaunchPoint>)
    ensures LaunchWrite(w, p, next, point).cleaners == w.cleaners && LaunchWrite(w, p, next, point).recovered == w.recovered
  {
  }

  lemma LaunchLeavesTasks(w: World, e: Event)
    requires IsLaunchStep(e)
    ensures ApplyLaunch(w, e).cleaners == w.cleaners && ApplyLaunch(w, e).recovered == w.recovered
  {
    var p := e.policy;
    if p in w.launches && Applies(w.launches[p].point, e) {
      if e.LaunchStart? {
        var a := w.launches[p].attempt;
        if HasIdentity(a) {
          LaunchWriteLeavesTasks(if e.started then SetStatus(w, a, Up) else w, p, StartedIsolated(a), None);
        }
      } else if !e.LaunchPrepare? && !e.LaunchAbandon? {
        LaunchWriteLeavesTasks(w, p, LaunchNext(w.launches[p], e), NextPoint(e));
      }
    }
  }

  /** A cleanup in flight after an event that is not its own step was there before,
      just as it is, or begins with that event. */
  lemma OthersLeaveItAlone(w: World, e: Event, k: nat)
    requires k in Apply(w, e).cleaners && !(e.CleanStep? && e.task == k)
    ensures if k in w.cleaners then Apply(w, e).cleaners[k] == w.cleaners[k] else Apply(w, e).cleaners[k].point == Opening
  {
    if IsLaunchStep(e) {
      LaunchLeavesTasks(w, e);
    } else if e.CleanStep? && e.task in w.cleaners {
      StepIsOnlyTask(w, e.task, e.answer);
    }
  }

  lemma OwnStepIsAnswered(w: World, k: nat, ans: Answer)
    requires k in w.cleaners && k in ApplyClean(w, k, ans).cleaners
    ensures var c := ApplyClean(w, k, ans).cleaners[k];
      Answered(w, k, ans, c.point) && SameAttempt(w.cleaners[k].attempt, c.attempt)
  {
    PointsFollowInOrder(w, k, ans);
    StepIsOnlyTask(w, k, ans);
    if !Proven(w.cleaners[k].point) {
      ProofIsTheAnswerMissing(w, k, ans);
    }
  }

  lemma LastWasItsOwn(w: World, es: seq<Event>, n: nat, k: nat)
    requires n < |es| && es[n].CleanStep? && es[n].task == k && k in StateAt(w, es, n + 1).cleaners
    ensures StepsAt(w, es, n, k) && OneLife(w, es, n, n + 1, k)
    ensures Answered(StateAt(w, es, n), k, es[n].answer, TaskAt(w, es, n + 1, k).point)
  {
    StateAfter(w, es, n);
    OwnStepIsAnswered(StateAt(w, es, n), k, es[n].answer);
    assert InFlight(w, es, n, n, k) && InFlight(w, es, n, n + 1, k);
  }

  lemma LastWasAnothers(w: World, es: seq<Event>, n: nat, k: nat)
    requires n < |es| && !(es[n].CleanStep? && es[n].task == k) && k in StateAt(w, es, n + 1).cleaners
    requires TaskAt(w, es, n + 1, k).point != Opening
    ensures k in StateAt(w, es, n).cleaners && TaskAt(w, es, n + 1, k) == TaskAt(w, es, n, k)
  {
    StateAfter(w, es, n);
    OthersLeaveItAlone(StateAt(w, es, n), es[n], k);
  }

  lemma LifeGoesOn(w: World, es: seq<Event>, j: nat, n: nat, k: nat)
    requires n < |es| && OneLife(w, es, j, n, k) && k in StateAt(w, es, n + 1).cleaners
    requires k in StateAt(w, es, n).cleaners && TaskAt(w, es, n + 1, k) == TaskAt(w, es, n, k)
    ensures OneLife(w, es, j, n + 1, k)
  {
    assert InFlight(w, es, j, n, k);
    assert InFlight(w, es, j, n + 1, k);
  }

  /** The step that brought a cleanup to where it is, and what it was answered. */
  lemma {:induction false} CameFrom(w: World, es: seq<Event>, n: nat, k: nat) returns (j: nat)
    requires n <= |es| && k !in w.cleaners && k in StateAt(w, es, n).cleaners && TaskAt(w, es, n, k).point != Opening
    ensures j < n && StepsAt(w, es, j, k) && OneLife(w, es, j, n, k)
    ensures Answered(StateAt(w, es, j), k, es[j].answer, TaskAt(w, es, n, k).point)
    decreases n
  {
    NothingYet(w, es);
    if es[n - 1].CleanStep? && es[n - 1].task == k {
      j := n - 1;
      LastWasItsOwn(w, es, j, k);
    } else {
      LastWasAnothers(w, es, n - 1, k);
      j := CameFrom(w, es, n - 1, k);
      LifeGoesOn(w, es, j, n - 1, k);
    }
  }

  // ---------------------------------------------------------------------------
  // The order over a whole life
  // ---------------------------------------------------------------------------

  /** An earlier step of the same life that listed without finding a duplicate, or
      whose listing failed. */
  ghost predicate ListedBefore(w: World, es: seq<Event>, i: nat, n: nat, k: nat) {
    && i < n && StepsAt(w, es, i, k) && OneLife(w, es, i, n, k) && TaskAt(w, es, i, k).point == Listing
    && (es[i].answer.fault || |Reported(StateAt(w, es, i), TaskAt(w, es, i, k).attempt, es[i].answer.seen)| <= 1)
  }

  /** An earlier step of the same life that was told the environment is its own. */
  ghost predicate OwnedBefore(w: World, es: seq<Event>, j: nat, n: nat, k: nat) {
    && j < n && StepsAt(w, es, j, k) && OneLife(w, es, j, n, k) && TaskAt(w, es, j, k).point.Owning?
    && Owns(StateAt(w, es, j), TaskAt(w, es, j, k).attempt, es[j].answer.fault) == Some(true)
  }

  /** An earlier step of the same life that was answered Missing. */
  ghost predicate MissingBefore(w: World, es: seq<Event>, j: nat, n: nat, k: nat) {
    && j < n && StepsAt(w, es, j, k) && OneLife(w, es, j, n, k)
    && (TaskAt(w, es, j, k).point == Asking || TaskAt(w, es, j, k).point == Confirming)
    && Current(StateAt(w, es, j), TaskAt(w, es, j, k).attempt, es[j].answer.fault) == Some(EnvMissing)
  }

  lemma AskedAfterListing(w: World, es: seq<Event>, n: nat, k: nat) returns (i: nat)
    requires n <= |es| && k !in w.cleaners && k in StateAt(w, es, n).cleaners && TaskAt(w, es, n, k).point == Asking
    ensures ListedBefore(w, es, i, n, k)
  {
    i := CameFrom(w, es, n, k);
  }

  lemma ListedEarlierStill(w: World, es: seq<Event>, i: nat, j: nat, n: nat, k: nat)
    requires ListedBefore(w, es, i, j, k) && OneLife(w, es, j, n, k)
    ensures ListedBefore(w, es, i, n, k)
  {
    LivesJoin(w, es, i, j, n, k);
  }

  lemma OwnedAfterListing(w: World, es: seq<Event>, n: nat, k: nat) returns (i: nat)
    requires n <= |es| && k !in w.cleaners && k in StateAt(w, es, n).cleaners && TaskAt(w, es, n, k).point.Owning?
    ensures ListedBefore(w, es, i, n, k)
  {
    var asked := CameFrom(w, es, n, k);
    i := AskedAfterListing(w, es, asked, k);
    ListedEarlierStill(w, es, i, asked, n, k);
  }

  lemma ActsAfterOwning(w: World, es: seq<Event>, n: nat, k: nat) returns (j: nat)
    requires n <= |es| && k !in w.cleaners && k in StateAt(w, es, n).cleaners
    requires TaskAt(w, es, n, k).point == Stopping || TaskAt(w, es, n, k).point == Removing
    ensures OwnedBefore(w, es, j, n, k)
  {
    j := CameFrom(w, es, n, k);
    if TaskAt(w, es, j, k).point == Stopping {
      var stopping := j;
      j := CameFrom(w, es, stopping, k);
      LivesJoin(w, es, j, stopping, n, k);
    }
  }

  /** Over every run: wherever a cleanup stops or removes an environment, it has,
      earlier in the same life, listed the allocation without being shown a
      duplicate, unless the listing failed, and after that been told that the
      environment its row names is its own. */
  lemma ActsOnlyOnConfirmedOwnership(w: World, es: seq<Event>, n: nat, k: nat) returns (i: nat, j: nat)
    requires k !in w.cleaners && StepsAt(w, es, n, k)
    requires TaskAt(w, es, n, k).point == Stopping || TaskAt(w, es, n, k).point == Removing
    ensures i < j < n && ListedBefore(w, es, i, n, k) && OwnedBefore(w, es, j, n, k)
  {
    j := ActsAfterOwning(w, es, n, k);
    i := OwnedAfterListing(w, es, j, k);
    ListedEarlierStill(w, es, i, j, n, k);
  }

  lemma ReleasedAfterMissing(w: World, es: seq<Event>, n: nat, k: nat) returns (j: nat)
    requires n <= |es| && k !in w.cleaners && k in StateAt(w, es, n).cleaners && TaskAt(w, es, n, k).point == Releasing
    ensures MissingBefore(w, es, j, n, k)
  {
    var relisting := CameFrom(w, es, n, k);
    j := CameFrom(w, es, relisting, k);
    LivesJoin(w, es, j, relisting, n, k);
  }

  /** Whichever of the two asked, a listing came before it, and if it was the second
      look, a confirmed ownership too. */
  lemma MissingAfterListing(w: World, es: seq<Event>, j: nat, k: nat) returns (i: nat, o: nat)
    requires k !in w.cleaners && StepsAt(w, es, j, k) && (TaskAt(w, es, j, k).point == Asking || TaskAt(w, es, j, k).point == Confirming)
    ensures ListedBefore(w, es, i, j, k)
    ensures TaskAt(w, es, j, k).point == Confirming ==> i < o < j && OwnedBefore(w, es, o, j, k)
  {
    if TaskAt(w, es, j, k).point == Asking {
      i := AskedAfterListing(w, es, j, k);
      o := i;
    } else {
      var removing := CameFrom(w, es, j, k);
      i, o := ActsOnlyOnConfirmedOwnership(w, es, removing, k);
      ListedEarlierStill(w, es, i, removing, j, k);
      LivesJoin(w, es, o, removing, j, k);
    }
  }

  /** Over every run: a row becomes cleaned only by a cleanup of that attempt which,
      earlier in the same life, was answered Missing, and before that listed; if it
      removed an environment on the way, it had been told that it was its own. */
  lemma CleanedOnlyAfterTheAnswerMissing(w: World, es: seq<Event>, n: nat, i: AttemptId) returns (k: nat, listed: nat, owned: nat, missing: nat)
    requires w.cleaners == map[] && n < |es| && i in StateAt(w, es, n).rows && StateAt(w, es, n).rows[i].state != Cleaned
    requires i in StateAt(w, es, n + 1).rows && StateAt(w, es, n + 1).rows[i].state == Cleaned
    ensures StepsAt(w, es, n, k) && TaskAt(w, es, n, k).attempt.id == i
    ensures listed < missing && ListedBefore(w, es, listed, n, k) && MissingBefore(w, es, missing, n, k)
    ensures TaskAt(w, es, missing, k).point == Confirming ==> listed < owned < missing && OwnedBefore(w, es, owned, n, k)
  {
    StateAfter(w, es, n);
    CleanedByRelease(StateAt(w, es, n), es[n], i);
    k := es[n].task;
    missing := ReleasedAfterMissing(w, es, n, k);
    listed, owned := MissingAfterListing(w, es, missing, k);
    ListedEarlierStill(w, es, listed, missing, n, k);
    if TaskAt(w, es, missing, k).point == Confirming {
      LivesJoin(w, es, owned, missing, n, k);
    }
  }

  /** Over every run from the start: an environment that goes without the operator
      removing it was removed by a cleanup that had been told, earlier in the same
      life and after a listing, that this very environment is its attempt's. */
  lemma RemovedOnlyAfterOwnership(host: HostId, es: seq<Event>, n: nat, x: EnvironmentId) returns (k: nat, listed: nat, owned: nat)
    requires n < |es| && !es[n].OperatorRemoves?
    requires x in StateAt(Init(host), es, n).environments && x !in StateAt(Init(host), es, n + 1).environments
    ensures var w := Init(host);
      && StepsAt(w, es, n, k) && listed < owned < n && ListedBefore(w, es, listed, n, k) && OwnedBefore(w, es, owned, n, k)
      && HasIdentity(TaskAt(w, es, owned, k).attempt) && TaskAt(w, es, owned, k).attempt.execution.environment == Some(x)
  {
    var w := Init(host);
    var at := StateAt(w, es, n);
    StateAfter(w, es, n);
    RunKeepsInv(w, es[..n]);
    RemovalsAreOwned(at, es[n], x);
    k := es[n].task;
    listed, owned := ActsOnlyOnConfirmedOwnership(w, es, n, k);
    assert InFlight(w, es, owned, n, k);
    CleanEffects(at, k, es[n].answer);
  }

  // ---------------------------------------------------------------------------
  // What puts a cleanup off
  // ---------------------------------------------------------------------------

  /** What a cleanup is told that it cannot go on from: more than one environment or
      one that is not the row's, an environment it has no name for, no answer, an
      answer that the environment is not its own, a stop or a removal that failed,
      or something still there after the removal. */
  predicate Doubts(w: World, k: nat, ans: Answer)
    requires k in w.cleaners
  {
    var a := w.cleaners[k].attempt;
    match w.cleaners[k].point
    case Opening => false
    case Listing => !ans.fault && Puzzles(w, a, Reported(w, a, ans.seen))
    case Asking => Current(w, a, ans.fault) != Some(EnvMissing) && (Current(w, a, ans.fault).None? || !HasIdentity(a))
    case Owning(_) => Owns(w, a, ans.fault) != Some(true)
    case Stopping => ans.fault
    case Removing => ans.fault
    case Confirming => Inspect(w, a, ans.fault) != Some(EnvMissing)
    case Relisting => !ans.fault && Reported(w, a, ans.seen) != {}
    case Releasing => false
  }

  predicate Puzzles(w: World, a: RunnerAttempt, found: set<EnvironmentId>) {
    || |found| > 1
    || (found != {} && !HasIdentity(a))
    || (exists x :: x in found && HasIdentity(a) && a.execution.environment.value != x)
  }

  lemma ListingPuzzles(w: World, k: nat, ans: Answer)
    requires k in w.cleaners && w.cleaners[k].point == Listing && !IsNative(w.cleaners[k].attempt)
    ensures CleanList(w, k, ans) == if !ans.fault && Puzzles(w, w.cleaners[k].attempt, Reported(w, w.cleaners[k].attempt, ans.seen)) then Defer(w, k) else CleanerAt(w, k, Asking)
  {
    var a := w.cleaners[k].attempt;
    var found := Reported(w, a, ans.seen);
    assert forall x :: x in found ==> (MatchesIntent(w.host, a, x, w.environments[x].labels) <==> !HasIdentity(a) || a.execution.environment.value == x);
  }

  /** What the provider did by then, if the step stops or removes: what it was asked,
      unless it failed without effect. */
  function Acted(w: World, k: nat, ans: Answer): World
    requires k in w.cleaners && (w.cleaners[k].point.Stopping? || w.cleaners[k].point.Removing? ==> HasIdentity(w.cleaners[k].attempt))
  {
    if ans.fault && !ans.effect then w
    else if w.cleaners[k].point.Stopping? then SetStatus(w, w.cleaners[k].attempt, Down)
    else if w.cleaners[k].point.Removing? then RemoveEnvironment(w, w.cleaners[k].attempt)
    else w
  }

  lemma AskingDoubts(w: World, k: nat, ans: Answer)
    requires k in w.cleaners && w.cleaners[k].point == Asking
    ensures CleanAsk(w, k, ans) == if Doubts(w, k, ans) then Defer(w, k) else CleanerAt(w, k, CleanAskPoint(w, k, ans))
  {
  }

  lemma ActingDoubts(w: World, k: nat, ans: Answer)
    requires k in w.cleaners && HasIdentity(w.cleaners[k].attempt)
    ensures w.cleaners[k].point == Stopping ==> CleanStop(w, k, ans) == if ans.fault then Defer(Acted(w, k, ans), k) else CleanerAt(Acted(w, k, ans), k, Removing)
    ensures w.cleaners[k].point == Removing ==> CleanRemove(w, k, ans) == if ans.fault then Defer(Acted(w, k, ans), k) else CleanerAt(Acted(w, k, ans), k, Confirming)
  {
  }

  lemma AnswersDoubt(w: World, k: nat, ans: Answer)
    requires k in w.cleaners
    ensures w.cleaners[k].point.Owning? ==> ApplyClean(w, k, ans) == if Doubts(w, k, ans) then Defer(w, k) else CleanerAt(w, k, if w.cleaners[k].point.live then Stopping else Removing)
    ensures w.cleaners[k].point == Confirming ==> ApplyClean(w, k, ans) == if Doubts(w, k, ans) then Defer(w, k) else CleanerAt(w, k, Relisting)
  {
  }

  /** What carries the labels of an attempt was made for it. */
  lemma OwnEnvironmentsWereBornForIt(w: World, a: RunnerAttempt)
    requires Inv(w) && a.id in w.rows && a.execution == w.rows[a.id].execution
    ensures forall x :: x in w.environments && SameAllocation(w.host, a, w.environments[x].labels) ==> BornFor(w, x, a.id)
  {
    forall x | x in w.environments && SameAllocation(w.host, a, w.environments[x].labels) ensures BornFor(w, x, a.id) {
      assert EnvironmentOk(w, x) && BirthOk(w, x) && RowOk(w, a.id);
    }
  }

  /** The last listing guards against a provider that answered Missing and is not to
      be believed: whatever it shows puts the cleanup off, in any state. In the states
      a run reaches, where the provider told the truth, it can show nothing. */
  lemma LastListingGuards(w: World, k: nat, ans: Answer)
    requires k in w.cleaners && w.cleaners[k].point == Relisting
    ensures ApplyClean(w, k, ans) == if !ans.fault && (exists x :: x in Reported(w, w.cleaners[k].attempt, ans.seen)) then Defer(w, k) else CleanerAt(w, k, Releasing)
    ensures Inv(w) ==> Reported(w, w.cleaners[k].attempt, ans.seen) == {}
  {
    if Inv(w) {
      var a := w.cleaners[k].attempt;
      assert CleanerOk(w, k) && NoneAliveFor(w, a.id);
      OwnEnvironmentsWereBornForIt(w, a);
    }
  }

  ghost predicate PutOffOrOn(w: World, v: World, k: nat, ans: Answer)
    requires k in w.cleaners && (Acting(w.cleaners[k].point) ==> HasIdentity(w.cleaners[k].attempt))
  {
    if Doubts(w, k, ans) then v == Defer(Acted(w, k, ans), k)
    else k in v.cleaners && v == CleanerAt(Acted(w, k, ans), k, v.cleaners[k].point) && Follows(w.cleaners[k].point, v.cleaners[k].point)
  }

  lemma LookPutsOff(w: World, k: nat, ans: Answer)
    requires k in w.cleaners && !IsNative(w.cleaners[k].attempt)
    requires w.cleaners[k].point == Listing || w.cleaners[k].point == Asking || w.cleaners[k].point == Relisting
    ensures PutOffOrOn(w, ApplyClean(w, k, ans), k, ans)
  {
    match w.cleaners[k].point
    case Listing => ListingPuzzles(w, k, ans);
    case Asking => AskingDoubts(w, k, ans);
    case Relisting => LastListingGuards(w, k, ans);
  }

  lemma ActPutsOff(w: World, k: nat, ans: Answer)
    requires k in w.cleaners && HasIdentity(w.cleaners[k].attempt)
    requires w.cleaners[k].point == Stopping || w.cleaners[k].point == Removing
    ensures PutOffOrOn(w, ApplyClean(w, k, ans), k, ans)
  {
    ActingDoubts(w, k, ans);
  }

  /** A cleanup is put off exactly on doubt: it ends, with nothing done but what the
      provider did. Without doubt it goes on. */
  lemma PutOffExactlyOnDoubt(w: World, k: nat, ans: Answer)
    requires Inv(w) && k in w.cleaners && !w.cleaners[k].point.Opening? && !w.cleaners[k].point.Releasing?
    ensures Acting(w.cleaners[k].point) ==> HasIdentity(w.cleaners[k].attempt)
    ensures PutOffOrOn(w, ApplyClean(w, k, ans), k, ans)
  {
    assert CleanerOk(w, k) && RowOk(w, w.cleaners[k].attempt.id);
    match w.cleaners[k].point
    case Stopping => ActPutsOff(w, k, ans);
    case Removing => ActPutsOff(w, k, ans);
    case Owning(_) => AnswersDoubt(w, k, ans);
    case Confirming => AnswersDoubt(w, k, ans);
    case _ => LookPutsOff(w, k, ans);
  }

  /** Being put off is journalled, so that the cleanup is taken up again. */
  lemma PutOffIsJournalled(w: World, k: nat)
    requires Inv(w) && k in w.cleaners && !w.cleaners[k].point.Opening?
    ensures var a, v := w.cleaners[k].attempt, Defer(w, k);
      && k !in v.cleaners && v.environments == w.environments && v.rows == w.rows[a.id := a.(state := CleanupDeferred)]
  {
    assert CleanerOk(w, k) && RowOk(w, w.cleaners[k].attempt.id);
  }

  /** What a stop and a removal do: to the environment the row names, if it carries
      the attempt's labels, and to no other. */
  lemma ActsOnTheNamedEnvironment(w: World, a: RunnerAttempt, x: EnvironmentId)
    requires HasIdentity(a)
    ensures var stopped, removed, own := SetStatus(w, a, Down), RemoveEnvironment(w, a), a.execution.environment == Some(x) && x in w.environments && w.environments[x].labels == Allocation(w.host, a);
      && (x in stopped.environments <==> x in w.environments)
      && (x in stopped.environments ==> stopped.environments[x] == if own then w.environments[x].(status := Down) else w.environments[x])
      && (x in removed.environments <==> x in w.environments && !own)
      && (x in removed.environments ==> removed.environments[x] == w.environments[x])
  {
  }
}
