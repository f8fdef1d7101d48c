/** That the agent can always read its own journal: in every run of the
    lifecycle of isolated attempts, every row is one that a life produces and
    that is accepted when it is read. */
module RowsReadBack {
  import opened Wrappers
  import opened Attempts
  import opened Journal
  import opened IsolatedLifecycle
  import opened CleanupOrder
  import Lives = AttemptLives
  import Runs

  predicate Sound(a: RunnerAttempt) {
    Lives.Producible(a) && Lives.Loads(a)
  }

  ghost predicate RowsAreSound(w: World) {
    forall i :: i in w.rows ==> Sound(w.rows[i])
  }

  ghost predicate CopiesAreSound(w: World) {
    forall k :: k in w.cleaners ==> Sound(w.cleaners[k].attempt)
  }

  /** Only a JIT configuration given away too early makes a row unsound. */
  lemma CallIsSound(a: RunnerAttempt, e: Lives.Edge)
    requires Sound(a) && (e.TakeJit? ==> Lives.Identified(a))
    ensures Sound(Lives.Step(a, e))
  {
    Lives.StepIsProducible(a, e);
    Lives.CallKeepsLoadingExactlyWhen(a, e);
  }

  lemma WriteIsSound(w: World, v: World, next: Option<RunnerAttempt>)
    requires RowsAreSound(w) && Wrote(w, v, next) && (next.Some? ==> Sound(next.value))
    ensures RowsAreSound(v)
  {
    if v.rows != w.rows {
      assert v.rows == w.rows[next.value.id := Stored(w.rows, next.value)];
    }
  }

  lemma LaunchNextIsSound(l: Launch, e: Event)
    requires IsLaunchStep(e) && Applies(l.point, e) && Sound(l.attempt) && (l.point.Registering? ==> l.attempt.state == Prepared)
    ensures LaunchNext(l, e).Some? ==> Sound(LaunchNext(l, e).value)
  {
    var a := l.attempt;
    match e
    case LaunchBeginPrepare(_) => CallIsSound(a, Lives.TakePrepare);
    case LaunchRecordPrepared(_) =>
      CallIsSound(a, Lives.TakeEnvironment(l.point.environment));
      CallIsSound(Lives.Step(a, Lives.TakeEnvironment(l.point.environment)), Lives.TakePrepared);
    case LaunchRecordJit(_) => CallIsSound(a, Lives.TakeJit);
    case LaunchStart(_, _, _) => CallIsSound(a, Lives.TakeIsolatedStart);
    case LaunchFail(_) => CallIsSound(a, Lives.TakeOutcome(FailedWith(OtherReason)));
    case _ =>
  }

  lemma LaunchStepIsSound(w: World, e: Event)
    requires Inv(w) && RowsAreSound(w) && IsLaunchStep(e)
    ensures RowsAreSound(ApplyLaunch(w, e))
  {
    if e.policy in w.launches && Applies(w.launches[e.policy].point, e) {
      var l := w.launches[e.policy];
      assert LaunchOk(w, e.policy) && Sound(w.rows[l.attempt.id]);
      LaunchEffects(w, e);
      LaunchNextIsSound(l, e);
      WriteIsSound(w, ApplyLaunch(w, e), LaunchNext(l, e));
    }
  }

  lemma LaunchBeginIsSound(w: World, e: Event)
    requires RowsAreSound(w) && e.LaunchBegin?
    ensures RowsAreSound(Apply(w, e))
  {
    var a := RunnerAttempt(e.attempt, e.policy, Allocated, None, Isolated(None, e.image, e.generation), Ephemeral);
    WriteIsSound(w, Apply(w, e), Some(a));
  }

  lemma ObservationIsSound(a: RunnerAttempt, edge: Edge)
    requires Sound(a)
    ensures TakeEdge(a, edge).Some? ==> Sound(TakeEdge(a, edge).value)
  {
    match edge
    case TakeStarted => CallIsSound(a, Lives.TakeIsolatedStart);
    case TakeIdle => CallIsSound(a, Lives.TakeIdle);
    case TakeBusy => CallIsSound(a, Lives.TakeJob);
    case TakeConclude(o) => CallIsSound(a, Lives.TakeOutcome(o));
  }

  lemma SupervisionIsSound(w: World, i: AttemptId, edge: Edge)
    requires RowsAreSound(w)
    ensures RowsAreSound(ApplySupervise(w, i, edge))
  {
    var v := ApplySupervise(w, i, edge);
    if v.rows != w.rows {
      ObservationIsSound(w.rows[i], edge);
      WriteIsSound(w, v, TakeEdge(w.rows[i], edge));
    }
  }

  lemma AdoptedIsSound(a: RunnerAttempt, x: EnvironmentId)
    requires Sound(a)
    ensures Adopted(a, x).Some? ==> Sound(Adopted(a, x).value)
  {
    CallIsSound(a, Lives.TakeEnvironment(x));
    CallIsSound(Lives.Step(a, Lives.TakeEnvironment(x)), Lives.TakePrepared);
  }

  lemma AdoptionIsSound(w: World, i: AttemptId, seen: set<EnvironmentId>)
    requires RowsAreSound(w)
    ensures RowsAreSound(ApplyAdopt(w, i, seen))
  {
    var v := ApplyAdopt(w, i, seen);
    if v.rows != w.rows {
      var found := Reported(w, w.rows[i], seen);
      assert exists x :: x in found && Adopted(w.rows[i], x).Some? && Wrote(w, v, Adopted(w.rows[i], x)) by {
        OnlyElement(found);
      }
      var x :| x in found && Adopted(w.rows[i], x).Some? && Wrote(w, v, Adopted(w.rows[i], x));
      AdoptedIsSound(w.rows[i], x);
      WriteIsSound(w, v, Adopted(w.rows[i], x));
    }
  }

  lemma CleanNextIsSound(w: World, k: nat)
    requires k in w.cleaners && Sound(w.cleaners[k].attempt)
    ensures CleanNext(w, k).Some? ==> Sound(CleanNext(w, k).value)
  {
    var a := w.cleaners[k].attempt;
    CallIsSound(a, Lives.TakeDestroy);
    CallIsSound(a, Lives.TakeIsolatedClean);
    CallIsSound(a, Lives.TakeDeferral);
  }

  /** A cleanup goes on with the copy it had, or with the one it just wrote. */
  ghost predicate OldOrWritten(w: World, v: World, k: nat, q: nat)
    requires k in w.cleaners && q in v.cleaners
  {
    q in w.cleaners && (v.cleaners[q].attempt == w.cleaners[q].attempt || CleanNext(w, k) == Some(v.cleaners[q].attempt))
  }

  ghost predicate CopiesFollow(w: World, v: World, k: nat)
    requires k in w.cleaners
  {
    forall q :: q in v.cleaners ==> OldOrWritten(w, v, k, q)
  }

  lemma MovingOnFollows(w: World, k: nat, point: CleanPoint)
    requires k in w.cleaners
    ensures CopiesFollow(w, CleanerAt(w, k, point), k) && CopiesFollow(w, Defer(w, k), k) && CopiesFollow(w, EndCleaner(w, k), k)
  {
  }

  lemma EndsFollow(w: World, k: nat)
    requires k in w.cleaners
    ensures w.cleaners[k].point.Opening? ==> CopiesFollow(w, CleanOpen(w, k), k)
    ensures w.cleaners[k].point.Releasing? ==> CopiesFollow(w, CleanRelease(w, k), k)
  {
    MovingOnFollows(w, k, Listing);
  }

  lemma StopFollows(w: World, k: nat, ans: Answer)
    requires k in w.cleaners && w.cleaners[k].point == Stopping
    ensures CopiesFollow(w, CleanStop(w, k, ans), k)
  {
  }

  lemma RemovalFollows(w: World, k: nat, ans: Answer)
    requires k in w.cleaners && w.cleaners[k].point == Removing
    ensures CopiesFollow(w, CleanRemove(w, k, ans), k)
  {
  }

  lemma CleanStepFollows(w: World, k: nat, ans: Answer)
    requires k in w.cleaners
    ensures CopiesFollow(w, ApplyClean(w, k, ans), k)
  {
    match w.cleaners[k].point
    case Opening => EndsFollow(w, k);
    case Listing => MovingOnFollows(w, k, Asking);
    case Asking => MovingOnFollows(w, k, CleanAskPoint(w, k, ans));
    case Owning(live) => MovingOnFollows(w, k, if live then Stopping else Removing);
    case Stopping => StopFollows(w, k, ans);
    case Removing => RemovalFollows(w, k, ans);
    case Confirming => MovingOnFollows(w, k, Relisting);
    case Relisting => MovingOnFollows(w, k, Releasing);
    case Releasing => EndsFollow(w, k);
  }

  lemma CleanStepIsSound(w: World, k: nat, ans: Answer)
    requires k in w.cleaners && RowsAreSound(w) && CopiesAreSound(w)
    ensures RowsAreSound(ApplyClean(w, k, ans)) && CopiesAreSound(ApplyClean(w, k, ans))
  {
    CleanEffects(w, k, ans);
    CleanNextIsSound(w, k);
    CleanStepFollows(w, k, ans);
    var v := ApplyClean(w, k, ans);
    WriteIsSound(w, v, CleanNext(w, k));
    forall q | q in v.cleaners ensures Sound(v.cleaners[q].attempt) {
      assert OldOrWritten(w, v, k, q);
    }
  }

  ghost predicate Readable(w: World) {
    Inv(w) && RowsAreSound(w) && CopiesAreSound(w)
  }

  lemma WriterIsSound(w: World, e: Event)
    requires Inv(w) && RowsAreSound(w) && CopiesAreSound(w) && (e.LaunchBegin? || e.Supervise? || e.RecoverAdopt?)
    ensures RowsAreSound(Apply(w, e)) && CopiesAreSound(Apply(w, e))
  {
    if e.LaunchBegin? {
      LaunchBeginIsSound(w, e);
    } else if e.Supervise? {
      SupervisionIsSound(w, e.attempt, e.edge);
    } else {
      AdoptionIsSound(w, e.attempt, e.seen);
    }
  }

  lemma TaskIsSound(w: World, e: Event)
    requires Inv(w) && RowsAreSound(w) && CopiesAreSound(w) && (IsLaunchStep(e) || e.CleanStep?)
    ensures RowsAreSound(Apply(w, e)) && CopiesAreSound(Apply(w, e))
  {
    if e.CleanStep? {
      if e.task in w.cleaners { CleanStepIsSound(w, e.task, e.answer); }
    } else {
      LaunchStepIsSound(w, e);
      LaunchLeavesTasks(w, e);
    }
  }

  lemma StepIsReadable(w: World, e: Event)
    requires Readable(w)
    ensures Readable(Apply(w, e))
  {
    StepKeepsInv(w, e);
    if e.LaunchBegin? || e.Supervise? || e.RecoverAdopt? {
      WriterIsSound(w, e);
    } else if IsLaunchStep(e) || e.CleanStep? {
      TaskIsSound(w, e);
    }
  }

  lemma RunIsReadable(host: HostId, es: seq<Event>)
    ensures Readable(Run(Init(host), es))
  {
    forall v, e | Readable(v) ensures Readable(Apply(v, e)) { StepIsReadable(v, e); }
    Runs.Keeps(Apply, Readable, Init(host), es);
  }

  /** In every run, with crashes and interleaved cleanups, every row is accepted
      when the journal is read, and is what some life of its attempt produces. */
  lemma EveryRowIsReadBack(host: HostId, es: seq<Event>, i: AttemptId)
    requires i in Run(Init(host), es).rows
    ensures Lives.Loads(Run(Init(host), es).rows[i])
    ensures exists f, calls :: Lives.IsFresh(f) && Lives.LifeOf(f, calls) == Run(Init(host), es).rows[i]
  {
    RunIsReadable(host, es);
    Lives.ProducedExactlyWhen(Run(Init(host), es).rows[i]);
  }
}
