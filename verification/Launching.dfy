/** That the lifecycle of isolated attempts gets somewhere: a launch in which
    everything works ends with a running environment named by its row, and each
    observation moves a row along the edge it stands for. */
module Launching {
  import opened Wrappers
  import opened Attempts
  import opened Journal
  import opened IsolatedLifecycle
  import opened CleanupOrder
  import Runs

  /** A row of an isolated attempt on its way up. */
  function RowAt(i: AttemptId, p: PolicyId, s: AttemptState, x: Option<EnvironmentId>, image: Image, g: Generation): RunnerAttempt {
    RunnerAttempt(i, p, s, None, Isolated(x, image, g), Ephemeral)
  }

  /** An isolated row on an ephemeral workspace is always written, once its identity
      is only ever filled in. */
  lemma RowIsWritten(rows: Rows, a: RunnerAttempt)
    requires a.workspace == Ephemeral && (a.id in rows ==> CanAdvanceTo(rows[a.id].execution, a.execution) && rows[a.id].workspace == Ephemeral)
    ensures Record(rows, a) == Some(rows[a.id := a])
  {
  }

  /** A launch in flight for a row that is what the journal says. */
  predicate Flying(w: World, p: PolicyId, point: LaunchPoint, a: RunnerAttempt) {
    && p in w.launches && w.launches[p] == Launch(point, a) && a.id in w.rows && w.rows[a.id] == a
    && a.policy == p && a.workspace == Ephemeral && !IsNative(a)
  }

  lemma Begins(w: World, p: PolicyId, i: AttemptId, image: Image, g: Generation)
    requires w.recovered && p !in w.launches && i !in w.rows && forall x :: x in w.births ==> w.births[x].labels.generation != g
    ensures var a := RowAt(i, p, Allocated, None, image, g);
      Apply(w, LaunchBegin(p, i, image, g)) == w.(rows := w.rows[i := a], launches := w.launches[p := Launch(Materializing, a)])
  {
    RowIsWritten(w.rows, RowAt(i, p, Allocated, None, image, g));
  }

  lemma BeginsToPrepare(w: World, p: PolicyId, a: RunnerAttempt)
    requires Flying(w, p, Materializing, a) && a.state == Allocated
    ensures var b := a.(state := Preparing);
      Apply(w, LaunchBeginPrepare(p)) == w.(rows := w.rows[a.id := b], launches := w.launches[p := Launch(CallingPrepare, b)])
  {
    RowIsWritten(w.rows, a.(state := Preparing));
  }

  lemma Prepares(w: World, p: PolicyId, a: RunnerAttempt, x: EnvironmentId)
    requires Flying(w, p, CallingPrepare, a) && x !in w.births
    ensures var l := Allocation(w.host, a);
      Apply(w, LaunchPrepare(p, x, PrepareOk))
        == w.(environments := w.environments[x := Environment(l, Created)], births := w.births[x := Birth(l, Agent)], launches := w.launches[p := Launch(PrepareReturned(x), a)])
  {
  }

  lemma RecordsPrepared(w: World, p: PolicyId, a: RunnerAttempt, x: EnvironmentId)
    requires Flying(w, p, PrepareReturned(x), a) && a.state == Preparing && a.execution.environment.None?
    ensures var b := a.(state := Prepared, execution := a.execution.(environment := Some(x)));
      Apply(w, LaunchRecordPrepared(p)) == w.(rows := w.rows[a.id := b], launches := w.launches[p := Launch(Registering, b)])
  {
    RowIsWritten(w.rows, a.(state := Prepared, execution := a.execution.(environment := Some(x))));
  }

  lemma RecordsJit(w: World, p: PolicyId, a: RunnerAttempt)
    requires Flying(w, p, Registering, a) && a.state == Prepared
    ensures var b := a.(state := JitReceived);
      Apply(w, LaunchRecordJit(p)) == w.(rows := w.rows[a.id := b], launches := w.launches[p := Launch(CallingStart, b)])
  {
    RowIsWritten(w.rows, a.(state := JitReceived));
  }

  lemma Starts(w: World, p: PolicyId, a: RunnerAttempt, x: EnvironmentId)
    requires Flying(w, p, CallingStart, a) && a.state == JitReceived && a.execution.environment == Some(x)
    requires x in w.environments && w.environments[x].labels == Allocation(w.host, a)
    ensures var v := Apply(w, LaunchStart(p, true, true));
      && v.rows == w.rows[a.id := a.(state := Starting)] && p !in v.launches
      && v.environments == w.environments[x := w.environments[x].(status := Up)]
  {
    var acted := SetStatus(w, a, Up);
    RowIsWritten(acted.rows, a.(state := Starting));
  }

  /** A launch of which any step is taken with a failing answer instead. */
  lemma FailingIsConcluded(w: World, p: PolicyId, point: LaunchPoint, a: RunnerAttempt)
    requires Flying(w, p, point, a) && !IsTerminal(a.state) && (point.Materializing? || point.PrepareRefused? || point.Registering?)
    ensures var v := Apply(w, LaunchFail(p));
      v.rows == w.rows[a.id := a.(state := Failed, outcome := Some(FailedWith(OtherReason)))] && p !in v.launches && v.environments == w.environments
  {
    RowIsWritten(w.rows, a.(state := Failed, outcome := Some(FailedWith(OtherReason))));
  }

  lemma ThreeSteps(w: World, e0: Event, e1: Event, e2: Event)
    ensures Run(w, [e0, e1, e2]) == Apply(Apply(Apply(w, e0), e1), e2)
  {
    assert [e0, e1, e2][..2] == [e0, e1] && [e0, e1][..1] == [e0] && [e0][..0] == [];
    assert Run(w, []) == w && Run(w, [e0]) == Apply(Run(w, []), e0);
    assert Run(w, [e0, e1]) == Apply(Run(w, [e0]), e1);
  }

  function Way(p: PolicyId, i: AttemptId, image: Image, g: Generation, x: EnvironmentId): seq<Event> {
    [LaunchBegin(p, i, image, g), LaunchBeginPrepare(p), LaunchPrepare(p, x, PrepareOk)]
  }

  function WayOn(p: PolicyId): seq<Event> {
    [LaunchRecordPrepared(p), LaunchRecordJit(p), LaunchStart(p, true, true)]
  }

  /** Up to the environment. */
  lemma LaunchCanPrepare(w: World, p: PolicyId, i: AttemptId, image: Image, g: Generation, x: EnvironmentId)
    requires w.recovered && p !in w.launches && i !in w.rows && x !in w.births && forall y :: y in w.births ==> w.births[y].labels.generation != g
    ensures var v, a, l := Run(w, Way(p, i, image, g, x)), RowAt(i, p, Preparing, None, image, g), Labels(w.host, i, g, image);
      && Flying(v, p, PrepareReturned(x), a) && v.host == w.host && v.rows == w.rows[i := a]
      && v.environments == w.environments[x := Environment(l, Created)]
  {
    var a := RowAt(i, p, Allocated, None, image, g);
    ThreeSteps(w, LaunchBegin(p, i, image, g), LaunchBeginPrepare(p), LaunchPrepare(p, x, PrepareOk));
    Begins(w, p, i, image, g);
    var w1 := Apply(w, LaunchBegin(p, i, image, g));
    BeginsToPrepare(w1, p, a);
    var w2 := Apply(w1, LaunchBeginPrepare(p));
    Prepares(w2, p, a.(state := Preparing), x);
  }

  /** And from there to the runner. */
  lemma PreparedCanStart(w: World, p: PolicyId, a: RunnerAttempt, x: EnvironmentId)
    requires Flying(w, p, PrepareReturned(x), a) && a.state == Preparing && a.execution.environment.None?
    requires x in w.environments && w.environments[x].labels == Allocation(w.host, a)
    ensures var v := Run(w, WayOn(p));
      && v.rows == w.rows[a.id := a.(state := Starting, execution := a.execution.(environment := Some(x)))] && p !in v.launches
      && v.environments == w.environments[x := w.environments[x].(status := Up)]
  {
    ThreeSteps(w, LaunchRecordPrepared(p), LaunchRecordJit(p), LaunchStart(p, true, true));
    var b := a.(state := Prepared, execution := a.execution.(environment := Some(x)));
    RecordsPrepared(w, p, a, x);
    var w1 := Apply(w, LaunchRecordPrepared(p));
    RecordsJit(w1, p, b);
    var w2 := Apply(w1, LaunchRecordJit(p));
    Starts(w2, p, b.(state := JitReceived), x);
  }

  /** From every state the host can be in once it has recovered, a launch in which
      every answer is good ends with its environment running and named by a row
      that is starting, and touches nothing else. */
  lemma LaunchCanSucceed(w: World, p: PolicyId, i: AttemptId, image: Image, g: Generation, x: EnvironmentId)
    requires w.recovered && p !in w.launches && i !in w.rows && x !in w.births && forall y :: y in w.births ==> w.births[y].labels.generation != g
    ensures var v := Run(w, Way(p, i, image, g, x) + WayOn(p));
      && v.rows == w.rows[i := RowAt(i, p, Starting, Some(x), image, g)] && p !in v.launches
      && v.environments == w.environments[x := Environment(Labels(w.host, i, g, image), Up)]
  {
    LaunchCanPrepare(w, p, i, image, g, x);
    PreparedCanStart(Run(w, Way(p, i, image, g, x)), p, RowAt(i, p, Preparing, None, image, g), x);
    Runs.Splits(Apply, w, Way(p, i, image, g, x), WayOn(p));
  }

  /** The state an observation moves a row to. */
  function Goal(edge: Edge): AttemptState {
    match edge
    case TakeStarted => Starting
    case TakeIdle => Idle
    case TakeBusy => Busy
    case TakeConclude(o) => TerminalState(o)
  }

  predicate Early(s: AttemptState) {
    s.Allocated? || s.Preparing? || s.Prepared?
  }

  /** Whether the row may go there: along the diagram, from a state an outcome can be
      recorded in, and before registration only to be retired. */
  predicate MayGo(a: RunnerAttempt, edge: Edge) {
    && CanTransition(a.state, Goal(edge)) && !IsTerminal(a.state)
    && (Early(a.state) ==> edge == TakeConclude(FailedWith(OtherReason)))
    && (edge.TakeConclude? ==> ReachableFrom(edge.outcome, a.state))
    && (edge.TakeStarted? ==> HasIdentity(a))
  }

  /** Supervision moves a row exactly where the observation says, if it may go, and
      otherwise leaves it. */
  lemma SupervisionFollowsTheObservation(w: World, i: AttemptId, edge: Edge)
    requires Inv(w) && i in w.rows && w.rows[i].policy !in w.launches
    ensures Apply(w, Supervise(i, edge)) == if MayGo(w.rows[i], edge)
      then w.(rows := w.rows[i := w.rows[i].(state := Goal(edge), outcome := if edge.TakeConclude? then Some(edge.outcome) else w.rows[i].outcome)])
      else w
  {
    assert RowOk(w, i);
    var a := w.rows[i];
    EdgeTaken(a, edge);
    RowIsWritten(w.rows, a.(state := Goal(edge), outcome := if edge.TakeConclude? then Some(edge.outcome) else a.outcome));
  }

  lemma EdgeTaken(a: RunnerAttempt, edge: Edge)
    requires !IsNative(a)
    ensures !IsTerminal(a.state) ==> TakeEdge(a, edge) == if MayGo(a, edge)
      then Some(a.(state := Goal(edge), outcome := if edge.TakeConclude? then Some(edge.outcome) else a.outcome))
      else None
  {
  }

  /** A launch that is given up leaves everything but itself as it is. */
  lemma AbandonedIsLeftToRecovery(w: World, p: PolicyId)
    requires p in w.launches
    ensures Apply(w, LaunchAbandon(p)) == w.(launches := w.launches - {p})
  {
  }

  // ---------------------------------------------------------------------------
  // Recovery comes first
  // ---------------------------------------------------------------------------

  lemma OnlyRecoveryRecovers(w: World, e: Event)
    ensures Apply(w, e).recovered == if e.Crash? then false else if e.FinishRecovery? then true else w.recovered
  {
    if IsLaunchStep(e) {
      LaunchLeavesTasks(w, e);
    } else if e.CleanStep? && e.task in w.cleaners {
      StepIsOnlyTask(w, e.task, e.answer);
    }
  }

  /** A recovery was finished, and the agent has not died since. */
  ghost predicate RecoveredSince(es: seq<Event>) {
    exists m :: 0 <= m < |es| && es[m].FinishRecovery? && forall j :: m < j < |es| ==> !es[j].Crash?
  }

  lemma {:induction false} RecoveredMeansSo(host: HostId, es: seq<Event>)
    ensures Run(Init(host), es).recovered <==> RecoveredSince(es)
  {
    if es != [] {
      var last := |es| - 1;
      RecoveredMeansSo(host, es[..last]);
      OnlyRecoveryRecovers(Run(Init(host), es[..last]), es[last]);
      if RecoveredSince(es) && !es[last].FinishRecovery? {
        var m :| 0 <= m < |es| && es[m].FinishRecovery? && forall j :: m < j < |es| ==> !es[j].Crash?;
        assert es[..last][m].FinishRecovery?;
        assert !es[last].Crash?;
      }
      if !es[last].Crash? && RecoveredSince(es[..last]) {
        var m :| 0 <= m < last && es[..last][m].FinishRecovery? && forall j :: m < j < last ==> !es[..last][j].Crash?;
        assert forall j :: m < j < last ==> es[j] == es[..last][j];
      }
      if es[last].FinishRecovery? {
        assert 0 <= last < |es| && es[last].FinishRecovery?;
      }
    }
  }

  /** Over every run, a launch is in flight, and an attempt is allocated, only after
      startup recovery was finished and with no crash since. */
  lemma LaunchesOnlyAfterRecovery(host: HostId, es: seq<Event>, e: Event)
    ensures Run(Init(host), es).launches != map[] ==> RecoveredSince(es)
    ensures e.LaunchBegin? && Apply(Run(Init(host), es), e) != Run(Init(host), es) ==> RecoveredSince(es)
  {
    RecoveredMeansSo(host, es);
    RunKeepsInv(Init(host), es);
    var w := Run(Init(host), es);
    if w.launches != map[] {
      var p :| p in w.launches;
      assert LaunchOk(w, p);
    }
  }
}
