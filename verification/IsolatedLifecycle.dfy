/** The lifecycle of isolated attempts as a step system.

    The journal and the provider's environments are durable. Launches and
    cleanups in flight live in memory and vanish in a crash. Every step performs
    at most one durable effect, so a crash can fall between any two effects, and
    any task may stop after any step, which covers every early error return.
    Provider calls answer truthfully or fail, a failed call may still have had
    its effect, and enumeration may under-report. */
module IsolatedLifecycle {
  import opened Wrappers
  import opened Attempts
  import opened Journal
  import Runs

  /** The ownership labels written on an environment when it is created. */
  datatype Labels = Labels(host: HostId, attempt: AttemptId, generation: Generation, image: Image)

  datatype Status = Created | Up | Down

  datatype Environment = Environment(labels: Labels, status: Status)

  datatype Origin = Agent | Outsider

  /** History: every environment ever created, and by whom. */
  datatype Birth = Birth(labels: Labels, origin: Origin)

  datatype EnvironmentState = EnvStarting | EnvRunning | EnvExited | EnvMissing

  datatype LaunchPoint =
    | Materializing
    | CallingPrepare
    | PrepareReturned(environment: EnvironmentId)
    | PrepareRefused
    | Registering
    | CallingStart

  datatype Launch = Launch(point: LaunchPoint, attempt: RunnerAttempt)

  datatype CleanPoint =
    | Opening
    | Listing
    | Asking
    | Owning(live: bool)
    | Stopping
    | Removing
    | Confirming
    | Relisting
    | Releasing

  /** The points at which a cleanup has been answered that nothing is left. */
  predicate Proven(p: CleanPoint) {
    p.Relisting? || p.Releasing?
  }

  /** The points at which a cleanup works on the environment its row names. */
  predicate Acting(p: CleanPoint) {
    p.Owning? || p.Stopping? || p.Removing? || p.Confirming?
  }

  /** The states whose rows always name an environment. */
  predicate NamesEnvironment(s: AttemptState) {
    s.Prepared? || s.JitReceived? || s.Starting? || s.Idle? || s.Busy? || s.Finished?
  }

  /** A cleanup in flight, holding the copy of the row it read. Other cleanups
      of the same attempt may have moved the row on since. */
  datatype Cleaner = Cleaner(point: CleanPoint, attempt: RunnerAttempt)

  datatype World = World(
    host: HostId,
    rows: Rows,
    environments: map<EnvironmentId, Environment>,
    births: map<EnvironmentId, Birth>,
    launches: map<PolicyId, Launch>,
    cleaners: map<nat, Cleaner>,
    recovered: bool)

  // ---------------------------------------------------------------------------
  // Ownership
  // ---------------------------------------------------------------------------

  function Allocation(host: HostId, a: RunnerAttempt): Labels
    requires !IsNative(a)
  {
    Labels(host, a.id, a.execution.generation, a.execution.image)
  }

  predicate HasIdentity(a: RunnerAttempt) {
    !IsNative(a) && a.execution.environment.Some?
  }

  predicate SameAllocation(host: HostId, a: RunnerAttempt, l: Labels) {
    !IsNative(a) && l == Allocation(host, a)
  }

  predicate MatchesIntent(host: HostId, a: RunnerAttempt, x: EnvironmentId, l: Labels) {
    SameAllocation(host, a, l) && (a.execution.environment.None? || a.execution.environment.value == x)
  }

  /** The label test recovery filters by; it does not compare the image. */
  predicate MatchesAttemptLabels(host: HostId, a: RunnerAttempt, l: Labels) {
    !IsNative(a) && l.host == host && l.attempt == a.id && l.generation == a.execution.generation
  }

  // ---------------------------------------------------------------------------
  // The provider, when it answers. None is an error.
  // ---------------------------------------------------------------------------

  function Inspect(w: World, a: RunnerAttempt, fault: bool): Option<EnvironmentState> {
    if fault || IsNative(a) || a.execution.environment.None? then None
    else
      var x := a.execution.environment.value;
      if x !in w.environments then Some(EnvMissing)
      else if !SameAllocation(w.host, a, w.environments[x].labels) then None
      else match w.environments[x].status
        case Created => Some(EnvStarting)
        case Up => Some(EnvRunning)
        case Down => Some(EnvExited)
  }

  function Recover(w: World, a: RunnerAttempt, fault: bool): Option<EnvironmentState> {
    if fault || IsNative(a) then None
    else if a.execution.environment.Some? then Inspect(w, a, fault)
    else if exists x :: x in w.environments && MatchesAttemptLabels(w.host, a, w.environments[x].labels)
    then Some(EnvStarting)
    else Some(EnvMissing)
  }

  function Owns(w: World, a: RunnerAttempt, fault: bool): Option<bool> {
    if fault || IsNative(a) || a.execution.environment.None? then None
    else
      var x := a.execution.environment.value;
      Some(x in w.environments && SameAllocation(w.host, a, w.environments[x].labels))
  }

  /** What the provider says about an environment it can be asked about: its status
      when it is the attempt's own, Missing when there is none, and nothing about
      another's. A search by labels finds what carries them. */
  lemma ProviderSpeaksOnlyOfItsOwn(w: World, a: RunnerAttempt, x: EnvironmentId)
    requires !IsNative(a)
    ensures a.execution.environment == Some(x) && x !in w.environments ==> Inspect(w, a, false) == Some(EnvMissing) && Owns(w, a, false) == Some(false)
    ensures a.execution.environment == Some(x) && x in w.environments && w.environments[x].labels != Allocation(w.host, a) ==>
      Inspect(w, a, false) == None && Owns(w, a, false) == Some(false)
    ensures a.execution.environment == Some(x) && x in w.environments && w.environments[x].labels == Allocation(w.host, a) ==>
      Owns(w, a, false) == Some(true) && Inspect(w, a, false) == Some(if w.environments[x].status.Created? then EnvStarting else if w.environments[x].status.Up? then EnvRunning else EnvExited)
    ensures a.execution.environment == Some(x) ==> Recover(w, a, false) == Inspect(w, a, false)
    ensures a.execution.environment.None? ==> Inspect(w, a, false) == None && Owns(w, a, false) == None
    ensures a.execution.environment.None? ==>
      Recover(w, a, false) == Some(if exists y :: y in w.environments && MatchesAttemptLabels(w.host, a, w.environments[y].labels) then EnvStarting else EnvMissing)
    ensures Inspect(w, a, true) == None && Recover(w, a, true) == None && Owns(w, a, true) == None
  {
  }

  /** The reported environments of one allocation; `seen` may leave some out. */
  function Reported(w: World, a: RunnerAttempt, seen: set<EnvironmentId>): set<EnvironmentId> {
    set x | x in seen && x in w.environments && SameAllocation(w.host, a, w.environments[x].labels)
  }

  // ---------------------------------------------------------------------------
  // Steps
  // ---------------------------------------------------------------------------

  datatype PrepareResult = PrepareOk | PrepareFailedClean | PrepareFailedLeavingOne

  datatype Edge =
    | TakeStarted
    | TakeIdle
    | TakeBusy
    | TakeConclude(outcome: Outcome)

  /** What the outside answers to one cleanup step. */
  datatype Answer = Answer(fault: bool, seen: set<EnvironmentId>, effect: bool)

  datatype Event =
    | Crash
    | RecoverAdopt(attempt: AttemptId, seen: set<EnvironmentId>)
    | FinishRecovery
    | LaunchBegin(policy: PolicyId, attempt: AttemptId, image: Image, generation: Generation)
    | LaunchBeginPrepare(policy: PolicyId)
    | LaunchPrepare(policy: PolicyId, environment: EnvironmentId, result: PrepareResult)
    | LaunchRecordPrepared(policy: PolicyId)
    | LaunchRecordJit(policy: PolicyId)
    | LaunchStart(policy: PolicyId, started: bool, answered: bool)
    | LaunchFail(policy: PolicyId)
    | LaunchAbandon(policy: PolicyId)
    | Supervise(attempt: AttemptId, edge: Edge)
    | CleanBegin(task: nat, attempt: AttemptId)
    | CleanStep(task: nat, answer: Answer)
    | CleanAbandon(task: nat)
    | GuestChanges(environment: EnvironmentId, status: Status)
    | OperatorRemoves(environment: EnvironmentId)
    | OutsiderCreates(environment: EnvironmentId, labels: Labels)

  predicate IsLaunchStep(e: Event) {
    e.LaunchBeginPrepare? || e.LaunchPrepare? || e.LaunchRecordPrepared? || e.LaunchRecordJit?
    || e.LaunchStart? || e.LaunchFail? || e.LaunchAbandon?
  }

  function EndLaunch(w: World, p: PolicyId): World {
    w.(launches := w.launches - {p})
  }

  /** Journal a launch's next state and go on at `point`, or end the launch. */
  function LaunchWrite(w: World, p: PolicyId, next: Option<RunnerAttempt>, point: Option<LaunchPoint>): World {
    if next.None? || Record(w.rows, next.value).None? then EndLaunch(w, p)
    else
      var written := w.(rows := Record(w.rows, next.value).value);
      if point.None? then EndLaunch(written, p)
      else written.(launches := w.launches[p := Launch(point.value, next.value)])
  }

  function EndCleaner(w: World, k: nat): World {
    w.(cleaners := w.cleaners - {k})
  }

  function CleanerAt(w: World, k: nat, point: CleanPoint): World
    requires k in w.cleaners
  {
    w.(cleaners := w.cleaners[k := w.cleaners[k].(point := point)])
  }

  function CleanerWrite(w: World, k: nat, next: Option<RunnerAttempt>, point: Option<CleanPoint>): World {
    if next.None? || Record(w.rows, next.value).None? then EndCleaner(w, k)
    else
      var written := w.(rows := Record(w.rows, next.value).value);
      if point.None? then EndCleaner(written, k)
      else written.(cleaners := w.cleaners[k := Cleaner(point.value, next.value)])
  }

  function Defer(w: World, k: nat): World
    requires k in w.cleaners
  {
    CleanerWrite(w, k, DeferCleanup(w.cleaners[k].attempt), None)
  }

  function CreateEnvironment(w: World, x: EnvironmentId, l: Labels, o: Origin): World {
    w.(environments := w.environments[x := Environment(l, Created)],
       births := w.births[x := Birth(l, o)])
  }

  /** No environment of `kept` is new or relabelled. */
  ghost predicate Kept(kept: map<EnvironmentId, Environment>, all: map<EnvironmentId, Environment>) {
    forall x :: x in kept ==> x in all && kept[x].labels == all[x].labels
  }

  /** `podman start` or `podman stop` on the attempt's own environment. */
  function SetStatus(w: World, a: RunnerAttempt, s: Status): (v: World)
    requires HasIdentity(a)
    ensures v == w.(environments := v.environments) && Kept(v.environments, w.environments)
  {
    var x := a.execution.environment.value;
    if x in w.environments && SameAllocation(w.host, a, w.environments[x].labels)
    then w.(environments := w.environments[x := w.environments[x].(status := s)])
    else w
  }

  /** `podman rm --force`, which the provider issues only on matching labels. */
  function RemoveEnvironment(w: World, a: RunnerAttempt): (v: World)
    requires HasIdentity(a)
    ensures v == w.(environments := v.environments) && Kept(v.environments, w.environments)
  {
    var x := a.execution.environment.value;
    if x in w.environments && SameAllocation(w.host, a, w.environments[x].labels)
    then w.(environments := w.environments - {x})
    else w
  }

  // The points of one cleanup, in order.

  function CleanOpen(w: World, k: nat): World
    requires k in w.cleaners
  {
    var a := w.cleaners[k].attempt;
    if a.state == Destroying then CleanerAt(w, k, Listing)
    else CleanerWrite(w, k, BeginDestroy(a), Some(Listing))
  }

  function CleanList(w: World, k: nat, ans: Answer): World
    requires k in w.cleaners
  {
    var a := w.cleaners[k].attempt;
    var found := if ans.fault then {} else Reported(w, a, ans.seen);
    if |found| > 1 || (exists x :: x in found && !MatchesIntent(w.host, a, x, w.environments[x].labels))
    then Defer(w, k)
    else if !HasIdentity(a) && found != {} then Defer(w, k)
    else CleanerAt(w, k, Asking)
  }

  /** What the provider is asked: inspection by id, or a search by labels when
      no id was journalled. */
  function Current(w: World, a: RunnerAttempt, fault: bool): Option<EnvironmentState> {
    if HasIdentity(a) then Inspect(w, a, fault) else Recover(w, a, fault)
  }

  function CleanAsk(w: World, k: nat, ans: Answer): World
    requires k in w.cleaners
  {
    var a := w.cleaners[k].attempt;
    var current := Current(w, a, ans.fault);
    if current.None? then Defer(w, k)
    else if current.value == EnvMissing then CleanerAt(w, k, Relisting)
    else if !HasIdentity(a) then Defer(w, k)
    else CleanerAt(w, k, Owning((current.value.EnvStarting? || current.value.EnvRunning?)))
  }

  function CleanOwn(w: World, k: nat, live: bool, ans: Answer): World
    requires k in w.cleaners
  {
    if Owns(w, w.cleaners[k].attempt, ans.fault) != Some(true) then Defer(w, k)
    else CleanerAt(w, k, if live then Stopping else Removing)
  }

  function CleanStop(w: World, k: nat, ans: Answer): World
    requires k in w.cleaners
  {
    var a := w.cleaners[k].attempt;
    if !HasIdentity(a) then EndCleaner(w, k)
    else
      var acted := if ans.fault && !ans.effect then w else SetStatus(w, a, Down);
      if ans.fault then Defer(acted, k) else CleanerAt(acted, k, Removing)
  }

  function CleanRemove(w: World, k: nat, ans: Answer): World
    requires k in w.cleaners
  {
    var a := w.cleaners[k].attempt;
    if !HasIdentity(a) then EndCleaner(w, k)
    else
      var acted := if ans.fault && !ans.effect then w else RemoveEnvironment(w, a);
      if ans.fault then Defer(acted, k) else CleanerAt(acted, k, Confirming)
  }

  function CleanConfirm(w: World, k: nat, ans: Answer): World
    requires k in w.cleaners
  {
    if Inspect(w, w.cleaners[k].attempt, ans.fault) != Some(EnvMissing) then Defer(w, k)
    else CleanerAt(w, k, Relisting)
  }

  function CleanRelist(w: World, k: nat, ans: Answer): World
    requires k in w.cleaners
  {
    if !ans.fault && Reported(w, w.cleaners[k].attempt, ans.seen) != {} then Defer(w, k)
    else CleanerAt(w, k, Releasing)
  }

  function CleanRelease(w: World, k: nat): World
    requires k in w.cleaners
  {
    CleanerWrite(w, k, CleanIsolated(w.cleaners[k].attempt), None)
  }

  /** One step of a cleanup. */
  function ApplyClean(w: World, k: nat, ans: Answer): World
    requires k in w.cleaners
  {
    match w.cleaners[k].point
    case Opening => CleanOpen(w, k)
    case Listing => CleanList(w, k, ans)
    case Asking => CleanAsk(w, k, ans)
    case Owning(live) => CleanOwn(w, k, live, ans)
    case Stopping => CleanStop(w, k, ans)
    case Removing => CleanRemove(w, k, ans)
    case Confirming => CleanConfirm(w, k, ans)
    case Relisting => CleanRelist(w, k, ans)
    case Releasing => CleanRelease(w, k)
  }

  function TakeEdge(a: RunnerAttempt, e: Edge): Option<RunnerAttempt> {
    if (a.state.Allocated? || a.state.Preparing? || a.state.Prepared?) && e != TakeConclude(FailedWith(OtherReason)) then None
    else match e
      case TakeStarted => StartedIsolated(a)
      case TakeIdle => RegisteredIdle(a)
      case TakeBusy => AssignedJob(a)
      case TakeConclude(o) => Conclude(a, o)
  }

  /** Startup recovery fills in an identity a crash kept from the journal. */
  function Adopted(a: RunnerAttempt, x: EnvironmentId): Option<RunnerAttempt> {
    match PreparedEnvironment(a, x)
    case None => None
    case Some(b) => if b.state == Preparing then MarkPrepared(b) else Some(b)
  }

  function ApplyAdopt(w: World, i: AttemptId, seen: set<EnvironmentId>): World {
    if w.recovered || w.launches != map[] || w.cleaners != map[] || i !in w.rows then w
    else
      var a := w.rows[i];
      var found := Reported(w, a, seen);
      if a.state == Cleaned || HasIdentity(a) || |found| != 1 then w
      else
        OnlyElement(found);
        var x :| x in found && forall y :: y in found ==> y == x;
        var next := Adopted(a, x);
        if next.None? || Record(w.rows, next.value).None? then w
        else w.(rows := Record(w.rows, next.value).value)
  }

  /** Supervision journals one legal edge of a live attempt. */
  function ApplySupervise(w: World, i: AttemptId, edge: Edge): World {
    if i !in w.rows || IsTerminal(w.rows[i].state) || w.rows[i].policy in w.launches then w
    else
      var next := TakeEdge(w.rows[i], edge);
      if next.None? || Record(w.rows, next.value).None? then w
      else w.(rows := Record(w.rows, next.value).value)
  }

  /** Allocation: the first journal write, under a generation never used before. */
  function ApplyLaunchBegin(w: World, p: PolicyId, i: AttemptId, image: Image, generation: Generation): World {
    if !w.recovered || p in w.launches || i in w.rows
       || (exists x :: x in w.births && w.births[x].labels.generation == generation) then w
    else
      var a := RunnerAttempt(i, p, Allocated, None, Isolated(None, image, generation), Ephemeral);
      LaunchWrite(w, p, Some(a), Some(Materializing))
  }

  function ApplyStart(w: World, p: PolicyId, started: bool, answered: bool): World
    requires p in w.launches
  {
    var a := w.launches[p].attempt;
    if !HasIdentity(a) then EndLaunch(w, p)
    else
      var acted := if started then SetStatus(w, a, Up) else w;
      if answered then LaunchWrite(acted, p, StartedIsolated(a), None) else EndLaunch(acted, p)
  }

  function ApplyPrepare(w: World, p: PolicyId, x: EnvironmentId, result: PrepareResult): World
    requires p in w.launches
  {
    var a := w.launches[p].attempt;
    var point := if result == PrepareOk then PrepareReturned(x) else PrepareRefused;
    if x in w.births || IsNative(a) then w
    else
      (if result == PrepareFailedClean then w else CreateEnvironment(w, x, Allocation(w.host, a), Agent))
      .(launches := w.launches[p := Launch(point, a)])
  }

  /** Whether a launch at `point` can take this step next. */
  predicate Applies(point: LaunchPoint, e: Event)
    requires IsLaunchStep(e)
  {
    match e
    case LaunchBeginPrepare(_) => point.Materializing?
    case LaunchPrepare(_, _, _) => point.CallingPrepare?
    case LaunchRecordPrepared(_) => point.PrepareReturned?
    case LaunchRecordJit(_) => point.Registering?
    case LaunchStart(_, _, _) => point.CallingStart?
    case LaunchFail(_) => point.Materializing? || point.PrepareRefused? || point.Registering?
    case LaunchAbandon(_) => true
  }

  /** The row a launch step journals, if it is one that journals. */
  function LaunchNext(l: Launch, e: Event): Option<RunnerAttempt>
    requires IsLaunchStep(e) && Applies(l.point, e)
  {
    match e
    case LaunchBeginPrepare(_) => BeginPrepare(l.attempt)
    case LaunchRecordPrepared(_) =>
      (match PreparedEnvironment(l.attempt, l.point.environment)
       case None => None
       case Some(b) => MarkPrepared(b))
    case LaunchRecordJit(_) => ReceiveJit(l.attempt)
    case LaunchStart(_, _, _) => StartedIsolated(l.attempt)
    case LaunchFail(_) => Conclude(l.attempt, FailedWith(OtherReason))
    case _ => None
  }

  /** Where the launch goes on after that write; None ends it. */
  function NextPoint(e: Event): Option<LaunchPoint> {
    match e
    case LaunchBeginPrepare(_) => Some(CallingPrepare)
    case LaunchRecordPrepared(_) => Some(Registering)
    case LaunchRecordJit(_) => Some(CallingStart)
    case _ => None
  }

  function ApplyLaunch(w: World, e: Event): World
    requires IsLaunchStep(e)
  {
    var p := e.policy;
    if p !in w.launches || !Applies(w.launches[p].point, e) then w
    else if e.LaunchPrepare? then ApplyPrepare(w, p, e.environment, e.result)
    else if e.LaunchStart? then ApplyStart(w, p, e.started, e.answered)
    else if e.LaunchAbandon? then EndLaunch(w, p)
    else LaunchWrite(w, p, LaunchNext(w.launches[p], e), NextPoint(e))
  }

  /** One step of the host. An event that does not apply changes nothing. */
  function Apply(w: World, e: Event): World {
    match e
    case Crash => w.(launches := map[], cleaners := map[], recovered := false)
    case RecoverAdopt(i, seen) => ApplyAdopt(w, i, seen)
    case FinishRecovery => w.(recovered := true)
    case LaunchBegin(p, i, image, generation) => ApplyLaunchBegin(w, p, i, image, generation)
    case Supervise(i, edge) => ApplySupervise(w, i, edge)
    case CleanBegin(k, i) =>
      if i !in w.rows || k in w.cleaners || !IsTerminal(w.rows[i].state) || w.rows[i].state == Cleaned then w
      else w.(cleaners := w.cleaners[k := Cleaner(Opening, w.rows[i])])
    case CleanStep(k, ans) => if k in w.cleaners then ApplyClean(w, k, ans) else w
    case CleanAbandon(k) => EndCleaner(w, k)
    case GuestChanges(x, s) =>
      if x in w.environments then w.(environments := w.environments[x := w.environments[x].(status := s)]) else w
    case OperatorRemoves(x) => w.(environments := w.environments - {x})
    case OutsiderCreates(x, l) =>
      if x in w.births || (exists i :: i in w.rows && !IsNative(w.rows[i]) && w.rows[i].execution.generation == l.generation)
      then w else CreateEnvironment(w, x, l, Outsider)
    case _ => ApplyLaunch(w, e)
  }

  function Run(w: World, es: seq<Event>): World {
    Runs.Run(Apply, w, es)
  }

  function Init(host: HostId): World {
    World(host, map[], map[], map[], map[], map[], false)
  }

  lemma OnlyElement<T>(s: set<T>)
    requires |s| == 1
    ensures exists x :: x in s && forall y :: y in s ==> y == x
  {
    var x :| x in s;
    assert |s - {x}| == 0;
    forall y | y in s ensures y == x {
      assert y != x ==> y in s - {x};
    }
  }

  // ---------------------------------------------------------------------------
  // The invariant
  // ---------------------------------------------------------------------------

  /** The environment was created by this agent for attempt `i`. */
  ghost predicate BornFor(w: World, x: EnvironmentId, i: AttemptId) {
    x in w.births && w.births[x].origin == Agent && w.births[x].labels.attempt == i
  }

  ghost predicate NoneBornFor(w: World, i: AttemptId) {
    forall x :: x in w.births ==> !BornFor(w, x, i)
  }

  ghost predicate NoneAliveFor(w: World, i: AttemptId) {
    forall x :: x in w.environments ==> !BornFor(w, x, i)
  }

  ghost predicate RowOk(w: World, i: AttemptId)
    requires i in w.rows
  {
    var a := w.rows[i];
    && a.id == i && !IsNative(a) && a.workspace == Ephemeral
    && (NamesEnvironment(a.state) ==> HasIdentity(a))
    && (IsTerminal(a.state) ==> a.outcome.Some?)
    && (HasIdentity(a) ==> BornFor(w, a.execution.environment.value, i))
  }

  ghost predicate BirthOk(w: World, x: EnvironmentId)
    requires x in w.births
  {
    var b := w.births[x];
    match b.origin
    case Agent =>
      && b.labels.attempt in w.rows && SameAllocation(w.host, w.rows[b.labels.attempt], b.labels)
      && w.rows[b.labels.attempt].state != Allocated
      && (forall y :: BornFor(w, y, b.labels.attempt) ==> y == x)
    case Outsider =>
      forall i :: i in w.rows && !IsNative(w.rows[i]) ==> w.rows[i].execution.generation != b.labels.generation
  }

  /** The environment still exists, so it is recorded in the history and, if the
      agent made it, its attempt is not cleaned. */
  ghost predicate EnvironmentOk(w: World, x: EnvironmentId)
    requires x in w.environments
  {
    && x in w.births && w.births[x].labels == w.environments[x].labels
    && (w.births[x].origin == Agent ==>
          w.births[x].labels.attempt in w.rows && w.rows[w.births[x].labels.attempt].state != Cleaned)
  }

  ghost predicate LaunchOk(w: World, p: PolicyId)
    requires p in w.launches
  {
    var a := w.launches[p].attempt;
    && w.recovered && a.policy == p && a.id in w.rows && w.rows[a.id] == a
    && match w.launches[p].point
       case Materializing => a.state == Allocated && !HasIdentity(a)
       case CallingPrepare => a.state == Preparing && !HasIdentity(a) && NoneBornFor(w, a.id)
       case PrepareReturned(x) => a.state == Preparing && !HasIdentity(a) && BornFor(w, x, a.id)
       case PrepareRefused => a.state == Preparing
       case Registering => a.state == Prepared
       case CallingStart => a.state == JitReceived
  }

  ghost predicate CleanerOk(w: World, k: nat)
    requires k in w.cleaners
  {
    var a := w.cleaners[k].attempt;
    var point := w.cleaners[k].point;
    && a.id in w.rows && IsTerminal(w.rows[a.id].state) && IsTerminal(a.state)
    && a.execution == w.rows[a.id].execution && a.policy == w.rows[a.id].policy
    && a.workspace == Ephemeral && a.outcome.Some?
    && (point != Opening ==> a.state == Destroying)
    && (Acting(point) ==> HasIdentity(a))
    && (Proven(point) ==> NoneAliveFor(w, a.id))
  }

  ghost predicate Inv(w: World) {
    && (forall i :: i in w.rows ==> RowOk(w, i))
    && (forall x :: x in w.births ==> BirthOk(w, x))
    && (forall x :: x in w.environments ==> EnvironmentOk(w, x))
    && (forall p :: p in w.launches ==> LaunchOk(w, p))
    && (forall k :: k in w.cleaners ==> CleanerOk(w, k))
  }

  // ---------------------------------------------------------------------------
  // Every step keeps the invariant
  // ---------------------------------------------------------------------------

  /** What a journal write on an existing row must meet to keep the invariant. */
  ghost predicate GoodWrite(w: World, b: RunnerAttempt) {
    && b.id in w.rows && Record(w.rows, b).Some?
    && b.policy == w.rows[b.id].policy
    && b.state != Allocated
    && (NamesEnvironment(b.state) ==> HasIdentity(b))
    && (IsTerminal(b.state) ==> b.outcome.Some?)
    && (IsTerminal(w.rows[b.id].state) ==> IsTerminal(b.state))
    && (HasIdentity(b) ==> BornFor(w, b.execution.environment.value, b.id))
    && (b.state == Cleaned ==> NoneAliveFor(w, b.id))
    && (forall p :: p in w.launches ==> w.launches[p].attempt.id != b.id)
    && (forall k :: k in w.cleaners && w.cleaners[k].attempt.id == b.id ==> b.execution == w.rows[b.id].execution)
  }

  lemma WriteKeepsInv(w: World, b: RunnerAttempt)
    requires Inv(w) && GoodWrite(w, b)
    ensures Inv(w.(rows := Record(w.rows, b).value))
  {
    var v := w.(rows := Record(w.rows, b).value);
    assert RowOk(w, b.id);
    assert v.rows[b.id] == b.(workspace := Ephemeral);
    assert forall x, i :: BornFor(w, x, i) <==> BornFor(v, x, i);
    forall i | i in v.rows ensures RowOk(v, i) {
      assert RowOk(w, i);
    }
    forall x | x in v.births ensures BirthOk(v, x) {
      assert BirthOk(w, x);
    }
    forall x | x in v.environments ensures EnvironmentOk(v, x) {
      assert EnvironmentOk(w, x);
      assert b.state == Cleaned ==> !BornFor(w, x, b.id);
    }
    forall p | p in v.launches ensures LaunchOk(v, p) {
      assert LaunchOk(w, p);
    }
    forall k | k in v.cleaners ensures CleanerOk(v, k) {
      assert CleanerOk(w, k);
    }
  }

  /** Losing environments or changing their status keeps the invariant. */
  lemma FewerEnvironments(w: World, kept: map<EnvironmentId, Environment>)
    requires Inv(w)
    requires Kept(kept, w.environments)
    ensures Inv(w.(environments := kept))
  {
    var v := w.(environments := kept);
    assert forall x, i :: BornFor(w, x, i) <==> BornFor(v, x, i);
    forall i | i in v.rows ensures RowOk(v, i) { assert RowOk(w, i); }
    forall x | x in v.births ensures BirthOk(v, x) { assert BirthOk(w, x); }
    forall x | x in v.environments ensures EnvironmentOk(v, x) { assert EnvironmentOk(w, x); }
    forall p | p in v.launches ensures LaunchOk(v, p) { assert LaunchOk(w, p); }
    forall k | k in v.cleaners ensures CleanerOk(v, k) { assert CleanerOk(w, k); }
  }

  /** Forgetting tasks keeps the invariant; so does forgetting everything. */
  lemma FewerTasks(w: World, ls: map<PolicyId, Launch>, cs: map<nat, Cleaner>, recovered: bool)
    requires Inv(w)
    requires forall p :: p in ls ==> p in w.launches && ls[p] == w.launches[p]
    requires forall k :: k in cs ==> k in w.cleaners && cs[k] == w.cleaners[k]
    requires recovered || ls == map[]
    ensures Inv(w.(launches := ls, cleaners := cs, recovered := recovered))
  {
    var v := w.(launches := ls, cleaners := cs, recovered := recovered);
    assert forall x, i :: BornFor(w, x, i) <==> BornFor(v, x, i);
    forall i | i in v.rows ensures RowOk(v, i) { assert RowOk(w, i); }
    forall x | x in v.births ensures BirthOk(v, x) { assert BirthOk(w, x); }
    forall x | x in v.environments ensures EnvironmentOk(v, x) { assert EnvironmentOk(w, x); }
    forall p | p in v.launches ensures LaunchOk(v, p) { assert LaunchOk(w, p); }
    forall k | k in v.cleaners ensures CleanerOk(v, k) { assert CleanerOk(w, k); }
  }

  lemma AddLaunch(w: World, p: PolicyId, l: Launch)
    requires Inv(w)
    requires LaunchOk(w.(launches := w.launches[p := l]), p)
    ensures Inv(w.(launches := w.launches[p := l]))
  {
    var v := w.(launches := w.launches[p := l]);
    assert forall x, i :: BornFor(w, x, i) <==> BornFor(v, x, i);
    forall i | i in v.rows ensures RowOk(v, i) { assert RowOk(w, i); }
    forall x | x in v.births ensures BirthOk(v, x) { assert BirthOk(w, x); }
    forall x | x in v.environments ensures EnvironmentOk(v, x) { assert EnvironmentOk(w, x); }
    forall q | q in v.launches ensures LaunchOk(v, q) { assert q != p ==> LaunchOk(w, q); }
    forall k | k in v.cleaners ensures CleanerOk(v, k) { assert CleanerOk(w, k); }
  }

  lemma AddCleaner(w: World, k: nat, c: Cleaner)
    requires Inv(w)
    requires CleanerOk(w.(cleaners := w.cleaners[k := c]), k)
    ensures Inv(w.(cleaners := w.cleaners[k := c]))
  {
    var v := w.(cleaners := w.cleaners[k := c]);
    assert forall x, i :: BornFor(w, x, i) <==> BornFor(v, x, i);
    forall i | i in v.rows ensures RowOk(v, i) { assert RowOk(w, i); }
    forall x | x in v.births ensures BirthOk(v, x) { assert BirthOk(w, x); }
    forall x | x in v.environments ensures EnvironmentOk(v, x) { assert EnvironmentOk(w, x); }
    forall q | q in v.launches ensures LaunchOk(v, q) { assert LaunchOk(w, q); }
    forall j | j in v.cleaners ensures CleanerOk(v, j) { assert j != k ==> CleanerOk(w, j); }
  }

  lemma EndLaunchKeepsInv(w: World, p: PolicyId)
    requires Inv(w)
    ensures Inv(EndLaunch(w, p))
  {
    var ended := EndLaunch(w, p);
    FewerTasks(w, ended.launches, w.cleaners, w.recovered);
    assert ended == w.(launches := ended.launches, cleaners := w.cleaners, recovered := w.recovered);
  }

  /** A launch's journal write: take the launch out, write, put it back. */
  lemma LaunchWriteKeepsInv(w: World, p: PolicyId, next: Option<RunnerAttempt>, point: Option<LaunchPoint>)
    requires Inv(w) && p in w.launches
    requires next.Some? ==> next.value.id == w.launches[p].attempt.id && next.value.workspace == Ephemeral
    requires next.Some? && Record(w.rows, next.value).Some? ==> GoodWrite(EndLaunch(w, p), next.value)
    requires next.Some? && point.Some? && Record(w.rows, next.value).Some? ==>
      LaunchOk(w.(rows := Record(w.rows, next.value).value,
                  launches := w.launches[p := Launch(point.value, next.value)]), p)
    ensures Inv(LaunchWrite(w, p, next, point))
  {
    EndLaunchKeepsInv(w, p);
    if next.Some? && Record(w.rows, next.value).Some? {
      WriteKeepsInv(EndLaunch(w, p), next.value);
      var written := EndLaunch(w, p).(rows := Record(w.rows, next.value).value);
      if point.Some? {
        var l := Launch(point.value, next.value);
        assert written.launches[p := l] == w.launches[p := l];
        AddLaunch(written, p, l);
      }
    }
  }

  /** No other launch in flight is for the same attempt. */
  lemma OneLaunchPerAttempt(w: World, p: PolicyId, q: PolicyId)
    requires Inv(w) && p in w.launches && q in w.launches && p != q
    ensures w.launches[p].attempt.id != w.launches[q].attempt.id
  {
    assert LaunchOk(w, p) && LaunchOk(w, q);
  }

  /** A cleanup never runs beside a launch of the same attempt. */
  lemma NoCleanupDuringLaunch(w: World, p: PolicyId, k: nat)
    requires Inv(w) && p in w.launches && k in w.cleaners
    ensures w.launches[p].attempt.id != w.cleaners[k].attempt.id
  {
    assert LaunchOk(w, p) && CleanerOk(w, k);
  }

  lemma LaunchIsAlone(w: World, p: PolicyId)
    requires Inv(w) && p in w.launches
    ensures forall q :: q in w.launches && q != p ==> w.launches[q].attempt.id != w.launches[p].attempt.id
    ensures forall k :: k in w.cleaners ==> w.cleaners[k].attempt.id != w.launches[p].attempt.id
  {
    forall q | q in w.launches && q != p ensures w.launches[q].attempt.id != w.launches[p].attempt.id {
      OneLaunchPerAttempt(w, p, q);
    }
    forall k | k in w.cleaners ensures w.cleaners[k].attempt.id != w.launches[p].attempt.id {
      NoCleanupDuringLaunch(w, p, k);
    }
  }

  /** A launch may write any later state of its own attempt that names no
      environment but its own. */
  lemma LaunchGoodWrite(w: World, p: PolicyId, b: RunnerAttempt)
    requires Inv(w) && p in w.launches
    requires b.id == w.launches[p].attempt.id && b.policy == p && Record(w.rows, b).Some?
    requires !(b.state.Allocated? || b.state.Cleaned?) && (IsTerminal(b.state) ==> b.outcome.Some?)
    requires NamesEnvironment(b.state) ==> HasIdentity(b)
    requires HasIdentity(b) ==> BornFor(w, b.execution.environment.value, b.id)
    ensures GoodWrite(EndLaunch(w, p), b)
  {
    LaunchIsAlone(w, p);
    assert LaunchOk(w, p);
    var v := EndLaunch(w, p);
    assert HasIdentity(b) ==> BornFor(v, b.execution.environment.value, b.id);
  }

  lemma BeginPrepareKeepsInv(w: World, p: PolicyId)
    requires Inv(w) && p in w.launches && w.launches[p].point == Materializing
    ensures Inv(LaunchWrite(w, p, BeginPrepare(w.launches[p].attempt), Some(CallingPrepare)))
  {
    var a := w.launches[p].attempt;
    assert LaunchOk(w, p) && RowOk(w, a.id);
    forall x | x in w.births ensures !BornFor(w, x, a.id) { assert BirthOk(w, x); }
    var b := BeginPrepare(a).value;
    if Record(w.rows, b).Some? {
      LaunchGoodWrite(w, p, b);
      var v := w.(rows := Record(w.rows, b).value, launches := w.launches[p := Launch(CallingPrepare, b)]);
      assert NoneBornFor(v, b.id);
      assert LaunchOk(v, p);
    }
    LaunchWriteKeepsInv(w, p, Some(b), Some(CallingPrepare));
  }

  lemma RecordPreparedKeepsInv(w: World, p: PolicyId, x: EnvironmentId)
    requires Inv(w) && p in w.launches && w.launches[p].point == PrepareReturned(x)
    ensures Inv(LaunchWrite(w, p, LaunchNext(w.launches[p], LaunchRecordPrepared(p)), Some(Registering)))
  {
    var a := w.launches[p].attempt;
    assert LaunchOk(w, p) && RowOk(w, a.id);
    var b := MarkPrepared(PreparedEnvironment(a, x).value).value;
    if Record(w.rows, b).Some? {
      LaunchGoodWrite(w, p, b);
    }
    LaunchWriteKeepsInv(w, p, Some(b), Some(Registering));
  }

  lemma RecordJitKeepsInv(w: World, p: PolicyId)
    requires Inv(w) && p in w.launches && w.launches[p].point == Registering
    ensures Inv(LaunchWrite(w, p, ReceiveJit(w.launches[p].attempt), Some(CallingStart)))
  {
    var a := w.launches[p].attempt;
    assert LaunchOk(w, p) && RowOk(w, a.id);
    var b := ReceiveJit(a).value;
    if Record(w.rows, b).Some? {
      LaunchGoodWrite(w, p, b);
    }
    LaunchWriteKeepsInv(w, p, Some(b), Some(CallingStart));
  }

  lemma LaunchFailKeepsInv(w: World, p: PolicyId)
    requires Inv(w) && p in w.launches
    ensures Inv(LaunchWrite(w, p, Conclude(w.launches[p].attempt, FailedWith(OtherReason)), None))
  {
    var a := w.launches[p].attempt;
    assert LaunchOk(w, p) && RowOk(w, a.id);
    var b := Conclude(a, FailedWith(OtherReason)).value;
    if Record(w.rows, b).Some? {
      LaunchGoodWrite(w, p, b);
    }
    LaunchWriteKeepsInv(w, p, Some(b), None);
  }

  lemma RecordStartedKeepsInv(w: World, p: PolicyId)
    requires Inv(w) && p in w.launches && w.launches[p].point == CallingStart
    ensures Inv(LaunchWrite(w, p, StartedIsolated(w.launches[p].attempt), None))
  {
    var a := w.launches[p].attempt;
    assert LaunchOk(w, p) && RowOk(w, a.id);
    var b := StartedIsolated(a).value;
    if Record(w.rows, b).Some? {
      LaunchGoodWrite(w, p, b);
    }
    LaunchWriteKeepsInv(w, p, Some(b), None);
  }

  lemma LaunchStartKeepsInv(w: World, p: PolicyId, started: bool, answered: bool)
    requires Inv(w) && p in w.launches && w.launches[p].point == CallingStart
    ensures Inv(ApplyStart(w, p, started, answered))
  {
    var a := w.launches[p].attempt;
    assert LaunchOk(w, p) && RowOk(w, a.id);
    var acted := if started then SetStatus(w, a, Up) else w;
    FewerEnvironments(w, acted.environments);
    if answered {
      RecordStartedKeepsInv(acted, p);
    } else {
      FewerTasks(acted, EndLaunch(acted, p).launches, acted.cleaners, acted.recovered);
    }
  }

  /** The one step that creates an environment: no other exists for the attempt,
      now or ever before. */
  lemma CreationKeepsHistory(w: World, p: PolicyId, x: EnvironmentId, v: World)
    requires Inv(w) && p in w.launches && w.launches[p].point == CallingPrepare && x !in w.births
    requires !IsNative(w.launches[p].attempt)
    requires v == CreateEnvironment(w, x, Allocation(w.host, w.launches[p].attempt), Agent).(launches := v.launches)
    ensures forall y, i :: BornFor(v, y, i) <==> BornFor(w, y, i) || (y == x && i == w.launches[p].attempt.id)
    ensures forall y :: y in v.births ==> BirthOk(v, y)
    ensures forall y :: y in v.environments ==> EnvironmentOk(v, y)
  {
    var a := w.launches[p].attempt;
    assert LaunchOk(w, p) && RowOk(w, a.id);
    assert forall y, i :: BornFor(v, y, i) <==> BornFor(w, y, i) || (y == x && i == a.id);
    forall y | y in v.births ensures BirthOk(v, y) {
      if y != x {
        assert BirthOk(w, y);
        assert BornFor(w, y, v.births[y].labels.attempt) ==> v.births[y].labels.attempt != a.id;
      }
    }
    forall y | y in v.environments ensures EnvironmentOk(v, y) { assert y != x ==> EnvironmentOk(w, y); }
  }

  lemma PrepareKeepsInv(w: World, p: PolicyId, x: EnvironmentId, point: LaunchPoint)
    requires Inv(w) && p in w.launches && w.launches[p].point == CallingPrepare && x !in w.births
    requires point == PrepareReturned(x) || point == PrepareRefused
    ensures !IsNative(w.launches[p].attempt)
    ensures Inv(CreateEnvironment(w, x, Allocation(w.host, w.launches[p].attempt), Agent)
                .(launches := w.launches[p := Launch(point, w.launches[p].attempt)]))
  {
    var a := w.launches[p].attempt;
    LaunchIsAlone(w, p);
    assert LaunchOk(w, p) && RowOk(w, a.id);
    var v := CreateEnvironment(w, x, Allocation(w.host, a), Agent).(launches := w.launches[p := Launch(point, a)]);
    CreationKeepsHistory(w, p, x, v);
    forall i | i in v.rows ensures RowOk(v, i) { assert RowOk(w, i); }
    forall q | q in v.launches ensures LaunchOk(v, q) { assert LaunchOk(w, q); }
    forall k | k in v.cleaners ensures CleanerOk(v, k) { assert CleanerOk(w, k); }
  }

  /** A fresh row, whose generation no environment has ever carried. */
  lemma FreshRowKeepsInv(w: World, a: RunnerAttempt)
    requires Inv(w) && a.id !in w.rows && a.state == Allocated && a.workspace == Ephemeral
    requires !IsNative(a) && !HasIdentity(a)
    requires forall x :: x in w.births ==> w.births[x].labels.generation != a.execution.generation
    ensures Inv(w.(rows := w.rows[a.id := a]))
  {
    var v := w.(rows := w.rows[a.id := a]);
    assert forall y, j :: BornFor(v, y, j) <==> BornFor(w, y, j);
    forall j | j in v.rows ensures RowOk(v, j) { assert j != a.id ==> RowOk(w, j); }
    forall y | y in v.births ensures BirthOk(v, y) { assert BirthOk(w, y); }
    forall y | y in v.environments ensures EnvironmentOk(v, y) { assert EnvironmentOk(w, y) && BirthOk(w, y); }
    forall q | q in v.launches ensures LaunchOk(v, q) { assert LaunchOk(w, q); }
    forall k | k in v.cleaners ensures CleanerOk(v, k) { assert CleanerOk(w, k); }
  }

  lemma LaunchBeginKeepsInv(w: World, p: PolicyId, i: AttemptId, image: Image, generation: Generation)
    requires Inv(w)
    ensures Inv(ApplyLaunchBegin(w, p, i, image, generation))
  {
    var v := ApplyLaunchBegin(w, p, i, image, generation);
    var a := RunnerAttempt(i, p, Allocated, None, Isolated(None, image, generation), Ephemeral);
    if v != w {
      assert Record(w.rows, a) == Some(w.rows[i := a]);
      FreshRowKeepsInv(w, a);
      AddLaunch(w.(rows := w.rows[i := a]), p, Launch(Materializing, a));
    }
  }

  lemma ApplyPrepareKeepsInv(w: World, p: PolicyId, x: EnvironmentId, result: PrepareResult)
    requires Inv(w) && p in w.launches && w.launches[p].point == CallingPrepare
    ensures Inv(ApplyPrepare(w, p, x, result))
  {
    if x !in w.births {
      if result == PrepareFailedClean {
        assert LaunchOk(w, p);
        AddLaunch(w, p, Launch(PrepareRefused, w.launches[p].attempt));
      } else {
        PrepareKeepsInv(w, p, x, if result == PrepareOk then PrepareReturned(x) else PrepareRefused);
      }
    }
  }

  predicate IsEarlyLaunchStep(e: Event) {
    e.LaunchBeginPrepare? || e.LaunchPrepare? || e.LaunchRecordPrepared?
  }

  lemma EarlyLaunchStepKeepsInv(w: World, e: Event)
    requires Inv(w) && IsEarlyLaunchStep(e)
    ensures Inv(ApplyLaunch(w, e))
  {
    var p := e.policy;
    if p in w.launches && Applies(w.launches[p].point, e) {
      match e
      case LaunchBeginPrepare(_) => BeginPrepareKeepsInv(w, p);
      case LaunchPrepare(_, x, result) => ApplyPrepareKeepsInv(w, p, x, result);
      case LaunchRecordPrepared(_) => RecordPreparedKeepsInv(w, p, w.launches[p].point.environment);
    }
  }

  lemma LaunchStepKeepsInv(w: World, e: Event)
    requires Inv(w) && IsLaunchStep(e)
    ensures Inv(ApplyLaunch(w, e))
  {
    var p := e.policy;
    if IsEarlyLaunchStep(e) {
      EarlyLaunchStepKeepsInv(w, e);
    } else if p in w.launches && Applies(w.launches[p].point, e) {
      match e
      case LaunchRecordJit(_) => RecordJitKeepsInv(w, p);
      case LaunchStart(_, started, answered) => LaunchStartKeepsInv(w, p, started, answered);
      case LaunchFail(_) => LaunchFailKeepsInv(w, p);
      case LaunchAbandon(_) => FewerTasks(w, EndLaunch(w, p).launches, w.cleaners, w.recovered);
    }
  }

  // Cleanups ------------------------------------------------------------------

  /** A cleanup may write the states its row passes through while it is cleaned. */
  ghost predicate CleanerMayWrite(w: World, k: nat, b: RunnerAttempt)
    requires k in w.cleaners
  {
    && b == w.cleaners[k].attempt.(state := b.state)
    && (b.state.Destroying? || b.state.CleanupDeferred? || b.state.Cleaned?)
    && (b.state.Cleaned? ==> NoneAliveFor(w, b.id))
  }

  lemma CleanerRecordKeepsInv(w: World, k: nat, b: RunnerAttempt)
    requires Inv(w) && k in w.cleaners && CleanerMayWrite(w, k, b) && Record(w.rows, b).Some?
    ensures Inv(w.(rows := Record(w.rows, b).value))
  {
    assert CleanerOk(w, k);
    assert RowOk(w, b.id);
    forall p | p in w.launches ensures w.launches[p].attempt.id != b.id { NoCleanupDuringLaunch(w, p, k); }
    WriteKeepsInv(w, b);
  }

  lemma CleanerWriteKeepsInv(w: World, k: nat, next: Option<RunnerAttempt>, point: Option<CleanPoint>)
    requires Inv(w) && k in w.cleaners
    requires next.Some? ==> CleanerMayWrite(w, k, next.value)
    requires point.Some? ==> point.value == Listing && (next.Some? ==> next.value.state == Destroying)
    ensures Inv(CleanerWrite(w, k, next, point))
  {
    var ended := EndCleaner(w, k);
    if next.None? || Record(w.rows, next.value).None? {
      FewerTasks(w, w.launches, ended.cleaners, w.recovered);
    } else {
      CleanerRecordKeepsInv(w, k, next.value);
      var written := w.(rows := Record(w.rows, next.value).value);
      if point.None? {
        FewerTasks(written, written.launches, ended.cleaners, written.recovered);
      } else {
        assert CleanerOk(written, k);
        AddCleaner(written, k, Cleaner(Listing, next.value));
      }
    }
  }

  lemma DeferKeepsInv(w: World, k: nat)
    requires Inv(w) && k in w.cleaners && w.cleaners[k].point != Opening
    ensures Inv(Defer(w, k))
  {
    assert CleanerOk(w, k);
    CleanerWriteKeepsInv(w, k, DeferCleanup(w.cleaners[k].attempt), None);
  }

  lemma CleanerAtKeepsInv(w: World, k: nat, point: CleanPoint)
    requires Inv(w) && k in w.cleaners
    requires point != Opening && w.cleaners[k].attempt.state == Destroying
    requires Acting(point) ==> HasIdentity(w.cleaners[k].attempt)
    requires Proven(point) ==> NoneAliveFor(w, w.cleaners[k].attempt.id)
    ensures Inv(CleanerAt(w, k, point))
  {
    assert CleanerOk(w, k);
    AddCleaner(w, k, w.cleaners[k].(point := point));
  }

  /** The heart of "cleaned means gone": when the provider answers Missing, no
      environment of this attempt is left, whichever question was asked. */
  lemma MissingMeansNoneAlive(w: World, k: nat, fault: bool)
    requires Inv(w) && k in w.cleaners
    requires Current(w, w.cleaners[k].attempt, fault) == Some(EnvMissing)
    ensures NoneAliveFor(w, w.cleaners[k].attempt.id)
  {
    var a := w.cleaners[k].attempt;
    assert CleanerOk(w, k) && RowOk(w, a.id);
    if HasIdentity(a) {
      assert BornFor(w, a.execution.environment.value, a.id);
      assert BirthOk(w, a.execution.environment.value);
    }
    forall x | x in w.environments ensures !BornFor(w, x, a.id) {
      assert EnvironmentOk(w, x);
      assert BornFor(w, x, a.id) ==> BirthOk(w, x) && MatchesAttemptLabels(w.host, a, w.environments[x].labels);
    }
  }

  lemma MissingKeepsInv(w: World, k: nat, fault: bool)
    requires Inv(w) && k in w.cleaners && (w.cleaners[k].point == Asking || w.cleaners[k].point == Confirming)
    requires Current(w, w.cleaners[k].attempt, fault) == Some(EnvMissing)
    ensures Inv(CleanerAt(w, k, Relisting))
  {
    assert CleanerOk(w, k);
    MissingMeansNoneAlive(w, k, fault);
    CleanerAtKeepsInv(w, k, Relisting);
  }

  lemma CleanAskKeepsInv(w: World, k: nat, ans: Answer)
    requires Inv(w) && k in w.cleaners && w.cleaners[k].point == Asking
    ensures Inv(CleanAsk(w, k, ans))
  {
    var a := w.cleaners[k].attempt;
    var current := Current(w, a, ans.fault);
    if current == Some(EnvMissing) {
      MissingKeepsInv(w, k, ans.fault);
    } else if current.Some? && HasIdentity(a) {
      assert CleanerOk(w, k);
      CleanerAtKeepsInv(w, k, Owning((current.value.EnvStarting? || current.value.EnvRunning?)));
    } else {
      DeferKeepsInv(w, k);
    }
  }

  lemma CleanConfirmKeepsInv(w: World, k: nat, ans: Answer)
    requires Inv(w) && k in w.cleaners && w.cleaners[k].point == Confirming
    ensures Inv(CleanConfirm(w, k, ans))
  {
    assert CleanerOk(w, k);
    DeferKeepsInv(w, k);
    if Inspect(w, w.cleaners[k].attempt, ans.fault) == Some(EnvMissing) {
      MissingMeansNoneAlive(w, k, ans.fault);
      CleanerAtKeepsInv(w, k, Relisting);
    }
  }

  /** After a stop or a removal the cleanup defers or goes on. */
  lemma CleanActKeepsInv(w: World, acted: World, k: nat, next: CleanPoint)
    requires Inv(w) && k in w.cleaners && (w.cleaners[k].point.Stopping? || w.cleaners[k].point.Removing?)
    requires (next.Removing? || next.Confirming?)
    requires acted == w.(environments := acted.environments)
    requires Kept(acted.environments, w.environments)
    ensures Inv(Defer(acted, k)) && Inv(CleanerAt(acted, k, next))
  {
    FewerEnvironments(w, acted.environments);
    assert CleanerOk(w, k);
    DeferKeepsInv(acted, k);
    CleanerAtKeepsInv(acted, k, next);
  }

  lemma CleanStopKeepsInv(w: World, k: nat, ans: Answer)
    requires Inv(w) && k in w.cleaners && w.cleaners[k].point == Stopping
    ensures Inv(CleanStop(w, k, ans))
  {
    assert CleanerOk(w, k);
    CleanActKeepsInv(w, w, k, Removing);
    CleanActKeepsInv(w, SetStatus(w, w.cleaners[k].attempt, Down), k, Removing);
  }

  lemma CleanRemoveKeepsInv(w: World, k: nat, ans: Answer)
    requires Inv(w) && k in w.cleaners && w.cleaners[k].point == Removing
    ensures Inv(CleanRemove(w, k, ans))
  {
    assert CleanerOk(w, k);
    CleanActKeepsInv(w, w, k, Confirming);
    CleanActKeepsInv(w, RemoveEnvironment(w, w.cleaners[k].attempt), k, Confirming);
  }

  lemma CleanEdgesKeepInv(w: World, k: nat, ans: Answer)
    requires Inv(w) && k in w.cleaners
    ensures w.cleaners[k].point == Opening ==> Inv(CleanOpen(w, k))
    ensures w.cleaners[k].point == Releasing ==> Inv(CleanRelease(w, k))
  {
    assert CleanerOk(w, k);
    var a := w.cleaners[k].attempt;
    if w.cleaners[k].point == Opening {
      if a.state == Destroying { CleanerAtKeepsInv(w, k, Listing); }
      else { CleanerWriteKeepsInv(w, k, BeginDestroy(a), Some(Listing)); }
    } else if w.cleaners[k].point == Releasing {
      CleanerWriteKeepsInv(w, k, CleanIsolated(a), None);
    }
  }

  lemma CleanListKeepsInv(w: World, k: nat, ans: Answer)
    requires Inv(w) && k in w.cleaners && w.cleaners[k].point == Listing
    ensures Inv(CleanList(w, k, ans))
  {
    assert CleanerOk(w, k);
    DeferKeepsInv(w, k);
    CleanerAtKeepsInv(w, k, Asking);
  }

  lemma CleanOwnKeepsInv(w: World, k: nat, ans: Answer)
    requires Inv(w) && k in w.cleaners && w.cleaners[k].point.Owning?
    ensures Inv(CleanOwn(w, k, w.cleaners[k].point.live, ans))
  {
    assert CleanerOk(w, k);
    DeferKeepsInv(w, k);
    CleanerAtKeepsInv(w, k, if w.cleaners[k].point.live then Stopping else Removing);
  }

  lemma CleanRelistKeepsInv(w: World, k: nat, ans: Answer)
    requires Inv(w) && k in w.cleaners && w.cleaners[k].point == Relisting
    ensures Inv(CleanRelist(w, k, ans))
  {
    assert CleanerOk(w, k);
    DeferKeepsInv(w, k);
    CleanerAtKeepsInv(w, k, Releasing);
  }

  lemma CleanStepKeepsInv(w: World, k: nat, ans: Answer)
    requires Inv(w) && k in w.cleaners
    ensures Inv(ApplyClean(w, k, ans))
  {
    match w.cleaners[k].point
    case Opening => CleanEdgesKeepInv(w, k, ans);
    case Listing => CleanListKeepsInv(w, k, ans);
    case Asking => CleanAskKeepsInv(w, k, ans);
    case Owning(_) => CleanOwnKeepsInv(w, k, ans);
    case Stopping => CleanStopKeepsInv(w, k, ans);
    case Removing => CleanRemoveKeepsInv(w, k, ans);
    case Confirming => CleanConfirmKeepsInv(w, k, ans);
    case Relisting => CleanRelistKeepsInv(w, k, ans);
    case Releasing => CleanEdgesKeepInv(w, k, ans);
  }

  // Supervision, recovery and the outside ---------------------------------------

  lemma SuperviseKeepsInv(w: World, i: AttemptId, edge: Edge)
    requires Inv(w)
    ensures Inv(ApplySupervise(w, i, edge))
  {
    if ApplySupervise(w, i, edge) != w {
      assert RowOk(w, i);
      var b := TakeEdge(w.rows[i], edge).value;
      forall p | p in w.launches ensures w.launches[p].attempt.id != i { assert LaunchOk(w, p); }
      forall k | k in w.cleaners ensures w.cleaners[k].attempt.id != i { assert CleanerOk(w, k); }
      WriteKeepsInv(w, b);
    }
  }

  lemma AdoptKeepsInv(w: World, i: AttemptId, seen: set<EnvironmentId>)
    requires Inv(w)
    ensures Inv(ApplyAdopt(w, i, seen))
  {
    if ApplyAdopt(w, i, seen) != w {
      var a := w.rows[i];
      assert RowOk(w, i);
      var found := Reported(w, a, seen);
      forall x | x in found ensures BornFor(w, x, i) {
        assert EnvironmentOk(w, x) && BirthOk(w, x);
      }
      forall x | x in found && Adopted(a, x).Some? && Record(w.rows, Adopted(a, x).value).Some?
        ensures GoodWrite(w, Adopted(a, x).value)
      {
        assert BirthOk(w, x);
      }
      OnlyElement(found);
      var x :| x in found && forall y :: y in found ==> y == x;
      WriteKeepsInv(w, Adopted(a, x).value);
    }
  }

  lemma OutsiderKeepsInv(w: World, x: EnvironmentId, l: Labels)
    requires Inv(w)
    ensures Inv(Apply(w, OutsiderCreates(x, l)))
  {
    var v := Apply(w, OutsiderCreates(x, l));
    if v != w {
      assert forall y, i :: BornFor(v, y, i) <==> BornFor(w, y, i);
      forall i | i in v.rows ensures RowOk(v, i) { assert RowOk(w, i); }
      forall y | y in v.births ensures BirthOk(v, y) { assert y != x ==> BirthOk(w, y); }
      forall y | y in v.environments ensures EnvironmentOk(v, y) { assert y != x ==> EnvironmentOk(w, y); }
      forall q | q in v.launches ensures LaunchOk(v, q) { assert LaunchOk(w, q); }
      forall k | k in v.cleaners ensures CleanerOk(v, k) { assert CleanerOk(w, k); }
    }
  }

  /** Steps of guests, operators and outsiders. */
  lemma OutsideKeepsInv(w: World, e: Event)
    requires Inv(w) && (e.GuestChanges? || e.OperatorRemoves? || e.OutsiderCreates?)
    ensures Inv(Apply(w, e))
  {
    if e.OutsiderCreates? {
      OutsiderKeepsInv(w, e.environment, e.labels);
    } else {
      FewerEnvironments(w, Apply(w, e).environments);
    }
  }

  /** Starting and ending tasks, and the crash that ends them all. */
  lemma TaskKeepsInv(w: World, e: Event)
    requires Inv(w) && (e.Crash? || e.FinishRecovery? || e.CleanBegin? || e.CleanAbandon?)
    ensures Inv(Apply(w, e))
  {
    match e
    case Crash => FewerTasks(w, map[], map[], false);
    case FinishRecovery => FewerTasks(w, w.launches, w.cleaners, true);
    case CleanBegin(k, i) =>
      if Apply(w, e) != w {
        assert RowOk(w, i);
        AddCleaner(w, k, Cleaner(Opening, w.rows[i]));
      }
    case CleanAbandon(k) => FewerTasks(w, w.launches, EndCleaner(w, k).cleaners, w.recovered);
  }

  lemma StepKeepsInv(w: World, e: Event)
    requires Inv(w)
    ensures Inv(Apply(w, e))
  {
    if IsLaunchStep(e) {
      LaunchStepKeepsInv(w, e);
    } else if e.LaunchBegin? {
      LaunchBeginKeepsInv(w, e.policy, e.attempt, e.image, e.generation);
    } else if e.RecoverAdopt? {
      AdoptKeepsInv(w, e.attempt, e.seen);
    } else if e.Supervise? {
      SuperviseKeepsInv(w, e.attempt, e.edge);
    } else if e.CleanStep? {
      if e.task in w.cleaners { CleanStepKeepsInv(w, e.task, e.answer); }
    } else if e.GuestChanges? || e.OperatorRemoves? || e.OutsiderCreates? {
      OutsideKeepsInv(w, e);
    } else {
      TaskKeepsInv(w, e);
    }
  }

  lemma RunKeepsInv(w: World, es: seq<Event>)
    requires Inv(w)
    ensures Inv(Run(w, es))
  {
    forall v, e | Inv(v) ensures Inv(Apply(v, e)) { StepKeepsInv(v, e); }
    Runs.Keeps(Apply, Inv, w, es);
  }

  // ---------------------------------------------------------------------------
  // Main results, over every run
  // ---------------------------------------------------------------------------

  // What each kind of step may change ------------------------------------------

  /** The rows are as they were, or one write of `next` happened. */
  ghost predicate Wrote(w: World, v: World, next: Option<RunnerAttempt>) {
    v.rows == w.rows || (next.Some? && Record(w.rows, next.value) == Some(v.rows))
  }

  /** No row becomes cleaned between the two worlds. */
  ghost predicate NeverCleans(w: World, v: World) {
    forall i :: i in v.rows && v.rows[i].state == Cleaned ==> i in w.rows && w.rows[i].state == Cleaned
  }

  lemma WroteKeepsRows(w: World, v: World, next: Option<RunnerAttempt>)
    requires Wrote(w, v, next)
    ensures RowsKept(w.rows, v.rows)
    ensures (next.Some? && next.value.state == Cleaned) || NeverCleans(w, v)
    ensures forall i :: i in v.rows && v.rows[i].state == Cleaned && !(i in w.rows && w.rows[i].state == Cleaned) ==>
      next.Some? && i == next.value.id
  {
    RowsKeptReflexive(w.rows);
    if v.rows != w.rows {
      RecordKeepsRows(w.rows, next.value);
    }
  }

  lemma StartEffects(w: World, p: PolicyId, started: bool, answered: bool)
    requires p in w.launches
    ensures var v := ApplyStart(w, p, started, answered);
      Wrote(w, v, StartedIsolated(w.launches[p].attempt)) && v.environments.Keys == w.environments.Keys
  {
  }

  lemma LaunchEffects(w: World, e: Event)
    requires IsLaunchStep(e) && e.policy in w.launches && Applies(w.launches[e.policy].point, e)
    ensures Wrote(w, ApplyLaunch(w, e), LaunchNext(w.launches[e.policy], e))
    ensures w.environments.Keys <= ApplyLaunch(w, e).environments.Keys
  {
    if e.LaunchStart? {
      StartEffects(w, e.policy, e.started, e.answered);
    }
  }

  lemma LaunchNeverWritesCleaned(l: Launch, e: Event)
    requires IsLaunchStep(e) && Applies(l.point, e)
    ensures LaunchNext(l, e).Some? ==> LaunchNext(l, e).value.state != Cleaned
  {
  }

  /** The one write each point of a cleanup may make. */
  function CleanNext(w: World, k: nat): Option<RunnerAttempt>
    requires k in w.cleaners
  {
    var a := w.cleaners[k].attempt;
    match w.cleaners[k].point
    case Opening => BeginDestroy(a)
    case Releasing => CleanIsolated(a)
    case _ => DeferCleanup(a)
  }

  /** What a step of a cleanup changed: at most the one write `next`, and at
      most the one environment its row names, from one point only. */
  ghost predicate CleanChange(w: World, v: World, k: nat)
    requires k in w.cleaners
  {
    && Wrote(w, v, CleanNext(w, k))
    && (forall x :: x in w.environments && x !in v.environments ==>
          w.cleaners[k].point == Removing && HasIdentity(w.cleaners[k].attempt)
          && w.cleaners[k].attempt.execution.environment.value == x)
  }

  lemma CleanerAtChanges(w: World, k: nat, point: CleanPoint)
    requires k in w.cleaners
    ensures CleanChange(w, CleanerAt(w, k, point), k)
  {
  }

  lemma DeferChanges(w: World, k: nat)
    requires k in w.cleaners && w.cleaners[k].point != Opening && w.cleaners[k].point != Releasing
    ensures CleanChange(w, Defer(w, k), k)
  {
  }

  lemma CleanEndsChange(w: World, k: nat)
    requires k in w.cleaners
    ensures w.cleaners[k].point == Opening ==> CleanChange(w, CleanOpen(w, k), k)
    ensures w.cleaners[k].point == Releasing ==> CleanChange(w, CleanRelease(w, k), k)
  {
    CleanerAtChanges(w, k, Listing);
  }

  lemma CleanListChanges(w: World, k: nat, ans: Answer)
    requires k in w.cleaners && w.cleaners[k].point == Listing
    ensures CleanChange(w, CleanList(w, k, ans), k)
  {
    DeferChanges(w, k);
    CleanerAtChanges(w, k, Asking);
    assert CleanList(w, k, ans) == Defer(w, k) || CleanList(w, k, ans) == CleanerAt(w, k, Asking);
  }

  lemma CleanAskChanges(w: World, k: nat, ans: Answer)
    requires k in w.cleaners && w.cleaners[k].point == Asking
    ensures CleanChange(w, CleanAsk(w, k, ans), k)
  {
    DeferChanges(w, k);
    CleanerAtChanges(w, k, CleanAskPoint(w, k, ans));
  }

  function CleanAskPoint(w: World, k: nat, ans: Answer): CleanPoint
    requires k in w.cleaners
  {
    var current := Current(w, w.cleaners[k].attempt, ans.fault);
    if current == Some(EnvMissing) then Relisting
    else Owning(current == Some(EnvStarting) || current == Some(EnvRunning))
  }

  lemma CleanStopChanges(w: World, k: nat, ans: Answer)
    requires k in w.cleaners && w.cleaners[k].point == Stopping
    ensures CleanChange(w, CleanStop(w, k, ans), k)
  {
  }

  lemma CleanRemoveChanges(w: World, k: nat, ans: Answer)
    requires k in w.cleaners && w.cleaners[k].point == Removing
    ensures CleanChange(w, CleanRemove(w, k, ans), k)
  {
  }

  lemma CleanEffects(w: World, k: nat, ans: Answer)
    requires k in w.cleaners
    ensures CleanChange(w, ApplyClean(w, k, ans), k)
  {
    match w.cleaners[k].point
    case Opening => CleanEndsChange(w, k);
    case Listing => CleanListChanges(w, k, ans);
    case Asking => CleanAskChanges(w, k, ans);
    case Owning(live) =>
      DeferChanges(w, k);
      CleanerAtChanges(w, k, if live then Stopping else Removing);
    case Stopping => CleanStopChanges(w, k, ans);
    case Removing => CleanRemoveChanges(w, k, ans);
    case Confirming =>
      DeferChanges(w, k);
      CleanerAtChanges(w, k, Relisting);
    case Relisting =>
      DeferChanges(w, k);
      CleanerAtChanges(w, k, Releasing);
    case Releasing => CleanEndsChange(w, k);
  }

  lemma AdoptEffects(w: World, i: AttemptId, seen: set<EnvironmentId>)
    ensures RowsKept(w.rows, ApplyAdopt(w, i, seen).rows) && NeverCleans(w, ApplyAdopt(w, i, seen))
    ensures ApplyAdopt(w, i, seen).environments == w.environments && ApplyAdopt(w, i, seen).cleaners == w.cleaners
  {
    var v := ApplyAdopt(w, i, seen);
    RowsKeptReflexive(w.rows);
    if v != w {
      var found := Reported(w, w.rows[i], seen);
      assert exists x :: x in found && Adopted(w.rows[i], x).Some? && Wrote(w, v, Adopted(w.rows[i], x)) by {
        OnlyElement(found);
      }
      var x :| x in found && Adopted(w.rows[i], x).Some? && Wrote(w, v, Adopted(w.rows[i], x));
      WroteKeepsRows(w, v, Adopted(w.rows[i], x));
    }
  }

  /** What every step but a cleanup's keeps. */
  ghost predicate Harmless(w: World, v: World) {
    RowsKept(w.rows, v.rows) && NeverCleans(w, v)
  }

  lemma LaunchIsHarmless(w: World, e: Event)
    requires IsLaunchStep(e)
    ensures Harmless(w, ApplyLaunch(w, e)) && w.environments.Keys <= ApplyLaunch(w, e).environments.Keys
  {
    RowsKeptReflexive(w.rows);
    if e.policy in w.launches && Applies(w.launches[e.policy].point, e) {
      LaunchEffects(w, e);
      LaunchNeverWritesCleaned(w.launches[e.policy], e);
      WroteKeepsRows(w, ApplyLaunch(w, e), LaunchNext(w.launches[e.policy], e));
    }
  }

  lemma LaunchBeginIsHarmless(w: World, e: Event)
    requires e.LaunchBegin?
    ensures Harmless(w, Apply(w, e)) && Apply(w, e).environments == w.environments
  {
    var a := RunnerAttempt(e.attempt, e.policy, Allocated, None, Isolated(None, e.image, e.generation), Ephemeral);
    assert Wrote(w, Apply(w, e), Some(a));
    WroteKeepsRows(w, Apply(w, e), Some(a));
  }

  lemma SuperviseIsHarmless(w: World, i: AttemptId, edge: Edge)
    ensures Harmless(w, ApplySupervise(w, i, edge)) && ApplySupervise(w, i, edge).environments == w.environments
  {
    RowsKeptReflexive(w.rows);
    var v := ApplySupervise(w, i, edge);
    if v != w {
      WroteKeepsRows(w, v, TakeEdge(w.rows[i], edge));
    }
  }

  /** Every step that is not a cleanup's keeps every row and cleans none. */
  lemma OtherStepsAreHarmless(w: World, e: Event)
    requires !e.CleanStep?
    ensures Harmless(w, Apply(w, e))
    ensures !e.OperatorRemoves? ==> w.environments.Keys <= Apply(w, e).environments.Keys
  {
    RowsKeptReflexive(w.rows);
    match e
    case LaunchBegin(_, _, _, _) => LaunchBeginIsHarmless(w, e);
    case Supervise(i, edge) => SuperviseIsHarmless(w, i, edge);
    case RecoverAdopt(i, seen) => AdoptEffects(w, i, seen);
    case _ => if IsLaunchStep(e) { LaunchIsHarmless(w, e); }
  }

  /** One step keeps every row. */
  lemma StepKeepsRows(w: World, e: Event)
    ensures RowsKept(w.rows, Apply(w, e).rows)
  {
    RowsKeptReflexive(w.rows);
    if !e.CleanStep? {
      OtherStepsAreHarmless(w, e);
    } else if e.task in w.cleaners {
      CleanEffects(w, e.task, e.answer);
      WroteKeepsRows(w, Apply(w, e), CleanNext(w, e.task));
    }
  }

  /** No environment is ever forgotten: while one exists, its attempt is in the
      journal and holds capacity; once an attempt is cleaned nothing carries its
      labels; and no attempt ever had two environments. */
  lemma NoEnvironmentIsLost(host: HostId, es: seq<Event>)
    ensures var w := Run(Init(host), es);
      && (forall x :: x in w.environments && x in w.births && w.births[x].origin == Agent ==>
            var i := w.births[x].labels.attempt;
            i in w.rows && SameAllocation(w.host, w.rows[i], w.environments[x].labels) && CountsAgainstCapacity(w.rows[i]))
      && (forall i, x :: i in w.rows && w.rows[i].state == Cleaned && x in w.environments ==>
            !SameAllocation(w.host, w.rows[i], w.environments[x].labels))
      && (forall x, y, i :: BornFor(w, x, i) && BornFor(w, y, i) ==> x == y)
      && w.environments.Keys <= w.births.Keys
  {
    RunKeepsInv(Init(host), es);
    var w := Run(Init(host), es);
    forall x | x in w.environments
      ensures EnvironmentOk(w, x) && BirthOk(w, x)
    {
    }
    forall x, y, i | BornFor(w, x, i) && BornFor(w, y, i) ensures x == y {
      assert BirthOk(w, x);
    }
  }

  /** A row is never dropped, and the environment, image and generation it names
      are written once and then only repeated. */
  lemma {:induction false} IdentityIsWrittenOnce(w: World, es: seq<Event>)
    ensures RowsKept(w.rows, Run(w, es).rows)
  {
    if es == [] {
      RowsKeptReflexive(w.rows);
    } else {
      var mid := Run(w, es[..|es| - 1]);
      IdentityIsWrittenOnce(w, es[..|es| - 1]);
      StepKeepsRows(mid, es[|es| - 1]);
      RowsKeptTransitive(w.rows, mid.rows, Run(w, es).rows);
    }
  }

  /** A step of the agent removes an environment only inside a cleanup that has
      confirmed ownership, only the one environment the row names, and never one
      that somebody else created. */
  lemma RemovalsAreOwned(w: World, e: Event, x: EnvironmentId)
    requires Inv(w) && x in w.environments && x !in Apply(w, e).environments && !e.OperatorRemoves?
    ensures e.CleanStep? && e.task in w.cleaners && w.cleaners[e.task].point == Removing
    ensures var i := w.cleaners[e.task].attempt.id;
      BornFor(w, x, i) && i in w.rows && IsTerminal(w.rows[i].state)
      && HasIdentity(w.rows[i]) && w.rows[i].execution.environment.value == x
  {
    if !e.CleanStep? {
      OtherStepsAreHarmless(w, e);
    } else {
      CleanEffects(w, e.task, e.answer);
      assert CleanerOk(w, e.task);
      assert RowOk(w, w.cleaners[e.task].attempt.id);
    }
  }

  lemma CleanedByRelease(w: World, e: Event, i: AttemptId)
    requires i in w.rows && w.rows[i].state != Cleaned
    requires i in Apply(w, e).rows && Apply(w, e).rows[i].state == Cleaned
    ensures e.CleanStep? && e.task in w.cleaners
    ensures w.cleaners[e.task].point == Releasing && w.cleaners[e.task].attempt.id == i
  {
    if !e.CleanStep? {
      OtherStepsAreHarmless(w, e);
    } else if e.task in w.cleaners {
      CleanEffects(w, e.task, e.answer);
      WroteKeepsRows(w, Apply(w, e), CleanNext(w, e.task));
    }
  }

  /** Capacity comes back only at the end of a cleanup whose proof still holds. */
  lemma CleanedOnlyOnProof(w: World, e: Event, i: AttemptId)
    requires Inv(w) && i in w.rows && w.rows[i].state != Cleaned
    requires i in Apply(w, e).rows && Apply(w, e).rows[i].state == Cleaned
    ensures e.CleanStep? && e.task in w.cleaners
    ensures w.cleaners[e.task].point == Releasing && w.cleaners[e.task].attempt.id == i
    ensures NoneAliveFor(w, i)
  {
    CleanedByRelease(w, e, i);
    assert CleanerOk(w, e.task);
  }

  /** A deferred cleanup is over. */
  lemma DeferEnds(w: World, k: nat)
    requires k in w.cleaners
    ensures k !in Defer(w, k).cleaners
  {
  }

  lemma ActingIsNotProof(w: World, k: nat, ans: Answer)
    requires k in w.cleaners
    ensures k in CleanStop(w, k, ans).cleaners ==> CleanStop(w, k, ans).cleaners[k].point == Removing
    ensures k in CleanRemove(w, k, ans).cleaners ==> CleanRemove(w, k, ans).cleaners[k].point == Confirming
  {
  }

  lemma ListingIsNotProof(w: World, k: nat, ans: Answer)
    requires k in w.cleaners
    ensures k in CleanList(w, k, ans).cleaners ==> CleanList(w, k, ans).cleaners[k].point == Asking
    ensures k in CleanOpen(w, k).cleaners ==> CleanOpen(w, k).cleaners[k].point == Listing
  {
    DeferEnds(w, k);
  }

  lemma AskingIsProof(w: World, k: nat, ans: Answer)
    requires k in w.cleaners
    ensures k in CleanAsk(w, k, ans).cleaners && Proven(CleanAsk(w, k, ans).cleaners[k].point) ==>
      Current(w, w.cleaners[k].attempt, ans.fault) == Some(EnvMissing)
  {
    DeferEnds(w, k);
  }

  lemma ConfirmingIsProof(w: World, k: nat, ans: Answer)
    requires k in w.cleaners
    ensures k in CleanConfirm(w, k, ans).cleaners ==>
      Current(w, w.cleaners[k].attempt, ans.fault) == Some(EnvMissing)
  {
    DeferEnds(w, k);
  }

  lemma OwningIsNotProof(w: World, k: nat, live: bool, ans: Answer)
    requires k in w.cleaners
    ensures k in CleanOwn(w, k, live, ans).cleaners ==> !Proven(CleanOwn(w, k, live, ans).cleaners[k].point)
  {
    DeferEnds(w, k);
  }

  /** A cleanup passes the point of proof only on the provider's answer Missing;
      an empty enumeration alone never gets it there. */
  lemma ProofIsTheAnswerMissing(w: World, k: nat, ans: Answer)
    requires k in w.cleaners && !Proven(w.cleaners[k].point)
    ensures k in ApplyClean(w, k, ans).cleaners && Proven(ApplyClean(w, k, ans).cleaners[k].point) ==>
      (w.cleaners[k].point == Asking || w.cleaners[k].point == Confirming)
      && Current(w, w.cleaners[k].attempt, ans.fault) == Some(EnvMissing)
  {
    match w.cleaners[k].point
    case Opening => ListingIsNotProof(w, k, ans);
    case Listing => ListingIsNotProof(w, k, ans);
    case Asking => AskingIsProof(w, k, ans);
    case Owning(live) => OwningIsNotProof(w, k, live, ans);
    case Stopping => ActingIsNotProof(w, k, ans);
    case Removing => ActingIsNotProof(w, k, ans);
    case Confirming => ConfirmingIsProof(w, k, ans);
  }

  /** The points a cleanup can be at, one step after another. */
  predicate Follows(p: CleanPoint, q: CleanPoint) {
    match p
    case Opening => q.Listing?
    case Listing => q.Asking?
    case Asking => q.Relisting? || q.Owning?
    case Owning(live) => if live then q.Stopping? else q.Removing?
    case Stopping => q.Removing?
    case Removing => q.Confirming?
    case Confirming => q.Relisting?
    case Relisting => q.Releasing?
    case Releasing => false
  }

  lemma AskingGoesOn(w: World, k: nat, ans: Answer)
    requires k in w.cleaners && w.cleaners[k].point == Asking
    ensures k in CleanAsk(w, k, ans).cleaners ==> Follows(Asking, CleanAsk(w, k, ans).cleaners[k].point)
  {
    DeferEnds(w, k);
  }

  lemma OwningNeedsOwnership(w: World, k: nat, ans: Answer)
    requires k in w.cleaners && w.cleaners[k].point.Owning?
    ensures var v := CleanOwn(w, k, w.cleaners[k].point.live, ans);
      k in v.cleaners ==> Follows(w.cleaners[k].point, v.cleaners[k].point) && Owns(w, w.cleaners[k].attempt, ans.fault) == Some(true)
  {
    DeferEnds(w, k);
  }

  lemma ListingNeedsOneAtMost(w: World, k: nat, ans: Answer)
    requires k in w.cleaners && w.cleaners[k].point == Listing
    ensures var v := CleanList(w, k, ans);
      k in v.cleaners ==> v.cleaners[k].point == Asking && (ans.fault || |Reported(w, w.cleaners[k].attempt, ans.seen)| <= 1)
  {
    DeferEnds(w, k);
  }

  /** A cleanup goes through its points in order: nothing is stopped or removed
      but after a listing that reported no duplicate and an answer that the
      environment is the attempt's own. */
  lemma PointsFollowInOrder(w: World, k: nat, ans: Answer)
    requires k in w.cleaners
    ensures var v := ApplyClean(w, k, ans);
      k in v.cleaners ==>
        && Follows(w.cleaners[k].point, v.cleaners[k].point)
        && (w.cleaners[k].point == Listing ==> ans.fault || |Reported(w, w.cleaners[k].attempt, ans.seen)| <= 1)
        && (w.cleaners[k].point.Owning? ==> Owns(w, w.cleaners[k].attempt, ans.fault) == Some(true))
  {
    DeferEnds(w, k);
    match w.cleaners[k].point
    case Opening => ListingIsNotProof(w, k, ans);
    case Listing => ListingNeedsOneAtMost(w, k, ans);
    case Asking => AskingGoesOn(w, k, ans);
    case Owning(_) => OwningNeedsOwnership(w, k, ans);
    case Stopping => ActingIsNotProof(w, k, ans);
    case Removing => ActingIsNotProof(w, k, ans);
    case Confirming =>
    case Relisting =>
    case Releasing =>
  }

  // ---------------------------------------------------------------------------
  // Capacity can always be given back
  // ---------------------------------------------------------------------------

  function PointsLeft(p: CleanPoint): nat {
    match p
    case Opening => 8
    case Listing => 7
    case Asking => 6
    case Owning(_) => 5
    case Stopping => 4
    case Removing => 3
    case Confirming => 2
    case Relisting => 1
    case Releasing => 0
  }

  /** What enumerations show in each world: everything, or only some of it. */
  type Enumeration = World -> set<EnvironmentId>

  /** A provider that answers every call of one step, showing `seen`. */
  function Quiet(seen: set<EnvironmentId>): Answer {
    Answer(false, seen, true)
  }

  /** The provider can answer about this attempt: the environment it names is
      its own, and without a name nothing carries its labels. */
  ghost predicate Answerable(w: World, a: RunnerAttempt) {
    && !IsNative(a)
    && (HasIdentity(a) ==> a.execution.environment.value in w.environments ==>
          SameAllocation(w.host, a, w.environments[a.execution.environment.value].labels))
    && (!HasIdentity(a) ==>
          forall x :: x in w.environments ==> !MatchesAttemptLabels(w.host, a, w.environments[x].labels))
  }

  /** The cleanup has not been overtaken: the environment it is about to remove
      is there, and the one it has removed is not. */
  ghost predicate OnTrack(w: World, k: nat)
    requires k in w.cleaners
  {
    var a := w.cleaners[k].attempt;
    var point := w.cleaners[k].point;
    && Answerable(w, a)
    && (point != Opening ==> a.state == Destroying)
    && (Acting(point) ==> HasIdentity(a))
    && (point.Owning? || point.Stopping? || point.Removing? ==>
          HasIdentity(a) && a.execution.environment.value in w.environments)
    && (point.Confirming? ==> HasIdentity(a) && a.execution.environment.value !in w.environments)
  }

  ghost predicate Advanced(w: World, v: World, k: nat)
    requires k in w.cleaners
  {
    && k in v.cleaners && v.cleaners[k].attempt.id == w.cleaners[k].attempt.id
    && v.cleaners[k].attempt.state == Destroying
    && PointsLeft(v.cleaners[k].point) < PointsLeft(w.cleaners[k].point)
    && OnTrack(v, k)
  }

  lemma QuietOpen(w: World, k: nat)
    requires k in w.cleaners && w.cleaners[k].point == Opening && OnTrack(w, k)
    requires CleanerOk(w, k) && RowOk(w, w.cleaners[k].attempt.id) && w.cleaners[k].attempt.state != Cleaned
    ensures Advanced(w, CleanOpen(w, k), k)
  {
  }

  /** Whatever part of the truth an enumeration shows, it shows at most the one
      environment that is the attempt's own. */
  lemma ShowsOnlyItsOwn(w: World, k: nat, seen: set<EnvironmentId>)
    requires Inv(w) && k in w.cleaners && OnTrack(w, k)
    ensures var a := w.cleaners[k].attempt;
      Reported(w, a, seen) <= if HasIdentity(a) then {a.execution.environment.value} else {}
  {
    var a := w.cleaners[k].attempt;
    assert CleanerOk(w, k) && RowOk(w, a.id);
    forall x | x in Reported(w, a, seen) ensures HasIdentity(a) && x == a.execution.environment.value {
      assert EnvironmentOk(w, x) && BirthOk(w, x);
      assert BornFor(w, x, a.id);
      if HasIdentity(a) {
        assert BornFor(w, a.execution.environment.value, a.id);
      }
    }
  }

  lemma FewerThanTwo(s: set<EnvironmentId>, x: EnvironmentId)
    requires s <= {x}
    ensures |s| <= 1
  {
    if s != {} {
      assert s == {x};
    }
  }

  /** A listing that shows the cleanup its own environment lets it go on. */
  lemma ListingGoesOn(w: World, k: nat, seen: set<EnvironmentId>)
    requires Inv(w) && k in w.cleaners && w.cleaners[k].point == Listing && OnTrack(w, k)
    ensures CleanList(w, k, Quiet(seen)) == CleanerAt(w, k, Asking)
  {
    var a := w.cleaners[k].attempt;
    ShowsOnlyItsOwn(w, k, seen);
    if HasIdentity(a) {
      FewerThanTwo(Reported(w, a, seen), a.execution.environment.value);
    }
  }

  lemma QuietList(w: World, k: nat, seen: set<EnvironmentId>)
    requires Inv(w) && k in w.cleaners && w.cleaners[k].point == Listing && OnTrack(w, k)
    ensures Advanced(w, CleanList(w, k, Quiet(seen)), k)
  {
    ListingGoesOn(w, k, seen);
  }

  lemma QuietRelist(w: World, k: nat, seen: set<EnvironmentId>)
    requires Inv(w) && k in w.cleaners && w.cleaners[k].point == Relisting && OnTrack(w, k)
    ensures Advanced(w, CleanRelist(w, k, Quiet(seen)), k)
  {
    var a := w.cleaners[k].attempt;
    assert CleanerOk(w, k) && RowOk(w, a.id);
    forall x | x in Reported(w, a, seen) ensures false {
      assert EnvironmentOk(w, x) && BirthOk(w, x) && BornFor(w, x, a.id);
    }
    assert Reported(w, a, seen) == {};
  }

  /** The answer a cleanup on track gets, and where it goes from there. */
  lemma QuietAnswer(w: World, a: RunnerAttempt)
    requires Answerable(w, a)
    ensures Current(w, a, false).Some?
    ensures Current(w, a, false) != Some(EnvMissing) ==> HasIdentity(a) && a.execution.environment.value in w.environments
  {
  }

  lemma QuietAsk(w: World, k: nat, seen: set<EnvironmentId>)
    requires k in w.cleaners && w.cleaners[k].point == Asking && OnTrack(w, k)
    ensures Advanced(w, CleanAsk(w, k, Quiet(seen)), k)
  {
    var a := w.cleaners[k].attempt;
    QuietAnswer(w, a);
    var v := CleanAsk(w, k, Quiet(seen));
    assert v.cleaners[k].attempt == a && v.environments == w.environments && v.host == w.host;
    assert Answerable(v, a);
  }

  lemma QuietOwn(w: World, k: nat, live: bool, seen: set<EnvironmentId>)
    requires k in w.cleaners && w.cleaners[k].point == Owning(live) && OnTrack(w, k)
    ensures Advanced(w, CleanOwn(w, k, live, Quiet(seen)), k)
  {
  }

  lemma QuietStop(w: World, k: nat, seen: set<EnvironmentId>)
    requires k in w.cleaners && w.cleaners[k].point == Stopping && OnTrack(w, k)
    ensures Advanced(w, CleanStop(w, k, Quiet(seen)), k)
  {
  }

  lemma QuietRemove(w: World, k: nat, seen: set<EnvironmentId>)
    requires k in w.cleaners && w.cleaners[k].point == Removing && OnTrack(w, k)
    ensures Advanced(w, CleanRemove(w, k, Quiet(seen)), k)
  {
  }

  lemma QuietConfirm(w: World, k: nat, seen: set<EnvironmentId>)
    requires k in w.cleaners && w.cleaners[k].point == Confirming && OnTrack(w, k)
    ensures Advanced(w, CleanConfirm(w, k, Quiet(seen)), k)
  {
  }

  /** With a provider that answers, every step of a cleanup advances it. */
  lemma QuietStepAdvances(w: World, k: nat, seen: set<EnvironmentId>)
    requires Inv(w) && k in w.cleaners && OnTrack(w, k)
    requires w.cleaners[k].point != Releasing && w.cleaners[k].attempt.state != Cleaned
    ensures Advanced(w, ApplyClean(w, k, Quiet(seen)), k)
  {
    match w.cleaners[k].point
    case Opening =>
      assert CleanerOk(w, k) && RowOk(w, w.cleaners[k].attempt.id);
      QuietOpen(w, k);
    case Listing => QuietList(w, k, seen);
    case Asking => QuietAsk(w, k, seen);
    case Owning(live) => QuietOwn(w, k, live, seen);
    case Stopping => QuietStop(w, k, seen);
    case Removing => QuietRemove(w, k, seen);
    case Confirming => QuietConfirm(w, k, seen);
    case Relisting => QuietRelist(w, k, seen);
  }

  lemma QuietRelease(w: World, k: nat)
    requires k in w.cleaners && w.cleaners[k].point == Releasing
    requires CleanerOk(w, k) && RowOk(w, w.cleaners[k].attempt.id)
    ensures var i := w.cleaners[k].attempt.id;
      i in CleanRelease(w, k).rows && CleanRelease(w, k).rows[i].state == Cleaned
  {
  }

  /** Every step of a cleanup in a run is answered, with the listing of its moment. */
  ghost predicate AnsweredWith(show: Enumeration, w: World, es: seq<Event>) {
    forall n :: 0 <= n < |es| && es[n].CleanStep? ==> es[n].answer == Quiet(show(Run(w, es[..n])))
  }

  ghost predicate CleanedBy(show: Enumeration, w: World, es: seq<Event>, i: AttemptId) {
    i in Run(w, es).rows && Run(w, es).rows[i].state == Cleaned && AnsweredWith(show, w, es)
  }

  lemma CleanedByCons(show: Enumeration, w: World, e: Event, rest: seq<Event>, i: AttemptId)
    requires CleanedBy(show, Apply(w, e), rest, i) && (e.CleanStep? ==> e.answer == Quiet(show(w)))
    ensures CleanedBy(show, w, [e] + rest, i)
  {
    Runs.Cons(Apply, w, e, rest);
    var es := [e] + rest;
    forall n | 0 <= n < |es| && es[n].CleanStep? ensures es[n].answer == Quiet(show(Run(w, es[..n]))) {
      if n == 0 {
        assert es[..0] == [];
      } else {
        assert es[n] == rest[n - 1] && es[..n] == [e] + rest[..n - 1];
        Runs.Cons(Apply, w, e, rest[..n - 1]);
      }
    }
  }

  lemma ReleaseFinishes(show: Enumeration, w: World, k: nat)
    requires Inv(w) && k in w.cleaners && w.cleaners[k].point == Releasing
    ensures CleanedBy(show, w, [CleanStep(k, Quiet(show(w)))] + [], w.cleaners[k].attempt.id)
  {
    var e := CleanStep(k, Quiet(show(w)));
    assert CleanerOk(w, k) && RowOk(w, w.cleaners[k].attempt.id);
    QuietRelease(w, k);
    assert Apply(w, e) == CleanRelease(w, k);
    assert Run(Apply(w, e), []) == Apply(w, e);
    CleanedByCons(show, w, e, [], w.cleaners[k].attempt.id);
  }

  lemma {:induction false} FinishCleanup(show: Enumeration, w: World, k: nat) returns (es: seq<Event>)
    requires Inv(w) && k in w.cleaners && OnTrack(w, k) && w.cleaners[k].attempt.state != Cleaned
    ensures CleanedBy(show, w, es, w.cleaners[k].attempt.id)
    decreases PointsLeft(w.cleaners[k].point)
  {
    var e := CleanStep(k, Quiet(show(w)));
    if w.cleaners[k].point == Releasing {
      ReleaseFinishes(show, w, k);
      es := [e] + [];
    } else {
      QuietStepAdvances(w, k, show(w));
      StepKeepsInv(w, e);
      var v := Apply(w, e);
      assert v == ApplyClean(w, k, Quiet(show(w)));
      var rest := FinishCleanup(show, v, k);
      CleanedByCons(show, w, e, rest, w.cleaners[k].attempt.id);
      es := [e] + rest;
    }
  }

  /** A fresh cleanup is on track once the row names its environment or there
      is none left. */
  lemma FreshCleanupIsOnTrack(w: World, k: nat)
    requires Inv(w) && k in w.cleaners && w.cleaners[k].point == Opening
    requires HasIdentity(w.cleaners[k].attempt) || NoneAliveFor(w, w.cleaners[k].attempt.id)
    ensures OnTrack(w, k)
  {
    var a := w.cleaners[k].attempt;
    assert CleanerOk(w, k) && RowOk(w, a.id);
    if HasIdentity(a) {
      var x := a.execution.environment.value;
      assert BornFor(w, x, a.id) && BirthOk(w, x);
      assert x in w.environments ==> EnvironmentOk(w, x);
    } else {
      forall x | x in w.environments
        ensures !MatchesAttemptLabels(w.host, a, w.environments[x].labels)
      {
        assert EnvironmentOk(w, x) && BirthOk(w, x) && !BornFor(w, x, a.id);
      }
    }
  }

  /** From a terminal row that is resolved, one cleanup finishes the attempt. */
  lemma CleanFromTerminal(show: Enumeration, w: World, i: AttemptId) returns (es: seq<Event>)
    requires Inv(w) && i in w.rows && IsTerminal(w.rows[i].state) && w.rows[i].state != Cleaned && w.cleaners == map[]
    requires HasIdentity(w.rows[i]) || NoneAliveFor(w, i)
    ensures CleanedBy(show, w, es, i)
  {
    var e := CleanBegin(0, i);
    StepKeepsInv(w, e);
    var v := Apply(w, e);
    assert v == w.(cleaners := map[0 := Cleaner(Opening, w.rows[i])]);
    assert RowOk(w, i);
    FreshCleanupIsOnTrack(v, 0);
    var rest := FinishCleanup(show, v, 0);
    es := [e] + rest;
    CleanedByCons(show, w, e, rest, i);
  }

  /** Any live row without a launch in flight can be concluded. */
  lemma RetireConcludes(w: World, i: AttemptId)
    requires Inv(w) && i in w.rows && !IsTerminal(w.rows[i].state) && w.launches == map[]
    ensures var v := ApplySupervise(w, i, TakeConclude(FailedWith(OtherReason)));
      v == w.(rows := v.rows) && i in v.rows && v.rows[i].state == Failed && v.rows[i].execution == w.rows[i].execution
  {
    assert RowOk(w, i);
  }

  /** From any resolved row, supervision retires the attempt and cleanup ends it. */
  lemma RetireAndClean(show: Enumeration, w: World, i: AttemptId) returns (es: seq<Event>)
    requires Inv(w) && i in w.rows && w.rows[i].state != Cleaned && w.cleaners == map[] && w.launches == map[]
    requires HasIdentity(w.rows[i]) || NoneAliveFor(w, i)
    ensures CleanedBy(show, w, es, i)
  {
    if IsTerminal(w.rows[i].state) {
      es := CleanFromTerminal(show, w, i);
    } else {
      var e := Supervise(i, TakeConclude(FailedWith(OtherReason)));
      var v := Apply(w, e);
      RetireConcludes(w, i);
      StepKeepsInv(w, e);
      assert NoneAliveFor(w, i) ==> NoneAliveFor(v, i) by {
        assert forall x :: BornFor(v, x, i) ==> BornFor(w, x, i);
      }
      var rest := CleanFromTerminal(show, v, i);
      es := [e] + rest;
      CleanedByCons(show, w, e, rest, i);
    }
  }

  /** After a crash a truthful enumeration resolves the row: either nothing is
      left, or the one environment left is the one to name. */
  lemma AdoptionResolves(w: World, i: AttemptId)
    requires Inv(w) && i in w.rows && w.rows[i].state != Cleaned && !HasIdentity(w.rows[i])
    requires w.launches == map[] && w.cleaners == map[] && !w.recovered && !NoneAliveFor(w, i)
    ensures var v := ApplyAdopt(w, i, w.environments.Keys);
      v == w.(rows := v.rows) && i in v.rows && HasIdentity(v.rows[i]) && v.rows[i].state != Cleaned
  {
    var a := w.rows[i];
    assert RowOk(w, i);
    var x :| x in w.environments && BornFor(w, x, i);
    assert BirthOk(w, x) && EnvironmentOk(w, x);
    var found := Reported(w, a, w.environments.Keys);
    forall y | y in found ensures y == x {
      assert EnvironmentOk(w, y) && BirthOk(w, y);
      assert BornFor(w, y, i);
    }
    assert found == {x};
  }

  /** Nothing is stuck: from every state that any run can reach there is a
      continuation, through a crash and a restart with a provider that answers,
      after which the attempt is cleaned and nothing carries its labels. This holds
      whatever the enumerations of the cleanup show: everything there is, the
      attempt's own environment included, or only some of it. */
  lemma CapacityCanComeBack(show: Enumeration, w: World, i: AttemptId) returns (es: seq<Event>)
    requires Inv(w) && i in w.rows
    ensures CleanedBy(show, w, es, i)
  {
    if w.rows[i].state == Cleaned {
      es := [];
    } else {
      var v := Apply(w, Crash);
      StepKeepsInv(w, Crash);
      if HasIdentity(v.rows[i]) || NoneAliveFor(v, i) {
        var rest := RetireAndClean(show, v, i);
        es := [Crash] + rest;
        CleanedByCons(show, w, Crash, rest, i);
      } else {
        var adopt := RecoverAdopt(i, v.environments.Keys);
        assert RowOk(v, i);
        AdoptionResolves(v, i);
        AdoptKeepsInv(v, i, v.environments.Keys);
        var rest := RetireAndClean(show, Apply(v, adopt), i);
        es := [Crash] + ([adopt] + rest);
        CleanedByCons(show, v, adopt, rest, i);
        CleanedByCons(show, w, Crash, [adopt] + rest, i);
      }
    }
  }
}
