/** The two-level capacity ceiling, as an allocator that owns the running total
    of one reconciliation pass. */
module Capacity {
  import opened Wrappers
  import opened Attempts
  import Runs
  import Sums

  datatype Mode = MonitorOnly | Autoscale(min: nat, max: nat)

  datatype ScalePolicy = ScalePolicy(id: PolicyId, host: HostId, mode: Mode, admits: bool)

  /** What the policy constructor validates: an autoscale range is a non-empty
      u16 range. */
  predicate ValidPolicy(p: ScalePolicy) {
    p.mode.Autoscale? ==> p.mode.min <= p.mode.max && 1 <= p.mode.max <= U16_MAX
  }

  datatype LimitingFactor =
    | ByDemand | ByMinCapacity | ByMaxCapacity | ByHostCapacity
    | ByMonitorOnly | ByNotReconciling | ByForeignHost

  datatype Allocation = Allocation(
    policy: PolicyId,
    demand: nat,
    desired: nat,
    activeOwned: nat,
    headroomBefore: nat,
    toStart: nat,
    limitingFactor: LimitingFactor)

  // ---------------------------------------------------------------------------
  // Counting
  // ---------------------------------------------------------------------------

  /** A runner that may still pick up a queued job. */
  predicate Unassigned(a: RunnerAttempt) {
    a.state.Allocated? || a.state.Preparing? || a.state.Prepared?
    || a.state.JitReceived? || a.state.Starting? || a.state.Idle?
  }

  function Count(attempts: seq<RunnerAttempt>, keep: RunnerAttempt -> bool): nat {
    if attempts == [] then 0
    else (if keep(attempts[0]) then 1 else 0) + Count(attempts[1..], keep)
  }

  function Active(): RunnerAttempt -> bool {
    (a: RunnerAttempt) => CountsAgainstCapacity(a)
  }

  function ActiveOf(p: PolicyId): RunnerAttempt -> bool {
    (a: RunnerAttempt) => a.policy == p && CountsAgainstCapacity(a)
  }

  function UnassignedOf(p: PolicyId): RunnerAttempt -> bool {
    (a: RunnerAttempt) => a.policy == p && Unassigned(a)
  }

  /** An occupied slot that cannot take queued work. */
  function AssignedOf(p: PolicyId): RunnerAttempt -> bool {
    (a: RunnerAttempt) => a.policy == p && CountsAgainstCapacity(a) && !Unassigned(a)
  }

  /** A count held in a u16 that saturates instead of wrapping. */
  function Count16(attempts: seq<RunnerAttempt>, keep: RunnerAttempt -> bool): nat {
    Min(Count(attempts, keep), U16_MAX)
  }

  /** The saturating fold the source counts with, against the plain count. */
  method CountSaturating(attempts: seq<RunnerAttempt>, keep: RunnerAttempt -> bool) returns (n: nat)
    ensures n == Count16(attempts, keep)
  {
    n := 0;
    for i := 0 to |attempts|
      invariant n == Count16(attempts[..i], keep)
    {
      CountAppend(attempts[..i], [attempts[i]], keep);
      assert attempts[..i] + [attempts[i]] == attempts[..i + 1];
      if keep(attempts[i]) {
        n := SaturatingAdd(n, 1, U16_MAX);
      }
    }
    assert attempts[..|attempts|] == attempts;
  }

  lemma {:induction false} CountAppend(xs: seq<RunnerAttempt>, ys: seq<RunnerAttempt>, keep: RunnerAttempt -> bool)
    ensures Count(xs + ys, keep) == Count(xs, keep) + Count(ys, keep)
  {
    if xs == [] {
      assert xs + ys == ys;
    } else {
      assert (xs + ys)[1..] == xs[1..] + ys;
      CountAppend(xs[1..], ys, keep);
    }
  }

  lemma {:induction false} CountMonotone(xs: seq<RunnerAttempt>, p: RunnerAttempt -> bool, q: RunnerAttempt -> bool)
    requires forall a :: a in xs && p(a) ==> q(a)
    ensures Count(xs, p) <= Count(xs, q)
  {
    if xs != [] {
      CountMonotone(xs[1..], p, q);
    }
  }

  lemma {:induction false} CountUpdate(xs: seq<RunnerAttempt>, k: nat, b: RunnerAttempt, p: RunnerAttempt -> bool)
    requires k < |xs|
    ensures Count(xs[k := b], p) == Count(xs, p) - (if p(xs[k]) then 1 else 0) + (if p(b) then 1 else 0)
  {
    if k > 0 {
      CountUpdate(xs[1..], k - 1, b, p);
      assert xs[k := b][1..] == xs[1..][k - 1 := b];
    } else {
      assert xs[k := b][1..] == xs[1..];
    }
  }

  // ---------------------------------------------------------------------------
  // One grant
  // ---------------------------------------------------------------------------

  predicate Refused(host: HostId, p: ScalePolicy) {
    p.host != host || p.mode.MonitorOnly? || !p.admits
  }

  /** Queued demand plus the occupied slots that cannot take queued work. */
  function Target(attempts: seq<RunnerAttempt>, p: PolicyId, demand: nat): nat {
    var active := Count16(attempts, ActiveOf(p));
    var unassigned := Count16(attempts, UnassignedOf(p));
    SaturatingAdd(demand, SaturatingSub(active, unassigned), U32_MAX)
  }

  function Clamp(x: nat, low: nat, high: nat): nat {
    if x < low then low else if x > high then high else x
  }

  /** How many runners the policy is short of, before the host ceiling. */
  function Wanted(host: HostId, attempts: seq<RunnerAttempt>, p: ScalePolicy, demand: nat): nat {
    if Refused(host, p) then 0
    else SaturatingSub(Clamp(Target(attempts, p.id, demand), p.mode.min, p.mode.max),
                       Count16(attempts, ActiveOf(p.id)))
  }

  /** What a range leaves to start, in plain numbers: the queue less the runners
      waiting for it, or what is missing to the end of the range that binds. */
  function Shortfall(m: Mode, demand: nat, occupied: nat, waiting: nat): nat
    requires m.Autoscale?
  {
    if demand + occupied < m.min then SaturatingSub(m.min, occupied + waiting)
    else if demand + occupied > m.max then SaturatingSub(m.max, occupied + waiting)
    else SaturatingSub(demand, waiting)
  }

  /** The runners that may still take queued work are those neither busy nor over. */
  lemma SupplyIsNeitherBusyNorOver(a: RunnerAttempt)
    ensures Unassigned(a) <==> !IsTerminal(a.state) && a.state != Busy
    ensures CountsAgainstCapacity(a) && !Unassigned(a) <==> a.state == Busy || (!IsNative(a) && IsTerminal(a.state) && a.state != Cleaned)
  {
  }

  lemma WantedIsTheShortfall(host: HostId, attempts: seq<RunnerAttempt>, p: ScalePolicy, demand: nat)
    requires !Refused(host, p) && ValidPolicy(p) && demand <= U32_MAX && Count(attempts, ActiveOf(p.id)) <= U16_MAX
    ensures var occupied, waiting := Count(attempts, AssignedOf(p.id)), Count(attempts, UnassignedOf(p.id));
      && Wanted(host, attempts, p, demand) == Shortfall(p.mode, demand, occupied, waiting)
      && Clamp(Target(attempts, p.id, demand), p.mode.min, p.mode.max)
         == (if demand + occupied < p.mode.min then p.mode.min else if demand + occupied > p.mode.max then p.mode.max else demand + occupied)
  {
    OccupiedIsAssignedOrNot(attempts, p.id);
  }

  /** The host-wide allocator of one pass. */
  class HostAllocator {
    const hostId: HostId
    const hostCapacity: nat
    const attempts: seq<RunnerAttempt>
    var activeTotal: nat

    ghost predicate Valid()
      reads this
    {
      1 <= hostCapacity <= U16_MAX && activeTotal <= U16_MAX
    }

    constructor FromAttempts(host: HostId, capacity: nat, attempts: seq<RunnerAttempt>)
      requires 1 <= capacity <= U16_MAX
      ensures Valid() && hostId == host && hostCapacity == capacity && this.attempts == attempts
      ensures activeTotal == Count16(attempts, Active())
    {
      hostId := host;
      hostCapacity := capacity;
      this.attempts := attempts;
      var total := CountSaturating(attempts, Active());
      activeTotal := total;
    }

    function Headroom(): nat
      reads this
    {
      SaturatingSub(hostCapacity, activeTotal)
    }

    /** Decide one policy's share and spend the headroom. */
    method Allocate(policy: ScalePolicy, demand: nat) returns (a: Allocation)
      requires Valid() && ValidPolicy(policy) && demand <= U32_MAX
      modifies this`activeTotal
      ensures Valid()
      ensures a.policy == policy.id && a.demand == demand && a.headroomBefore == old(Headroom())
      ensures a.activeOwned == Count16(attempts, ActiveOf(policy.id))
      ensures a.toStart == Min(Wanted(hostId, attempts, policy, demand), old(Headroom()))
      ensures activeTotal == old(activeTotal) + a.toStart
      ensures a.limitingFactor.ByHostCapacity? <==> a.toStart < Wanted(hostId, attempts, policy, demand)
      ensures a.limitingFactor.ByForeignHost? <==> policy.host != hostId
      ensures a.limitingFactor.ByMonitorOnly? <==> policy.host == hostId && policy.mode.MonitorOnly?
      ensures a.limitingFactor.ByNotReconciling? <==> policy.host == hostId && policy.mode.Autoscale? && !policy.admits
      ensures !Refused(hostId, policy) ==>
        a.desired == Clamp(Target(attempts, policy.id, demand), policy.mode.min, policy.mode.max)
      ensures Refused(hostId, policy) ==> a.desired == 0
      ensures a.limitingFactor.ByMaxCapacity? ==> !Refused(hostId, policy) && a.desired == policy.mode.max < demand + a.activeOwned
      ensures a.limitingFactor.ByMinCapacity? ==> !Refused(hostId, policy) && a.desired == policy.mode.min > demand
      ensures a.limitingFactor.ByMaxCapacity? <==>
        && !Refused(hostId, policy) && a.toStart == Wanted(hostId, attempts, policy, demand)
        && Target(attempts, policy.id, demand) > policy.mode.max
      ensures a.limitingFactor.ByMinCapacity? <==>
        && !Refused(hostId, policy) && a.toStart == Wanted(hostId, attempts, policy, demand)
        && Target(attempts, policy.id, demand) < policy.mode.min
      ensures a.limitingFactor.ByDemand? <==>
        && !Refused(hostId, policy) && a.toStart == Wanted(hostId, attempts, policy, demand)
        && policy.mode.min <= Target(attempts, policy.id, demand) <= policy.mode.max
      ensures a.toStart > 0 ==> a.activeOwned + a.toStart <= policy.mode.max
      ensures old(activeTotal) + a.toStart <= Max(old(activeTotal), hostCapacity) <= U16_MAX
      ensures !Refused(hostId, policy) && Count(attempts, ActiveOf(policy.id)) <= U16_MAX ==>
        var needed := demand + Count(attempts, AssignedOf(policy.id));
        && a.desired == (if needed < policy.mode.min then policy.mode.min else if needed > policy.mode.max then policy.mode.max else needed)
        && a.toStart == Min(a.headroomBefore, Shortfall(policy.mode, demand, Count(attempts, AssignedOf(policy.id)), Count(attempts, UnassignedOf(policy.id))))
    {
      var activeOwned := CountSaturating(attempts, ActiveOf(policy.id));
      var headroomBefore := Headroom();
      if policy.host != hostId {
        return Allocation(policy.id, demand, 0, activeOwned, headroomBefore, 0, ByForeignHost);
      }
      if policy.mode.MonitorOnly? {
        return Allocation(policy.id, demand, 0, activeOwned, headroomBefore, 0, ByMonitorOnly);
      }
      if !policy.admits {
        return Allocation(policy.id, demand, 0, activeOwned, headroomBefore, 0, ByNotReconciling);
      }
      if Count(attempts, ActiveOf(policy.id)) <= U16_MAX {
        WantedIsTheShortfall(hostId, attempts, policy, demand);
      }
      var min, max := policy.mode.min, policy.mode.max;
      var unassignedSupply := CountSaturating(attempts, UnassignedOf(policy.id));
      var target := SaturatingAdd(demand, SaturatingSub(activeOwned, unassignedSupply), U32_MAX);
      var desired := Clamp(target, min, max);
      var factor := if target > max then ByMaxCapacity else if target < min then ByMinCapacity else ByDemand;
      var wanted := SaturatingSub(desired, activeOwned);
      var toStart := Min(wanted, headroomBefore);
      if toStart < wanted {
        factor := ByHostCapacity;
      }
      activeTotal := SaturatingAdd(activeTotal, toStart, U16_MAX);
      a := Allocation(policy.id, demand, desired, activeOwned, headroomBefore, toStart, factor);
    }
  }

  /** The target addition may saturate at u32, but no answer depends on it:
      clamping the unsaturated sum gives the same result and the same verdict on
      both ends of the range. */
  lemma SaturationIsInvisible(attempts: seq<RunnerAttempt>, p: ScalePolicy, demand: nat)
    requires p.mode.Autoscale? && ValidPolicy(p) && demand <= U32_MAX
    ensures var exact := demand + SaturatingSub(Count16(attempts, ActiveOf(p.id)), Count16(attempts, UnassignedOf(p.id)));
      && Clamp(Target(attempts, p.id, demand), p.mode.min, p.mode.max) == Clamp(exact, p.mode.min, p.mode.max)
      && (Target(attempts, p.id, demand) > p.mode.max <==> exact > p.mode.max)
      && (Target(attempts, p.id, demand) < p.mode.min <==> exact < p.mode.min)
  {
  }

  lemma {:induction false} OccupiedIsAssignedOrNot(attempts: seq<RunnerAttempt>, p: PolicyId)
    ensures Count(attempts, ActiveOf(p)) == Count(attempts, AssignedOf(p)) + Count(attempts, UnassignedOf(p))
  {
    if attempts != [] {
      OccupiedIsAssignedOrNot(attempts[1..], p);
    }
  }

  /** The target is demand plus the occupied runners that have their work, and its
      u32 addition saturates exactly when that sum does not fit. */
  lemma TargetSaturatesExactlyWhen(attempts: seq<RunnerAttempt>, p: PolicyId, demand: nat)
    requires Count(attempts, ActiveOf(p)) <= U16_MAX && demand <= U32_MAX
    ensures var exact := demand + Count(attempts, AssignedOf(p));
      && (Target(attempts, p, demand) != exact <==> exact > U32_MAX)
      && (exact > U32_MAX ==> Target(attempts, p, demand) == U32_MAX)
  {
    OccupiedIsAssignedOrNot(attempts, p);
  }

  /** It does with the largest demand and one busy runner. */
  lemma TargetCanSaturate(a: RunnerAttempt)
    requires a.state == Busy
    ensures U32_MAX + Count([a], AssignedOf(a.policy)) > U32_MAX && Target([a], a.policy, U32_MAX) == U32_MAX
  {
    assert [a][1..] == [];
    assert Count([a], AssignedOf(a.policy)) == 1;
  }

  // ---------------------------------------------------------------------------
  // A whole pass
  // ---------------------------------------------------------------------------

  /** One question of a pass: a policy and its queued demand. */
  datatype Ask = Ask(policy: ScalePolicy, demand: nat)

  predicate ValidAsk(q: Ask) {
    ValidPolicy(q.policy) && q.demand <= U32_MAX
  }

  function WantedOf(host: HostId, attempts: seq<RunnerAttempt>, q: Ask): nat {
    Wanted(host, attempts, q.policy, q.demand)
  }

  function Wants(host: HostId, attempts: seq<RunnerAttempt>): Ask -> nat {
    q => WantedOf(host, attempts, q)
  }

  function TotalWanted(host: HostId, attempts: seq<RunnerAttempt>, qs: seq<Ask>): nat {
    Sums.Sum(Wants(host, attempts), qs)
  }

  function TotalStarted(as_: seq<Allocation>): nat {
    if as_ == [] then 0 else TotalStarted(as_[..|as_| - 1]) + as_[|as_| - 1].toStart
  }

  /** What is free when a pass begins. */
  function Free(capacity: nat, attempts: seq<RunnerAttempt>): nat {
    SaturatingSub(capacity, Count16(attempts, Active()))
  }

  /** The grant the k-th ask of a pass receives: what it wants, out of what the
      asks before it left. */
  function GrantAt(host: HostId, capacity: nat, attempts: seq<RunnerAttempt>, qs: seq<Ask>, k: nat): nat
    requires k < |qs|
  {
    Min(WantedOf(host, attempts, qs[k]), SaturatingSub(Free(capacity, attempts), TotalWanted(host, attempts, qs[..k])))
  }

  ghost predicate Granted(host: HostId, capacity: nat, attempts: seq<RunnerAttempt>, qs: seq<Ask>, k: nat, a: Allocation)
    requires k < |qs|
  {
    && a.policy == qs[k].policy.id
    && a.toStart == GrantAt(host, capacity, attempts, qs, k)
    && (a.limitingFactor.ByHostCapacity? <==> a.toStart < WantedOf(host, attempts, qs[k]))
    && (a.toStart > 0 ==> qs[k].policy.mode.Autoscale? && a.activeOwned + a.toStart <= qs[k].policy.mode.max)
  }

  /** One pass: every policy asked once, in the given order. The total started
      is the smaller of what was free and what was wanted, and the running total
      never passes the ceiling unless it began above it. */
  method Pass(host: HostId, capacity: nat, attempts: seq<RunnerAttempt>, qs: seq<Ask>) returns (as_: seq<Allocation>)
    requires 1 <= capacity <= U16_MAX
    requires forall q :: q in qs ==> ValidAsk(q)
    ensures |as_| == |qs|
    ensures TotalStarted(as_) == Min(Free(capacity, attempts), TotalWanted(host, attempts, qs))
    ensures Count16(attempts, Active()) + TotalStarted(as_) <= Max(Count16(attempts, Active()), capacity)
    ensures forall k :: 0 <= k < |qs| ==> Granted(host, capacity, attempts, qs, k, as_[k])
  {
    var allocator := new HostAllocator.FromAttempts(host, capacity, attempts);
    as_ := [];
    ghost var began := Count16(attempts, Active());
    for i := 0 to |qs|
      invariant allocator.Valid() && fresh(allocator)
      invariant allocator.hostId == host && allocator.hostCapacity == capacity && allocator.attempts == attempts
      invariant |as_| == i
      invariant allocator.activeTotal == began + TotalStarted(as_)
      invariant TotalStarted(as_) == Min(Free(capacity, attempts), TotalWanted(host, attempts, qs[..i]))
      invariant forall k :: 0 <= k < i ==> Granted(host, capacity, attempts, qs, k, as_[k])
    {
      assert ValidAsk(qs[i]);
      var a := allocator.Allocate(qs[i].policy, qs[i].demand);
      assert Granted(host, capacity, attempts, qs, i, a);
      assert qs[..i + 1][..i] == qs[..i];
      assert (as_ + [a])[..i] == as_;
      as_ := as_ + [a];
    }
    assert qs[..|qs|] == qs;
  }

  /** Once the host ceiling has bound, every later grant of the pass is zero. */
  lemma HostCapacityEndsThePass(host: HostId, capacity: nat, attempts: seq<RunnerAttempt>, qs: seq<Ask>, j: nat, k: nat)
    requires j < k < |qs|
    requires GrantAt(host, capacity, attempts, qs, j) < WantedOf(host, attempts, qs[j])
    ensures GrantAt(host, capacity, attempts, qs, k) == 0
  {
    Sums.Monotone(Wants(host, attempts), qs, j, k);
  }

  /** Order independence: any reordering of the asks starts the same total. */
  lemma OrderDoesNotMatter(host: HostId, capacity: nat, attempts: seq<RunnerAttempt>, qs: seq<Ask>, rs: seq<Ask>)
    requires multiset(qs) == multiset(rs)
    ensures Min(Free(capacity, attempts), TotalWanted(host, attempts, qs))
         == Min(Free(capacity, attempts), TotalWanted(host, attempts, rs))
  {
    Sums.Reordered(Wants(host, attempts), qs, rs);
  }

  // ---------------------------------------------------------------------------
  // The poll fixpoint
  // ---------------------------------------------------------------------------

  /** The next pass starts nothing: the host is full, or nobody wants more. */
  predicate Settled(host: HostId, capacity: nat, attempts: seq<RunnerAttempt>, qs: seq<Ask>) {
    Count(attempts, Active()) >= capacity || forall q :: q in qs ==> WantedOf(host, attempts, q) == 0
  }

  predicate DistinctPolicies(qs: seq<Ask>) {
    forall j, k :: 0 <= j < k < |qs| ==> qs[j].policy.id != qs[k].policy.id
  }

  /** A settled host grants nothing in a pass over any of the same asks, in any
      order and however often repeated. */
  lemma {:induction false} SettledStartsNothing(host: HostId, capacity: nat, attempts: seq<RunnerAttempt>, qs: seq<Ask>, rs: seq<Ask>)
    requires capacity <= U16_MAX && Settled(host, capacity, attempts, qs)
    requires forall r :: r in rs ==> r in qs
    ensures Min(Free(capacity, attempts), TotalWanted(host, attempts, rs)) == 0
    ensures forall k :: 0 <= k < |rs| ==> GrantAt(host, capacity, attempts, rs, k) == 0
  {
    if rs != [] {
      var last := |rs| - 1;
      assert rs[last] in rs;
      SettledStartsNothing(host, capacity, attempts, qs, rs[..last]);
      forall k | 0 <= k < |rs| ensures GrantAt(host, capacity, attempts, rs, k) == 0 {
        assert rs[k] in rs;
      }
    }
  }

  /** The runners of one grant: unassigned attempts of that policy. */
  predicate GrantBlock(block: seq<RunnerAttempt>, p: PolicyId, n: nat) {
    |block| == n && forall a :: a in block ==> a.policy == p && Unassigned(a)
  }

  function Flatten(blocks: seq<seq<RunnerAttempt>>): seq<RunnerAttempt> {
    if blocks == [] then [] else Flatten(blocks[..|blocks| - 1]) + blocks[|blocks| - 1]
  }

  lemma {:induction false} BlockCounts(block: seq<RunnerAttempt>, p: PolicyId, q: PolicyId)
    requires GrantBlock(block, p, |block|)
    ensures Count(block, Active()) == |block|
    ensures Count(block, ActiveOf(q)) == Count(block, UnassignedOf(q)) == (if p == q then |block| else 0)
  {
    if block != [] {
      assert forall a :: a in block[1..] ==> a in block;
      BlockCounts(block[1..], p, q);
      assert block[0] in block;
    }
  }

  /** After a pass, block k holds the runners of grant k. */
  ghost predicate Launched(host: HostId, capacity: nat, attempts: seq<RunnerAttempt>, qs: seq<Ask>, blocks: seq<seq<RunnerAttempt>>) {
    |blocks| <= |qs| &&
    forall k :: 0 <= k < |blocks| ==> GrantBlock(blocks[k], qs[k].policy.id, GrantAt(host, capacity, attempts, qs, k))
  }

  /** Counting the runners of one policy among blocks of distinct policies. */
  lemma {:induction false} BlocksOfPolicy(ids: seq<PolicyId>, blocks: seq<seq<RunnerAttempt>>, j: nat)
    requires |blocks| <= |ids| && j < |ids|
    requires forall k :: 0 <= k < |ids| && k != j ==> ids[k] != ids[j]
    requires forall k :: 0 <= k < |blocks| ==> GrantBlock(blocks[k], ids[k], |blocks[k]|)
    ensures Count(Flatten(blocks), ActiveOf(ids[j])) == Count(Flatten(blocks), UnassignedOf(ids[j]))
         == (if j < |blocks| then |blocks[j]| else 0)
  {
    if blocks != [] {
      var last := |blocks| - 1;
      BlocksOfPolicy(ids, blocks[..last], j);
      BlockCounts(blocks[last], ids[last], ids[j]);
      CountAppend(Flatten(blocks[..last]), blocks[last], ActiveOf(ids[j]));
      CountAppend(Flatten(blocks[..last]), blocks[last], UnassignedOf(ids[j]));
    }
  }

  /** What is granted in all grows by each grant. */
  lemma GrantsAddUp(host: HostId, capacity: nat, attempts: seq<RunnerAttempt>, qs: seq<Ask>, k: nat)
    requires k < |qs|
    ensures Min(Free(capacity, attempts), TotalWanted(host, attempts, qs[..k])) + GrantAt(host, capacity, attempts, qs, k)
         == Min(Free(capacity, attempts), TotalWanted(host, attempts, qs[..k + 1]))
  {
    assert qs[..k + 1][..k] == qs[..k];
  }

  /** Counting all the launched runners. */
  lemma {:induction false} LaunchedInAll(host: HostId, capacity: nat, attempts: seq<RunnerAttempt>, qs: seq<Ask>,
      blocks: seq<seq<RunnerAttempt>>)
    requires Launched(host, capacity, attempts, qs, blocks)
    ensures Count(Flatten(blocks), Active()) == Min(Free(capacity, attempts), TotalWanted(host, attempts, qs[..|blocks|]))
  {
    if blocks != [] {
      var last := |blocks| - 1;
      LaunchedInAll(host, capacity, attempts, qs, blocks[..last]);
      BlockCounts(blocks[last], qs[last].policy.id, qs[last].policy.id);
      CountAppend(Flatten(blocks[..last]), blocks[last], Active());
      GrantsAddUp(host, capacity, attempts, qs, last);
    }
  }

  lemma ActiveBounds(attempts: seq<RunnerAttempt>, p: PolicyId)
    ensures Count(attempts, UnassignedOf(p)) <= Count(attempts, ActiveOf(p)) <= Count(attempts, Active())
  {
    CountMonotone(attempts, UnassignedOf(p), ActiveOf(p));
    CountMonotone(attempts, ActiveOf(p), Active());
  }

  /** Runners added unassigned raise supply and occupancy alike, so the target
      stays and what was wanted shrinks by what was added. */
  lemma AddedRunnersShrinkWanted(host: HostId, attempts: seq<RunnerAttempt>, added: seq<RunnerAttempt>, q: Ask)
    requires Count(attempts + added, Active()) <= U16_MAX
    requires Count(added, ActiveOf(q.policy.id)) == Count(added, UnassignedOf(q.policy.id)) == WantedOf(host, attempts, q)
    ensures WantedOf(host, attempts + added, q) == 0
  {
    var p := q.policy.id;
    CountAppend(attempts, added, ActiveOf(p));
    CountAppend(attempts, added, UnassignedOf(p));
    ActiveBounds(attempts + added, p);
    ActiveBounds(attempts, p);
    assert Target(attempts + added, p, q.demand) == Target(attempts, p, q.demand);
  }

  /** The launched runners of ask k are exactly its grant. */
  lemma LaunchedForAsk(host: HostId, capacity: nat, attempts: seq<RunnerAttempt>, qs: seq<Ask>,
      blocks: seq<seq<RunnerAttempt>>, k: nat)
    requires DistinctPolicies(qs) && Launched(host, capacity, attempts, qs, blocks) && k < |blocks|
    ensures Count(Flatten(blocks), ActiveOf(qs[k].policy.id)) == Count(Flatten(blocks), UnassignedOf(qs[k].policy.id))
         == GrantAt(host, capacity, attempts, qs, k)
  {
    BlocksOfPolicy(seq(|qs|, i requires 0 <= i < |qs| => qs[i].policy.id), blocks, k);
  }

  /** Poll fixpoint: a pass over distinct policies whose grants are all launched
      and still unassigned leaves the host settled, whatever bound each grant. */
  lemma PollFixpoint(host: HostId, capacity: nat, attempts: seq<RunnerAttempt>, qs: seq<Ask>, blocks: seq<seq<RunnerAttempt>>)
    requires 1 <= capacity <= U16_MAX && DistinctPolicies(qs)
    requires |blocks| == |qs| && Launched(host, capacity, attempts, qs, blocks)
    ensures Settled(host, capacity, attempts + Flatten(blocks), qs)
  {
    var added := Flatten(blocks);
    CountAppend(attempts, added, Active());
    LaunchedInAll(host, capacity, attempts, qs, blocks);
    assert qs[..|blocks|] == qs;
    if Count(attempts + added, Active()) < capacity {
      forall q | q in qs ensures WantedOf(host, attempts + added, q) == 0 {
        var k :| 0 <= k < |qs| && qs[k] == q;
        LaunchedForAsk(host, capacity, attempts, qs, blocks, k);
        Sums.Monotone(Wants(host, attempts), qs, k, |qs|);
        AddedRunnersShrinkWanted(host, attempts, added, q);
      }
    }
  }

  // Pickups ---------------------------------------------------------------------

  datatype Poll = Poll(attempts: seq<RunnerAttempt>, asks: seq<Ask>)

  /** GitHub hands attempt `attempt` one of the jobs queued for ask `ask`. */
  datatype Pickup = Pickup(attempt: nat, ask: nat)

  function PickUp(s: Poll, e: Pickup): Poll {
    if e.attempt < |s.attempts| && e.ask < |s.asks| && Unassigned(s.attempts[e.attempt])
       && s.attempts[e.attempt].policy == s.asks[e.ask].policy.id && s.asks[e.ask].demand > 0
    then Poll(s.attempts[e.attempt := s.attempts[e.attempt].(state := Busy)],
              s.asks[e.ask := s.asks[e.ask].(demand := s.asks[e.ask].demand - 1)])
    else s
  }

  predicate SettledPoll(host: HostId, capacity: nat, s: Poll) {
    capacity <= U16_MAX && DistinctPolicies(s.asks) && Settled(host, capacity, s.attempts, s.asks)
  }

  lemma PickupKeepsSettled(host: HostId, capacity: nat, s: Poll, e: Pickup)
    requires SettledPoll(host, capacity, s)
    ensures SettledPoll(host, capacity, PickUp(s, e))
  {
    var t := PickUp(s, e);
    if t != s {
      var old_, new_ := s.attempts[e.attempt], t.attempts[e.attempt];
      CountUpdate(s.attempts, e.attempt, new_, Active());
      if Count(s.attempts, Active()) < capacity {
        forall q | q in t.asks ensures WantedOf(host, t.attempts, q) == 0 {
          var k :| 0 <= k < |t.asks| && t.asks[k] == q;
          var p := q.policy.id;
          CountUpdate(s.attempts, e.attempt, new_, ActiveOf(p));
          CountUpdate(s.attempts, e.attempt, new_, UnassignedOf(p));
          ActiveBounds(s.attempts, p);
          ActiveBounds(t.attempts, p);
          assert s.asks[k] in s.asks;
          assert Target(t.attempts, p, q.demand) == Target(s.attempts, p, s.asks[k].demand);
        }
      }
    }
  }

  /** Over any sequence of pickups the next pass still starts nothing. */
  lemma PickupsKeepSettled(host: HostId, capacity: nat, s: Poll, es: seq<Pickup>)
    requires SettledPoll(host, capacity, s)
    ensures SettledPoll(host, capacity, Runs.Run(PickUp, s, es))
  {
    forall t, e | SettledPoll(host, capacity, t) ensures SettledPoll(host, capacity, PickUp(t, e)) {
      PickupKeepsSettled(host, capacity, t, e);
    }
    Runs.Keeps(PickUp, t => SettledPoll(host, capacity, t), s, es);
  }
}
