/** Persistent slot leases: selection of the lowest free slot, the durable
    index that settles races, and what both give over whole runs. */
module Slots {
  import opened Wrappers
  import opened Attempts
  import opened Journal
  import Runs

  // ---------------------------------------------------------------------------
  // Selection
  // ---------------------------------------------------------------------------

  /** The uncleaned persistent attempts of one policy. */
  function Leases(rows: Rows, p: PolicyId): set<AttemptId> {
    set i | i in rows && rows[i].policy == p && HoldsSlotLease(rows[i])
  }

  function HeldSlots(rows: Rows, p: PolicyId): set<nat> {
    set i | i in Leases(rows, p) :: rows[i].workspace.slot
  }

  /** The first slot of `from..=ceiling` nobody holds. */
  function FirstFree(held: set<nat>, from: nat, ceiling: nat): (r: Option<nat>)
    ensures r.Some? ==> from <= r.value <= ceiling && r.value !in held && forall s :: from <= s < r.value ==> s in held
    ensures r.None? ==> forall s :: from <= s <= ceiling ==> s in held
    decreases ceiling + 1 - from
  {
    if from > ceiling then None
    else if from !in held then Some(from)
    else FirstFree(held, from + 1, ceiling)
  }

  function LowestFreeSlot(rows: Rows, p: PolicyId, ceiling: nat): Option<nat> {
    FirstFree(HeldSlots(rows, p), 1, ceiling)
  }

  lemma {:induction false} ImageIsNoLarger(rows: Rows, ids: set<AttemptId>, slots: set<nat>)
    requires forall i :: i in ids ==> i in rows && rows[i].workspace.PersistentSlot?
    requires slots == set i | i in ids :: rows[i].workspace.slot
    ensures |slots| <= |ids|
  {
    if ids == {} {
      assert slots == {};
    } else {
      var i :| i in ids;
      var fewer := set j | j in ids - {i} :: rows[j].workspace.slot;
      ImageIsNoLarger(rows, ids - {i}, fewer);
      assert slots == fewer + {rows[i].workspace.slot};
    }
  }

  lemma {:induction false} RangeHasSize(held: set<nat>, n: nat)
    requires forall s :: 1 <= s <= n ==> s in held
    ensures |held| >= n
  {
    if n > 0 {
      RangeHasSize(held - {n}, n - 1);
    }
  }

  /** Selection is refused exactly when every slot within the ceiling is leased,
      so fewer leases than the ceiling always leave a slot. */
  lemma FewerLeasesLeaveASlot(rows: Rows, p: PolicyId, ceiling: nat)
    ensures LowestFreeSlot(rows, p, ceiling).None? <==> forall s :: 1 <= s <= ceiling ==> s in HeldSlots(rows, p)
    ensures |Leases(rows, p)| < ceiling ==> LowestFreeSlot(rows, p, ceiling).Some?
  {
    ImageIsNoLarger(rows, Leases(rows, p), HeldSlots(rows, p));
    if LowestFreeSlot(rows, p, ceiling).None? {
      RangeHasSize(HeldSlots(rows, p), ceiling);
    }
  }

  // ---------------------------------------------------------------------------
  // Whole runs
  // ---------------------------------------------------------------------------

  /** A slot chosen in memory, before the write that leases it. */
  datatype Choice = Choice(policy: PolicyId, slot: nat, ceiling: nat)

  datatype State = State(rows: Rows, choices: map<nat, Choice>)

  /** Two allocations may interleave: `Select` reads the leases, `Lease` writes
      the row. `Rewrite` is any later write of any copy of a row, stale or not:
      conclusions, failed and successful cleanups. */
  datatype Event =
    | Select(task: nat, policy: PolicyId, ceiling: nat)
    | Lease(task: nat, attempt: AttemptId)
    | Rewrite(row: RunnerAttempt)
    | Crash

  function FreshRow(i: AttemptId, c: Choice): RunnerAttempt {
    RunnerAttempt(i, c.policy, Allocated, None, Native(None), PersistentSlot(c.slot))
  }

  function Apply(s: State, e: Event): State {
    match e
    case Select(t, p, ceiling) =>
      (match LowestFreeSlot(s.rows, p, ceiling)
       case None => s.(choices := s.choices - {t})
       case Some(slot) => s.(choices := s.choices[t := Choice(p, slot, ceiling)]))
    case Lease(t, i) =>
      if t !in s.choices || i in s.rows then s
      else
        var ended := s.(choices := s.choices - {t});
        (match Record(s.rows, FreshRow(i, s.choices[t]))
         case None => ended
         case Some(rows) => ended.(rows := rows))
    case Rewrite(a) =>
      if a.id !in s.rows || a.policy != s.rows[a.id].policy then s
      else (match Record(s.rows, a)
            case None => s
            case Some(rows) => s.(rows := rows))
    case Crash => s.(choices := map[])
  }

  /** No two uncleaned attempts of one policy hold one slot. */
  ghost predicate LeasesDistinct(rows: Rows) {
    forall i, j :: i in rows && j in rows && i != j && HoldsSlotLease(rows[i]) && HoldsSlotLease(rows[j]) ==>
      rows[i].policy != rows[j].policy || rows[i].workspace != rows[j].workspace
  }

  ghost predicate Inv(s: State) {
    && (forall i :: i in s.rows ==> s.rows[i].id == i)
    && LeasesDistinct(s.rows)
    && (forall t :: t in s.choices ==> 1 <= s.choices[t].slot <= s.choices[t].ceiling)
  }

  lemma RecordKeepsLeasesDistinct(rows: Rows, a: RunnerAttempt)
    requires LeasesDistinct(rows) && Record(rows, a).Some?
    ensures LeasesDistinct(Record(rows, a).value)
  {
    var after := Record(rows, a).value;
    var b := Stored(rows, a);
    forall i, j | i in after && j in after && i != j && HoldsSlotLease(after[i]) && HoldsSlotLease(after[j])
      && after[i].policy == after[j].policy
      ensures after[i].workspace != after[j].workspace
    {
      assert i != a.id ==> after[i] == rows[i];
      assert j != a.id ==> after[j] == rows[j];
      assert !LeaseConflict(rows, b);
    }
  }

  lemma StepKeepsInv(s: State, e: Event)
    requires Inv(s)
    ensures Inv(Apply(s, e))
  {
    match e
    case Lease(t, i) =>
      if t in s.choices && Record(s.rows, FreshRow(i, s.choices[t])).Some? {
        RecordKeepsLeasesDistinct(s.rows, FreshRow(i, s.choices[t]));
      }
    case Rewrite(a) =>
      if Record(s.rows, a).Some? {
        RecordKeepsLeasesDistinct(s.rows, a);
      }
    case _ =>
  }

  /** Over every run, however selections, writes, failed and successful cleanups,
      ceiling changes and crashes interleave, no slot is ever shared. */
  lemma {:induction false} NoSlotIsShared(es: seq<Event>)
    ensures Inv(Runs.Run(Apply, State(map[], map[]), es))
  {
    forall s, e | Inv(s) ensures Inv(Apply(s, e)) { StepKeepsInv(s, e); }
    Runs.Keeps(Apply, Inv, State(map[], map[]), es);
  }

  /** An attempt keeps the slot it was allocated for as long as the journal runs. */
  lemma {:induction false} SlotIsImmutable(s: State, es: seq<Event>)
    ensures RowsKept(s.rows, Runs.Run(Apply, s, es).rows)
  {
    if es == [] {
      RowsKeptReflexive(s.rows);
    } else {
      var mid := Runs.Run(Apply, s, es[..|es| - 1]);
      SlotIsImmutable(s, es[..|es| - 1]);
      StepKeepsRows(mid, es[|es| - 1]);
      RowsKeptTransitive(s.rows, mid.rows, Runs.Run(Apply, s, es).rows);
    }
  }

  lemma StepKeepsRows(s: State, e: Event)
    ensures RowsKept(s.rows, Apply(s, e).rows)
  {
    RowsKeptReflexive(s.rows);
    match e
    case Lease(t, i) =>
      if t in s.choices && Record(s.rows, FreshRow(i, s.choices[t])).Some? {
        RecordKeepsRows(s.rows, FreshRow(i, s.choices[t]));
      }
    case Rewrite(a) =>
      if Record(s.rows, a).Some? { RecordKeepsRows(s.rows, a); }
    case _ =>
  }

  /** A race of two selections for one slot: whoever writes second journals
      nothing, and the winner's lease stands. */
  lemma LoserJournalsNothing(s: State, t: nat, u: nat, i: AttemptId, j: AttemptId)
    requires Inv(s) && t in s.choices && u in s.choices && t != u && i != j && i !in s.rows && j !in s.rows
    requires s.choices[t].policy == s.choices[u].policy && s.choices[t].slot == s.choices[u].slot
    requires s.choices[t].slot !in HeldSlots(s.rows, s.choices[t].policy)
    ensures var first := Apply(s, Lease(t, i));
      && i in first.rows && first.rows[i].workspace == PersistentSlot(s.choices[t].slot)
      && Apply(first, Lease(u, j)).rows == first.rows
  {
    var c := s.choices[t];
    var a := FreshRow(i, c);
    forall b | b in s.rows && HoldsSlotLease(s.rows[b]) && s.rows[b].policy == c.policy
      ensures s.rows[b].workspace != a.workspace
    {
      assert b in Leases(s.rows, c.policy);
      assert s.rows[b].workspace.slot in HeldSlots(s.rows, c.policy);
    }
    assert !LeaseConflict(s.rows, a);
    var first := Apply(s, Lease(t, i));
    assert first.rows == s.rows[i := a];
    assert LeaseConflict(first.rows, FreshRow(j, s.choices[u]));
  }

  /** A slot nobody holds is granted by the index. */
  lemma FreeSlotIsNoConflict(rows: Rows, i: AttemptId, c: Choice)
    requires c.slot !in HeldSlots(rows, c.policy)
    ensures !LeaseConflict(rows, FreshRow(i, c))
  {
    forall b | b in rows && HoldsSlotLease(rows[b]) && rows[b].policy == c.policy
      ensures rows[b].workspace != PersistentSlot(c.slot)
    {
      assert b in Leases(rows, c.policy);
      assert rows[b].workspace.slot in HeldSlots(rows, c.policy);
    }
  }

  /** Under the allocation lock, where nothing falls between the two halves, a row
      is written exactly when some slot within the ceiling is free, however many
      leases are held above it, and it holds the lowest such slot. Otherwise the
      journal stays as it was. */
  lemma LockedAllocationTakesTheLowest(s: State, t: nat, p: PolicyId, ceiling: nat, i: AttemptId)
    requires Inv(s) && i !in s.rows
    ensures var after := Apply(Apply(s, Select(t, p, ceiling)), Lease(t, i));
      if exists slot :: 1 <= slot <= ceiling && slot !in HeldSlots(s.rows, p)
      then i in after.rows && after.rows[i].workspace.PersistentSlot?
           && var slot := after.rows[i].workspace.slot;
           && after.rows == s.rows[i := FreshRow(i, Choice(p, slot, ceiling))]
           && 1 <= slot <= ceiling && slot !in HeldSlots(s.rows, p)
           && forall lower :: 1 <= lower < slot ==> lower in HeldSlots(s.rows, p)
      else after.rows == s.rows
  {
    var slot := LowestFreeSlot(s.rows, p, ceiling);
    if slot.Some? {
      FreeSlotIsNoConflict(s.rows, i, Choice(p, slot.value, ceiling));
    }
  }

  /** And it does free it: the slot of a row written as cleaned can be granted again. */
  lemma CleaningFreesTheSlot(s: State, a: RunnerAttempt)
    requires Inv(s) && a.id in s.rows && HoldsSlotLease(s.rows[a.id]) && a.policy == s.rows[a.id].policy && a.state == Cleaned
    requires CanAdvanceTo(s.rows[a.id].execution, a.execution)
    ensures var after := Apply(s, Rewrite(a)).rows;
      && after == s.rows[a.id := a.(workspace := s.rows[a.id].workspace)]
      && s.rows[a.id].workspace.slot !in HeldSlots(after, a.policy)
  {
    var after := Apply(s, Rewrite(a)).rows;
    assert after == s.rows[a.id := Stored(s.rows, a)];
    forall j | j in Leases(after, a.policy) ensures after[j].workspace.slot != s.rows[a.id].workspace.slot {
      assert j != a.id && after[j] == s.rows[j];
    }
  }

  /** Concluding or failing to clean an attempt keeps its slot; only the write of
      `Cleaned` frees it. */
  lemma OnlyCleaningFreesASlot(s: State, e: Event, i: AttemptId)
    requires Inv(s) && i in s.rows && HoldsSlotLease(s.rows[i])
    requires i in Apply(s, e).rows && !HoldsSlotLease(Apply(s, e).rows[i])
    ensures e.Rewrite? && e.row.id == i && e.row.state == Cleaned
    ensures s.rows[i].workspace.slot !in HeldSlots(Apply(s, e).rows, s.rows[i].policy)
  {
    var after := Apply(s, e).rows;
    assert after == s.rows[i := Stored(s.rows, e.row)];
    forall j | j in Leases(after, s.rows[i].policy) ensures after[j].workspace.slot != s.rows[i].workspace.slot {
      assert j != i && after[j] == s.rows[j];
    }
  }
}
