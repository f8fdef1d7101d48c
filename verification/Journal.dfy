/** The durable attempt journal: one row per attempt, written by upsert under
    two guards, the execution order and the slot-lease index. */
module Journal {
  import opened Wrappers
  import opened Attempts

  type Rows = map<AttemptId, RunnerAttempt>

  /** Whether a row written for `a` would share a live slot lease with another
      row, which the partial unique index refuses. */
  predicate LeaseConflict(rows: Rows, a: RunnerAttempt) {
    HoldsSlotLease(a) &&
    exists b :: b in rows && b != a.id && HoldsSlotLease(rows[b])
                && rows[b].policy == a.policy && rows[b].workspace == a.workspace
  }

  /** What an upsert stores: the workspace is written by the first insert only. */
  function Stored(rows: Rows, a: RunnerAttempt): RunnerAttempt {
    if a.id in rows then a.(workspace := rows[a.id].workspace) else a
  }

  /** One `record_attempt` transaction; None leaves the table as it was. */
  function Record(rows: Rows, a: RunnerAttempt): (r: Option<Rows>)
    ensures r.Some? ==> r.value.Keys == rows.Keys + {a.id}
  {
    if a.id in rows && !CanAdvanceTo(rows[a.id].execution, a.execution) then None
    else if LeaseConflict(rows, Stored(rows, a)) then None
    else Some(rows[a.id := Stored(rows, a)])
  }

  /** What no sequence of writes may undo in a row. */
  predicate RowKept(before: RunnerAttempt, after: RunnerAttempt) {
    CanAdvanceTo(before.execution, after.execution) && before.workspace == after.workspace
  }

  predicate RowsKept(before: Rows, after: Rows) {
    forall i :: i in before ==> i in after && RowKept(before[i], after[i])
  }

  lemma RecordKeepsRows(rows: Rows, a: RunnerAttempt)
    requires Record(rows, a).Some?
    ensures RowsKept(rows, Record(rows, a).value)
  {
  }

  lemma RowsKeptReflexive(rows: Rows)
    ensures RowsKept(rows, rows)
  {
  }

  lemma RowsKeptTransitive(r0: Rows, r1: Rows, r2: Rows)
    requires RowsKept(r0, r1) && RowsKept(r1, r2)
    ensures RowsKept(r0, r2)
  {
    forall i | i in r0 ensures i in r2 && RowKept(r0[i], r2[i]) {
      assert RowKept(r0[i], r1[i]) && RowKept(r1[i], r2[i]);
    }
  }
}
