/** A persistent slot between two attempts: scrub everything but the retained job
    workspace, verify it by two independent questions, and accept it for reuse.
    Listings and removals are adversarial: a listing may omit, repeat, invent or
    fail on entries, and a failed removal may have removed any part of a tree. */
module SlotDirectory {
  import opened Wrappers

  type Name = string
  type Path = seq<Name>

  /** A link is never followed, so where it points does not matter. */
  datatype Node = RealDir | RegularFile(content: nat) | Link(target: Path)

  type Nodes = map<Path, Node>

  const WORK: Name := "_work"

  /** The names an attempt is known to write beside its workspace. */
  const SENSITIVE: seq<Name> := [
    "bin", "externals", "run.sh", "run.cmd", "config.sh", "config.cmd",
    ".runner", ".credentials", ".credentials_rsaparams", ".env", ".path", "_diag",
    ".runner-process.json", ".runner-process.recovery.json", ".runner-process.unresolved",
    ".github-runner-id", ".terminate-registration-timeout"
  ]

  function Entry(slot: Path, name: Name): Path {
    slot + [name]
  }

  predicate Retainable(nodes: Nodes, slot: Path) {
    Entry(slot, WORK) in nodes && nodes[Entry(slot, WORK)].RealDir?
  }

  /** Below the slot, and not the workspace or anything in it. */
  predicate Expendable(slot: Path, q: Path) {
    |slot| < |q| && slot <= q && q[|slot|] != WORK
  }

  /** Every node but the root sits in a real directory. */
  ghost predicate WellFormed(nodes: Nodes) {
    forall q :: q in nodes && q != [] ==> Parent(q) in nodes && nodes[Parent(q)].RealDir?
  }

  function Parent(q: Path): Path
    requires q != []
  {
    q[..|q| - 1]
  }

  /** Empty, or one real `_work` and nothing else. */
  ghost predicate Reusable(nodes: Nodes, slot: Path) {
    forall name :: Entry(slot, name) in nodes ==> name == WORK && Retainable(nodes, slot)
  }

  // ---------------------------------------------------------------------------
  // What the file system answers
  // ---------------------------------------------------------------------------

  /** Entries in the order they are listed; a None entry is a read error. None in
      place of the whole listing means that the slot could not be opened. */
  type Listing = Option<seq<Option<Name>>>

  ghost predicate Truthful(nodes: Nodes, slot: Path, listing: Listing) {
    && listing.Some?
    && (forall i :: 0 <= i < |listing.value| ==> listing.value[i].Some? && Entry(slot, listing.value[i].value) in nodes)
    && (forall name :: Entry(slot, name) in nodes ==> Some(name) in listing.value)
  }

  datatype Removal = Removed | RemovalFailed(gone: set<Path>)

  /** What answers the scrub gets at its k-th entry: whether the entry could be
      inspected, and how its removal went. */
  datatype Handling = Handling(inspected: bool, removal: Removal)

  /** Whether a removal at `p` took `q` with it. */
  predicate TakenBy(p: Path, r: Removal, q: Path) {
    match r
    case Removed => p <= q
    case RemovalFailed(gone) => exists g :: g in gone && p <= g && g <= q
  }

  function After(nodes: Nodes, p: Path, r: Removal): Nodes {
    map q | q in nodes && !TakenBy(p, r, q) :: nodes[q]
  }

  /** Only expendable nodes went; nothing moved and nothing came. */
  ghost predicate OnlyExpendableGone(before: Nodes, after: Nodes, slot: Path) {
    && (forall q :: q in after ==> q in before && after[q] == before[q])
    && (forall q :: q in before && !Expendable(slot, q) ==> q in after)
  }

  lemma RemovalIsContained(nodes: Nodes, slot: Path, name: Name, r: Removal)
    requires name != WORK
    ensures OnlyExpendableGone(nodes, After(nodes, Entry(slot, name), r), slot)
    ensures r.Removed? ==> Entry(slot, name) !in After(nodes, Entry(slot, name), r)
    ensures WellFormed(nodes) ==> WellFormed(After(nodes, Entry(slot, name), r))
  {
    var p := Entry(slot, name);
    var after := After(nodes, p, r);
    forall q | q in nodes && TakenBy(p, r, q) ensures Expendable(slot, q) {
      assert p <= q;
      assert q[|slot|] == p[|slot|] == name;
      assert slot == p[..|slot|] == q[..|slot|];
    }
    if WellFormed(nodes) {
      forall q | q in after && q != [] ensures Parent(q) in after && after[Parent(q)].RealDir? {
        assert Parent(q) <= q;
        assert !TakenBy(p, r, Parent(q));
      }
    }
  }

  /** A reusable slot holds nothing, at any depth, outside its workspace. */
  lemma {:induction false} ReusableHoldsOnlyTheWorkspace(nodes: Nodes, slot: Path, q: Path)
    requires WellFormed(nodes) && Reusable(nodes, slot) && Expendable(slot, q)
    ensures q !in nodes
    decreases |q|
  {
    if |q| == |slot| + 1 {
      assert q == Entry(slot, q[|slot|]);
    } else {
      assert slot <= Parent(q);
      ReusableHoldsOnlyTheWorkspace(nodes, slot, Parent(q));
    }
  }

  // ---------------------------------------------------------------------------
  // Scrub, verify, accept
  // ---------------------------------------------------------------------------

  datatype Verdict = Clean | Enumeration | WorkNotADirectory | Deletion | Residue

  /** Whether the pass over a listing gets past its k-th entry. */
  predicate Passes(nodes: Nodes, slot: Path, name: Option<Name>) {
    name.Some? && (Entry(slot, name.value) in nodes ==> name.value == WORK && Retainable(nodes, slot))
  }

  class Disk {
    var nodes: Nodes

    constructor (found: Nodes)
      ensures nodes == found
    {
      nodes := found;
    }

    /** Whatever the listing says and however removals fail, only expendable nodes
        go: a `_work` of any kind, everything in it and everything outside the
        slot stay as they were. */
    method Scrub(slot: Path, listing: Listing, handling: nat -> Handling) returns (r: Verdict)
      modifies this
      ensures OnlyExpendableGone(old(nodes), nodes, slot)
      ensures WellFormed(old(nodes)) ==> WellFormed(nodes)
      ensures !r.Residue?
      ensures r.Clean? ==> listing.Some? && forall i :: 0 <= i < |listing.value| ==> Passes(nodes, slot, listing.value[i])
      ensures r.WorkNotADirectory? ==> Entry(slot, WORK) in nodes && !Retainable(nodes, slot)
      ensures r.Enumeration? ==> listing.None? || exists i :: 0 <= i < |listing.value| && (listing.value[i].None? || !handling(i).inspected)
      ensures r.Deletion? ==> listing.Some? && exists i :: 0 <= i < |listing.value| && handling(i).removal.RemovalFailed?
      ensures listing.Some? && (forall i :: 0 <= i < |listing.value| ==> listing.value[i].Some? && handling(i) == Handling(true, Removed)) ==>
        (r.Clean? <==> (Some(WORK) in listing.value && Entry(slot, WORK) in old(nodes) ==> Retainable(old(nodes), slot)))
      ensures r.Clean? && Truthful(old(nodes), slot, listing) ==> Reusable(nodes, slot)
    {
      if listing.None? {
        return Enumeration;
      }
      var names := listing.value;
      var k := 0;
      while k < |names|
        invariant 0 <= k <= |names| && OnlyExpendableGone(old(nodes), nodes, slot)
        invariant WellFormed(old(nodes)) ==> WellFormed(nodes)
        invariant forall i :: 0 <= i < k ==> Passes(nodes, slot, names[i])
        invariant Retainable(nodes, slot) <==> Retainable(old(nodes), slot)
      {
        if names[k].None? || !handling(k).inspected {
          return Enumeration;
        }
        var name := names[k].value;
        if Entry(slot, name) in nodes {
          if name == WORK {
            if !Retainable(nodes, slot) {
              return WorkNotADirectory;
            }
          } else {
            RemovalIsContained(nodes, slot, name, handling(k).removal);
            WorkspaceStays(nodes, slot, name, handling(k).removal);
            nodes := After(nodes, Entry(slot, name), handling(k).removal);
            if !handling(k).removal.Removed? {
              return Deletion;
            }
          }
        }
        k := k + 1;
      }
      if Truthful(old(nodes), slot, listing) {
        CleanIsReusable(old(nodes), nodes, slot, listing);
      }
      return Clean;
    }

    /** Proves the scrub by two questions: what the listing shows, and whether each
        name an attempt is known to write answers a direct stat. `blind` are the
        names whose stat fails. */
    method Verify(slot: Path, listing: Listing, inspected: nat -> bool, blind: set<Name>) returns (r: Verdict)
      ensures r.Clean? ==> listing.Some? && forall i :: 0 <= i < |listing.value| ==> Passes(nodes, slot, listing.value[i])
      ensures r.Clean? ==> forall s :: s in SENSITIVE && s !in blind ==> Entry(slot, s) !in nodes
      ensures r.Clean? || r.Residue? || (r.Enumeration? && (listing.None? || exists i :: 0 <= i < |listing.value| && (listing.value[i].None? || !inspected(i))))
      ensures (listing.Some? && forall i :: 0 <= i < |listing.value| ==> inspected(i)) ==>
        (r.Clean? <==> (forall i :: 0 <= i < |listing.value| ==> Passes(nodes, slot, listing.value[i]))
                       && forall s :: s in SENSITIVE && s !in blind ==> Entry(slot, s) !in nodes)
    {
      if listing.None? {
        return Enumeration;
      }
      var names := listing.value;
      var residue := 0;
      var k := 0;
      while k < |names|
        invariant 0 <= k <= |names|
        invariant residue == 0 <==> forall i :: 0 <= i < k ==> Passes(nodes, slot, names[i])
        invariant forall i :: 0 <= i < k ==> names[i].Some?
      {
        if names[k].None? || !inspected(k) {
          return Enumeration;
        }
        var name := names[k].value;
        if Entry(slot, name) in nodes && !(name == WORK && Retainable(nodes, slot)) {
          residue := residue + 1;
        }
        k := k + 1;
      }
      var named := 0;
      var j := 0;
      while j < |SENSITIVE|
        invariant 0 <= j <= |SENSITIVE|
        invariant named == 0 <==> forall i :: 0 <= i < j && SENSITIVE[i] !in blind ==> Entry(slot, SENSITIVE[i]) !in nodes
      {
        if Entry(slot, SENSITIVE[j]) in nodes && SENSITIVE[j] !in blind {
          named := named + 1;
        }
        j := j + 1;
      }
      return if residue == 0 && named == 0 then Clean else Residue;
    }

    /** The question the next allocation asks of the same slot. An entry that
        vanished while being listed is refused here. */
    method Accept(slot: Path, listing: Listing, inspected: nat -> bool) returns (ok: bool)
      ensures ok ==> listing.Some? && forall i :: 0 <= i < |listing.value| ==> Passes(nodes, slot, listing.value[i])
      ensures Truthful(nodes, slot, listing) && (forall i :: 0 <= i < |listing.value| ==> inspected(i)) ==>
        (ok <==> Reusable(nodes, slot))
    {
      if listing.None? {
        return false;
      }
      var names := listing.value;
      var refused := 0;
      var k := 0;
      while k < |names|
        invariant 0 <= k <= |names|
        invariant refused == 0 <==> forall i :: 0 <= i < k ==> Passes(nodes, slot, names[i])
      {
        if names[k].None? || !inspected(k) || Entry(slot, names[k].value) !in nodes {
          return false;
        }
        if !(names[k].value == WORK && Retainable(nodes, slot)) {
          refused := refused + 1;
        }
        k := k + 1;
      }
      ok := refused == 0;
      if Truthful(nodes, slot, listing) {
        PassingIsReusable(nodes, slot, listing);
      }
    }
  }

  lemma WorkspaceStays(nodes: Nodes, slot: Path, name: Name, r: Removal)
    requires name != WORK
    ensures Retainable(After(nodes, Entry(slot, name), r), slot) <==> Retainable(nodes, slot)
  {
    RemovalIsContained(nodes, slot, name, r);
    assert Entry(slot, WORK)[|slot|] == WORK;
    assert !Expendable(slot, Entry(slot, WORK));
  }

  /** On a truthful listing every entry passes exactly when the slot is reusable. */
  lemma PassingIsReusable(nodes: Nodes, slot: Path, listing: Listing)
    requires Truthful(nodes, slot, listing)
    ensures (forall i :: 0 <= i < |listing.value| ==> Passes(nodes, slot, listing.value[i])) <==> Reusable(nodes, slot)
  {
    var names := listing.value;
    if forall i :: 0 <= i < |names| ==> Passes(nodes, slot, names[i]) {
      forall name | Entry(slot, name) in nodes ensures name == WORK && Retainable(nodes, slot) {
        var i :| 0 <= i < |names| && names[i] == Some(name);
        assert Passes(nodes, slot, names[i]);
      }
    }
  }

  /** What a truthful listing showed before a scrub is all there can be after it. */
  lemma CleanIsReusable(before: Nodes, after: Nodes, slot: Path, listing: Listing)
    requires Truthful(before, slot, listing) && OnlyExpendableGone(before, after, slot)
    requires forall i :: 0 <= i < |listing.value| ==> Passes(after, slot, listing.value[i])
    ensures Reusable(after, slot)
  {
    var names := listing.value;
    forall name | Entry(slot, name) in after ensures name == WORK && Retainable(after, slot) {
      assert Entry(slot, name) in before;
      var i :| 0 <= i < |names| && names[i] == Some(name);
      assert Passes(after, slot, names[i]);
    }
  }

  lemma WorkIsNotSensitive()
    ensures WORK !in SENSITIVE
  {
    assert WORK == "_work";
    forall i | 0 <= i < |SENSITIVE| ensures SENSITIVE[i] != WORK {
      assert |SENSITIVE[i]| != 5 || SENSITIVE[i][0] != '_' || SENSITIVE[i][1] != 'w';
    }
  }

  /** Cleanup and allocation agree: on a truthful listing, and whatever stats
      fail, verification accepts exactly the slots the next allocation accepts. */
  lemma VerifyAgreesWithAccept(nodes: Nodes, slot: Path, listing: Listing, blind: set<Name>)
    requires Truthful(nodes, slot, listing)
    ensures Reusable(nodes, slot) <==>
      && (forall i :: 0 <= i < |listing.value| ==> Passes(nodes, slot, listing.value[i]))
      && forall s :: s in SENSITIVE && s !in blind ==> Entry(slot, s) !in nodes
  {
    PassingIsReusable(nodes, slot, listing);
    WorkIsNotSensitive();
  }

  /** A slot that cleanup releases: scrubbed and verified on listings nobody
      vouches for, `blind` being the names whose stat fails. Its other sensitive
      names are gone, and if the verifying listing was truthful, only the workspace
      is left, whatever stats failed, and the next allocation accepts it. */
  method Release(disk: Disk, slot: Path, first: Listing, handling: nat -> Handling, second: Listing, inspected: nat -> bool, blind: set<Name>)
    returns (released: bool)
    modifies disk
    ensures OnlyExpendableGone(old(disk.nodes), disk.nodes, slot)
    ensures WellFormed(old(disk.nodes)) ==> WellFormed(disk.nodes)
    ensures released ==> forall s :: s in SENSITIVE && s !in blind ==> Entry(slot, s) !in disk.nodes
    ensures released ==> first.Some? && forall i :: 0 <= i < |first.value| ==> Passes(disk.nodes, slot, first.value[i])
    ensures released && Truthful(disk.nodes, slot, second) ==> Reusable(disk.nodes, slot)
    ensures released && Truthful(disk.nodes, slot, second) && WellFormed(old(disk.nodes)) ==>
      forall q :: q in disk.nodes ==> !Expendable(slot, q)
  {
    var scrubbed := disk.Scrub(slot, first, handling);
    if !scrubbed.Clean? {
      return false;
    }
    var verified := disk.Verify(slot, second, inspected, blind);
    released := verified.Clean?;
    if released && Truthful(disk.nodes, slot, second) {
      PassingIsReusable(disk.nodes, slot, second);
      if WellFormed(old(disk.nodes)) {
        forall q | q in disk.nodes ensures !Expendable(slot, q) {
          if Expendable(slot, q) {
            ReusableHoldsOnlyTheWorkspace(disk.nodes, slot, q);
          }
        }
      }
    }
  }
}
