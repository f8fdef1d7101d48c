/** The validated copy of a runner package that jobs may be editing: record a
    fingerprint, copy entry by entry, fingerprint again, and accept the copy
    only if nothing moved. No walk is atomic: edits may fall between any two of
    its reads. */
module PackageCopy {
  import opened Wrappers

  type Name = nat
  type Path = seq<Name>
  type Stamp = nat
  type Time = nat

  /** What a path holds. The stamp stands for the inode and its change time. */
  datatype Node =
    | File(content: nat, stamp: Stamp)
    | Folder(children: set<Name>, stamp: Stamp)

  type Tree = map<Path, Node>

  /** The package at each instant, under every edit anybody makes. The root is
      the empty path. */
  type History = Time -> Tree

  // ---------------------------------------------------------------------------
  // What the file system promises
  // ---------------------------------------------------------------------------

  function Child(p: Path, c: Name): Path {
    p + [c]
  }

  /** The folder at `p` lists an entry named `c`. */
  predicate Lists(t: Tree, p: Path, c: Name) {
    p in t && t[p].Folder? && c in t[p].children
  }

  /** A path other than the root is there exactly when its folder lists it. */
  ghost predicate WellFormed(t: Tree) {
    forall p, c {:trigger Lists(t, p, c)} :: Lists(t, p, c) <==> Child(p, c) in t
  }

  /** The version a path showed at `t` never comes back to that path. */
  ghost predicate Retired(h: History, q: Path, t: Time) {
    q in h(t) && forall v :: v > t && q in h(v) ==> h(v)[q].stamp != h(t)[q].stamp
  }

  predicate Same(a: Tree, b: Tree, p: Path) {
    p in a && p in b && a[p] == b[p]
  }

  /** What happens to `p` right after `t`: nothing, or an edit, replacement,
      removal or rename, each of which moves for good the change time of the
      entry or of a folder above it. */
  ghost predicate StampedAt(h: History, t: Time, p: Path) {
    p in h(t) && !Same(h(t), h(t + 1), p) ==> exists q :: q <= p && Retired(h, q, t)
  }

  ghost predicate FileSystem(h: History) {
    && (forall t, p {:trigger StampedAt(h, t, p)} :: StampedAt(h, t, p))
    && (forall t :: WellFormed(h(t)))
  }

  // ---------------------------------------------------------------------------
  // Walks
  // ---------------------------------------------------------------------------

  /** One read of a walk: the node found at a path, and when the path was listed
      if it was a folder. */
  datatype Read = Read(path: Path, at: Time, node: Node, listed: Time)

  /** The read saw what was there, and listed no earlier than it looked. */
  ghost predicate Truthful(h: History, r: Read, from: Time, to: Time) {
    && from <= r.at <= to && r.path in h(r.at) && r.node == h(r.at)[r.path]
    && (r.node.Folder? ==> r.at <= r.listed <= to)
  }

  /** Read `j` led to read `i`: `i` is an entry of the listing of `j`. */
  ghost predicate LedTo(h: History, j: Read, i: Read) {
    && j.node.Folder? && i.path != [] && j.path == i.path[..|i.path| - 1]
    && j.listed <= i.at && Lists(h(j.listed), j.path, i.path[|i.path| - 1])
  }

  ghost predicate WasLed(h: History, rs: seq<Read>, i: nat)
    requires i < |rs|
  {
    exists j :: 0 <= j < i && LedTo(h, rs[j], rs[i])
  }

  ghost predicate Visits(rs: seq<Read>, p: Path) {
    exists i :: 0 <= i < |rs| && rs[i].path == p
  }

  ghost predicate VisitsListing(h: History, rs: seq<Read>, r: Read) {
    r.node.Folder? ==> forall c :: Lists(h(r.listed), r.path, c) ==> Visits(rs, Child(r.path, c))
  }

  ghost predicate ReadOk(h: History, rs: seq<Read>, from: Time, to: Time, i: nat)
    requires i < |rs|
  {
    && Truthful(h, rs[i], from, to)
    && VisitsListing(h, rs, rs[i])
    && if i == 0 then rs[i].path == [] else WasLed(h, rs, i)
  }

  /** The reads some walk of the package made between `from` and `to`. The walk
      starts at the root, reads an entry only after listing its folder, and
      visits every entry it listed. A path that vanished between the listing and
      the read is an error, which leaves no walk. */
  ghost predicate Walked(h: History, rs: seq<Read>, from: Time, to: Time) {
    rs != [] && forall i {:trigger ReadOk(h, rs, from, to, i)} :: 0 <= i < |rs| ==> ReadOk(h, rs, from, to, i)
  }

  /** What a fingerprint says about one entry. */
  datatype Mark = Mark(path: Path, folder: bool, stamp: Stamp)

  function MarkOf(r: Read): Mark {
    Mark(r.path, r.node.Folder?, r.node.stamp)
  }

  /** The fingerprint of a walk: every entry's path and metadata. The walk goes
      by sorted names, so the entries alone decide the digest. */
  function Print(rs: seq<Read>): set<Mark> {
    set i | 0 <= i < |rs| :: MarkOf(rs[i])
  }

  /** What a copy holds: paths with their content, a folder having none. */
  datatype Entry = Entry(path: Path, content: Option<nat>)

  function EntryOf(p: Path, n: Node): Entry {
    Entry(p, if n.File? then Some(n.content) else None)
  }

  /** The copy a walk leaves behind. */
  function Copied(rs: seq<Read>): set<Entry> {
    set i | 0 <= i < |rs| :: EntryOf(rs[i].path, rs[i].node)
  }

  /** The whole package as it stands in one instant. */
  function Package(t: Tree): set<Entry> {
    set p | p in t :: EntryOf(p, t[p])
  }

  // ---------------------------------------------------------------------------
  // A confirmed record: nothing moved
  // ---------------------------------------------------------------------------

  lemma {:induction false} FoldersAreReadFirst(h: History, rs: seq<Read>, from: Time, to: Time, i: nat, q: Path)
    returns (j: nat)
    requires Walked(h, rs, from, to) && i < |rs| && q <= rs[i].path
    ensures j <= i && rs[j].path == q && rs[j].at <= rs[i].at
    decreases i
  {
    assert ReadOk(h, rs, from, to, i);
    if q == rs[i].path {
      j := i;
    } else {
      assert q <= rs[i].path[..|rs[i].path| - 1];
      var k :| 0 <= k < i && LedTo(h, rs[k], rs[i]);
      j := FoldersAreReadFirst(h, rs, from, to, k, q);
      assert ReadOk(h, rs, from, to, k);
    }
  }

  /** A recorded walk and a later walk with the same fingerprint. */
  ghost predicate Confirmed(h: History, rec: seq<Read>, recorded: Time, chk: seq<Read>, began: Time, ended: Time) {
    && recorded <= began
    && Walked(h, rec, 0, recorded) && Walked(h, chk, began, ended)
    && Print(rec) == Print(chk)
  }

  /** No version the record saw was retired before the later walk began. */
  lemma RecordedVersionsStay(h: History, rec: seq<Read>, recorded: Time, chk: seq<Read>, began: Time, ended: Time, i: nat, t: Time)
    requires Confirmed(h, rec, recorded, chk, began, ended) && i < |rec| && t < began
    requires rec[i].path in h(t) && h(t)[rec[i].path] == rec[i].node
    ensures !Retired(h, rec[i].path, t)
  {
    assert MarkOf(rec[i]) in Print(rec);
    assert MarkOf(rec[i]) in Print(chk);
    var k :| 0 <= k < |chk| && MarkOf(chk[k]) == MarkOf(rec[i]);
    assert ReadOk(h, chk, began, ended, k);
    assert chk[k].at > t;
  }

  /** Nothing the record saw has moved, from the moment it was read until the
      later walk began. */
  lemma {:induction false} NothingMoved(h: History, rec: seq<Read>, recorded: Time, chk: seq<Read>, began: Time, ended: Time, i: nat, t: Time)
    requires FileSystem(h) && Confirmed(h, rec, recorded, chk, began, ended) && i < |rec| && rec[i].at <= t <= began
    ensures rec[i].path in h(t) && h(t)[rec[i].path] == rec[i].node
    decreases t
  {
    var p := rec[i].path;
    assert ReadOk(h, rec, 0, recorded, i);
    if rec[i].at < t {
      var u := t - 1;
      NothingMoved(h, rec, recorded, chk, began, ended, i, u);
      if !Same(h(u), h(u + 1), p) {
        assert StampedAt(h, u, p);
        var q :| q <= p && Retired(h, q, u);
        var j := FoldersAreReadFirst(h, rec, 0, recorded, i, q);
        NothingMoved(h, rec, recorded, chk, began, ended, j, u);
        RecordedVersionsStay(h, rec, recorded, chk, began, ended, j, u);
        assert false;
      }
    }
  }

  /** Every path a folder holds when the record ends was visited by any walk
      that saw that folder unmoved. */
  lemma {:induction false} RecordCoversTheTree(h: History, rec: seq<Read>, recorded: Time, chk: seq<Read>, began: Time, ended: Time, p: Path)
    returns (i: nat)
    requires FileSystem(h) && Confirmed(h, rec, recorded, chk, began, ended) && p in h(recorded)
    ensures i < |rec| && rec[i].path == p
    decreases |p|
  {
    if p == [] {
      i := 0;
      assert ReadOk(h, rec, 0, recorded, i);
    } else {
      var q, c := p[..|p| - 1], p[|p| - 1];
      assert p == Child(q, c);
      assert Lists(h(recorded), q, c);
      var j := RecordCoversTheTree(h, rec, recorded, chk, began, ended, q);
      assert ReadOk(h, rec, 0, recorded, j);
      NothingMoved(h, rec, recorded, chk, began, ended, j, recorded);
      NothingMoved(h, rec, recorded, chk, began, ended, j, rec[j].listed);
      assert Lists(h(rec[j].listed), q, c);
      i :| 0 <= i < |rec| && rec[i].path == Child(q, c);
    }
  }

  /** Every path of the first tree is the same in the second. */
  ghost predicate Within(a: Tree, b: Tree) {
    forall p :: p in a ==> Same(a, b, p)
  }

  /** Between the end of the record and the start of the confirming walk, every
      path of the recorded package is as it was recorded. */
  lemma PackageStoodStill(h: History, rec: seq<Read>, recorded: Time, chk: seq<Read>, began: Time, ended: Time, t: Time)
    requires FileSystem(h) && Confirmed(h, rec, recorded, chk, began, ended) && recorded <= t <= began
    ensures Within(h(recorded), h(t))
  {
    forall p | p in h(recorded) ensures Same(h(recorded), h(t), p) {
      var i := RecordCoversTheTree(h, rec, recorded, chk, began, ended, p);
      assert ReadOk(h, rec, 0, recorded, i);
      NothingMoved(h, rec, recorded, chk, began, ended, i, recorded);
      NothingMoved(h, rec, recorded, chk, began, ended, i, t);
    }
  }

  // ---------------------------------------------------------------------------
  // A walk of a package that stood still sees all of it and nothing else
  // ---------------------------------------------------------------------------

  /** From `from` to `to` the package stays as it was at `from`. */
  ghost predicate Still(h: History, from: Time, to: Time) {
    from <= to && forall t {:trigger h(t)} :: from <= t <= to ==> Within(h(from), h(t))
  }

  lemma {:induction false} StillWalkIsSound(h: History, from: Time, to: Time, rs: seq<Read>, i: nat)
    requires FileSystem(h) && Still(h, from, to) && Walked(h, rs, from, to) && i < |rs| && [] in h(from)
    ensures rs[i].path in h(from) && h(from)[rs[i].path] == rs[i].node
    decreases i
  {
    assert ReadOk(h, rs, from, to, i);
    if i != 0 {
      var j :| 0 <= j < i && LedTo(h, rs[j], rs[i]);
      StillWalkIsSound(h, from, to, rs, j);
      assert ReadOk(h, rs, from, to, j);
      var q, c := rs[j].path, rs[i].path[|rs[i].path| - 1];
      assert Same(h(from), h(rs[j].listed), q);
      assert Lists(h(from), q, c);
      assert rs[i].path == Child(q, c);
    }
    assert Same(h(from), h(rs[i].at), rs[i].path);
  }

  lemma {:induction false} StillWalkIsComplete(h: History, from: Time, to: Time, rs: seq<Read>, p: Path)
    returns (i: nat)
    requires FileSystem(h) && Still(h, from, to) && Walked(h, rs, from, to) && p in h(from) && [] in h(from)
    ensures i < |rs| && rs[i].path == p && rs[i].node == h(from)[p]
    decreases |p|
  {
    if p == [] {
      i := 0;
      assert ReadOk(h, rs, from, to, i);
    } else {
      var q, c := p[..|p| - 1], p[|p| - 1];
      assert p == Child(q, c);
      assert Lists(h(from), q, c);
      var j := StillWalkIsComplete(h, from, to, rs, q);
      assert ReadOk(h, rs, from, to, j);
      assert Same(h(from), h(rs[j].listed), q);
      assert Lists(h(rs[j].listed), q, c);
      i :| 0 <= i < |rs| && rs[i].path == Child(q, c);
    }
    StillWalkIsSound(h, from, to, rs, i);
  }

  lemma StillWalkCopiesThePackage(h: History, from: Time, to: Time, rs: seq<Read>)
    requires FileSystem(h) && Still(h, from, to) && Walked(h, rs, from, to) && [] in h(from)
    ensures Copied(rs) == Package(h(from))
  {
    forall i | 0 <= i < |rs| ensures EntryOf(rs[i].path, rs[i].node) in Package(h(from)) {
      StillWalkIsSound(h, from, to, rs, i);
    }
    forall p | p in h(from) ensures EntryOf(p, h(from)[p]) in Copied(rs) {
      var i := StillWalkIsComplete(h, from, to, rs, p);
    }
  }

  /** The main result: a copy made between a record and a walk that confirms it
      is an exact snapshot of the package at the moment the record ended,
      whatever was edited, whenever. */
  lemma ConfirmedCopyIsASnapshot(h: History, rec: seq<Read>, recorded: Time, chk: seq<Read>, began: Time, ended: Time, cp: seq<Read>)
    requires FileSystem(h) && Confirmed(h, rec, recorded, chk, began, ended) && Walked(h, cp, recorded, began)
    ensures Copied(cp) == Package(h(recorded))
  {
    assert Still(h, recorded, began) by {
      forall t | recorded <= t <= began ensures Within(h(recorded), h(t)) {
        PackageStoodStill(h, rec, recorded, chk, began, ended, t);
      }
    }
    assert [] in h(recorded) by {
      assert ReadOk(h, rec, 0, recorded, 0);
      NothingMoved(h, rec, recorded, chk, began, ended, 0, recorded);
    }
    StillWalkCopiesThePackage(h, recorded, began, cp);
  }

  /** The fingerprint of a whole tree in one instant. */
  function TreePrint(t: Tree): set<Mark> {
    set p | p in t :: Mark(p, t[p].Folder?, t[p].stamp)
  }

  lemma StillWalkPrintsTheTree(h: History, from: Time, to: Time, rs: seq<Read>)
    requires FileSystem(h) && Still(h, from, to) && Walked(h, rs, from, to) && [] in h(from)
    ensures Print(rs) == TreePrint(h(from))
  {
    forall i | 0 <= i < |rs| ensures MarkOf(rs[i]) in TreePrint(h(from)) {
      StillWalkIsSound(h, from, to, rs, i);
    }
    forall p | p in h(from) ensures Mark(p, h(from)[p].Folder?, h(from)[p].stamp) in Print(rs) {
      var i := StillWalkIsComplete(h, from, to, rs, p);
      assert MarkOf(rs[i]) in Print(rs);
    }
  }

  /** The other direction: a package nobody touches is never refused. */
  lemma UntouchedPackageIsConfirmed(h: History, began: Time, recorded: Time, rec: seq<Read>, again: Time, ended: Time, chk: seq<Read>)
    requires FileSystem(h) && began <= recorded <= again <= ended && Still(h, began, ended) && [] in h(began)
    requires Walked(h, rec, began, recorded) && Walked(h, chk, again, ended)
    ensures Print(rec) == Print(chk)
  {
    WiderWalk(h, rec, began, recorded, began, ended);
    WiderWalk(h, chk, again, ended, began, ended);
    StillWalkPrintsTheTree(h, began, ended, rec);
    StillWalkPrintsTheTree(h, began, ended, chk);
  }

  lemma WiderWalk(h: History, rs: seq<Read>, from: Time, to: Time, earlier: Time, later: Time)
    requires Walked(h, rs, from, to) && earlier <= from && to <= later
    ensures Walked(h, rs, earlier, later)
  {
    forall i | 0 <= i < |rs| ensures ReadOk(h, rs, earlier, later, i) {
      assert ReadOk(h, rs, from, to, i);
    }
  }

  // ---------------------------------------------------------------------------
  // Materialization
  // ---------------------------------------------------------------------------

  type Root = nat

  /** Where a record came from: the walk, when the tree was installed, and when
      the walk ended. */
  datatype Provenance = Provenance(walk: seq<Read>, installed: Time, recorded: Time)

  /** What the cache, the disk and the leases answer during one call. A walk that
      met an I/O error, or a vanished path, is `None`. */
  datatype Answers = Answers(
    root: Root,
    downloaded: bool,
    before: Option<seq<Read>>,
    reinstalled: Option<Root>,
    record: Option<seq<Read>>,
    copy: Option<seq<Read>>,
    after: Option<seq<Read>>,
    leased: bool)

  /** When each stage of the call was over. */
  datatype Clock = Clock(checked: Time, installed: Time, recorded: Time, copied: Time, ended: Time)

  ghost predicate WalkedIf(h: History, walk: Option<seq<Read>>, from: Time, to: Time) {
    walk.Some? ==> Walked(h, walk.value, from, to)
  }

  /** The entry the copy is taken from. */
  function Origin(a: Answers, held: bool): Root {
    if !a.downloaded && !held && a.reinstalled.Some? then a.reinstalled.value else a.root
  }

  ghost predicate Faithful(h: Root -> History, a: Answers, held: bool, now: Time, c: Clock) {
    && now <= c.checked <= c.installed <= c.recorded <= c.copied <= c.ended
    && WalkedIf(h(a.root), a.before, now, c.checked)
    && WalkedIf(h(Origin(a, held)), a.record, c.installed, c.recorded)
    && WalkedIf(h(Origin(a, held)), a.copy, c.recorded, c.copied)
    && WalkedIf(h(Origin(a, held)), a.after, c.copied, c.ended)
  }

  /** The package trees this process made, and what each looked like right after. */
  class TrustedTrees {
    var prints: map<Root, set<Mark>>
    ghost var records: map<Root, Provenance>
    ghost var now: Time

    ghost predicate Vouched(h: Root -> History, root: Root)
      requires root in prints && root in records
      reads this
    {
      var p := records[root];
      p.recorded <= now && Walked(h(root), p.walk, 0, p.recorded) && prints[root] == Print(p.walk)
    }

    ghost predicate Valid(h: Root -> History)
      reads this
    {
      && prints.Keys == records.Keys
      && (forall root :: FileSystem(h(root)))
      && (forall root :: root in prints ==> Vouched(h, root))
    }

    predicate Matches(root: Root, walk: Option<seq<Read>>)
      reads this
    {
      root in prints && walk.Some? && Print(walk.value) == prints[root]
    }

    constructor (ghost h: Root -> History)
      requires forall root :: FileSystem(h(root))
      ensures Valid(h) && prints == map[] && now == 0
    {
      prints, records, now := map[], map[], 0;
    }

    method Record(ghost h: Root -> History, root: Root, walk: Option<seq<Read>>, ghost installed: Time, ghost recorded: Time)
      returns (ok: bool)
      requires Valid(h) && now <= installed <= recorded && WalkedIf(h(root), walk, installed, recorded)
      modifies this
      ensures Valid(h) && now == recorded && ok == walk.Some?
      ensures ok ==> root in prints && records == old(records)[root := Provenance(walk.value, installed, recorded)]
      ensures !ok ==> prints == old(prints) && records == old(records)
    {
      now := recorded;
      ok := walk.Some?;
      if ok {
        WiderWalk(h(root), walk.value, installed, recorded, 0, recorded);
        prints := prints[root := Print(walk.value)];
        records := records[root := Provenance(walk.value, installed, recorded)];
      }
    }

    /** Fills a runtime with a copy of the runner package, or leaves it empty. A
        runtime that is filled holds exactly the tree that stood when its origin
        was recorded, and so the installed one if nobody edited it in between. */
    method Materialize(ghost h: Root -> History, a: Answers, ghost c: Clock) returns (runtime: Option<set<Entry>>)
      requires Valid(h) && Faithful(h, a, Matches(a.root, a.before), now, c)
      modifies this
      ensures Valid(h) && now <= c.ended
      ensures runtime.Some? ==>
        var root := Origin(a, old(Matches(a.root, a.before)));
        root in records && var p := records[root];
        && runtime.value == Package(h(root)(p.recorded))
        && (h(root)(p.recorded) == h(root)(p.installed) ==> runtime.value == Package(h(root)(p.installed)))
      ensures runtime.Some? && (a.downloaded || !old(Matches(a.root, a.before))) ==>
        var p := records[Origin(a, old(Matches(a.root, a.before)))];
        p.installed == c.installed && p.recorded == c.recorded
      ensures !a.downloaded && old(Matches(a.root, a.before)) ==> records == old(records)
      ensures runtime.Some? <==>
        && a.copy.Some? && a.leased
        && (a.downloaded || old(Matches(a.root, a.before)) || a.reinstalled.Some?)
        && ((!a.downloaded && old(Matches(a.root, a.before))) || a.record.Some?)
        && Matches(Origin(a, old(Matches(a.root, a.before))), a.after)
    {
      var held := Matches(a.root, a.before);
      now := c.installed;
      var root, made := a.root, a.downloaded;
      if !a.downloaded && !held {
        if a.reinstalled.None? {
          return None;
        }
        root, made := a.reinstalled.value, true;
      }
      if made {
        var recorded := Record(h, root, a.record, c.installed, c.recorded);
        if !recorded {
          return None;
        }
      }
      now := c.recorded;
      if a.copy.None? || !Matches(root, a.after) || !a.leased {
        return None;
      }
      runtime := Some(Copied(a.copy.value));
      ghost var p := records[root];
      assert Vouched(h, root);
      WiderWalk(h(root), a.copy.value, c.recorded, c.copied, p.recorded, c.copied);
      ConfirmedCopyIsASnapshot(h(root), p.walk, p.recorded, a.after.value, c.copied, c.ended, a.copy.value);
    }
  }
}
