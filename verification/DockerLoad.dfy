/** Loading a Docker journal: the ways it is refused, as the loader looks for them,
    against the journal the rest of the accounting keeps. */
module DockerLoad {
  import opened Wrappers
  import opened DockerResources

  // ---------------------------------------------------------------------------
  // Identifiers
  // ---------------------------------------------------------------------------

  lemma LowerHexDigits(c: char)
    ensures IsLowerHex(c) <==> c in "0123456789abcdef"
  {
    var digits := "0123456789abcdef";
    assert digits[0] == '0' && digits[1] == '1' && digits[2] == '2' && digits[3] == '3' && digits[4] == '4' && digits[5] == '5' && digits[6] == '6' && digits[7] == '7';
    assert digits[8] == '8' && digits[9] == '9' && digits[10] == 'a' && digits[11] == 'b' && digits[12] == 'c' && digits[13] == 'd' && digits[14] == 'e' && digits[15] == 'f';
  }

  /** A resource id is sixty-four lower-case hexadecimal digits. */
  lemma IdsAreSixtyFourDigits(s: string, i: nat)
    ensures ValidId(s) ==> |s| == 64
    ensures i < |s| && !IsLowerHex(s[i]) ==> !ValidId(s)
    ensures |s| == 64 && !ValidId(s) ==> exists j :: 0 <= j < |s| && !IsLowerHex(s[j])
  {
  }

  /** The five groups of a UUID. */
  predicate Grouped(a: string, b: string, c: string, d: string, e: string) {
    |a| == 8 && |b| == 4 && |c| == 4 && |d| == 4 && |e| == 12
  }

  predicate AllHex(s: string) {
    forall i :: 0 <= i < |s| ==> IsLowerHex(s[i])
  }

  /** An operation is five groups of such digits with hyphens between them. */
  lemma OperationsAreFiveGroups(a: string, b: string, c: string, d: string, e: string)
    requires Grouped(a, b, c, d, e)
    ensures ValidOperation(a + "-" + b + "-" + c + "-" + d + "-" + e) <==> AllHex(a) && AllHex(b) && AllHex(c) && AllHex(d) && AllHex(e)
  {
    var s := a + "-" + b + "-" + c + "-" + d + "-" + e;
    assert |s| == 36 && s[8] == '-' && s[13] == '-' && s[18] == '-' && s[23] == '-';
    assert forall i :: 0 <= i < 8 ==> s[i] == a[i];
    assert forall i :: 0 <= i < 4 ==> s[9 + i] == b[i];
    assert forall i :: 0 <= i < 4 ==> s[14 + i] == c[i];
    assert forall i :: 0 <= i < 4 ==> s[19 + i] == d[i];
    assert forall i :: 0 <= i < 12 ==> s[24 + i] == e[i];
  }

  lemma OperationsHaveTheirLength(s: string)
    requires ValidOperation(s)
    ensures |s| == 36 && s[8] == s[13] == s[18] == s[23] == '-'
  {
  }

  // ---------------------------------------------------------------------------
  // The loader
  // ---------------------------------------------------------------------------

  function Ids(intents: seq<Intent>): seq<string> {
    seq(|intents|, i requires 0 <= i < |intents| => intents[i].id)
  }

  function Keys(resources: seq<Resource>): seq<(Kind, string)> {
    seq(|resources|, i requires 0 <= i < |resources| => (resources[i].kind, resources[i].id))
  }

  /** An identity the loader refuses. */
  predicate BadIdentity(h: Header, intents: seq<Intent>, resources: seq<Resource>) {
    || h.schema != 1 || !("/" <= h.upstream) || h.engine == ""
    || (h.engine == "runner-manager-pending-engine" && (intents != [] || resources != [] || h.proxy.Some?))
    || (exists i :: 0 <= i < |intents| && !ValidOperation(intents[i].id))
    || (exists i :: 0 <= i < |resources| && (!ValidId(resources[i].id) || !ValidOperation(resources[i].operation)))
  }

  predicate BadIntent(i: Intent) {
    (exists d :: d in i.destinations && !ValidId(d)) || (!i.kind.Container? && (i.destinations != {} || i.inheritsVolumes))
  }

  predicate BadResource(intents: seq<Intent>, r: Resource) {
    var i := FindIntent(intents, r.operation);
    || i.None?
    || (r.implicitVolume && (!r.kind.Volume? || !i.value.kind.Container? || i.value.inheritsVolumes))
    || (!r.implicitVolume && r.kind != i.value.kind)
  }

  /** Associations the loader refuses: fewer distinct names than entries, an intent
      without a proxy, or an entry that does not fit. */
  predicate BadAssociations(h: Header, intents: seq<Intent>, resources: seq<Resource>) {
    || |Elements(Ids(intents))| != |intents| || |Elements(Keys(resources))| != |resources|
    || (intents != [] && h.proxy.None?)
    || (exists i :: 0 <= i < |intents| && BadIntent(intents[i]))
    || (exists i :: 0 <= i < |resources| && BadResource(intents, resources[i]))
  }

  // ---------------------------------------------------------------------------
  // Counting names
  // ---------------------------------------------------------------------------

  predicate NoRepeats<T(==)>(xs: seq<T>) {
    forall i, j :: 0 <= i < j < |xs| ==> xs[i] != xs[j]
  }

  function Elements<T>(xs: seq<T>): set<T> {
    set i | 0 <= i < |xs| :: xs[i]
  }

  lemma {:induction false} FewerElementsThanEntries<T>(xs: seq<T>)
    ensures |Elements(xs)| <= |xs| && (|Elements(xs)| == |xs| <==> NoRepeats(xs))
  {
    if xs != [] {
      var last := |xs| - 1;
      var before := xs[..last];
      FewerElementsThanEntries(before);
      assert Elements(xs) == Elements(before) + {xs[last]};
      if xs[last] in Elements(before) {
        var i :| 0 <= i < |before| && before[i] == xs[last];
        assert xs[i] == xs[last];
        assert Elements(xs) == Elements(before);
      } else {
        assert forall i :: 0 <= i < last ==> before[i] in Elements(before) && xs[i] == before[i];
      }
    }
  }

  lemma DistinctIds(intents: seq<Intent>)
    ensures |Elements(Ids(intents))| == |intents| <==> forall i, j :: 0 <= i < j < |intents| ==> intents[i].id != intents[j].id
  {
    var xs := Ids(intents);
    FewerElementsThanEntries(xs);
    if NoRepeats(xs) {
      forall i, j | 0 <= i < j < |intents| ensures intents[i].id != intents[j].id {
        assert xs[i] != xs[j];
      }
    }
  }

  lemma DistinctKeys(resources: seq<Resource>)
    ensures |Elements(Keys(resources))| == |resources| <==> forall i, j :: 0 <= i < j < |resources| ==> !SameResource(resources[i], resources[j])
  {
    var xs := Keys(resources);
    FewerElementsThanEntries(xs);
    if NoRepeats(xs) {
      forall i, j | 0 <= i < j < |resources| ensures !SameResource(resources[i], resources[j]) {
        assert xs[i] != xs[j];
      }
    } else {
      var i, j :| 0 <= i < j < |xs| && xs[i] == xs[j];
      assert SameResource(resources[i], resources[j]);
    }
  }

  lemma EntriesFit(intents: seq<Intent>, i: Intent, r: Resource)
    ensures ValidIntent(i) <==> ValidOperation(i.id) && !BadIntent(i)
    ensures ValidResource(intents, r) <==> ValidId(r.id) && ValidOperation(r.operation) && !BadResource(intents, r)
  {
  }

  /** The loader hands out exactly the journals that the accounting keeps: what it
      looks for and refuses is what the invariant excludes, and no more. */
  lemma LoadAcceptsExactlyWhatIsKept(h: Header, intents: seq<Intent>, resources: seq<Resource>)
    ensures ValidJournal(h, intents, resources) <==> !BadIdentity(h, intents, resources) && !BadAssociations(h, intents, resources)
  {
    DistinctIds(intents);
    DistinctKeys(resources);
    assert "/" <= h.upstream <==> h.upstream != "" && h.upstream[0] == '/';
    forall i | 0 <= i < |intents| ensures ValidIntent(intents[i]) <==> ValidOperation(intents[i].id) && !BadIntent(intents[i]) {
    }
    forall i | 0 <= i < |resources|
      ensures ValidResource(intents, resources[i]) <==> ValidId(resources[i].id) && ValidOperation(resources[i].operation) && !BadResource(intents, resources[i])
    {
      EntriesFit(intents, Intent("", Container, {}, false, false), resources[i]);
    }
  }

  /** A journal just begun is one of them, while its engine is not known yet too. */
  lemma NewJournalIsAccepted(h: Header)
    requires h.schema == 1 && "/" <= h.upstream && h.engine != "" && h.proxy.None?
    ensures ValidJournal(h, [], [])
  {
    assert "/" <= h.upstream ==> h.upstream != "" && h.upstream[0] == '/';
  }
}
