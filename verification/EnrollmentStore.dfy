/** The coordinator's two tables: one-time invites and enrolled hosts. */
module EnrollmentStore {
  import opened Wrappers

  type HostId = string
  type Hash = string
  type Time = int

  const MIN_INVITE_TTL: int := 60
  const MAX_INVITE_TTL: int := 7 * 24 * 60 * 60

  datatype Host = Host(name: string, hostname: string, key: string, enrolled: Time, revoked: Option<Time>, lastSeen: Option<Time>)

  datatype Invite = Invite(name: string, created: Time, expires: Time, used: Option<Time>)

  datatype StoreError = InvalidName | InvalidTtl | NameInUse | InvalidCode | NoSuchHost | Ambiguous | Sqlite

  predicate Active(h: Host) {
    h.revoked.None?
  }

  predicate NameChar(c: char) {
    'a' <= c <= 'z' || 'A' <= c <= 'Z' || '0' <= c <= '9' || c == '.' || c == '_' || c == '-'
  }

  predicate ValidName(name: string) {
    1 <= |name| <= 64 && forall i :: 0 <= i < |name| ==> NameChar(name[i])
  }

  /** The characters a name is made of: letters, digits and three marks. */
  lemma NamesArePlain(c: char)
    ensures NameChar(c) ==> '-' <= c <= 'z' && c != '/' && c != ':' && c != '@'
    ensures c == '.' || c == '_' || c == '-' ==> NameChar(c)
    ensures c == ' ' || c == ',' || c == '/' || c == ':' || c == ';' || c == '@' || c == '[' || c == '^' || c == '`' || c == '{' ==> !NameChar(c)
    ensures c == 'a' || c == 'z' || c == 'A' || c == 'Z' || c == '0' || c == '9' ==> NameChar(c)
  {
  }

  /** A name is one to sixty-four of them, so a host's id can be another's name. */
  lemma NamesHaveTheirLength(name: string, c: char)
    requires NameChar(c)
    ensures !ValidName("") && ValidName(seq(1, _ => c)) && ValidName(seq(64, _ => c)) && !ValidName(seq(65, _ => c))
    ensures (exists i :: 0 <= i < |name| && !NameChar(name[i])) ==> !ValidName(name)
  {
  }

  /** An active host holds the name. */
  predicate NameTaken(hosts: map<HostId, Host>, name: string) {
    exists id :: id in hosts && Active(hosts[id]) && hosts[id].name == name
  }

  /** Only active hosts hold their names. */
  lemma RevokedNameIsFree(hosts: map<HostId, Host>, name: string)
    ensures NameTaken(hosts, name) <==> !forall id :: id in hosts && hosts[id].name == name ==> hosts[id].revoked.Some?
  {
  }

  /** The active hosts an argument names, by id or by name. */
  function Named(hosts: map<HostId, Host>, arg: string): set<HostId> {
    set id | id in hosts && Active(hosts[id]) && (id == arg || hosts[id].name == arg)
  }

  /** No two active hosts share a name. */
  ghost predicate NamesUnique(hosts: map<HostId, Host>) {
    forall a, b :: a in hosts && b in hosts && Active(hosts[a]) && Active(hosts[b]) && hosts[a].name == hosts[b].name ==> a == b
  }

  /** An invite that made a host: spent in time, under its name. */
  predicate Spent(i: Invite, h: Host) {
    i.used == Some(h.enrolled) && h.enrolled < i.expires && h.name == i.name
  }

  /** Hosts are spent invites, one for one. `made` says which invite made which. */
  ghost predicate Paired(hosts: map<HostId, Host>, invites: map<Hash, Invite>, made: map<Hash, HostId>) {
    && (forall c :: c in made <==> c in invites && invites[c].used.Some?)
    && (forall c :: c in made ==> made[c] in hosts && Spent(invites[c], hosts[made[c]]))
    && (forall c, d :: c in made && d in made && made[c] == made[d] ==> c == d)
    && (forall id :: id in hosts ==> id in made.Values)
  }

  /** So there are as many host rows as spent invites. */
  lemma HostsAreSpentInvites(hosts: map<HostId, Host>, invites: map<Hash, Invite>, made: map<Hash, HostId>)
    requires Paired(hosts, invites, made)
    ensures |hosts| == |set c | c in invites && invites[c].used.Some?|
  {
    assert (set c | c in invites && invites[c].used.Some?) == made.Keys;
    SameSize(made, made.Keys, hosts.Keys);
    assert |hosts| == |hosts.Keys|;
  }

  lemma {:induction false} SameSize(made: map<Hash, HostId>, from: set<Hash>, to: set<HostId>)
    requires from <= made.Keys && to == set c | c in from :: made[c]
    requires forall c, d :: c in made && d in made && made[c] == made[d] ==> c == d
    ensures |from| == |to|
    decreases |from|
  {
    if from != {} {
      var c :| c in from;
      SameSize(made, from - {c}, to - {made[c]});
    }
  }

  /** With unique active names an argument names at most two hosts, and two only if
      it is the id of one and the name of the other. */
  lemma AmbiguousOnlyByIdAndName(hosts: map<HostId, Host>, arg: string)
    requires NamesUnique(hosts)
    ensures |Named(hosts, arg)| > 1 <==>
      arg in hosts && Active(hosts[arg]) && exists b :: b in hosts && b != arg && Active(hosts[b]) && hosts[b].name == arg
    ensures |Named(hosts, arg)| <= 2
  {
    var named := Named(hosts, arg);
    assert forall b :: b in hosts && Active(hosts[b]) && hosts[b].name == arg ==> b in named;
    if b :| b in named && b != arg {
      assert named <= {arg, b};
      AtMost(named, {arg, b});
      if arg in named {
        assert named == {arg, b};
      } else {
        assert named <= {b};
        AtMost(named, {b});
      }
    } else {
      assert named <= {arg};
      AtMost(named, {arg});
    }
  }

  lemma {:induction false} AtMost<T>(a: set<T>, b: set<T>)
    requires a <= b
    ensures |a| <= |b|
    decreases |a|
  {
    if a != {} {
      var x :| x in a;
      AtMost(a - {x}, b - {x});
    }
  }

  class Store {
    var hosts: map<HostId, Host>
    var invites: map<Hash, Invite>
    ghost var made: map<Hash, HostId>

    ghost predicate Valid()
      reads this
    {
      Paired(hosts, invites, made) && NamesUnique(hosts)
    }

    constructor ()
      ensures Valid() && hosts == map[] && invites == map[]
    {
      hosts, invites, made := map[], map[], map[];
    }

    /** Issues an invite under the hash of a fresh code; a repeated hash is refused
        by the primary key. */
    method CreateInvite(name: string, ttl: int, now: Time, hash: Hash) returns (r: Result<Time, StoreError>)
      requires Valid()
      modifies this`invites
      ensures Valid()
      ensures r.Ok? <==> ValidName(name) && MIN_INVITE_TTL <= ttl <= MAX_INVITE_TTL && !NameTaken(hosts, name) && hash !in old(invites)
      ensures r.Ok? ==> invites == old(invites)[hash := Invite(name, now, now + ttl, None)] && r.value == now + ttl
      ensures r.Err? ==> invites == old(invites)
      ensures ValidName(name) && MIN_INVITE_TTL <= ttl <= MAX_INVITE_TTL && hash !in old(invites) ==>
        (r.Ok? <==> forall id :: id in hosts && hosts[id].name == name ==> hosts[id].revoked.Some?)
      ensures r == Err(InvalidName) <==> !ValidName(name)
      ensures r == Err(InvalidTtl) <==> ValidName(name) && !(MIN_INVITE_TTL <= ttl <= MAX_INVITE_TTL)
      ensures r == Err(NameInUse) <==> ValidName(name) && MIN_INVITE_TTL <= ttl <= MAX_INVITE_TTL && NameTaken(hosts, name)
    {
      if !ValidName(name) {
        return Err(InvalidName);
      }
      if !(MIN_INVITE_TTL <= ttl <= MAX_INVITE_TTL) {
        return Err(InvalidTtl);
      }
      if NameTaken(hosts, name) {
        return Err(NameInUse);
      }
      if hash in invites {
        return Err(Sqlite);
      }
      invites := invites[hash := Invite(name, now, now + ttl, None)];
      return Ok(now + ttl);
    }

    /** Spends a code once, in one transaction. `commits` is whether the database
        commits. A refused enrollment changes nothing. */
    method Enroll(hash: Hash, hostname: string, key: string, now: Time, id: HostId, commits: bool) returns (r: Result<Host, StoreError>)
      requires Valid()
      modifies this
      ensures Valid()
      ensures r.Ok? <==>
        && hash in old(invites) && old(invites)[hash].used.None? && now < old(invites)[hash].expires
        && !NameTaken(old(hosts), old(invites)[hash].name) && id !in old(hosts) && commits
      ensures r.Err? ==> hosts == old(hosts) && invites == old(invites) && made == old(made)
      ensures hash in old(invites) && old(invites)[hash].used.None? && now < old(invites)[hash].expires && id !in old(hosts) && commits ==>
        (r.Ok? <==> forall x :: x in old(hosts) && old(hosts)[x].name == old(invites)[hash].name ==> old(hosts)[x].revoked.Some?)
      ensures r.Ok? ==> hosts == old(hosts)[id := r.value] && invites == old(invites)[hash := old(invites)[hash].(used := Some(now))]
      ensures r.Ok? ==> r.value == Host(old(invites)[hash].name, hostname, key, now, None, None) && made == old(made)[hash := id]
      ensures r == Err(InvalidCode) <==> hash !in old(invites) || old(invites)[hash].used.Some? || old(invites)[hash].expires <= now
      ensures r == Err(NameInUse) ==> hash in invites && NameTaken(hosts, invites[hash].name)
      ensures forall c :: c in old(made) ==> c in made && made[c] == old(made)[c]
    {
      if hash !in invites || invites[hash].used.Some? || invites[hash].expires <= now {
        return Err(InvalidCode);
      }
      var name := invites[hash].name;
      if NameTaken(hosts, name) {
        return Err(NameInUse);
      }
      if id in hosts || !commits {
        return Err(Sqlite);
      }
      var record := Host(name, hostname, key, now, None, None);
      EnrollmentPairs(hosts, invites, made, hash, id, record);
      invites := invites[hash := invites[hash].(used := Some(now))];
      hosts := hosts[id := record];
      made := made[hash := id];
      return Ok(record);
    }

    /** The read half of a revocation: which host is meant. */
    method FindForRevoke(arg: string) returns (r: Result<HostId, StoreError>)
      requires Valid()
      ensures r == Err(NoSuchHost) <==> forall id :: id in hosts && Active(hosts[id]) ==> id != arg && hosts[id].name != arg
      ensures r == Err(Ambiguous) <==>
        arg in hosts && Active(hosts[arg]) && exists b :: b in hosts && b != arg && Active(hosts[b]) && hosts[b].name == arg
      ensures r.Ok? ==> r.value in hosts && Active(hosts[r.value]) && (r.value == arg || hosts[r.value].name == arg)
      ensures r.Err? ==> r.error.NoSuchHost? || r.error.Ambiguous?
    {
      var matching := Named(hosts, arg);
      AmbiguousOnlyByIdAndName(hosts, arg);
      if matching == {} {
        assert forall id :: id in hosts && Active(hosts[id]) && (id == arg || hosts[id].name == arg) ==> id in matching;
        return Err(NoSuchHost);
      }
      var id :| id in matching;
      if |matching| > 1 {
        return Err(Ambiguous);
      }
      return Ok(id);
    }

    /** The write half, perhaps after other operations: revokes that host and
        touches no other row. */
    method WriteRevoked(id: HostId, now: Time)
      requires Valid()
      modifies this`hosts
      ensures Valid()
      ensures hosts == if id in old(hosts) then old(hosts)[id := old(hosts)[id].(revoked := Some(now))] else old(hosts)
    {
      if id in hosts {
        UpdatePairs(hosts, invites, made, id, hosts[id].(revoked := Some(now)));
        hosts := hosts[id := hosts[id].(revoked := Some(now))];
      }
    }

    method Touch(id: HostId, now: Time)
      requires Valid()
      modifies this`hosts
      ensures Valid()
      ensures hosts == if id in old(hosts) then old(hosts)[id := old(hosts)[id].(lastSeen := Some(now))] else old(hosts)
    {
      if id in hosts {
        UpdatePairs(hosts, invites, made, id, hosts[id].(lastSeen := Some(now)));
        hosts := hosts[id := hosts[id].(lastSeen := Some(now))];
      }
    }
  }

  lemma EnrollmentPairs(hosts: map<HostId, Host>, invites: map<Hash, Invite>, made: map<Hash, HostId>, hash: Hash, id: HostId, h: Host)
    requires Paired(hosts, invites, made) && NamesUnique(hosts)
    requires hash in invites && invites[hash].used.None? && h.enrolled < invites[hash].expires && h.name == invites[hash].name
    requires id !in hosts && !NameTaken(hosts, h.name) && Active(h)
    ensures Paired(hosts[id := h], invites[hash := invites[hash].(used := Some(h.enrolled))], made[hash := id])
    ensures NamesUnique(hosts[id := h])
  {
    var now := made[hash := id];
    forall x | x in hosts[id := h] ensures x in now.Values {
      if x == id {
        assert now[hash] == id;
      } else {
        assert x in made.Values;
        var c :| c in made && made[c] == x;
        assert now[c] == x;
      }
    }
    assert forall a :: a in hosts && Active(hosts[a]) ==> hosts[a].name != h.name;
  }

  /** Rows keep their pairing under any update that keeps when and under which name
      they enrolled and brings none back. */
  lemma UpdatePairs(hosts: map<HostId, Host>, invites: map<Hash, Invite>, made: map<Hash, HostId>, id: HostId, h: Host)
    requires Paired(hosts, invites, made) && NamesUnique(hosts) && id in hosts
    requires h.enrolled == hosts[id].enrolled && h.name == hosts[id].name && (Active(h) ==> Active(hosts[id]))
    ensures Paired(hosts[id := h], invites, made) && NamesUnique(hosts[id := h])
  {
  }
}
