/** The hosts connected to the coordinator. A connection takes a token, enters the
    map, tells the one it replaced, serves, and leaves; each of those is a step of
    its own, and connections interleave in any order. */
module Registry {
  import opened Wrappers

  const OUTBOUND_QUEUE: nat := 64

  /** Host ids are only ever compared. */
  type HostId = nat
  type Token = nat

  datatype TargetRef = TargetRef(organization: bool, name: string)

  datatype Profile = Profile(labels: seq<string>, enabled: bool)

  datatype Target = Target(reference: TargetRef, profiles: seq<Profile>)

  datatype Hello = Hello(targets: seq<Target>)

  type Heartbeat = nat

  datatype Job = Job(repository: string, labels: seq<string>)

  /** How names and labels are compared. */
  datatype Rules = Rules(covers: (TargetRef, string) -> bool, takes: (seq<string>, seq<string>) -> bool)

  datatype Outbound = Wake(target: TargetRef, job: Job) | CloseReplaced

  /** The channel of one connection: what waits in it, whether somebody still holds
      its sender, and whether its connection still reads it. */
  datatype Channel = Channel(queue: seq<Outbound>, sender: bool, receiver: bool)

  datatype Connected = Connected(token: Token, hello: Option<Hello>, heartbeat: Option<Heartbeat>)

  datatype Phase = Fetched | Serving | Left

  /** What a connection did itself: where it is in its life, and the last it said. */
  datatype Link = Link(host: HostId, phase: Phase, hello: Option<Hello>, heartbeat: Option<Heartbeat>)

  predicate Serves(rules: Rules, t: Target, job: Job) {
    rules.covers(t.reference, job.repository)
    && exists i :: 0 <= i < |t.profiles| && t.profiles[i].enabled && rules.takes(t.profiles[i].labels, job.labels)
  }

  /** A target serves a job through any one enabled profile that takes its labels,
      and only a repository it covers. */
  lemma ServesThroughAProfile(rules: Rules, t: Target, job: Job, i: nat)
    ensures i < |t.profiles| && t.profiles[i].enabled && rules.takes(t.profiles[i].labels, job.labels) ==>
      (Serves(rules, t, job) <==> rules.covers(t.reference, job.repository))
    ensures !rules.covers(t.reference, job.repository) ==> !Serves(rules, t, job)
    ensures (forall j :: 0 <= j < |t.profiles| ==> !t.profiles[j].enabled || !rules.takes(t.profiles[j].labels, job.labels)) ==> !Serves(rules, t, job)
  {
  }

  /** The first target from `from` on that serves the job. */
  function FirstServing(rules: Rules, targets: seq<Target>, job: Job, from: nat): (r: Option<nat>)
    requires from <= |targets|
    ensures r.Some? ==> from <= r.value < |targets| && Serves(rules, targets[r.value], job)
    ensures forall i :: from <= i < (if r.Some? then r.value else |targets|) ==> !Serves(rules, targets[i], job)
    decreases |targets| - from
  {
    if from == |targets| then None
    else if Serves(rules, targets[from], job) then Some(from)
    else FirstServing(rules, targets, job, from + 1)
  }

  /** The first target that can take the job. */
  function MatchingTarget(rules: Rules, targets: seq<Target>, job: Job): (r: Option<TargetRef>)
    ensures r.Some? <==> exists i :: 0 <= i < |targets| && Serves(rules, targets[i], job)
    ensures r.Some? ==> exists i :: 0 <= i < |targets| && Serves(rules, targets[i], job) && r.value == targets[i].reference
                                 && forall j :: 0 <= j < i ==> !Serves(rules, targets[j], job)
  {
    var first := FirstServing(rules, targets, job, 0);
    if first.Some? then Some(targets[first.value].reference) else None
  }

  function TargetFor(rules: Rules, c: Connected, job: Job): Option<TargetRef> {
    if c.hello.None? then None else MatchingTarget(rules, c.hello.value.targets, job)
  }

  predicate HasRoom(c: Channel) {
    c.receiver && |c.queue| < OUTBOUND_QUEUE
  }

  function TrySend(c: Channel, m: Outbound): Channel {
    if HasRoom(c) then c.(queue := c.queue + [m]) else c
  }

  /** What a round of wakes has for an entry. */
  type Offer = Connected -> Option<Outbound>

  function JobOffer(rules: Rules, job: Job): Offer {
    (c: Connected) => var target := TargetFor(rules, c, job); if target.Some? then Some(Wake(target.value, job)) else None
  }

  /** Whether the entry gets it: there is something, and queue room. */
  predicate Gets(offer: Offer, c: Connected, channels: map<Token, Channel>) {
    offer(c).Some? && c.token in channels && HasRoom(channels[c.token])
  }

  // ---------------------------------------------------------------------------
  // What holds between any two steps
  // ---------------------------------------------------------------------------

  /** An entry is a serving connection of that host, holds its sender, and shows the
      last hello and heartbeat that very connection sent. */
  predicate EntryOk(h: HostId, c: Connected, channels: map<Token, Channel>, links: map<Token, Link>, replaced: set<Token>) {
    && c.token in links && c.token in channels && c.token !in replaced && channels[c.token].sender
    && links[c.token] == Link(h, Serving, c.hello, c.heartbeat)
  }

  predicate IsCurrent(hosts: map<HostId, Connected>, links: map<Token, Link>, t: Token)
    requires t in links
  {
    links[t].host in hosts && hosts[links[t].host].token == t
  }

  /** Somebody holds a connection's sender exactly while it has not entered, is the
      current one, or was replaced and is still to be told. */
  predicate SenderOk(t: Token, hosts: map<HostId, Connected>, channels: map<Token, Channel>, links: map<Token, Link>, replaced: set<Token>)
    requires t in links && t in channels
  {
    && |channels[t].queue| <= OUTBOUND_QUEUE
    && (channels[t].sender <==> links[t].phase.Fetched? || IsCurrent(hosts, links, t) || t in replaced)
    && (links[t].phase.Fetched? ==> t !in replaced && channels[t].queue == [] && links[t].hello.None? && links[t].heartbeat.None?)
  }

  ghost predicate Consistent(hosts: map<HostId, Connected>, next: Token, channels: map<Token, Channel>, links: map<Token, Link>, replaced: set<Token>) {
    && (forall t :: t in links ==> t < next) && links.Keys == channels.Keys && replaced <= links.Keys
    && (forall h :: h in hosts ==> EntryOk(h, hosts[h], channels, links, replaced))
    && (forall t :: t in links ==> SenderOk(t, hosts, channels, links, replaced))
  }

  /** The tokens that entered the map for a host, oldest first. */
  function EnteredBy(entered: map<HostId, seq<Token>>, h: HostId): seq<Token> {
    if h in entered then entered[h] else []
  }

  predicate IsLast(ts: seq<Token>, t: Token) {
    ts != [] && ts[|ts| - 1] == t
  }

  predicate NoRepeats(ts: seq<Token>) {
    forall i, j :: 0 <= i < j < |ts| ==> ts[i] != ts[j]
  }

  predicate LastEntered(hosts: map<HostId, Connected>, entered: map<HostId, seq<Token>>, h: HostId) {
    h in hosts ==> IsLast(EnteredBy(entered, h), hosts[h].token)
  }

  predicate EnteredOnce(links: map<Token, Link>, entered: map<HostId, seq<Token>>, h: HostId) {
    NoRepeats(EnteredBy(entered, h)) && forall t :: t in EnteredBy(entered, h) ==> t in links && links[t].host == h && !links[t].phase.Fetched?
  }

  predicate HasEntered(links: map<Token, Link>, entered: map<HostId, seq<Token>>, t: Token) {
    t in links && !links[t].phase.Fetched? ==> t in EnteredBy(entered, links[t].host)
  }

  /** An entry is the last that entered for its host, and a host's history is of its
      own connections, each once and all that ever served. */
  ghost predicate History(hosts: map<HostId, Connected>, links: map<Token, Link>, entered: map<HostId, seq<Token>>) {
    && (forall h {:trigger LastEntered(hosts, entered, h)} :: LastEntered(hosts, entered, h))
    && (forall h {:trigger EnteredOnce(links, entered, h)} :: EnteredOnce(links, entered, h))
    && (forall t {:trigger HasEntered(links, entered, t)} :: HasEntered(links, entered, t))
  }

  /** Connections that neither enter nor return to an earlier phase, and entries that
      only go, keep the history. */
  ghost predicate SameLives(hosts: map<HostId, Connected>, links: map<Token, Link>, hosts1: map<HostId, Connected>, links1: map<Token, Link>) {
    && (forall h :: h in hosts1 ==> h in hosts && hosts1[h].token == hosts[h].token)
    && (forall t :: t in links ==> t in links1 && links1[t].host == links[t].host && (links[t].phase.Fetched? <==> links1[t].phase.Fetched?))
    && (forall t :: t in links1 && t !in links ==> links1[t].phase.Fetched?)
  }

  lemma HistoryStays(hosts: map<HostId, Connected>, links: map<Token, Link>, entered: map<HostId, seq<Token>>, hosts1: map<HostId, Connected>, links1: map<Token, Link>)
    requires History(hosts, links, entered) && SameLives(hosts, links, hosts1, links1)
    ensures History(hosts1, links1, entered)
  {
    forall h ensures LastEntered(hosts1, entered, h) && EnteredOnce(links1, entered, h) {
      assert LastEntered(hosts, entered, h) && EnteredOnce(links, entered, h);
    }
    forall t ensures HasEntered(links1, entered, t) {
      assert HasEntered(links, entered, t);
    }
  }

  class Registry {
    var hosts: map<HostId, Connected>
    var next: Token
    var channels: map<Token, Channel>
    /** Entries an insert took out of the map and has not yet told. */
    var replaced: set<Token>
    ghost var links: map<Token, Link>
    ghost var entered: map<HostId, seq<Token>>

    ghost predicate Valid()
      reads this
    {
      Consistent(hosts, next, channels, links, replaced) && History(hosts, links, entered)
    }

    constructor ()
      ensures Valid() && hosts == map[] && next == 0 && entered == map[]
    {
      hosts, next, channels, replaced, links, entered := map[], 0, map[], {}, map[], map[];
    }

    /** First half of `register`, and the channel made just before it. */
    method FetchToken(h: HostId) returns (t: Token)
      requires Valid()
      modifies this
      ensures Valid() && t == old(next) && next == t + 1 && hosts == old(hosts) && replaced == old(replaced) && entered == old(entered)
      ensures channels == old(channels)[t := Channel([], true, true)] && links == old(links)[t := Link(h, Fetched, None, None)]
    {
      t := next;
      ghost var l0 := links;
      next := next + 1;
      channels := channels[t := Channel([], true, true)];
      links := links[t := Link(h, Fetched, None, None)];
      HistoryStays(hosts, l0, entered, hosts, links);
    }

    /** Second half of `register`: the entry goes in, and one it displaces comes out.
        That one is newer exactly when its token is larger, and the entry is the
        newest so far exactly when no token that entered before is. */
    method Insert(h: HostId, t: Token)
      requires Valid() && t in links && links[t].host == h && links[t].phase.Fetched?
      modifies this`hosts, this`replaced, this`links, this`entered
      ensures Valid()
        && hosts == old(hosts)[h := Connected(t, None, None)]
        && replaced == old(replaced) + (if h in old(hosts) then {old(hosts)[h].token} else {})
        && links == old(links)[t := old(links)[t].(phase := Serving)]
        && entered == old(entered)[h := EnteredBy(old(entered), h) + [t]]
      ensures (exists u :: u in replaced - old(replaced) && u > t) <==> h in old(hosts) && old(hosts)[h].token > t
      ensures Newest(EnteredBy(entered, h), t) <==> forall u :: u in EnteredBy(old(entered), h) ==> u < t
    {
      ghost var h0, r0, l0, e0 := hosts, replaced, links, entered;
      if h in hosts {
        assert EntryOk(h, hosts[h], channels, links, replaced);
      }
      if h in hosts {
        replaced := replaced + {hosts[h].token};
      }
      hosts := hosts[h := Connected(t, None, None)];
      links := links[t := links[t].(phase := Serving)];
      entered := entered[h := EnteredBy(entered, h) + [t]];
      InsertKeeps(h0, next, channels, l0, r0, t);
      InsertKeepsHistory(h0, l0, e0, t);
    }

    /** Last step of `register`: the displaced connection is told, if its queue has
        room, and its sender is dropped either way. */
    method TellReplaced(t: Token)
      requires Valid() && t in replaced
      modifies this`channels, this`replaced
      ensures Valid() && replaced == old(replaced) - {t}
      ensures channels == old(channels)[t := TrySend(old(channels)[t], CloseReplaced).(sender := false)]
      ensures old(channels)[t].receiver && |old(channels)[t].queue| < OUTBOUND_QUEUE ==> channels[t].queue == old(channels)[t].queue + [CloseReplaced]
    {
      channels := channels[t := TrySend(channels[t], CloseReplaced).(sender := false)];
      replaced := replaced - {t};
    }

    /** A connection that was replaced or has left changes nothing by what it still
        says; the current one's words are kept. */
    method SetHello(h: HostId, t: Token, hello: Hello)
      requires Valid() && t in links && links[t].host == h && links[t].phase.Serving?
      modifies this`hosts, this`links
      ensures Valid() && links == old(links)[t := old(links)[t].(hello := Some(hello))]
      ensures if IsCurrent(old(hosts), old(links), t)
        then hosts == old(hosts)[h := old(hosts)[h].(hello := Some(hello))]
        else hosts == old(hosts)
    {
      ghost var h0, l0, said := hosts, links, links[t].(hello := Some(hello));
      WordsKeep(hosts, next, channels, l0, replaced, t, said);
      links := links[t := said];
      if h in hosts && hosts[h].token == t {
        hosts := hosts[h := hosts[h].(hello := Some(hello))];
      }
      HistoryStays(h0, l0, entered, hosts, links);
    }

    method SetHeartbeat(h: HostId, t: Token, heartbeat: Heartbeat)
      requires Valid() && t in links && links[t].host == h && links[t].phase.Serving?
      modifies this`hosts, this`links
      ensures Valid() && links == old(links)[t := old(links)[t].(heartbeat := Some(heartbeat))]
      ensures if IsCurrent(old(hosts), old(links), t)
        then hosts == old(hosts)[h := old(hosts)[h].(heartbeat := Some(heartbeat))]
        else hosts == old(hosts)
    {
      ghost var h0, l0, said := hosts, links, links[t].(heartbeat := Some(heartbeat));
      WordsKeep(hosts, next, channels, l0, replaced, t, said);
      links := links[t := said];
      if h in hosts && hosts[h].token == t {
        hosts := hosts[h := hosts[h].(heartbeat := Some(heartbeat))];
      }
      HistoryStays(h0, l0, entered, hosts, links);
    }

    /** The serving task ends and drops its receiver; the entry is still there. */
    method StopReading(t: Token)
      requires Valid() && t in channels
      modifies this`channels
      ensures Valid() && channels == old(channels)[t := old(channels)[t].(receiver := false)]
    {
      channels := channels[t := channels[t].(receiver := false)];
    }

    /** The connection stops serving and forgets itself, unless replaced. */
    method Unregister(h: HostId, t: Token)
      requires Valid() && t in links && links[t].host == h && links[t].phase.Serving?
      modifies this`hosts, this`channels, this`links
      ensures Valid() && links == old(links)[t := old(links)[t].(phase := Left)]
      ensures if IsCurrent(old(hosts), old(links), t) then hosts == old(hosts) - {h} else hosts == old(hosts)
      ensures channels == old(channels)[t := old(channels)[t].(receiver := false, sender := old(channels)[t].sender && t in replaced)]
    {
      ghost var h0, c0, l0 := hosts, channels, links;
      var current := h in hosts && hosts[h].token == t;
      channels := channels[t := channels[t].(receiver := false, sender := channels[t].sender && !current)];
      links := links[t := links[t].(phase := Left)];
      if current {
        hosts := hosts - {h};
      }
      UnregisterKeeps(h0, next, c0, l0, replaced, t);
      HistoryStays(h0, l0, entered, hosts, links);
    }

    /** The next thing the serving task of a connection is asked to do; None when the
        channel is closed and empty, which ends the task like a Close does. */
    method Receive(t: Token) returns (m: Option<Outbound>, waits: bool)
      requires Valid() && t in channels
      modifies this`channels
      ensures Valid() && waits == (old(channels)[t].queue == [] && old(channels)[t].sender)
      ensures m.Some? <==> old(channels)[t].queue != []
      ensures m.Some? ==> [m.value] + channels[t].queue == old(channels)[t].queue
      ensures channels == old(channels)[t := old(channels)[t].(queue := channels[t].queue)]
    {
      var c := channels[t];
      if c.queue == [] {
        assert channels[t := c.(queue := c.queue)] == channels;
        return None, c.sender;
      }
      channels := channels[t := c.(queue := c.queue[1..])];
      return Some(c.queue[0]), false;
    }

    /** A connection that was replaced and told, or has left, does not serve on: it
        reads to a Close, if one is queued, or to the closed channel, in at most one
        read more than is queued. */
    method ReadToTheEnd(t: Token) returns (last: Option<Outbound>, taken: nat)
      requires Valid() && t in links && !links[t].phase.Fetched? && !IsCurrent(hosts, links, t) && t !in replaced
      modifies this`channels
      ensures Valid() && taken <= |old(channels)[t].queue| + 1
      ensures last == if CloseReplaced in old(channels)[t].queue then Some(CloseReplaced) else None
    {
      ReplacedFindsItsChannelClosed(hosts, next, channels, links, replaced, t);
      taken := 0;
      while true
        invariant Valid() && t in channels && !channels[t].sender
        invariant taken + |channels[t].queue| == |old(channels)[t].queue|
        invariant CloseReplaced in channels[t].queue <==> CloseReplaced in old(channels)[t].queue
        decreases |channels[t].queue|
      {
        ghost var queue := channels[t].queue;
        var waits;
        last, waits := Receive(t);
        taken := taken + 1;
        if last.None? || last.value.CloseReplaced? {
          return;
        }
        assert queue == [last.value] + channels[t].queue;
      }
    }

    /** Wakes every connected host that offers a target for the job and has queue
        room: each such host gets one wake, and nobody else gets anything. */
    method WakeForJob(rules: Rules, job: Job) returns (woken: nat)
      requires Valid()
      modifies this`channels
      ensures Valid() && woken == |set h | h in hosts && Gets(JobOffer(rules, job), hosts[h], old(channels))|
      ensures channels == AfterAll(JobOffer(rules, job), hosts, {}, old(channels), links)
      ensures forall h :: h in hosts && Gets(JobOffer(rules, job), hosts[h], old(channels)) ==>
        && hosts[h].token in channels
        && channels[hosts[h].token] == old(channels)[hosts[h].token].(queue := old(channels)[hosts[h].token].queue + [JobOffer(rules, job)(hosts[h]).value])
    {
      WakesKeep(JobOffer(rules, job), hosts, next, channels, links, replaced);
      WokenGetTheirMessage(JobOffer(rules, job), hosts, channels, links, replaced);
      channels, woken := WakeAll(JobOffer(rules, job), hosts, channels, links, replaced);
    }
  }

  // ---------------------------------------------------------------------------
  // Wakes
  // ---------------------------------------------------------------------------

  /** The hosts that got their message once all but those in `todo` were visited. */
  function Woken(offer: Offer, hosts: map<HostId, Connected>, todo: set<HostId>, channels: map<Token, Channel>): set<HostId> {
    set h | h in hosts && h !in todo && Gets(offer, hosts[h], channels)
  }

  /** The channel of one connection by then. */
  ghost function AfterOne(offer: Offer, hosts: map<HostId, Connected>, todo: set<HostId>, channels: map<Token, Channel>, links: map<Token, Link>, t: Token): Channel
    requires t in channels
  {
    if t in links && links[t].host !in todo && IsCurrent(hosts, links, t) && Gets(offer, hosts[links[t].host], channels)
    then TrySend(channels[t], offer(hosts[links[t].host]).value)
    else channels[t]
  }

  /** One message more for every current connection that gets one, in its own
      channel and nowhere else. */
  ghost function AfterAll(offer: Offer, hosts: map<HostId, Connected>, todo: set<HostId>, channels: map<Token, Channel>, links: map<Token, Link>): map<Token, Channel> {
    map t | t in channels :: AfterOne(offer, hosts, todo, channels, links, t)
  }

  lemma NobodyYet(offer: Offer, hosts: map<HostId, Connected>, channels: map<Token, Channel>, links: map<Token, Link>)
    ensures AfterAll(offer, hosts, hosts.Keys, channels, links) == channels && Woken(offer, hosts, hosts.Keys, channels) == {}
  {
  }

  /** A visit to one entry: its channel afterwards, and whether it was woken. */
  function Visit(offer: Offer, c: Connected, channels: map<Token, Channel>): (map<Token, Channel>, nat) {
    if offer(c).Some? && c.token in channels
    then (channels[c.token := TrySend(channels[c.token], offer(c).value)], if HasRoom(channels[c.token]) then 1 else 0)
    else (channels, 0)
  }

  lemma OneMoreCounts(offer: Offer, hosts: map<HostId, Connected>, todo: set<HostId>, channels: map<Token, Channel>, h: HostId)
    requires h in hosts && h in todo
    ensures |Woken(offer, hosts, todo - {h}, channels)| == |Woken(offer, hosts, todo, channels)| + (if Gets(offer, hosts[h], channels) then 1 else 0)
  {
    var w, x := Woken(offer, hosts, todo, channels), Woken(offer, hosts, todo - {h}, channels);
    assert x == if Gets(offer, hosts[h], channels) then w + {h} else w;
  }

  lemma OneMore(offer: Offer, hosts: map<HostId, Connected>, todo: set<HostId>, channels: map<Token, Channel>, links: map<Token, Link>, replaced: set<Token>, h: HostId)
    requires h in hosts && h in todo && EntryOk(h, hosts[h], channels, links, replaced)
    ensures Visit(offer, hosts[h], AfterAll(offer, hosts, todo, channels, links))
      == (AfterAll(offer, hosts, todo - {h}, channels, links), if Gets(offer, hosts[h], channels) then 1 else 0)
  {
    var c := hosts[h];
    forall t | t in channels && t != c.token
      ensures AfterOne(offer, hosts, todo - {h}, channels, links, t) == AfterOne(offer, hosts, todo, channels, links, t)
    {
    }
    assert AfterOne(offer, hosts, todo, channels, links, c.token) == channels[c.token];
    assert AfterOne(offer, hosts, todo - {h}, channels, links, c.token)
        == if offer(c).Some? then TrySend(channels[c.token], offer(c).value) else channels[c.token];
    var before := AfterAll(offer, hosts, todo, channels, links);
    assert Visit(offer, c, before).0 == AfterAll(offer, hosts, todo - {h}, channels, links);
  }

  lemma WokenGetTheirMessage(offer: Offer, hosts: map<HostId, Connected>, channels: map<Token, Channel>, links: map<Token, Link>, replaced: set<Token>)
    requires forall h :: h in hosts ==> EntryOk(h, hosts[h], channels, links, replaced)
    ensures var after := AfterAll(offer, hosts, {}, channels, links);
      forall h :: h in hosts && Gets(offer, hosts[h], channels) ==>
        && hosts[h].token in after
        && after[hosts[h].token] == channels[hosts[h].token].(queue := channels[hosts[h].token].queue + [offer(hosts[h]).value])
  {
    var after := AfterAll(offer, hosts, {}, channels, links);
    forall h | h in hosts && Gets(offer, hosts[h], channels)
      ensures hosts[h].token in after
        && after[hosts[h].token] == channels[hosts[h].token].(queue := channels[hosts[h].token].queue + [offer(hosts[h]).value])
    {
      assert EntryOk(h, hosts[h], channels, links, replaced);
    }
  }

  /** The message of a job is a wake for the first target that takes it. */
  lemma JobOfferIsAWake(rules: Rules, job: Job, c: Connected)
    ensures JobOffer(rules, job)(c).Some? <==> c.hello.Some? && exists i :: 0 <= i < |c.hello.value.targets| && Serves(rules, c.hello.value.targets[i], job)
    ensures JobOffer(rules, job)(c).Some? ==> JobOffer(rules, job)(c).value == Wake(MatchingTarget(rules, c.hello.value.targets, job).value, job)
  {
  }

  /** The loop over the connected hosts, in whatever order the map gives them. */
  method WakeAll(offer: Offer, hosts: map<HostId, Connected>, channels: map<Token, Channel>, ghost links: map<Token, Link>, ghost replaced: set<Token>)
    returns (after: map<Token, Channel>, woken: nat)
    requires forall h :: h in hosts ==> EntryOk(h, hosts[h], channels, links, replaced)
    ensures after == AfterAll(offer, hosts, {}, channels, links) && woken == |Woken(offer, hosts, {}, channels)|
  {
    after, woken := channels, 0;
    var todo := hosts.Keys;
    NobodyYet(offer, hosts, channels, links);
    while todo != {}
      invariant todo <= hosts.Keys
      invariant after == AfterAll(offer, hosts, todo, channels, links) && woken == |Woken(offer, hosts, todo, channels)|
      decreases |todo|
    {
      var h :| h in todo;
      OneMore(offer, hosts, todo, channels, links, replaced, h);
      OneMoreCounts(offer, hosts, todo, channels, h);
      var (next, more) := Visit(offer, hosts[h], after);
      after, woken, todo := next, woken + more, todo - {h};
    }
  }

  lemma WakesKeep(offer: Offer, hosts: map<HostId, Connected>, next: Token, channels: map<Token, Channel>, links: map<Token, Link>, replaced: set<Token>)
    requires Consistent(hosts, next, channels, links, replaced)
    ensures Consistent(hosts, next, AfterAll(offer, hosts, {}, channels, links), links, replaced)
    ensures Woken(offer, hosts, {}, channels) == set h | h in hosts && Gets(offer, hosts[h], channels)
  {
    var after := AfterAll(offer, hosts, {}, channels, links);
    forall h | h in hosts ensures EntryOk(h, hosts[h], after, links, replaced) {
      assert EntryOk(h, hosts[h], channels, links, replaced);
    }
    forall t | t in links ensures SenderOk(t, hosts, after, links, replaced) {
      assert SenderOk(t, hosts, channels, links, replaced);
    }
  }

  // ---------------------------------------------------------------------------
  // Steps keep the registry consistent
  // ---------------------------------------------------------------------------

  /** A connection that was replaced and told, or has left, finds its channel
      closed: after what is queued, reading it ends the connection. */
  lemma ReplacedFindsItsChannelClosed(hosts: map<HostId, Connected>, next: Token, channels: map<Token, Channel>, links: map<Token, Link>, replaced: set<Token>, t: Token)
    requires Consistent(hosts, next, channels, links, replaced) && t in links && !links[t].phase.Fetched?
    ensures channels[t].sender <==> IsCurrent(hosts, links, t) || t in replaced
    ensures links[t].phase.Left? ==> !IsCurrent(hosts, links, t)
  {
    assert SenderOk(t, hosts, channels, links, replaced);
    if IsCurrent(hosts, links, t) {
      assert EntryOk(links[t].host, hosts[links[t].host], channels, links, replaced);
    }
  }

  /** What a connection says about itself reaches its entry if it is current, and
      no entry otherwise. */
  lemma WordsKeep(hosts: map<HostId, Connected>, next: Token, channels: map<Token, Channel>, links: map<Token, Link>, replaced: set<Token>, t: Token, said: Link)
    requires Consistent(hosts, next, channels, links, replaced) && t in links && links[t].phase.Serving?
    requires said.host == links[t].host && said.phase.Serving?
    ensures Consistent(if IsCurrent(hosts, links, t) then hosts[said.host := Connected(t, said.hello, said.heartbeat)] else hosts, next, channels, links[t := said], replaced)
    ensures IsCurrent(hosts, links, t) ==> hosts[said.host] == Connected(t, links[t].hello, links[t].heartbeat)
  {
    var hosts1 := if IsCurrent(hosts, links, t) then hosts[said.host := Connected(t, said.hello, said.heartbeat)] else hosts;
    var links1 := links[t := said];
    forall x | x in hosts1 ensures EntryOk(x, hosts1[x], channels, links1, replaced) {
      assert EntryOk(x, hosts[x], channels, links, replaced);
    }
    forall u | u in links1 ensures SenderOk(u, hosts1, channels, links1, replaced) {
      assert SenderOk(u, hosts, channels, links, replaced);
    }
  }

  predicate Newest(ts: seq<Token>, t: Token) {
    t in ts && forall u :: u in ts ==> u <= t
  }

  predicate InOrder(ts: seq<Token>) {
    forall i, j :: 0 <= i < j < |ts| ==> ts[i] < ts[j]
  }

  /** In every state of every interleaving the entry of a host is the last one that
      entered, and it is the newest of those that entered exactly when none of the
      earlier ones has a larger token. */
  lemma EntryIsNewestExactlyWhen(hosts: map<HostId, Connected>, links: map<Token, Link>, entered: map<HostId, seq<Token>>, h: HostId)
    requires History(hosts, links, entered) && h in hosts
    ensures var ts := EnteredBy(entered, h);
      && IsLast(ts, hosts[h].token)
      && (Newest(ts, hosts[h].token) <==> forall i :: 0 <= i < |ts| - 1 ==> ts[i] < hosts[h].token)
  {
    var ts, t := EnteredBy(entered, h), hosts[h].token;
    assert LastEntered(hosts, entered, h) && EnteredOnce(links, entered, h);
    if Newest(ts, t) {
      forall i | 0 <= i < |ts| - 1 ensures ts[i] < t {
        assert ts[i] in ts && ts[i] != ts[|ts| - 1];
      }
    }
  }

  /** Over a whole history: a host always yields to its newer connection exactly
      when its connections enter in the order of their tokens. */
  lemma {:induction false} AlwaysNewestExactlyInOrder(ts: seq<Token>)
    requires NoRepeats(ts)
    ensures (forall k :: 0 < k <= |ts| ==> Newest(ts[..k], ts[k - 1])) <==> InOrder(ts)
  {
    if forall k :: 0 < k <= |ts| ==> Newest(ts[..k], ts[k - 1]) {
      forall i, j | 0 <= i < j < |ts| ensures ts[i] < ts[j] {
        var k := j + 1;
        assert Newest(ts[..k], ts[k - 1]);
        assert ts[..k][i] == ts[i] && ts[..k][i] in ts[..k];
      }
    }
    if InOrder(ts) {
      forall k | 0 < k <= |ts| ensures Newest(ts[..k], ts[k - 1]) {
        assert ts[..k][k - 1] == ts[k - 1];
      }
    }
  }

  lemma InsertKeepsHistory(hosts: map<HostId, Connected>, links: map<Token, Link>, entered: map<HostId, seq<Token>>, t: Token)
    requires History(hosts, links, entered) && t in links && links[t].phase.Fetched?
    ensures var h := links[t].host;
      History(hosts[h := Connected(t, None, None)], links[t := links[t].(phase := Serving)], entered[h := EnteredBy(entered, h) + [t]])
    ensures var ts := EnteredBy(entered, links[t].host);
      Newest(ts + [t], t) <==> forall u :: u in ts ==> u < t
  {
    var h := links[t].host;
    var ts := EnteredBy(entered, h);
    var hosts1, links1, entered1 := hosts[h := Connected(t, None, None)], links[t := links[t].(phase := Serving)], entered[h := ts + [t]];
    assert EnteredOnce(links, entered, h);
    assert t in ts + [t] && forall u :: u in ts ==> u in ts + [t] && u != t;
    forall x ensures LastEntered(hosts1, entered1, x) && EnteredOnce(links1, entered1, x) {
      assert LastEntered(hosts, entered, x) && EnteredOnce(links, entered, x);
      if x == h {
        assert forall u :: u in EnteredBy(entered1, h) ==> u in ts || u == t;
      }
    }
    forall u ensures HasEntered(links1, entered1, u) {
      assert HasEntered(links, entered, u);
    }
  }

  lemma InsertKeeps(hosts: map<HostId, Connected>, next: Token, channels: map<Token, Channel>, links: map<Token, Link>, replaced: set<Token>, t: Token)
    requires Consistent(hosts, next, channels, links, replaced) && t in links && links[t].phase.Fetched?
    ensures var h := links[t].host;
      Consistent(hosts[h := Connected(t, None, None)], next, channels, links[t := links[t].(phase := Serving)],
        replaced + if h in hosts then {hosts[h].token} else {})
  {
    var h := links[t].host;
    var hosts1, links1 := hosts[h := Connected(t, None, None)], links[t := links[t].(phase := Serving)];
    var replaced1 := replaced + if h in hosts then {hosts[h].token} else {};
    assert SenderOk(t, hosts, channels, links, replaced);
    forall x | x in hosts1 ensures EntryOk(x, hosts1[x], channels, links1, replaced1) {
      if x != h {
        assert EntryOk(x, hosts[x], channels, links, replaced);
      }
    }
    forall u | u in links1 ensures SenderOk(u, hosts1, channels, links1, replaced1) {
      assert SenderOk(u, hosts, channels, links, replaced);
    }
  }

  lemma UnregisterKeeps(hosts: map<HostId, Connected>, next: Token, channels: map<Token, Channel>, links: map<Token, Link>, replaced: set<Token>, t: Token)
    requires Consistent(hosts, next, channels, links, replaced) && t in links && links[t].phase.Serving?
    ensures var current := IsCurrent(hosts, links, t);
      Consistent(if current then hosts - {links[t].host} else hosts, next,
        channels[t := channels[t].(receiver := false, sender := channels[t].sender && !current)],
        links[t := links[t].(phase := Left)], replaced)
  {
    var current := IsCurrent(hosts, links, t);
    var hosts1 := if current then hosts - {links[t].host} else hosts;
    var channels1 := channels[t := channels[t].(receiver := false, sender := channels[t].sender && !current)];
    var links1 := links[t := links[t].(phase := Left)];
    forall x | x in hosts1 ensures EntryOk(x, hosts1[x], channels1, links1, replaced) {
      assert EntryOk(x, hosts[x], channels, links, replaced);
    }
    forall u | u in links1 ensures SenderOk(u, hosts1, channels1, links1, replaced) {
      assert SenderOk(u, hosts, channels, links, replaced);
    }
  }

  /** Tokens do not decide who stays: a connection that fetched its token first and
      entered last displaces one with a larger token. */
  method SlowRegistrationWins(h: HostId) returns (r: Registry, first: Token, second: Token)
    ensures r.Valid() && first < second && h in r.hosts && r.hosts[h].token == first && r.replaced == {second}
  {
    r := new Registry();
    first := r.FetchToken(h);
    second := r.FetchToken(h);
    r.Insert(h, second);
    r.Insert(h, first);
  }
}
