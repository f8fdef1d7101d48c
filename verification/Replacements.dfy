/** Which replacements a launcher hands out over a whole run of polls, startup
    recoveries and restarts. */
module Replacements {
  import opened Wrappers
  import opened Attempts
  import opened Reconcile

  /** Replacements handed out, about to be handed out and pending: together at
      most one per attempt, and none for an attempt that is not terminal. */
  ghost predicate AccountedFor(host: map<AttemptId, Durable>, pending: map<AttemptId, PolicyId>, held: multiset<AttemptId>, returned: multiset<AttemptId>, id: AttemptId) {
    returned[id] + held[id] + Indicator(id in pending) <= Indicator(id in host && IsTerminal(host[id].row.state))
  }

  ghost predicate Accounted(host: map<AttemptId, Durable>, pending: map<AttemptId, PolicyId>, held: multiset<AttemptId>, returned: multiset<AttemptId>) {
    forall id :: AccountedFor(host, pending, held, returned, id)
  }

  /** A write to an attempt keeps the account. If the attempt was not terminal yet,
      there is room for a replacement of it exactly when the write makes it so. */
  lemma ConclusionMakesRoom(host: map<AttemptId, Durable>, pending: map<AttemptId, PolicyId>, held: multiset<AttemptId>, returned: multiset<AttemptId>, id: AttemptId, e: Durable)
    requires Accounted(host, pending, held, returned) && id in host
    requires IsTerminal(host[id].row.state) ==> IsTerminal(e.row.state)
    ensures Accounted(host[id := e], pending, held, returned)
    ensures !IsTerminal(host[id].row.state) ==>
      && (Accounted(host[id := e], pending[id := e.row.policy], held, returned) <==> IsTerminal(e.row.state))
      && (Accounted(host[id := e], pending, held + multiset{id}, returned) <==> IsTerminal(e.row.state))
  {
    var after, more, extra := host[id := e], pending[id := e.row.policy], held + multiset{id};
    forall x ensures AccountedFor(after, pending, held, returned, x) {
      assert AccountedFor(host, pending, held, returned, x);
    }
    if !IsTerminal(host[id].row.state) && IsTerminal(e.row.state) {
      forall x ensures AccountedFor(after, more, held, returned, x) {
        assert AccountedFor(host, pending, held, returned, x);
      }
      forall x ensures AccountedFor(after, pending, extra, returned, x) {
        assert AccountedFor(host, pending, held, returned, x);
      }
    }
    if !IsTerminal(e.row.state) {
      assert !AccountedFor(after, more, held, returned, id) && !AccountedFor(after, pending, extra, returned, id);
    }
  }

  lemma HeldCanBeLost(host: map<AttemptId, Durable>, pending: map<AttemptId, PolicyId>, held: multiset<AttemptId>, returned: multiset<AttemptId>)
    requires Accounted(host, pending, held, returned)
    ensures Accounted(host, pending, multiset{}, returned) && Accounted(host, map[], multiset{}, returned)
  {
    forall x ensures AccountedFor(host, pending, multiset{}, returned, x) && AccountedFor(host, map[], multiset{}, returned, x) {
      assert AccountedFor(host, pending, held, returned, x);
    }
  }

  lemma HeldCanBeReturned(host: map<AttemptId, Durable>, pending: map<AttemptId, PolicyId>, held: multiset<AttemptId>, returned: multiset<AttemptId>)
    requires Accounted(host, pending, held, returned)
    ensures Accounted(host, pending, multiset{}, returned + held)
  {
    forall x ensures AccountedFor(host, pending, multiset{}, returned + held, x) {
      assert AccountedFor(host, pending, held, returned, x);
    }
  }

  function Due(pending: map<AttemptId, PolicyId>, policy: PolicyId): multiset<AttemptId> {
    multiset(set id | id in pending && pending[id] == policy)
  }

  function NotDueYet(pending: map<AttemptId, PolicyId>, policy: PolicyId): map<AttemptId, PolicyId> {
    map id | id in pending && pending[id] != policy :: pending[id]
  }

  lemma PendingCanBeHeld(host: map<AttemptId, Durable>, pending: map<AttemptId, PolicyId>, returned: multiset<AttemptId>, policy: PolicyId)
    requires Accounted(host, pending, multiset{}, returned)
    ensures Accounted(host, NotDueYet(pending, policy), Due(pending, policy), returned)
  {
    forall x ensures AccountedFor(host, NotDueYet(pending, policy), Due(pending, policy), returned, x) {
      assert AccountedFor(host, pending, multiset{}, returned, x);
    }
  }

  ghost predicate AllKept(host: map<AttemptId, Durable>) {
    forall id :: id in host ==> WellKept(host[id])
  }

  /** Every pending replacement, and beyond those only attempts that were not yet
      terminal. */
  ghost predicate Justified(replacements: multiset<AttemptId>, due: multiset<AttemptId>, host: map<AttemptId, Durable>) {
    && due <= replacements
    && forall id :: id in replacements ==> id in due || (id in host && !IsTerminal(host[id].row.state))
  }

  lemma OneMoreIsJustified(replacements: multiset<AttemptId>, due: multiset<AttemptId>, host: map<AttemptId, Durable>, id: AttemptId)
    requires Justified(replacements, due, host) && id in host && !IsTerminal(host[id].row.state)
    ensures Justified(replacements + multiset{id}, due, host)
  {
  }

  ghost predicate TerminalStays(before: map<AttemptId, Durable>, after: map<AttemptId, Durable>) {
    forall id :: id in before && IsTerminal(before[id].row.state) ==> id in after && IsTerminal(after[id].row.state)
  }

  /** The answers every pass gets are ones the host can give. */
  ghost predicate TruthfulHost(answers: (AttemptId, Durable) -> Answers) {
    forall id, d :: Truthful(d, answers(id, d))
  }

  /** What a whole pass over an attempt answers. */
  predicate Asks(d: Durable, a: Answers) {
    PassPlan(d, a).progress.Replacement?
  }

  predicate Fails(d: Durable, a: Answers) {
    PassPlan(d, a).progress.Errored?
  }

  predicate Defers(d: Durable, a: Answers) {
    PassPlan(d, a).progress.Deferred?
  }

  predicate Distinct(order: seq<AttemptId>) {
    forall i, j :: 0 <= i < j < |order| ==> order[i] != order[j]
  }

  type Question = (AttemptId, Durable) -> bool

  function AsksOf(answers: (AttemptId, Durable) -> Answers): Question {
    (id: AttemptId, d: Durable) => Asks(d, answers(id, d))
  }

  function FailsOf(answers: (AttemptId, Durable) -> Answers): Question {
    (id: AttemptId, d: Durable) => Fails(d, answers(id, d))
  }

  function DefersOf(answers: (AttemptId, Durable) -> Answers): Question {
    (id: AttemptId, d: Durable) => Defers(d, answers(id, d))
  }

  /** One of the first k attempts of a recovery asked for a replacement. */
  ghost predicate AskedFor(host: map<AttemptId, Durable>, policies: set<PolicyId>, order: seq<AttemptId>, asks: Question, k: nat, id: AttemptId) {
    exists i :: 0 <= i < k <= |order| && order[i] == id && id in host && host[id].row.policy in policies && asks(id, host[id])
  }

  /** A recovery that visits every attempt once, without a crash or an error. */
  ghost predicate RunsThrough(host: map<AttemptId, Durable>, policies: set<PolicyId>, order: seq<AttemptId>, fails: Question, cut: AttemptId -> Option<nat>) {
    && Distinct(order)
    && forall i :: 0 <= i < |order| && order[i] in host && host[order[i]].row.policy in policies ==>
         cut(order[i]).None? && !fails(order[i], host[order[i]])
  }

  /** Nothing pending is dropped, and what is added belongs to a known policy and
      was not terminal. */
  ghost predicate PendingGrows(before: map<AttemptId, PolicyId>, after: map<AttemptId, PolicyId>, host: map<AttemptId, Durable>, policies: set<PolicyId>) {
    && (forall id :: id in before ==> id in after)
    && forall id :: id in after && id !in before ==> id in host && !IsTerminal(host[id].row.state) && host[id].row.policy in policies && after[id] == host[id].row.policy
  }

  ghost predicate UnknownUntouched(before: map<AttemptId, Durable>, after: map<AttemptId, Durable>, policies: set<PolicyId>) {
    before.Keys == after.Keys && forall id :: id in before && before[id].row.policy !in policies ==> after[id] == before[id]
  }

  /** Where a recovery of `host0` stands after its first k attempts. */
  ghost predicate Recovering(host0: map<AttemptId, Durable>, pending0: map<AttemptId, PolicyId>, policies: set<PolicyId>, order: seq<AttemptId>, asks: Question,
      host: map<AttemptId, Durable>, pending: map<AttemptId, PolicyId>, k: nat) {
    && k <= |order| && UnknownUntouched(host0, host, policies)
    && (forall id :: id in host && id in host0 ==> host[id].row.policy == host0[id].row.policy)
    && TerminalStays(host0, host) && PendingGrows(pending0, pending, host0, policies)
    && (Distinct(order) ==>
          && (forall i :: k <= i < |order| && order[i] in host && order[i] in host0 ==> host[order[i]] == host0[order[i]])
          && (forall id :: id in pending <==> id in pending0 || AskedFor(host0, policies, order, asks, k, id)))
  }

  lemma AskedForOneMore(host: map<AttemptId, Durable>, policies: set<PolicyId>, order: seq<AttemptId>, asks: Question, k: nat, id: AttemptId)
    requires k < |order| && order[k] in host
    ensures AskedFor(host, policies, order, asks, k + 1, id) <==>
      AskedFor(host, policies, order, asks, k, id) || (id == order[k] && host[id].row.policy in policies && asks(id, host[id]))
  {
    if AskedFor(host, policies, order, asks, k + 1, id) {
      var i :| 0 <= i < k + 1 <= |order| && order[i] == id && id in host && host[id].row.policy in policies && asks(id, host[id]);
      assert i == k || AskedFor(host, policies, order, asks, k, id);
    }
  }

  lemma RecoveringOneMore(host0: map<AttemptId, Durable>, pending0: map<AttemptId, PolicyId>, policies: set<PolicyId>, order: seq<AttemptId>, asks: Question,
      host: map<AttemptId, Durable>, pending: map<AttemptId, PolicyId>, k: nat, e: Durable, asked: bool)
    requires Recovering(host0, pending0, policies, order, asks, host, pending, k) && k < |order| && order[k] in host
    requires host[order[k]].row.policy in policies && e.row.policy == host[order[k]].row.policy
    requires IsTerminal(host[order[k]].row.state) ==> IsTerminal(e.row.state)
    requires asked <==> asks(order[k], host[order[k]])
    requires asked ==> !IsTerminal(host[order[k]].row.state)
    ensures Recovering(host0, pending0, policies, order, asks, host[order[k] := e], if asked then pending[order[k] := e.row.policy] else pending, k + 1)
  {
    forall id ensures AskedFor(host0, policies, order, asks, k + 1, id) <==>
      AskedFor(host0, policies, order, asks, k, id) || (id == order[k] && host0[id].row.policy in policies && asks(id, host0[id]))
    {
      AskedForOneMore(host0, policies, order, asks, k, id);
    }
  }

  lemma RecoveringSkipsOne(host0: map<AttemptId, Durable>, pending0: map<AttemptId, PolicyId>, policies: set<PolicyId>, order: seq<AttemptId>, asks: Question,
      host: map<AttemptId, Durable>, pending: map<AttemptId, PolicyId>, k: nat)
    requires Recovering(host0, pending0, policies, order, asks, host, pending, k) && k < |order| && order[k] in host
    requires host[order[k]].row.policy !in policies
    ensures Recovering(host0, pending0, policies, order, asks, host, pending, k + 1)
  {
    forall id ensures AskedFor(host0, policies, order, asks, k + 1, id) <==> AskedFor(host0, policies, order, asks, k, id) {
      AskedForOneMore(host0, policies, order, asks, k, id);
    }
  }

  /** A poll meets a crash or an error. */
  ghost predicate BreaksOff(host: map<AttemptId, Durable>, order: seq<AttemptId>, fails: Question, cut: AttemptId -> Option<nat>) {
    exists i :: 0 <= i < |order| && order[i] in host && (cut(order[i]).Some? || fails(order[i], host[order[i]]))
  }

  /** None of its first k attempts does, each being visited once. */
  ghost predicate Unbroken(host: map<AttemptId, Durable>, order: seq<AttemptId>, fails: Question, cut: AttemptId -> Option<nat>, k: nat) {
    Distinct(order) ==> forall i :: 0 <= i < k && i < |order| && order[i] in host ==> cut(order[i]).None? && !fails(order[i], host[order[i]])
  }

  /** One of the first k attempts of a poll asked for a replacement. */
  ghost predicate AskedAmong(host: map<AttemptId, Durable>, order: seq<AttemptId>, asks: Question, k: nat, id: AttemptId) {
    exists i :: 0 <= i < k <= |order| && order[i] == id && id in host && asks(id, host[id])
  }

  lemma AskedAmongOneMore(host: map<AttemptId, Durable>, order: seq<AttemptId>, asks: Question, k: nat, id: AttemptId)
    requires k < |order| && order[k] in host
    ensures AskedAmong(host, order, asks, k + 1, id) <==> AskedAmong(host, order, asks, k, id) || (id == order[k] && asks(id, host[id]))
  {
    if AskedAmong(host, order, asks, k + 1, id) {
      var i :| 0 <= i < k + 1 <= |order| && order[i] == id && id in host && asks(id, host[id]);
      assert i == k || AskedAmong(host, order, asks, k, id);
    }
  }

  /** Where a poll of `host0` stands after its first k attempts: it holds what was
      due, and what has been asked for since. */
  ghost predicate Polling(host0: map<AttemptId, Durable>, due: multiset<AttemptId>, order: seq<AttemptId>, asks: Question,
      host: map<AttemptId, Durable>, held: multiset<AttemptId>, k: nat) {
    && k <= |order| && host.Keys == host0.Keys && TerminalStays(host0, host) && Justified(held, due, host0)
    && (Distinct(order) ==>
          && (forall i :: k <= i < |order| && order[i] in host && order[i] in host0 ==> host[order[i]] == host0[order[i]])
          && (forall id :: id in held <==> id in due || AskedAmong(host0, order, asks, k, id)))
  }

  lemma PollingOneMore(host0: map<AttemptId, Durable>, due: multiset<AttemptId>, order: seq<AttemptId>, asks: Question,
      host: map<AttemptId, Durable>, held: multiset<AttemptId>, k: nat, e: Durable, asked: bool)
    requires Polling(host0, due, order, asks, host, held, k) && k < |order| && order[k] in host
    requires IsTerminal(host[order[k]].row.state) ==> IsTerminal(e.row.state)
    requires asked <==> asks(order[k], host[order[k]])
    requires asked ==> !IsTerminal(host[order[k]].row.state)
    ensures Polling(host0, due, order, asks, host[order[k] := e], if asked then held + multiset{order[k]} else held, k + 1)
  {
    if asked {
      OneMoreIsJustified(held, due, host0, order[k]);
    }
    forall id ensures AskedAmong(host0, order, asks, k + 1, id) <==> AskedAmong(host0, order, asks, k, id) || (id == order[k] && asks(id, host0[id])) {
      AskedAmongOneMore(host0, order, asks, k, id);
    }
  }

  /** An attempt does not hold recovery back: of an unknown policy, it holds no
      capacity; of a native one, its pass is not deferred. */
  predicate Clear(d: Durable, id: AttemptId, policies: set<PolicyId>, natives: set<PolicyId>, defers: Question) {
    if d.row.policy in policies then d.row.policy in natives ==> !defers(id, d) else !CountsAgainstCapacity(d.row)
  }

  /** None of the first k attempts does. */
  ghost predicate Resolved(host: map<AttemptId, Durable>, policies: set<PolicyId>, natives: set<PolicyId>, order: seq<AttemptId>, defers: Question, k: nat) {
    forall i :: 0 <= i < k <= |order| && order[i] in host ==> Clear(host[order[i]], order[i], policies, natives, defers)
  }

  /** None of the first k attempts is of an unknown policy and holds capacity. */
  ghost predicate NoneUnknown(host: map<AttemptId, Durable>, policies: set<PolicyId>, order: seq<AttemptId>, k: nat) {
    forall i :: 0 <= i < k <= |order| && order[i] in host && host[order[i]].row.policy !in policies ==> !CountsAgainstCapacity(host[order[i]].row)
  }

  /** The same with what recovery has found to hold it back. */
  ghost predicate Standing(host0: map<AttemptId, Durable>, pending0: map<AttemptId, PolicyId>, policies: set<PolicyId>, natives: set<PolicyId>, order: seq<AttemptId>,
      answers: (AttemptId, Durable) -> Answers, host: map<AttemptId, Durable>, pending: map<AttemptId, PolicyId>, k: nat, unresolved: bool) {
    && Recovering(host0, pending0, policies, order, AsksOf(answers), host, pending, k)
    && (!unresolved ==> NoneUnknown(host0, policies, order, k))
    && (Distinct(order) ==> (!unresolved <==> Resolved(host0, policies, natives, order, DefersOf(answers), k)))
  }

  lemma ResolvedOneMore(host: map<AttemptId, Durable>, policies: set<PolicyId>, natives: set<PolicyId>, order: seq<AttemptId>, defers: Question, k: nat)
    requires k < |order| && order[k] in host
    ensures Resolved(host, policies, natives, order, defers, k + 1) <==>
      (Resolved(host, policies, natives, order, defers, k) && Clear(host[order[k]], order[k], policies, natives, defers))
    ensures NoneUnknown(host, policies, order, k + 1) <==>
      (NoneUnknown(host, policies, order, k) && (host[order[k]].row.policy in policies || !CountsAgainstCapacity(host[order[k]].row)))
  {
  }

  /** The launcher's own state beside the host: replacements found by startup
      recovery, lost with the process. */
  class Launcher {
    var host: map<AttemptId, Durable>
    var pending: map<AttemptId, PolicyId>
    var recovered: bool
    ghost var returned: multiset<AttemptId>

    ghost predicate Valid()
      reads this
    {
      Accounted(host, pending, multiset{}, returned) && AllKept(host)
    }

    constructor (found: map<AttemptId, Durable>)
      requires AllKept(found)
      ensures Valid() && host == found && pending == map[] && returned == multiset{} && !recovered
    {
      host, pending, recovered, returned := found, map[], false, multiset{};
    }

    /** One attempt. `cut` is where the agent dies, if it dies in this pass, which
        then answers nothing. */
    method ReconcileOne(id: AttemptId, a: Answers, cut: Option<nat>) returns (p: Option<Progress>)
      requires id in host && WellKept(host[id]) && Truthful(host[id], a)
      modifies this`host
      ensures id in host && host == old(host)[id := host[id]]
      ensures host[id] == Step(old(host[id]), Pass(a, cut)) && Later(old(host[id]), host[id]) && WellKept(host[id])
      ensures p == if cut.Some? then None else Some(PassPlan(old(host[id]), a).progress)
      ensures p == Some(Replacement) ==> !IsTerminal(old(host[id].row.state)) && IsTerminal(host[id].row.state)
    {
      var plan := PassPlan(host[id], a);
      PassIsSafe(host[id], a);
      StepIsLater(host[id], Pass(a, cut));
      host := host[id := ApplyAll(host[id], Done(plan, cut))];
      p := if cut.Some? then None else Some(plan.progress);
    }

    /** The same, with what it does to the account. */
    method Visit(id: AttemptId, a: Answers, cut: Option<nat>, ghost held: multiset<AttemptId>) returns (p: Option<Progress>)
      requires id in host && Truthful(host[id], a) && AllKept(host) && Accounted(host, pending, held, returned)
      modifies this`host
      ensures AllKept(host) && Accounted(host, pending, held, returned)
      ensures id in host && host == old(host)[id := host[id]] && host[id].row.policy == old(host)[id].row.policy
      ensures p == Some(Replacement) ==> !IsTerminal(old(host)[id].row.state)
      ensures p == Some(Replacement) ==> Accounted(host, pending[id := host[id].row.policy], held, returned)
      ensures p == Some(Replacement) ==> Accounted(host, pending, held + multiset{id}, returned)
      ensures IsTerminal(old(host)[id].row.state) ==> IsTerminal(host[id].row.state)
      ensures p.None? == cut.Some?
      ensures p.Some? ==> (p.value.Replacement? <==> Asks(old(host)[id], a)) && (p.value.Errored? <==> Fails(old(host)[id], a)) && (p.value.Deferred? <==> Defers(old(host)[id], a))
    {
      p := ReconcileOne(id, a, cut);
      ConclusionMakesRoom(old(host), pending, held, returned, id, host[id]);
    }

    /** The agent dies: everything it held in memory is gone. */
    method Restart(ghost held: multiset<AttemptId>)
      requires Accounted(host, pending, held, returned) && AllKept(host)
      modifies this`pending, this`recovered
      ensures Valid() && pending == map[] && !recovered
    {
      HeldCanBeLost(host, pending, held, returned);
      pending, recovered := map[], false;
    }

    /** Startup recovery of one attempt of a known policy. */
    method RecoverOne(ghost host0: map<AttemptId, Durable>, ghost pending0: map<AttemptId, PolicyId>, ghost policies: set<PolicyId>,
        order: seq<AttemptId>, k: nat, answers: (AttemptId, Durable) -> Answers, cut: AttemptId -> Option<nat>) returns (p: Option<Progress>)
      requires Valid() && TruthfulHost(answers) && !recovered && k < |order| && order[k] in host && host[order[k]].row.policy in policies
      requires Recovering(host0, pending0, policies, order, AsksOf(answers), host, pending, k)
      modifies this`host, this`pending, this`recovered
      ensures Valid() && !recovered && UnknownUntouched(host0, host, policies)
      ensures p.Some? ==> Recovering(host0, pending0, policies, order, AsksOf(answers), host, pending, k + 1)
      ensures p.None? ==> pending == map[] && cut(order[k]).Some?
      ensures p.None? || p.value.Errored? ==> !RunsThrough(host0, policies, order, FailsOf(answers), cut)
      ensures p.Some? && Distinct(order) && order[k] in host0 ==> (p.value.Deferred? <==> DefersOf(answers)(order[k], host0[order[k]]))
    {
      var id := order[k];
      ghost var before, had, asks, fails, defers := host, pending, AsksOf(answers), FailsOf(answers), DefersOf(answers);
      p := Visit(id, answers(id, host[id]), cut(id), multiset{});
      assert p.Some? ==> (p.value.Replacement? <==> asks(id, before[id])) && (p.value.Errored? <==> fails(id, before[id])) && (p.value.Deferred? <==> defers(id, before[id]));
      if p.None? {
        Restart(multiset{});
      } else {
        RecoveringOneMore(host0, pending0, policies, order, asks, before, had, k, host[id], p.value.Replacement?);
        if p.value.Replacement? {
          pending := pending[id := host[id].row.policy];
        }
      }
    }

    /** Startup recovery of the next attempt, whatever its policy. */
    method RecoverNext(ghost host0: map<AttemptId, Durable>, ghost pending0: map<AttemptId, PolicyId>, policies: set<PolicyId>, natives: set<PolicyId>,
        order: seq<AttemptId>, k: nat, answers: (AttemptId, Durable) -> Answers, cut: AttemptId -> Option<nat>, before: bool)
      returns (goes: bool, unresolved: bool)
      requires Valid() && TruthfulHost(answers) && !recovered && k < |order| && order[k] in host
      requires Standing(host0, pending0, policies, natives, order, answers, host, pending, k, before)
      modifies this`host, this`pending, this`recovered
      ensures Valid() && !recovered && UnknownUntouched(host0, host, policies)
      ensures goes ==> Standing(host0, pending0, policies, natives, order, answers, host, pending, k + 1, unresolved)
      ensures !goes ==> !RunsThrough(host0, policies, order, FailsOf(answers), cut)
      ensures !goes ==> (pending == map[] && cut(order[k]).Some?) || PendingGrows(pending0, pending, host0, policies)
    {
      goes, unresolved := true, before;
      var row := host[order[k]].row;
      ResolvedOneMore(host0, policies, natives, order, DefersOf(answers), k);
      if row.policy !in policies {
        if CountsAgainstCapacity(row) {
          unresolved := true;
        }
        RecoveringSkipsOne(host0, pending0, policies, order, AsksOf(answers), host, pending, k);
      } else {
        var p := RecoverOne(host0, pending0, policies, order, k, answers, cut);
        goes := p.Some? && !p.value.Errored?;
        if goes && p.value.Deferred? && row.policy in natives {
          unresolved := true;
        }
      }
    }

    /** Startup recovery of the attempts, one after another. */
    method RecoverAll(policies: set<PolicyId>, natives: set<PolicyId>, order: seq<AttemptId>, answers: (AttemptId, Durable) -> Answers, cut: AttemptId -> Option<nat>)
      returns (through: bool, unresolved: bool)
      requires Valid() && TruthfulHost(answers) && !recovered && forall i :: 0 <= i < |order| ==> order[i] in host
      modifies this`host, this`pending, this`recovered
      ensures Valid() && !recovered && UnknownUntouched(old(host), host, policies)
      ensures through ==> Standing(old(host), old(pending), policies, natives, order, answers, host, pending, |order|, unresolved)
      ensures !through ==> !RunsThrough(old(host), policies, order, FailsOf(answers), cut)
      ensures !through ==> (pending == map[] && exists i :: 0 <= i < |order| && cut(order[i]).Some?) || PendingGrows(old(pending), pending, old(host), policies)
    {
      unresolved := false;
      var k := 0;
      while k < |order|
        invariant 0 <= k <= |order| && Valid() && !recovered
        invariant Standing(old(host), old(pending), policies, natives, order, answers, host, pending, k, unresolved)
      {
        through, unresolved := RecoverNext(old(host), old(pending), policies, natives, order, k, answers, cut, unresolved);
        if !through {
          return;
        }
        k := k + 1;
      }
      through := true;
    }

    /** Startup recovery over the whole journal. Attempts of unknown policies are
        left alone, and hold recovery back while they hold capacity. Replacements
        stay pending whether or not recovery completes: unless the agent dies none
        is dropped, and a recovery that runs through adds exactly those asked for and
        completes exactly when nothing holds it back. `natives` are the policies that
        run without isolation. */
    method RecoverStartup(policies: set<PolicyId>, natives: set<PolicyId>, order: seq<AttemptId>, answers: (AttemptId, Durable) -> Answers, cut: AttemptId -> Option<nat>)
      returns (ok: bool)
      requires Valid() && TruthfulHost(answers) && forall i :: 0 <= i < |order| ==> order[i] in host
      modifies this
      ensures Valid() && returned == old(returned) && recovered == ok
      ensures UnknownUntouched(old(host), host, policies)
      ensures ok ==> NoneUnknown(old(host), policies, order, |order|)
      ensures (pending == map[] && exists i :: 0 <= i < |order| && cut(order[i]).Some?) || PendingGrows(old(pending), pending, old(host), policies)
      ensures RunsThrough(old(host), policies, order, FailsOf(answers), cut) ==>
        forall id :: id in pending <==> id in old(pending) || AskedFor(old(host), policies, order, AsksOf(answers), |order|, id)
      ensures RunsThrough(old(host), policies, order, FailsOf(answers), cut) ==>
        (ok <==> Resolved(old(host), policies, natives, order, DefersOf(answers), |order|))
    {
      recovered := false;
      var through, unresolved := RecoverAll(policies, natives, order, answers, cut);
      recovered := through && !unresolved;
      ok := recovered;
    }

    /** One attempt of a poll that holds some replacements already. */
    method PollOne(ghost host0: map<AttemptId, Durable>, ghost due: multiset<AttemptId>, order: seq<AttemptId>, k: nat,
        answers: (AttemptId, Durable) -> Answers, cut: AttemptId -> Option<nat>, held: multiset<AttemptId>)
      returns (more: Option<multiset<AttemptId>>)
      requires AllKept(host) && Accounted(host, pending, held, returned) && TruthfulHost(answers) && k < |order| && order[k] in host
      requires Polling(host0, due, order, AsksOf(answers), host, held, k) && Unbroken(host0, order, FailsOf(answers), cut, k)
      modifies this`host, this`pending, this`recovered
      ensures AllKept(host) && host.Keys == old(host).Keys
      ensures more.Some? ==> pending == old(pending) && Accounted(host, pending, more.value, returned)
      ensures more.Some? ==> Polling(host0, due, order, AsksOf(answers), host, more.value, k + 1)
      ensures more.None? ==> Valid() && (Distinct(order) ==> BreaksOff(host0, order, FailsOf(answers), cut))
      ensures more.Some? ==> Unbroken(host0, order, FailsOf(answers), cut, k + 1)
    {
      var id := order[k];
      ghost var before, asks, fails := host, AsksOf(answers), FailsOf(answers);
      var p := Visit(id, answers(id, host[id]), cut(id), held);
      assert p.Some? ==> (p.value.Replacement? <==> asks(id, before[id])) && (p.value.Errored? <==> fails(id, before[id]));
      if p.None? {
        Restart(held);
        return None;
      }
      if p.value.Errored? {
        HeldCanBeLost(host, pending, held, returned);
        return None;
      }
      PollingOneMore(host0, due, order, asks, before, held, k, host[id], p.value.Replacement?);
      return Some(if p.value.Replacement? then held + multiset{id} else held);
    }

    /** The attempts of a poll, one after another. */
    method PollAll(due: multiset<AttemptId>, order: seq<AttemptId>, answers: (AttemptId, Durable) -> Answers, cut: AttemptId -> Option<nat>)
      returns (held: Option<multiset<AttemptId>>)
      requires AllKept(host) && Accounted(host, pending, due, returned) && TruthfulHost(answers) && forall i :: 0 <= i < |order| ==> order[i] in host
      modifies this`host, this`pending, this`recovered
      ensures AllKept(host) && host.Keys == old(host).Keys
      ensures held.Some? ==> pending == old(pending) && Accounted(host, pending, held.value, returned)
      ensures held.Some? ==> Polling(old(host), due, order, AsksOf(answers), host, held.value, |order|)
      ensures held.None? ==> Valid()
      ensures Distinct(order) ==> (held.None? <==> BreaksOff(old(host), order, FailsOf(answers), cut))
    {
      var replacements := due;
      var k := 0;
      while k < |order|
        invariant 0 <= k <= |order| && AllKept(host) && Accounted(host, pending, replacements, returned) && pending == old(pending)
        invariant Polling(old(host), due, order, AsksOf(answers), host, replacements, k)
        invariant Unbroken(old(host), order, FailsOf(answers), cut, k)
      {
        var more := PollOne(old(host), due, order, k, answers, cut, replacements);
        if more.None? {
          return None;
        }
        replacements := more.value;
        k := k + 1;
      }
      return Some(replacements);
    }

    /** One ordinary poll of a policy. It returns exactly what was pending for the
        policy and what its passes asked for, and however many polls, restarts and
        startup recoveries came before, never an attempt a second time. */
    method Supervise(policy: PolicyId, order: seq<AttemptId>, answers: (AttemptId, Durable) -> Answers, cut: AttemptId -> Option<nat>)
      returns (r: Option<multiset<AttemptId>>)
      requires Valid() && TruthfulHost(answers) && forall i :: 0 <= i < |order| ==> order[i] in host
      modifies this
      ensures Valid() && host.Keys == old(host).Keys
      ensures returned == if r.Some? then old(returned) + r.value else old(returned)
      ensures forall id :: returned[id] <= 1
      ensures forall id :: id in returned ==> id in host && IsTerminal(host[id].row.state)
      ensures r.Some? ==> Justified(r.value, Due(old(pending), policy), old(host))
      ensures r.Some? && Distinct(order) ==>
        forall id :: id in r.value <==> id in Due(old(pending), policy) || AskedAmong(old(host), order, AsksOf(answers), |order|, id)
      ensures r.Some? ==> pending == NotDueYet(old(pending), policy)
      ensures Distinct(order) ==> (r.None? <==> BreaksOff(old(host), order, FailsOf(answers), cut))
    {
      PendingCanBeHeld(host, pending, returned, policy);
      var due := Due(pending, policy);
      pending := NotDueYet(pending, policy);
      r := PollAll(due, order, answers, cut);
      if r.Some? {
        HeldCanBeReturned(host, pending, r.value, returned);
        returned := returned + r.value;
      }
      AtMostOne(host, pending, returned);
    }
  }

  lemma AtMostOne(host: map<AttemptId, Durable>, pending: map<AttemptId, PolicyId>, returned: multiset<AttemptId>)
    requires Accounted(host, pending, multiset{}, returned)
    ensures forall id :: returned[id] <= 1
    ensures forall id :: id in returned ==> id in host && IsTerminal(host[id].row.state)
  {
    forall id ensures returned[id] <= 1 && (id in returned ==> id in host && IsTerminal(host[id].row.state)) {
      assert AccountedFor(host, pending, multiset{}, returned, id);
    }
  }
}
