/** The bounded memory of webhook delivery ids. */
module DeliveryLog {

  /** A delivery id, only ever compared. */
  type Delivery = nat

  /** The last n of a history, or all of it. */
  function Last(h: seq<Delivery>, n: nat): seq<Delivery> {
    if |h| <= n then h else h[|h| - n..]
  }

  /** The ids accepted out of a sequence of calls to a new log, each compared with
      the last n accepted before it. */
  function Accepted(calls: seq<Delivery>, n: nat): seq<Delivery> {
    if calls == [] then [] else Extended(Accepted(calls[..|calls| - 1], n), n, calls[|calls| - 1])
  }

  function Extended(accepted: seq<Delivery>, n: nat, id: Delivery): seq<Delivery> {
    if id in Last(accepted, n) then accepted else accepted + [id]
  }

  class DeliveryLog {
    var seen: set<Delivery>
    var order: seq<Delivery>
    const capacity: nat
    ghost var accepted: seq<Delivery>

    ghost predicate Valid()
      reads this
    {
      && capacity >= 1 && order == Last(accepted, capacity)
      && seen == (set d | d in order)
      && forall i, j :: 0 <= i < j < |order| ==> order[i] != order[j]
    }

    constructor (n: nat)
      ensures Valid() && accepted == [] && capacity == if n == 0 then 1 else n
    {
      seen, order, accepted := {}, [], [];
      capacity := if n == 0 then 1 else n;
    }

    /** True exactly when the id is not among the last `capacity` accepted, though
        no more than those are remembered. */
    method FirstTime(id: Delivery) returns (first: bool)
      requires Valid()
      modifies this
      ensures Valid() && |order| <= capacity
      ensures first <==> id !in Last(old(accepted), capacity)
      ensures accepted == Extended(old(accepted), capacity, id)
    {
      if id in seen {
        return false;
      }
      if |order| == capacity {
        var oldest := order[0];
        order := order[1..];
        seen := seen - {oldest};
      }
      seen := seen + {id};
      order := order + [id];
      accepted := accepted + [id];
      return true;
    }
  }

  lemma RecentIsInLast(h: seq<Delivery>, n: nat, i: nat)
    requires |h| - n <= i < |h|
    ensures h[i] in Last(h, n)
  {
    if |h| > n {
      assert Last(h, n)[i - (|h| - n)] == h[i];
    }
  }

  /** An id is accepted again only after n others: any n + 1 accepted in a row are
      different. */
  lemma {:induction false} RepeatsAreFarApart(calls: seq<Delivery>, n: nat, i: nat, j: nat)
    requires i < j < |Accepted(calls, n)| && j - i <= n
    ensures Accepted(calls, n)[i] != Accepted(calls, n)[j]
    decreases calls
  {
    var before := Accepted(calls[..|calls| - 1], n);
    if j < |before| {
      RepeatsAreFarApart(calls[..|calls| - 1], n, i, j);
    } else {
      RecentIsInLast(before, n, i);
    }
  }

  /** Every id that was delivered was accepted, and nothing else was. */
  lemma {:induction false} EveryIdIsAccepted(calls: seq<Delivery>, n: nat, id: Delivery)
    ensures id in Accepted(calls, n) <==> id in calls
  {
    if calls != [] {
      var earlier, last := calls[..|calls| - 1], calls[|calls| - 1];
      EveryIdIsAccepted(earlier, n, id);
      assert calls == earlier + [last];
      LastIsPart(Accepted(earlier, n), n, last);
    }
  }

  lemma LastIsPart(h: seq<Delivery>, n: nat, d: Delivery)
    ensures d in Last(h, n) ==> d in h
  {
  }
}
