/** Bounded retries of work that can recover without an operator: the delays, and
    the loop around package materialization and runner registration. */
module Retry {
  import opened Wrappers

  /** Durations in nanoseconds, up to the longest one there is. */
  const DURATION_MAX: nat := 18446744073709551615999999999

  datatype RetryPolicy = RetryPolicy(maxAttempts: nat, initial: nat, maximum: nat)

  predicate ValidPolicy(p: RetryPolicy) {
    p.maxAttempts <= U32_MAX && p.initial <= DURATION_MAX && p.maximum <= DURATION_MAX
  }

  function Pow2(n: nat): nat {
    if n == 0 then 1 else 2 * Pow2(n - 1)
  }

  function Shift(index: nat): nat {
    Min(SaturatingSub(index, 1), 31)
  }

  function SaturatingMul(a: nat, b: nat): nat {
    Min(a * b, DURATION_MAX)
  }

  function Delay(p: RetryPolicy, index: nat): nat {
    Min(SaturatingMul(p.initial, Pow2(Shift(index))), p.maximum)
  }

  lemma {:induction false} Pow2Grows(m: nat, n: nat)
    requires m <= n
    ensures 1 <= Pow2(m) <= Pow2(n)
    decreases n
  {
    if m < n {
      Pow2Grows(m, n - 1);
    } else if n > 0 {
      Pow2Grows(m - 1, n - 1);
    }
  }

  lemma FactorFitsItsWidth(index: nat)
    ensures Pow2(Shift(index)) <= U32_MAX
  {
    Pow2Grows(Shift(index), 31);
    LargestFactor();
  }

  lemma LargestFactor()
    ensures Pow2(31) == 2147483648
  {
    assert Pow2(8) == 256;
    assert Pow2(16) == 65536;
    assert Pow2(24) == 16777216;
  }

  /** The saturating product never shows. */
  lemma DelayIsExact(p: RetryPolicy, index: nat)
    requires ValidPolicy(p)
    ensures Delay(p, index) == Min(p.initial * Pow2(Shift(index)), p.maximum)
  {
  }

  lemma Scaled(a: nat, b: nat, c: nat)
    requires b <= c
    ensures a * b <= a * c
  {
  }

  /** Delays never shrink from one failure to the next. */
  lemma DelayNeverShrinks(p: RetryPolicy, i: nat, j: nat)
    requires ValidPolicy(p) && i <= j
    ensures Delay(p, i) <= Delay(p, j) <= p.maximum
  {
    Pow2Grows(Shift(i), Shift(j));
    Scaled(p.initial, Pow2(Shift(i)), Pow2(Shift(j)));
  }

  /** The first delay is `initial`, capped, and each later one doubles the one
      before it, capped, exactly up to the thirty-second failure; from there on the
      delay stays, and doubles no more unless the largest factor already reaches the
      cap or there is nothing to double. */
  lemma DelayDoublesUntilCapped(p: RetryPolicy, i: nat)
    requires ValidPolicy(p) && i >= 1
    ensures Delay(p, 1) == Min(p.initial, p.maximum)
    ensures Delay(p, i + 1) == Min(2 * Delay(p, i), p.maximum) <==> i <= 31 || p.initial * Pow2(31) >= p.maximum || p.initial == 0
    ensures i > 31 ==> Delay(p, i + 1) == Delay(p, i)
  {
    DelayIsExact(p, 1);
    DelayIsExact(p, i);
    DelayIsExact(p, i + 1);
    Pow2Grows(0, Shift(i));
    if i <= 31 {
      assert Pow2(Shift(i + 1)) == 2 * Pow2(Shift(i));
      Doubled(p.initial, Pow2(Shift(i)));
    } else if p.initial > 0 {
      Scaled(p.initial, 1, Pow2(Shift(i)));
    }
  }

  /** It does stop short of the cap: one nanosecond doubles thirty-one times. */
  lemma DelayStopsShortOfTheCap()
    ensures var p := RetryPolicy(1, 1, DURATION_MAX);
      && ValidPolicy(p) && Delay(p, 33) == Delay(p, 32) == 2147483648
      && Delay(p, 33) < Min(2 * Delay(p, 32), p.maximum)
  {
    LargestFactor();
    DelayIsExact(RetryPolicy(1, 1, DURATION_MAX), 32);
    DelayIsExact(RetryPolicy(1, 1, DURATION_MAX), 33);
  }

  lemma Doubled(a: nat, b: nat)
    ensures a * (2 * b) == 2 * (a * b)
  {
  }

  // ---------------------------------------------------------------------------
  // The loop
  // ---------------------------------------------------------------------------

  /** What one try answers. Only registration ever says when to come back. */
  datatype Answer = Done | Failed(terminal: bool, retryAfter: Option<nat>)

  /** Whether demand was confirmed before a wait and again after it. */
  datatype Demand = Demand(before: bool, after: bool)

  function Wait(p: RetryPolicy, a: Answer, index: nat): nat {
    if a.Failed? && a.retryAfter.Some? then a.retryAfter.value else Delay(p, index)
  }

  /** The wait after a failed try: the time it named, or the delay of its turn. */
  predicate Waited(p: RetryPolicy, a: Answer, index: nat, wait: nat) {
    && a.Failed?
    && (a.retryAfter.Some? ==> wait == a.retryAfter.value)
    && (a.retryAfter.None? ==> wait == Delay(p, index))
  }

  /** A try that may be repeated, and was. */
  predicate Repeats(a: Answer, d: Demand) {
    a.Failed? && !a.terminal && d.before && d.after
  }

  function Total(waits: seq<nat>): nat {
    if waits == [] then 0 else Total(waits[..|waits| - 1]) + waits[|waits| - 1]
  }

  lemma {:induction false} TotalIsBounded(waits: seq<nat>, most: nat)
    requires forall i :: 0 <= i < |waits| ==> waits[i] <= most
    ensures Total(waits) <= |waits| * most
  {
    if waits != [] {
      TotalIsBounded(waits[..|waits| - 1], most);
      assert |waits| * most == (|waits| - 1) * most + most;
    }
  }

  /** Tries until one works, one fails for good, the tries run out, or demand goes
      away. Every wait is preceded and followed by a look at demand, and a try is
      repeated only if both confirmed it. */
  method WithRetry(p: RetryPolicy, tries: nat -> Answer, demand: nat -> Demand) returns (ok: bool, issued: nat, waits: seq<nat>)
    requires ValidPolicy(p)
    ensures 1 <= issued <= Max(p.maxAttempts, 1)
    ensures forall k :: 1 <= k < issued ==> Repeats(tries(k), demand(k))
    ensures ok <==> tries(issued).Done?
    ensures !ok ==> tries(issued).terminal || issued == Max(p.maxAttempts, 1) || !demand(issued).before || !demand(issued).after
    ensures forall k :: 0 <= k < |waits| ==> waits[k] == Wait(p, tries(k + 1), k + 1)
    ensures forall k :: 0 <= k < |waits| ==> Waited(p, tries(k + 1), k + 1, waits[k])
    ensures |waits| == if !ok && !tries(issued).terminal && issued < Max(p.maxAttempts, 1) && demand(issued).before then issued else issued - 1
    ensures |waits| < Max(p.maxAttempts, 1)
  {
    issued, waits := 0, [];
    while true
      invariant issued < Max(p.maxAttempts, 1) && |waits| == issued
      invariant forall k :: 1 <= k <= issued ==> Repeats(tries(k), demand(k))
      invariant forall k :: 0 <= k < |waits| ==> waits[k] == Wait(p, tries(k + 1), k + 1) && Waited(p, tries(k + 1), k + 1, waits[k])
      decreases Max(p.maxAttempts, 1) - issued
    {
      issued := SaturatingAdd(issued, 1, U32_MAX);
      var answer := tries(issued);
      if answer.Done? {
        return true, issued, waits;
      }
      if answer.terminal || issued >= Max(p.maxAttempts, 1) || !demand(issued).before {
        return false, issued, waits;
      }
      waits := waits + [Wait(p, answer, issued)];
      if !demand(issued).after {
        return false, issued, waits;
      }
    }
  }

  /** The waits of a run of retries that never names its own delay. */
  ghost predicate Delays(p: RetryPolicy, waits: seq<nat>) {
    forall k :: 0 <= k < |waits| ==> waits[k] == Delay(p, k + 1)
  }

  lemma DelaysAtMost(p: RetryPolicy, waits: seq<nat>)
    requires Delays(p, waits)
    ensures forall k :: 0 <= k < |waits| ==> waits[k] <= p.maximum
  {
  }

  lemma BoundedByTries(waits: seq<nat>, most: nat, allowed: nat)
    requires (forall k :: 0 <= k < |waits| ==> waits[k] <= most) && |waits| < allowed
    ensures Total(waits) <= (allowed - 1) * most
  {
    TotalIsBounded(waits, most);
    var spare := allowed - 1 - |waits|;
    assert (allowed - 1) * most == |waits| * most + spare * most;
  }

  /** Materialization, which never names its own delay, waits in all no longer than
      the longest delay between the tries it is allowed. */
  method MaterializeWithRetry(p: RetryPolicy, tries: nat -> Answer, demand: nat -> Demand) returns (ok: bool, issued: nat, waits: seq<nat>)
    requires ValidPolicy(p) && forall k :: tries(k).Failed? ==> tries(k).retryAfter.None?
    ensures 1 <= issued <= Max(p.maxAttempts, 1) && (ok <==> tries(issued).Done?)
    ensures forall k :: 1 <= k < issued ==> Repeats(tries(k), demand(k))
    ensures Delays(p, waits) && |waits| <= issued && (ok ==> |waits| == issued - 1)
    ensures Total(waits) <= (Max(p.maxAttempts, 1) - 1) * p.maximum
  {
    ok, issued, waits := WithRetry(p, tries, demand);
    assert Delays(p, waits);
    DelaysAtMost(p, waits);
    BoundedByTries(waits, p.maximum, Max(p.maxAttempts, 1));
  }
}
