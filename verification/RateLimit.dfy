/** Attempts per client address per fixed one-minute window, with a sweep of
    expired windows that must never be noticeable. */
module RateLimit {
  import opened Wrappers

  type Address = nat
  type Instant = nat

  /** One minute, in nanoseconds. */
  const WINDOW: nat := 60_000_000_000
  /** Addresses remembered before expired windows are swept. */
  const SWEEP_AT: nat := 4096

  datatype Entry = Entry(start: Instant, count: nat)

  type Windows = map<Address, Entry>

  datatype Call = Call(address: Address, now: Instant)

  predicate Expired(e: Entry, now: Instant) {
    SaturatingSub(now, e.start) >= WINDOW
  }

  // ---------------------------------------------------------------------------
  // One call
  // ---------------------------------------------------------------------------

  /** The window an address counts in at `now`, before this call. */
  function Open(w: Option<Entry>, now: Instant): Entry {
    if w.None? || Expired(w.value, now) then Entry(now, 0) else w.value
  }

  function Counted(w: Option<Entry>, now: Instant): Entry {
    var e := Open(w, now);
    e.(count := SaturatingAdd(e.count, 1, U32_MAX))
  }

  function Lookup(ws: Windows, a: Address): Option<Entry> {
    if a in ws then Some(ws[a]) else None
  }

  /** The specification: the same table, never swept. */
  function Plain(ws: Windows, c: Call): Windows {
    ws[c.address := Counted(Lookup(ws, c.address), c.now)]
  }

  function Sweep(ws: Windows, now: Instant): Windows {
    map a | a in ws && !Expired(ws[a], now) :: ws[a]
  }

  function Swept(ws: Windows, c: Call): Windows {
    Plain(if |ws| >= SWEEP_AT then Sweep(ws, c.now) else ws, c)
  }

  class RateLimiter {
    const perMinute: nat
    var windows: Windows

    constructor (perMinute: nat)
      ensures this.perMinute == perMinute && windows == map[]
    {
      this.perMinute := perMinute;
      windows := map[];
    }

    method Allow(address: Address, now: Instant) returns (ok: bool)
      modifies this
      ensures windows == Swept(old(windows), Call(address, now))
      ensures ok <==> windows[address].count <= perMinute
    {
      if |windows| >= SWEEP_AT {
        windows := map a | a in windows && !Expired(windows[a], now) :: windows[a];
      }
      var entry := if address in windows then windows[address] else Entry(now, 0);
      if Expired(entry, now) {
        entry := Entry(now, 0);
      }
      entry := entry.(count := SaturatingAdd(entry.count, 1, U32_MAX));
      windows := windows[address := entry];
      ok := entry.count <= perMinute;
    }
  }

  // ---------------------------------------------------------------------------
  // Runs of calls
  // ---------------------------------------------------------------------------

  function Admits(ws: Windows, c: Call, perMinute: nat): bool {
    c.address in ws && ws[c.address].count <= perMinute
  }

  /** The answers of the limiter, and of the table that is never swept. */
  function Answers(ws: Windows, cs: seq<Call>, perMinute: nat, sweeping: bool): (r: seq<bool>)
    ensures |r| == |cs|
    decreases cs
  {
    if cs == [] then []
    else
      var after := if sweeping then Swept(ws, cs[0]) else Plain(ws, cs[0]);
      [Admits(after, cs[0], perMinute)] + Answers(after, cs[1..], perMinute, sweeping)
  }

  /** Calls arrive at nondecreasing times, none before `from`. */
  predicate Ordered(cs: seq<Call>, from: Instant) {
    cs != [] ==> from <= cs[0].now && Ordered(cs[1..], cs[0].now)
  }

  /** The swept table forgets nothing but windows that have expired. */
  ghost predicate Agree(swept: Windows, full: Windows, now: Instant) {
    && (forall a :: a in swept ==> a in full && full[a] == swept[a])
    && (forall a :: a in full && a !in swept ==> Expired(full[a], now))
  }

  lemma StepAgrees(swept: Windows, full: Windows, c: Call, from: Instant)
    requires Agree(swept, full, from) && from <= c.now
    ensures Agree(Swept(swept, c), Plain(full, c), c.now)
    ensures Swept(swept, c)[c.address] == Plain(full, c)[c.address]
  {
    var kept := if |swept| >= SWEEP_AT then Sweep(swept, c.now) else swept;
    assert Agree(kept, full, c.now);
  }

  /** Refinement: over every sequence of calls at nondecreasing times the sweep
      changes no answer. */
  lemma {:induction false} SweepingIsInvisible(swept: Windows, full: Windows, cs: seq<Call>, perMinute: nat, from: Instant)
    requires Agree(swept, full, from) && Ordered(cs, from)
    ensures Answers(swept, cs, perMinute, true) == Answers(full, cs, perMinute, false)
    decreases cs
  {
    if cs != [] {
      StepAgrees(swept, full, cs[0], from);
      SweepingIsInvisible(Swept(swept, cs[0]), Plain(full, cs[0]), cs[1..], perMinute, cs[0].now);
    }
  }

  // ---------------------------------------------------------------------------
  // One address
  // ---------------------------------------------------------------------------

  /** How many of an address's calls are admitted, from its window alone. */
  function Passed(w: Option<Entry>, ts: seq<Instant>, perMinute: nat): nat
    decreases ts
  {
    if ts == [] then 0
    else
      var e := Counted(w, ts[0]);
      (if e.count <= perMinute then 1 else 0) + Passed(Some(e), ts[1..], perMinute)
  }

  function TimesOf(cs: seq<Call>, a: Address): seq<Instant> {
    if cs == [] then []
    else (if cs[0].address == a then [cs[0].now] else []) + TimesOf(cs[1..], a)
  }

  /** How many of an address's calls in a run were answered yes. */
  function Admitted(cs: seq<Call>, answers: seq<bool>, a: Address): nat
    requires |cs| == |answers|
  {
    if cs == [] then 0
    else (if cs[0].address == a && answers[0] then 1 else 0) + Admitted(cs[1..], answers[1..], a)
  }

  /** How many of them that is, in terms of its own calls. */
  lemma {:induction false} AdmittedArePassed(ws: Windows, cs: seq<Call>, perMinute: nat, a: Address)
    ensures Admitted(cs, Answers(ws, cs, perMinute, false), a) == Passed(Lookup(ws, a), TimesOf(cs, a), perMinute)
    decreases cs
  {
    if cs != [] {
      var after := Plain(ws, cs[0]);
      AdmittedArePassed(after, cs[1..], perMinute, a);
      assert Answers(ws, cs, perMinute, false)[1..] == Answers(after, cs[1..], perMinute, false);
      if cs[0].address == a {
        assert TimesOf(cs, a)[1..] == TimesOf(cs[1..], a);
      } else {
        assert TimesOf(cs, a) == TimesOf(cs[1..], a);
      }
    }
  }

  /** The answers of a run to one address. */
  function AnswersTo(cs: seq<Call>, answers: seq<bool>, a: Address): seq<bool>
    requires |cs| == |answers|
  {
    if cs == [] then []
    else (if cs[0].address == a then [answers[0]] else []) + AnswersTo(cs[1..], answers[1..], a)
  }

  /** The answers an address gets from its own window and its own calls. */
  function OwnAnswers(w: Option<Entry>, ts: seq<Instant>, perMinute: nat): seq<bool>
    decreases ts
  {
    if ts == [] then []
    else
      var e := Counted(w, ts[0]);
      [e.count <= perMinute] + OwnAnswers(Some(e), ts[1..], perMinute)
  }

  lemma {:induction false} PlainAnswersAreOwn(ws: Windows, cs: seq<Call>, perMinute: nat, a: Address)
    ensures AnswersTo(cs, Answers(ws, cs, perMinute, false), a) == OwnAnswers(Lookup(ws, a), TimesOf(cs, a), perMinute)
    decreases cs
  {
    if cs != [] {
      var after := Plain(ws, cs[0]);
      PlainAnswersAreOwn(after, cs[1..], perMinute, a);
      assert Answers(ws, cs, perMinute, false)[1..] == Answers(after, cs[1..], perMinute, false);
      if cs[0].address == a {
        assert TimesOf(cs, a)[1..] == TimesOf(cs[1..], a);
      } else {
        assert TimesOf(cs, a) == TimesOf(cs[1..], a);
      }
    }
  }

  /** Each answer of the real, sweeping limiter to an address depends on that
      address's own calls only, whoever else calls in between. */
  lemma AddressesAreIndependent(ws: Windows, cs: seq<Call>, perMinute: nat, a: Address, from: Instant)
    requires Ordered(cs, from)
    ensures AnswersTo(cs, Answers(ws, cs, perMinute, true), a) == OwnAnswers(Lookup(ws, a), TimesOf(cs, a), perMinute)
  {
    assert Agree(ws, ws, from);
    SweepingIsInvisible(ws, ws, cs, perMinute, from);
    PlainAnswersAreOwn(ws, cs, perMinute, a);
  }

  /** Every time lies in the half-open interval [from, to). */
  predicate Within(ts: seq<Instant>, from: Instant, to: Instant) {
    forall i :: 0 <= i < |ts| ==> from <= ts[i] < to
  }

  /** Inside one window the limiter admits exactly the first calls up to the
      limit, no more and no fewer. */
  lemma {:induction false} OneWindow(e: Entry, ts: seq<Instant>, perMinute: nat)
    requires perMinute < U32_MAX && e.count <= U32_MAX
    requires forall i :: 0 <= i < |ts| ==> !Expired(e, ts[i])
    ensures Passed(Some(e), ts, perMinute) == Min(|ts|, SaturatingSub(perMinute, e.count))
    decreases ts
  {
    if ts != [] {
      var f := Counted(Some(e), ts[0]);
      assert forall i :: 0 <= i < |ts[1..]| ==> ts[1..][i] == ts[i + 1];
      OneWindow(f, ts[1..], perMinute);
    }
  }

  /** A fresh window admits exactly min(calls, limit) of the next minute's calls. */
  lemma FreshWindow(w: Option<Entry>, ts: seq<Instant>, perMinute: nat)
    requires perMinute < U32_MAX && ts != [] && Within(ts, ts[0], ts[0] + WINDOW)
    requires w.None? || Expired(w.value, ts[0])
    ensures Passed(w, ts, perMinute) == Min(|ts|, perMinute)
  {
    var e := Counted(w, ts[0]);
    assert forall i :: 0 <= i < |ts[1..]| ==> ts[1..][i] == ts[i + 1];
    OneWindow(e, ts[1..], perMinute);
  }

  /** In any half-open minute an address opens at most one new window, so at
      most twice the limit passes. */
  lemma {:induction false} TwoWindows(w: Option<Entry>, ts: seq<Instant>, perMinute: nat, from: Instant)
    requires perMinute < U32_MAX && Within(ts, from, from + WINDOW) && SortedTimes(ts)
    requires w.Some? ==> w.value.count <= U32_MAX
    ensures Passed(w, ts, perMinute) <= (if w.Some? then SaturatingSub(perMinute, w.value.count) else 0) + perMinute
    decreases ts
  {
    if ts != [] {
      if w.None? || Expired(w.value, ts[0]) {
        FreshWindow(w, ts, perMinute);
      } else {
        assert forall i :: 0 <= i < |ts[1..]| ==> ts[1..][i] == ts[i + 1];
        TwoWindows(Some(Counted(w, ts[0])), ts[1..], perMinute, from);
      }
    }
  }

  predicate SortedTimes(ts: seq<Instant>) {
    forall i, j :: 0 <= i < j < |ts| ==> ts[i] <= ts[j]
  }

  lemma {:induction false} TimesAreSorted(cs: seq<Call>, a: Address, from: Instant)
    requires Ordered(cs, from)
    ensures SortedTimes(TimesOf(cs, a))
    ensures forall i :: 0 <= i < |TimesOf(cs, a)| ==> from <= TimesOf(cs, a)[i]
  {
    if cs != [] {
      TimesAreSorted(cs[1..], a, cs[0].now);
    }
  }

  lemma {:induction false} TimesAreWithin(cs: seq<Call>, a: Address, from: Instant, to: Instant)
    requires forall c :: c in cs ==> from <= c.now < to
    ensures Within(TimesOf(cs, a), from, to)
  {
    if cs != [] {
      assert cs[0] in cs && forall c :: c in cs[1..] ==> c in cs;
      TimesAreWithin(cs[1..], a, from, to);
    }
  }

  /** The table after a run of calls. */
  function After(ws: Windows, cs: seq<Call>): Windows
    decreases cs
  {
    if cs == [] then ws else After(Swept(ws, cs[0]), cs[1..])
  }

  ghost predicate CountsFit(ws: Windows) {
    forall a :: a in ws ==> 1 <= ws[a].count <= U32_MAX
  }

  lemma {:induction false} AfterFits(ws: Windows, cs: seq<Call>)
    requires CountsFit(ws)
    ensures CountsFit(After(ws, cs))
    decreases cs
  {
    if cs != [] {
      AfterFits(Swept(ws, cs[0]), cs[1..]);
    }
  }

  lemma {:induction false} AnswersSplit(ws: Windows, before: seq<Call>, later: seq<Call>, perMinute: nat)
    ensures Answers(ws, before + later, perMinute, true)[|before|..] == Answers(After(ws, before), later, perMinute, true)
    decreases before
  {
    if before == [] {
      assert before + later == later;
    } else {
      AnswersSplit(Swept(ws, before[0]), before[1..], later, perMinute);
      assert (before + later)[1..] == before[1..] + later;
    }
  }

  /** The bound: in any run of the real, sweeping limiter and in any half-open
      minute of it, one address gets fewer than twice the limit through: a window
      that began before the minute has spent a call before it. */
  lemma AnyMinuteAdmitsLessThanTwiceTheLimit(before: seq<Call>, minute: seq<Call>, perMinute: nat, a: Address, from: Instant)
    requires perMinute < U32_MAX && Ordered(minute, from)
    requires forall c :: c in minute ==> from <= c.now < from + WINDOW
    ensures Admitted(minute, Answers(map[], before + minute, perMinute, true)[|before|..], a) <= SaturatingSub(2 * perMinute, 1)
  {
    var ws := After(map[], before);
    AnswersSplit(map[], before, minute, perMinute);
    AfterFits(map[], before);
    assert Agree(ws, ws, from);
    SweepingIsInvisible(ws, ws, minute, perMinute, from);
    AdmittedArePassed(ws, minute, perMinute, a);
    TimesAreSorted(minute, a, from);
    TimesAreWithin(minute, a, from, from + WINDOW);
    TwoWindows(Lookup(ws, a), TimesOf(minute, a), perMinute, from);
  }

  /** An address's window after its calls at `ts`. */
  function EntryAfter(w: Option<Entry>, ts: seq<Instant>): Option<Entry>
    decreases ts
  {
    if ts == [] then w else EntryAfter(Some(Counted(w, ts[0])), ts[1..])
  }

  lemma {:induction false} PassedSplit(w: Option<Entry>, us: seq<Instant>, ts: seq<Instant>, perMinute: nat)
    ensures Passed(w, us + ts, perMinute) == Passed(w, us, perMinute) + Passed(EntryAfter(w, us), ts, perMinute)
    decreases us
  {
    if us == [] {
      assert us + ts == ts;
    } else {
      assert (us + ts)[1..] == us[1..] + ts;
      PassedSplit(Some(Counted(w, us[0])), us[1..], ts, perMinute);
    }
  }

  lemma {:induction false} StartIsKept(e: Entry, us: seq<Instant>)
    requires forall i :: 0 <= i < |us| ==> !Expired(e, us[i])
    ensures EntryAfter(Some(e), us).Some? && EntryAfter(Some(e), us).value.start == e.start
    decreases us
  {
    if us != [] {
      assert forall i :: 0 <= i < |us[1..]| ==> us[1..][i] == us[i + 1];
      StartIsKept(Counted(Some(e), us[0]), us[1..]);
    }
  }

  function Repeat(t: Instant, n: nat): seq<Instant> {
    seq(n, _ => t)
  }

  /** One call opens a window, the rest of it is spent in its last instant, and a
      full window follows in the next instant. */
  lemma TwoWindowsMeet(perMinute: nat)
    requires 1 <= perMinute < U32_MAX
    ensures var minute := Repeat(WINDOW - 1, perMinute - 1) + Repeat(WINDOW, perMinute);
      && Within(minute, WINDOW - 1, WINDOW - 1 + WINDOW) && SortedTimes(minute)
      && Passed(EntryAfter(None, [0]), minute, perMinute) == 2 * perMinute - 1
  {
    var first := Counted(None, 0);
    assert EntryAfter(None, [0]) == Some(first) by {
      assert [0][1..] == [];
    }
    var us, ts := Repeat(WINDOW - 1, perMinute - 1), Repeat(WINDOW, perMinute);
    OneWindow(first, us, perMinute);
    StartIsKept(first, us);
    FreshWindow(EntryAfter(Some(first), us), ts, perMinute);
    PassedSplit(Some(first), us, ts, perMinute);
  }

  function CallsAt(a: Address, ts: seq<Instant>): seq<Call> {
    if ts == [] then [] else [Call(a, ts[0])] + CallsAt(a, ts[1..])
  }

  lemma {:induction false} CallsAtTheirTimes(a: Address, ts: seq<Instant>, from: Instant, to: Instant)
    requires SortedTimes(ts) && Within(ts, from, to)
    ensures TimesOf(CallsAt(a, ts), a) == ts && Ordered(CallsAt(a, ts), from)
    ensures forall c :: c in CallsAt(a, ts) ==> from <= c.now < to
    decreases ts
  {
    if ts != [] {
      assert forall i :: 0 <= i < |ts[1..]| ==> ts[1..][i] == ts[i + 1];
      CallsAtTheirTimes(a, ts[1..], ts[0], to);
      assert CallsAt(a, ts)[1..] == CallsAt(a, ts[1..]);
    }
  }

  lemma FirstCall(a: Address)
    ensures Lookup(After(map[], [Call(a, 0)]), a) == EntryAfter(None, [0])
  {
    var c := Call(a, 0);
    assert [c][1..] == [] && [0][1..] == [];
    var none: Windows := map[];
    assert |none| == 0;
    assert Swept(none, c) == none[a := Counted(None, 0)];
    assert After(none, [c]) == After(Swept(none, c), []);
  }

  /** The bound is reached by the limiter itself: after one earlier call there is a
      minute of calls of which it admits one less than twice the limit. */
  lemma TheBoundIsReached(perMinute: nat, a: Address) returns (before: seq<Call>, minute: seq<Call>, from: Instant)
    requires 1 <= perMinute < U32_MAX
    ensures Ordered(before + minute, 0) && Ordered(minute, from) && forall c :: c in minute ==> from <= c.now < from + WINDOW
    ensures Admitted(minute, Answers(map[], before + minute, perMinute, true)[|before|..], a) == 2 * perMinute - 1
  {
    var ts := Repeat(WINDOW - 1, perMinute - 1) + Repeat(WINDOW, perMinute);
    TwoWindowsMeet(perMinute);
    before, minute, from := [Call(a, 0)], CallsAt(a, ts), WINDOW - 1;
    CallsAtTheirTimes(a, ts, from, from + WINDOW);
    assert (before + minute)[1..] == minute;
    assert Ordered(minute, 0);
    var ws := After(map[], before);
    FirstCall(a);
    AnswersSplit(map[], before, minute, perMinute);
    assert Agree(ws, ws, from);
    SweepingIsInvisible(ws, ws, minute, perMinute, from);
    AdmittedArePassed(ws, minute, perMinute, a);
  }

  /** The limit u32::MAX is no limit: the count saturates there and every call
      is admitted, so the bound holds for a limit exactly when it is below it. */
  lemma {:induction false} TheLargestLimitAdmitsEverything(w: Option<Entry>, ts: seq<Instant>)
    requires w.Some? ==> w.value.count <= U32_MAX
    ensures Passed(w, ts, U32_MAX) == |ts|
    decreases ts
  {
    if ts != [] {
      TheLargestLimitAdmitsEverything(Some(Counted(w, ts[0])), ts[1..]);
    }
  }
}
