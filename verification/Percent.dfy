/**
 The utilisation percentages computed on every tick from the kernel's per-core time counters, in
 unsigned 64-bit arithmetic.
 */
module Percent {
  import opened Basics

  const WORD := 0x1_0000_0000_0000_0000

  type U64 = x: int | 0 <= x < 0x1_0000_0000_0000_0000

  function Wrap(x: int): U64 {
    x % WORD
  }

  datatype Stat = Stat(user: U64, system: U64, idle: U64, irq: U64, softirq: U64)

  /** The denominator does not wrap to zero. */
  predicate Defined(idle: U64, busy: U64) {
    Wrap(busy + idle) != 0
  }

  /** A hundred less the idle percentage, as the code stores it. */
  function Complement(idlePercent: int): int {
    var temp := Wrap(100 - idlePercent);
    if temp < 1 then 0 else Trunc32(temp)
  }

  /** One percentage as the code computes it. */
  function Share(idle: U64, busy: U64): int
    requires Defined(idle, busy)
  {
    Complement(Wrap(idle * 100) / Wrap(busy + idle))
  }

  // ----- The deltas -----------------------------------------------------------------------------

  function UserDelta(b: Stat, a: Stat): U64 { Wrap(a.user - b.user) }

  function SystemDelta(b: Stat, a: Stat): U64 { Wrap(a.system - b.system) }

  function IrqDelta(b: Stat, a: Stat): U64 {
    Wrap(Wrap(Wrap(a.irq - b.irq) + a.softirq) - b.softirq)
  }

  function IdleDelta(b: Stat, a: Stat): U64 {
    var idle := Wrap(a.idle - b.idle);
    if idle == 0 then 1 else idle
  }

  function TotalDelta(b: Stat, a: Stat): U64 {
    Wrap(Wrap(UserDelta(b, a) + SystemDelta(b, a)) + IrqDelta(b, a))
  }

  function DynamicDelta(b: Stat, a: Stat): U64 {
    Wrap(Wrap(SystemDelta(b, a) + IrqDelta(b, a)) + UserDelta(b, a))
  }

  predicate Monotone(b: Stat, a: Stat) {
    && b.user <= a.user && b.system <= a.system && b.idle <= a.idle
    && b.irq <= a.irq && b.softirq <= a.softirq
  }

  /** The time spent working, as a mathematical integer. */
  function Busy(s: Stat): int {
    s.user + s.system + s.irq + s.softirq
  }

  /** The time spent working in one interval fits in a word. */
  predicate BusyFits(b: Stat, a: Stat) {
    Busy(a) - Busy(b) < WORD
  }

  /** The whole interval does, and so does a hundred times its idle part. */
  predicate Fits(b: Stat, a: Stat) {
    && Busy(a) - Busy(b) + a.idle - b.idle + 1 < WORD
    && 100 * (a.idle - b.idle) < WORD
  }

  lemma WrapSmall(x: int)
    requires 0 <= x < WORD
    ensures Wrap(x) == x
  {
  }

  lemma WrapOnce(x: int)
    requires WORD <= x < 2 * WORD
    ensures Wrap(x) == x - WORD
  {
    assert (x - WORD) % WORD == x % WORD;
  }

  lemma WrapBelow(x: int)
    requires -WORD <= x < 0
    ensures Wrap(x) == x + WORD
  {
    assert (x + WORD) % WORD == x % WORD;
  }

  lemma IrqExact(irq: U64, after: U64, before: U64)
    requires before <= after && irq + (after - before) < WORD
    ensures Wrap(Wrap(irq + after) - before) == irq + (after - before)
  {
    if irq + after < WORD {
      WrapSmall(irq + after);
      WrapSmall(irq + after - before);
    } else {
      WrapOnce(irq + after);
      WrapBelow(irq + after - WORD - before);
    }
  }

  lemma PartsExact(b: Stat, a: Stat)
    requires Monotone(b, a)
    ensures UserDelta(b, a) == a.user - b.user && SystemDelta(b, a) == a.system - b.system
    ensures IdleDelta(b, a) == if a.idle == b.idle then 1 else a.idle - b.idle
  {
    WrapSmall(a.user - b.user);
    WrapSmall(a.system - b.system);
    WrapSmall(a.idle - b.idle);
  }

  lemma IrqPartExact(b: Stat, a: Stat)
    requires Monotone(b, a) && BusyFits(b, a)
    ensures IrqDelta(b, a) == (a.irq - b.irq) + (a.softirq - b.softirq)
  {
    WrapSmall(a.irq - b.irq);
    IrqExact(a.irq - b.irq, a.softirq, b.softirq);
  }

  lemma SumsExact(b: Stat, a: Stat, u: U64, s: U64, i: U64)
    requires UserDelta(b, a) == u && SystemDelta(b, a) == s && IrqDelta(b, a) == i && u + s + i < WORD
    ensures TotalDelta(b, a) == DynamicDelta(b, a) == u + s + i
  {
    SumExact(u, s, i);
  }

  /** With monotone counters whose busy time fits in a word, every delta is the exact difference,
      although the interrupt expression may wrap on the way. */
  lemma DeltasExact(b: Stat, a: Stat)
    requires Monotone(b, a) && BusyFits(b, a)
    ensures UserDelta(b, a) == a.user - b.user && SystemDelta(b, a) == a.system - b.system
    ensures IrqDelta(b, a) == (a.irq - b.irq) + (a.softirq - b.softirq)
    ensures TotalDelta(b, a) == DynamicDelta(b, a) == Busy(a) - Busy(b)
    ensures IdleDelta(b, a) == if a.idle == b.idle then 1 else a.idle - b.idle
  {
    PartsExact(b, a);
    IrqPartExact(b, a);
    SumsExact(b, a, a.user - b.user, a.system - b.system, (a.irq - b.irq) + (a.softirq - b.softirq));
  }

  lemma SumExact(u: U64, s: U64, i: U64)
    requires u + s + i < WORD
    ensures Wrap(Wrap(u + s) + i) == Wrap(Wrap(s + i) + u) == u + s + i
  {
    WrapSmall(u + s);
    WrapSmall(s + i);
    WrapSmall(u + s + i);
  }

  // ----- What a percentage is -------------------------------------------------------------------

  lemma Quotients(x: int, n: int)
    requires n > 0
    ensures (x / n) * n <= x < (x / n + 1) * n
  {
    assert x == (x / n) * n + x % n;
    assert (x / n + 1) * n == (x / n) * n + n;
  }

  lemma QuotientBelow(x: int, n: int, q: int)
    requires n > 0 && x < (q + 1) * n
    ensures x / n <= q
  {
    Quotients(x, n);
    if x / n >= q + 1 {
      Scale(q + 1, x / n, n);
    }
  }

  lemma Rounded(idle: int, busy: int, q: int)
    requires q * (busy + idle) <= 100 * idle < (q + 1) * (busy + idle)
    ensures (100 - q - 1) * (busy + idle) < 100 * busy <= (100 - q) * (busy + idle)
  {
    var n := busy + idle;
    assert (100 - q) * n == 100 * n - q * n;
    assert (100 - q - 1) * n == 100 * n - (q + 1) * n;
  }

  lemma ComplementPlain(q: int)
    requires 0 <= q <= 100
    ensures Complement(q) == 100 - q
  {
    WrapSmall(100 - q);
  }

  lemma IdlePercent(idle: int, n: int)
    requires 0 < idle <= n
    ensures 0 <= 100 * idle / n <= 100
  {
    assert 100 * idle < (100 + 1) * n;
    QuotientBelow(100 * idle, n, 100);
    Quotients(100 * idle, n);
    if 100 * idle / n < 0 {
      Scale(100 * idle / n + 1, 0, n);
    }
  }

  /** Without wrap-around a percentage is the busy part of the interval in hundredths, rounded up. */
  lemma ShareIsRoundedUp(idle: U64, busy: U64)
    requires idle > 0 && 100 * idle < WORD && busy + idle < WORD
    ensures Defined(idle, busy) && 0 <= Share(idle, busy) <= 100
    ensures var p, n := Share(idle, busy), busy + idle;
            (p - 1) * n < 100 * busy <= p * n
  {
    SharePlain(idle, busy);
    Quotients(100 * idle, busy + idle);
    Rounded(idle, busy, 100 * idle / (busy + idle));
  }

  /** Without wrap-around the code's expression is plain arithmetic. */
  lemma SharePlain(idle: U64, busy: U64)
    requires idle > 0 && 100 * idle < WORD && busy + idle < WORD
    ensures Defined(idle, busy) && 0 <= 100 * idle / (busy + idle) <= 100
    ensures Share(idle, busy) == 100 - 100 * idle / (busy + idle)
  {
    WrapSmall(busy + idle);
    WrapSmall(idle * 100);
    IdlePercent(idle, busy + idle);
    ComplementPlain(100 * idle / (busy + idle));
  }

  lemma ShareGrows(idle: U64, busy: U64, more: U64)
    requires idle > 0 && 100 * idle < WORD && busy <= more && more + idle < WORD
    ensures Defined(idle, busy) && Defined(idle, more)
    ensures Share(idle, busy) <= Share(idle, more)
  {
    SharePlain(idle, busy);
    SharePlain(idle, more);
    QuotientShrinks(100 * idle, busy + idle, more + idle);
  }

  lemma QuotientShrinks(x: nat, n: nat, m: nat)
    requires 0 < n <= m
    ensures x / m <= x / n
  {
    Quotients(x, n);
    Scale(n, m, x / n + 1);
    QuotientBelow(x, m, x / n);
  }

  /** None of the five divisors is zero. */
  predicate Divides(b: Stat, a: Stat) {
    var idle := IdleDelta(b, a);
    && Defined(idle, UserDelta(b, a)) && Defined(idle, SystemDelta(b, a)) && Defined(idle, IrqDelta(b, a))
    && Defined(idle, TotalDelta(b, a)) && Defined(idle, DynamicDelta(b, a))
  }

  lemma DefinedSmall(idle: U64, busy: int, total: int)
    requires 0 < idle && 0 <= busy <= total && total + idle < WORD
    ensures busy < WORD && Defined(idle, busy)
  {
    WrapSmall(busy + idle);
  }

  lemma FitsDivides(b: Stat, a: Stat)
    requires Monotone(b, a) && Fits(b, a)
    ensures Divides(b, a)
  {
    DeltasExact(b, a);
    var idle, total := IdleDelta(b, a), Busy(a) - Busy(b);
    DefinedSmall(idle, a.user - b.user, total);
    DefinedSmall(idle, a.system - b.system, total);
    DefinedSmall(idle, (a.irq - b.irq) + (a.softirq - b.softirq), total);
    DefinedSmall(idle, total, total);
  }

  /** The percentages of one core over one interval. */
  datatype Report = Report(user: int, system: int, irq: int, total: int, dynamic: int)

  function ReportOf(b: Stat, a: Stat): Report
    requires Divides(b, a)
  {
    var idle := IdleDelta(b, a);
    Report(Share(idle, UserDelta(b, a)), Share(idle, SystemDelta(b, a)), Share(idle, IrqDelta(b, a)),
           Share(idle, TotalDelta(b, a)), Share(idle, DynamicDelta(b, a)))
  }

  /** Every percentage is in 0..100, no part exceeds the whole, and the value the controllers use is
      the whole. */
  predicate Consistent(r: Report) {
    0 <= r.user <= r.total <= 100 && 0 <= r.system <= r.total && 0 <= r.irq <= r.total && r.dynamic == r.total
  }

  lemma ReportIsConsistent(b: Stat, a: Stat)
    requires Monotone(b, a) && Fits(b, a)
    ensures Divides(b, a) && Consistent(ReportOf(b, a))
  {
    FitsDivides(b, a);
    DeltasExact(b, a);
    var idle, total := IdleDelta(b, a), TotalDelta(b, a);
    ShareIsRoundedUp(idle, total);
    ShareIsRoundedUp(idle, UserDelta(b, a));
    ShareIsRoundedUp(idle, SystemDelta(b, a));
    ShareIsRoundedUp(idle, IrqDelta(b, a));
    ShareGrows(idle, UserDelta(b, a), total);
    ShareGrows(idle, SystemDelta(b, a), total);
    ShareGrows(idle, IrqDelta(b, a), total);
  }

  /** `p` is `busy` in hundredths of `busy` and `idle` together, rounded up. */
  predicate RoundedUp(p: int, busy: int, idle: int) {
    (p - 1) * (busy + idle) < 100 * busy <= p * (busy + idle)
  }

  /** Each percentage is that of its own part of the interval, over the same idle time. */
  predicate AccurateFor(r: Report, user: int, system: int, irq: int, idle: int) {
    && RoundedUp(r.user, user, idle) && RoundedUp(r.system, system, idle) && RoundedUp(r.irq, irq, idle)
    && RoundedUp(r.total, user + system + irq, idle) && RoundedUp(r.dynamic, user + system + irq, idle)
  }

  /** The parts are the growth of the counters; idle time counts as at least one. */
  predicate Accurate(r: Report, b: Stat, a: Stat) {
    AccurateFor(r, a.user - b.user, a.system - b.system, (a.irq - b.irq) + (a.softirq - b.softirq),
                if a.idle == b.idle then 1 else a.idle - b.idle)
  }

  lemma ShareOfPart(idle: U64, busy: U64, total: int)
    requires idle > 0 && 100 * idle < WORD && busy <= total && total + idle < WORD
    ensures Defined(idle, busy) && RoundedUp(Share(idle, busy), busy, idle)
  {
    ShareIsRoundedUp(idle, busy);
  }

  lemma SharesAccurate(idle: U64, user: U64, system: U64, irq: U64) returns (r: Report)
    requires idle > 0 && 100 * idle < WORD && user + system + irq + idle < WORD
    ensures var total := user + system + irq;
            && Defined(idle, user) && Defined(idle, system) && Defined(idle, irq) && Defined(idle, total)
            && r == Report(Share(idle, user), Share(idle, system), Share(idle, irq),
                           Share(idle, total), Share(idle, total))
    ensures AccurateFor(r, user, system, irq, idle)
  {
    var total := user + system + irq;
    ShareOfPart(idle, user, total);
    ShareOfPart(idle, system, total);
    ShareOfPart(idle, irq, total);
    ShareOfPart(idle, total, total);
    r := Report(Share(idle, user), Share(idle, system), Share(idle, irq), Share(idle, total), Share(idle, total));
  }

  lemma ReportIsAccurate(b: Stat, a: Stat)
    requires Monotone(b, a) && Fits(b, a)
    ensures Divides(b, a) && Accurate(ReportOf(b, a), b, a)
  {
    FitsDivides(b, a);
    DeltasExact(b, a);
    var r := SharesAccurate(IdleDelta(b, a), UserDelta(b, a), SystemDelta(b, a), IrqDelta(b, a));
    assert r == ReportOf(b, a);
  }

  /** Without a bound on the interval a denominator can be zero: exactly when the two deltas add up
      to a whole word. */
  lemma DenominatorIsZero(idle: U64, busy: U64)
    requires 0 < idle
    ensures !Defined(idle, busy) <==> busy + idle == WORD
  {
    if busy + idle < WORD {
      WrapSmall(busy + idle);
    } else {
      WrapOnce(busy + idle);
    }
  }

  /** Over a run of samples the busy deltas add up to the growth of the counters. */
  function BusySum(ss: seq<Stat>): int
    requires |ss| > 0
  {
    if |ss| == 1 then 0 else BusySum(ss[..|ss| - 1]) + TotalDelta(ss[|ss| - 2], ss[|ss| - 1])
  }

  lemma {:induction false} BusyTelescopes(ss: seq<Stat>)
    requires |ss| > 0
    requires forall i :: 0 <= i < |ss| - 1 ==> Monotone(ss[i], ss[i + 1]) && BusyFits(ss[i], ss[i + 1])
    ensures BusySum(ss) == Busy(ss[|ss| - 1]) - Busy(ss[0])
  {
    if |ss| > 1 {
      BusyTelescopes(ss[..|ss| - 1]);
      DeltasExact(ss[|ss| - 2], ss[|ss| - 1]);
    }
  }

  lemma AllConsistent(before: seq<Stat>, after: seq<Stat>, reports: seq<Report>)
    requires |before| == |after| == |reports|
    requires forall i :: 0 <= i < |after| ==>
               Divides(before[i], after[i]) && reports[i] == ReportOf(before[i], after[i])
    ensures forall i :: 0 <= i < |after| && Monotone(before[i], after[i]) && Fits(before[i], after[i]) ==>
              Consistent(reports[i]) && Accurate(reports[i], before[i], after[i])
  {
    forall i | 0 <= i < |after| && Monotone(before[i], after[i]) && Fits(before[i], after[i])
      ensures Consistent(reports[i]) && Accurate(reports[i], before[i], after[i])
    {
      ReportIsConsistent(before[i], after[i]);
      ReportIsAccurate(before[i], after[i]);
    }
  }

  /** The sampling loop over the cores. */
  class Meter {
    const before: array<Stat>
    const reports: array<Report>

    constructor (first: seq<Stat>)
      ensures before[..] == first && reports.Length == |first| && fresh(before) && fresh(reports)
    {
      before := new Stat[|first|](i requires 0 <= i < |first| => first[i]);
      reports := new Report[|first|](i => Report(0, 0, 0, 0, 0));
    }

    /** Whatever the counters, as long as no divisor is zero. */
    method Sample(after: seq<Stat>)
      requires before.Length == reports.Length == |after|
      requires forall i :: 0 <= i < |after| ==> Divides(before[i], after[i])
      modifies before, reports
      ensures before[..] == after
      ensures forall i :: 0 <= i < |after| ==> reports[i] == ReportOf(old(before[i]), after[i])
      ensures forall i :: 0 <= i < |after| && Monotone(old(before[i]), after[i]) && Fits(old(before[i]), after[i]) ==>
                Consistent(reports[i]) && Accurate(reports[i], old(before[i]), after[i])
    {
      for i := 0 to |after|
        invariant forall j :: 0 <= j < i ==> before[j] == after[j]
        invariant forall j :: i <= j < |after| ==> before[j] == old(before[j])
        invariant forall j :: 0 <= j < i ==> reports[j] == ReportOf(old(before[j]), after[j])
      {
        reports[i] := ReportOf(before[i], after[i]);
        before[i] := after[i];
      }
      AllConsistent(old(before[..]), after, reports[..]);
    }
  }
}
