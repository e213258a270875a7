/**
 What the four core-partitioning modes of the kernel timer share: the constants, the utilisation
 readings and their sums over a range of cores.
 */
module Timer {
  const MAX_CPUS := 20
  const T_HIGH := 70
  const T_LOW := 30
  const T_CHANGE := 20
  const BLK_END := 19
  const NET_START := 10
  const BLK_QUEUES := 20
  const NET_QUEUES := 8
  const NUMBER_OF_SOCKETS := 2

  /** `p_dynamic` on one tick.  Readings are arbitrary, and so is what an index outside 0..19 reads. */
  type Readings = int -> int

  /** C's division, which truncates toward zero. */
  function Quotient(a: int, b: int): int
    requires b > 0
  {
    if a >= 0 then a / b else -((-a) / b)
  }

  /** Averages are rounded toward zero. */
  lemma QuotientRounds(a: int, b: int)
    requires b > 0
    ensures a >= 0 ==> Quotient(a, b) * b <= a < (Quotient(a, b) + 1) * b
    ensures a <= 0 ==> (Quotient(a, b) - 1) * b < a <= Quotient(a, b) * b
  {
    var n := if a >= 0 then a else -a;
    assert n == (n / b) * b + n % b;
    assert (n / b + 1) * b == (n / b) * b + b;
    assert (-(n / b) - 1) * b == -(n / b) * b - b;
  }

  /** The sum of the readings of cores `lo..hi`. */
  function Total(p: Readings, lo: int, hi: int): int
    decreases hi - lo
  {
    if lo > hi then 0 else Total(p, lo, hi - 1) + p(hi)
  }

  lemma {:induction false} TotalSplits(p: Readings, lo: int, mid: int, hi: int)
    requires lo <= mid + 1 <= hi + 1
    ensures Total(p, lo, hi) == Total(p, lo, mid) + Total(p, mid + 1, hi)
    decreases hi - mid
  {
    if mid < hi {
      TotalSplits(p, lo, mid, hi - 1);
    }
  }

  lemma {:induction false} TotalUniform(p: Readings, lo: int, hi: int, v: int)
    requires lo <= hi + 1 && forall c :: lo <= c <= hi ==> p(c) == v
    ensures Total(p, lo, hi) == (hi - lo + 1) * v
    decreases hi - lo
  {
    if lo <= hi {
      TotalUniform(p, lo, hi - 1, v);
    }
  }

  /** `v` is the average of the readings of cores `lo..hi`. */
  predicate IsAverage(p: Readings, lo: int, hi: int, v: int) {
    lo <= hi && v == Quotient(Total(p, lo, hi), hi - lo + 1)
  }

  /** The accumulation loop over one group of cores. */
  method Accumulate(p: Readings, lo: int, hi: int) returns (util: int, cores: nat)
    ensures util == Total(p, lo, hi)
    ensures cores == if lo <= hi then hi - lo + 1 else 0
  {
    util, cores := 0, 0;
    var j := lo;
    while j <= hi
      invariant lo <= j && (lo <= hi ==> j <= hi + 1) && (lo > hi ==> j == lo)
      invariant util == Total(p, lo, j - 1) && cores == j - lo
    {
      util, cores := util + p(j), cores + 1;
      j := j + 1;
    }
  }
}
