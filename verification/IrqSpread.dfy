/**
 The loop that spreads interrupt queues over the cores of several sockets, one queue at a time,
 starting with the first core of the highest socket and moving on to the next socket when a socket's
 range is used up.
 */
module IrqSpread {
  import opened Basics


  /** The cores `lo..hi`. */
  function Cores(lo: int, hi: int): (r: seq<int>)
    ensures |r| == if lo <= hi then hi - lo + 1 else 0
    ensures forall i :: 0 <= i < |r| ==> r[i] == lo + i
  {
    seq(if lo <= hi then hi - lo + 1 else 0, i => lo + i)
  }

  /** The ranges of the `used` highest sockets one after the other, highest socket first. */
  function Pool(starts: seq<int>, ends: seq<int>, used: nat): seq<int>
    requires |starts| == |ends| && used <= |starts|
  {
    if used == 0 then []
    else Pool(starts, ends, used - 1) + Cores(starts[|starts| - used], ends[|starts| - used])
  }

  predicate NonEmpty(starts: seq<int>, ends: seq<int>, used: nat) {
    && |starts| == |ends| && used <= |starts|
    && forall s :: |starts| - used <= s < |starts| ==> starts[s] <= ends[s]
  }

  /** Queue j goes to core j of the pool, counting round and round. */
  predicate Spread(hints: seq<int>, pool: seq<int>) {
    |pool| > 0 && forall j :: 0 <= j < |hints| ==> hints[j] == pool[j % |pool|]
  }

  function Spreading(n: nat, pool: seq<int>): (hints: seq<int>)
    requires |pool| > 0
    ensures |hints| == n && Spread(hints, pool)
  {
    seq(n, j requires 0 <= j < n => pool[j % |pool|])
  }

  lemma {:induction false} PoolExtends(starts: seq<int>, ends: seq<int>, k: nat, used: nat)
    requires |starts| == |ends| && k <= used <= |starts|
    ensures Pool(starts, ends, k) <= Pool(starts, ends, used)
  {
    if k < used {
      PoolExtends(starts, ends, k, used - 1);
    }
  }

  lemma PoolAt(starts: seq<int>, ends: seq<int>, k: nat, i: nat, used: nat)
    requires NonEmpty(starts, ends, used) && k < used
    requires i <= ends[|starts| - k - 1] - starts[|starts| - k - 1]
    ensures var s, at := |starts| - k - 1, |Pool(starts, ends, k)| + i;
            && at < |Pool(starts, ends, used)|
            && Pool(starts, ends, used)[at] == starts[s] + i
            && |Pool(starts, ends, k + 1)| == |Pool(starts, ends, k)| + ends[s] - starts[s] + 1
  {
    PoolExtends(starts, ends, k + 1, used);
  }

  /** Moving on from position `j % n` to position `(j + 1) % n`. */
  lemma NextPosition(j: nat, n: nat)
    requires n > 0
    ensures (j + 1) % n == if j % n == n - 1 then 0 else j % n + 1
    ensures (j + 1) / n == if j % n == n - 1 then j / n + 1 else j / n
  {
    AfterRemainder(j, j / n, j % n, n);
  }

  lemma AfterRemainder(j: nat, q: nat, r: nat, n: nat)
    requires r < n && j == q * n + r
    ensures (j + 1) % n == if r == n - 1 then 0 else r + 1
    ensures (j + 1) / n == if r == n - 1 then q + 1 else q
  {
    if r == n - 1 {
      assert j + 1 == (q + 1) * n;
      Remainder(j + 1, q + 1, 0, n);
    } else {
      Remainder(j + 1, q, r + 1, n);
    }
  }

  lemma Remainder(x: nat, q: nat, r: nat, n: nat)
    requires n > 0 && r < n && x == q * n + r
    ensures x % n == r && x / n == q
  {
    var d := x / n;
    assert x == d * n + x % n;
    assert (d + 1) * n == d * n + n && (q + 1) * n == q * n + n;
    if d < q {
      Scale(d + 1, q, n);
    } else if q < d {
      Scale(q + 1, d, n);
    }
  }

  /** Position `j` of the round is core `i` of the socket `k` down from the highest. */
  predicate Position(lo: seq<int>, hi: seq<int>, used: nat, j: nat, k: nat, i: nat)
    requires NonEmpty(lo, hi, used) && |Pool(lo, hi, used)| > 0
  {
    && k < used
    && i <= hi[|lo| - k - 1] - lo[|lo| - k - 1]
    && |Pool(lo, hi, k)| + i == j % |Pool(lo, hi, used)|
  }

  lemma Advance(lo: seq<int>, hi: seq<int>, used: nat, j: nat, k: nat, i: nat)
    requires NonEmpty(lo, hi, used) && |Pool(lo, hi, used)| > 0 && Position(lo, hi, used, j, k, i)
    ensures var pool, s := Pool(lo, hi, used), |lo| - k - 1;
            && pool[j % |pool|] == lo[s] + i
            && (if hi[s] == lo[s] + i then Position(lo, hi, used, j + 1, (k + 1) % used, 0)
                else Position(lo, hi, used, j + 1, k, i + 1))
  {
    var pool, s := Pool(lo, hi, used), |lo| - k - 1;
    PoolAt(lo, hi, k, i, used);
    if hi[s] == lo[s] + i {
      NextSocket(lo, hi, used, j, k, i);
    } else {
      NextCore(lo, hi, used, j, k, i);
    }
  }

  lemma NextCore(lo: seq<int>, hi: seq<int>, used: nat, j: nat, k: nat, i: nat)
    requires NonEmpty(lo, hi, used) && |Pool(lo, hi, used)| > 0 && Position(lo, hi, used, j, k, i)
    requires hi[|lo| - k - 1] != lo[|lo| - k - 1] + i
    ensures Position(lo, hi, used, j + 1, k, i + 1)
  {
    NextPosition(j, |Pool(lo, hi, used)|);
    PoolAt(lo, hi, k, i + 1, used);
  }

  lemma NextSocket(lo: seq<int>, hi: seq<int>, used: nat, j: nat, k: nat, i: nat)
    requires NonEmpty(lo, hi, used) && |Pool(lo, hi, used)| > 0 && Position(lo, hi, used, j, k, i)
    requires hi[|lo| - k - 1] == lo[|lo| - k - 1] + i
    ensures Position(lo, hi, used, j + 1, (k + 1) % used, 0)
  {
    if k + 1 < used {
      LowerSocket(lo, hi, used, j, k, i);
      Remainder(k + 1, 0, k + 1, used);
    } else {
      FirstSocket(lo, hi, used, j, i);
      Remainder(k + 1, 1, 0, used);
    }
  }

  lemma LowerSocket(lo: seq<int>, hi: seq<int>, used: nat, j: nat, k: nat, i: nat)
    requires NonEmpty(lo, hi, used) && |Pool(lo, hi, used)| > 0 && Position(lo, hi, used, j, k, i)
    requires hi[|lo| - k - 1] == lo[|lo| - k - 1] + i && k + 1 < used
    ensures Position(lo, hi, used, j + 1, k + 1, 0)
  {
    NextPosition(j, |Pool(lo, hi, used)|);
    PoolAt(lo, hi, k + 1, 0, used);
  }

  lemma FirstSocket(lo: seq<int>, hi: seq<int>, used: nat, j: nat, i: nat)
    requires NonEmpty(lo, hi, used) && |Pool(lo, hi, used)| > 0 && used > 0 && Position(lo, hi, used, j, used - 1, i)
    requires hi[|lo| - used] == lo[|lo| - used] + i
    ensures Position(lo, hi, used, j + 1, 0, 0)
  {
    NextPosition(j, |Pool(lo, hi, used)|);
  }

  /** The redistribution loop: `k` counts sockets down from the highest, `i` cores within a socket. */
  method Redistribute(starts: array<int>, ends: array<int>, used: nat, hints: array<int>)
    requires starts.Length == ends.Length && hints != starts && hints != ends
    requires used > 0 && NonEmpty(starts[..], ends[..], used)
    modifies hints
    ensures Spread(hints[..], Pool(starts[..], ends[..], used))
  {
    ghost var lo, hi := starts[..], ends[..];
    ghost var pool := Pool(lo, hi, used);
    PoolAt(lo, hi, 0, 0, used);
    var n := starts.Length;
    var k: nat, i: nat := 0, 0;
    for j := 0 to hints.Length
      invariant starts[..] == lo && ends[..] == hi
      invariant Position(lo, hi, used, j, k, i)
      invariant forall m :: 0 <= m < j ==> hints[m] == pool[m % |pool|]
    {
      Advance(lo, hi, used, j, k, i);
      assert starts[n - k - 1] == lo[n - k - 1] && ends[n - k - 1] == hi[n - k - 1];
      hints[j] := starts[n - k - 1] + i;
      if ends[n - k - 1] == starts[n - k - 1] + i {
        k, i := (k + 1) % used, 0;
      } else {
        i := i + 1;
      }
    }
  }

  // ----- What the spread means ------------------------------------------------------------------

  /** With the module's two sockets: the queues count up the cores of the upper socket and, when both are in
      use, then those of the lower one, and start again.  Queue `j` is number `x` of a round. */
  lemma TargetOf(hints: seq<int>, starts: seq<int>, ends: seq<int>, used: nat, upper: nat, size: nat, j: nat, x: nat)
    requires |starts| == 2 && 1 <= used <= 2 && NonEmpty(starts, ends, used)
    requires Spread(hints, Pool(starts, ends, used)) && j < |hints|
    requires upper == ends[1] - starts[1] + 1
    requires size == if used == 1 then upper else upper + (ends[0] - starts[0] + 1)
    requires size > 0 && x == j % size
    ensures hints[j] == if x < upper then starts[1] + x else starts[0] + (x - upper)
  {
    var lower := PoolOfTwo(starts, ends, used);
    PairAt(hints, Cores(starts[1], ends[1]), lower, j, x);
  }

  lemma PoolOfTwo(starts: seq<int>, ends: seq<int>, used: nat) returns (lower: seq<int>)
    requires |starts| == |ends| == 2 && 1 <= used <= 2
    ensures Pool(starts, ends, used) == Cores(starts[1], ends[1]) + lower
    ensures lower == if used == 1 then [] else Cores(starts[0], ends[0])
  {
    assert Pool(starts, ends, 0) == [];
    assert Pool(starts, ends, 1) == Cores(starts[1], ends[1]);
    lower := if used == 1 then [] else Cores(starts[0], ends[0]);
  }

  lemma PairAt(hints: seq<int>, upper: seq<int>, lower: seq<int>, j: nat, x: nat)
    requires Spread(hints, upper + lower) && j < |hints|
    requires |upper| + |lower| > 0 && x == j % (|upper| + |lower|)
    ensures hints[j] == if x < |upper| then upper[x] else lower[x - |upper|]
  {
    assert |upper + lower| == |upper| + |lower|;
  }

  /** Every target is a core of one of the ranges used. */
  lemma TargetsInRange(hints: seq<int>, starts: seq<int>, ends: seq<int>, used: nat, j: nat)
    requires NonEmpty(starts, ends, used) && Spread(hints, Pool(starts, ends, used)) && j < |hints|
    ensures exists s :: |starts| - used <= s < |starts| && starts[s] <= hints[j] <= ends[s]
  {
    PoolMember(starts, ends, used, j % |Pool(starts, ends, used)|);
  }

  lemma {:induction false} PoolMember(starts: seq<int>, ends: seq<int>, used: nat, at: nat)
    requires NonEmpty(starts, ends, used) && at < |Pool(starts, ends, used)|
    ensures exists s :: |starts| - used <= s < |starts| &&
                        starts[s] <= Pool(starts, ends, used)[at] <= ends[s]
  {
    var shorter := Pool(starts, ends, used - 1);
    if at < |shorter| {
      PoolMember(starts, ends, used - 1, at);
      var s :| |starts| - (used - 1) <= s < |starts| && starts[s] <= shorter[at] <= ends[s];
      assert starts[s] <= Pool(starts, ends, used)[at] <= ends[s];
    } else {
      var s := |starts| - used;
      assert Pool(starts, ends, used)[at] == starts[s] + (at - |shorter|);
      assert starts[s] <= Pool(starts, ends, used)[at] <= ends[s];
    }
  }

  function Count(hints: seq<int>, core: int): nat {
    if hints == [] then 0
    else Count(hints[..|hints| - 1], core) + if hints[|hints| - 1] == core then 1 else 0
  }

  /** Exactly how many queues the core at position `at` of the pool is given. */
  lemma {:induction false} ShareOf(hints: seq<int>, pool: seq<int>, at: nat)
    requires Spread(hints, pool) && Distinct(pool) && at < |pool|
    ensures Count(hints, pool[at]) == |hints| / |pool| + if at < |hints| % |pool| then 1 else 0
  {
    var n := |pool|;
    if hints == [] {
      Remainder(0, 0, 0, n);
    } else {
      var q := |hints| - 1;
      var rest := hints[..q];
      ShareOf(rest, pool, at);
      NextPosition(q, n);
      assert hints[q] == pool[q % n];
    }
  }

  /** The loads of any two cores of the pool differ by at most one. */
  lemma LoadsBalanced(hints: seq<int>, pool: seq<int>, a: nat, b: nat)
    requires Spread(hints, pool) && Distinct(pool) && a < |pool| && b < |pool|
    ensures -1 <= Count(hints, pool[a]) - Count(hints, pool[b]) <= 1
  {
    ShareOf(hints, pool, a);
    ShareOf(hints, pool, b);
  }

  /** Sockets own disjoint ranges of cores, in order. */
  predicate Ascending(starts: seq<int>, ends: seq<int>) {
    |starts| == |ends| && forall s, t :: 0 <= s < t < |starts| ==> ends[s] < starts[t]
  }

  lemma {:induction false} PoolDistinct(starts: seq<int>, ends: seq<int>, used: nat)
    requires NonEmpty(starts, ends, used) && Ascending(starts, ends)
    ensures Distinct(Pool(starts, ends, used))
  {
    if used > 0 {
      PoolDistinct(starts, ends, used - 1);
      var pool, shorter := Pool(starts, ends, used), Pool(starts, ends, used - 1);
      forall i, j | 0 <= i < j < |pool| ensures pool[i] != pool[j] {
        if i < |shorter| <= j {
          PoolMember(starts, ends, used - 1, i);
        }
      }
    }
  }
}
