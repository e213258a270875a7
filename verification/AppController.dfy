/**
 The enabled partitioning mode (APP).  On every timer tick each socket's cores, split into four groups
 (network queues, network system calls, applications, block I/O), may pass one core from the least to
 the most utilised group, and the network queues are then spread over the new network ranges.
 */
module AppController {
  import opened Basics
  import opened Timer
  import opened IrqSpread

  const NET := 0
  const SYS := 1
  const APP := 2
  const BLK := 3

  /** The boundaries of one socket.  The network system-call group lies between `netEnd` and `appStart`. */
  datatype Layout = Layout(netStart: int, netEnd: int, appStart: int, appEnd: int, blkStart: int, blkEnd: int)

  function First(l: Layout, g: nat): int
    requires g < 4
  {
    if g == NET then l.netStart else if g == SYS then l.netEnd + 1 else if g == APP then l.appStart else l.blkStart
  }

  function Final(l: Layout, g: nat): int
    requires g < 4
  {
    if g == NET then l.netEnd else if g == SYS then l.appStart - 1 else if g == APP then l.appEnd else l.blkEnd
  }

  function Size(l: Layout, g: nat): int
    requires g < 4
  {
    Final(l, g) - First(l, g) + 1
  }

  /** Every group has a core, so every average is defined. */
  predicate Populated(l: Layout) {
    forall g :: 0 <= g < 4 ==> Size(l, g) >= 1
  }

  function Average(l: Layout, p: Readings, g: nat): int
    requires g < 4 && Size(l, g) >= 1
  {
    Quotient(Total(p, First(l, g), Final(l, g)), Size(l, g))
  }

  function Averages(l: Layout, p: Readings): seq<int>
    requires Populated(l)
  {
    [Average(l, p, NET), Average(l, p, SYS), Average(l, p, APP), Average(l, p, BLK)]
  }

  function Sizes(l: Layout): seq<int> {
    [Size(l, NET), Size(l, SYS), Size(l, APP), Size(l, BLK)]
  }

  // ----- Who gives and who gets -----------------------------------------------------------------

  /** Group `a` is more utilised than `b`; between equals the later group counts as more. */
  predicate Above(u: seq<int>, a: nat, b: nat)
    requires |u| == 4 && a < 4 && b < 4
  {
    u[a] > u[b] || (u[a] == u[b] && a > b)
  }

  predicate IsReceiver(u: seq<int>, r: nat)
    requires |u| == 4
  {
    r < 4 && forall g :: 0 <= g < 4 && g != r ==> Above(u, r, g)
  }

  /** The least utilised group other than `r` among those that can spare a core. */
  predicate IsDonor(u: seq<int>, z: seq<int>, r: nat, d: nat)
    requires |u| == |z| == 4
  {
    && d < 4 && d != r && z[d] >= 2
    && forall g :: 0 <= g < 4 && g != r && g != d && z[g] >= 2 ==> Above(u, g, d)
  }

  /** The least utilised group, when no group but `r` can spare a core. */
  predicate IsPoorest(u: seq<int>, z: seq<int>, r: nat, m: nat)
    requires |u| == |z| == 4
  {
    && m < 4 && m != r
    && (forall g :: 0 <= g < 4 && g != r ==> z[g] < 2)
    && (forall g :: 0 <= g < 4 && g != m ==> Above(u, g, m))
  }

  /** One core passes from group `d` to group `r` and nothing else changes size. */
  predicate CorePasses(l: Layout, l': Layout, d: nat, r: nat) {
    && l'.netStart == l.netStart && l'.blkEnd == l.blkEnd
    && l'.appEnd - l'.blkStart == l.appEnd - l.blkStart
    && forall g :: 0 <= g < 4 ==>
         Size(l', g) == Size(l, g) + (if g == r then 1 else 0) - (if g == d then 1 else 0)
  }

  /** What one tick may do to one socket: a core passes from the donor to the receiver when their
      averages differ by more than `T_CHANGE`, and otherwise nothing changes. */
  ghost predicate Rebalanced(l: Layout, p: Readings, l': Layout)
    requires Populated(l)
  {
    var u, z := Averages(l, p), Sizes(l);
    || (exists r: nat, d: nat ::
          IsReceiver(u, r) && IsDonor(u, z, r, d) && u[r] - u[d] > T_CHANGE && CorePasses(l, l', d, r))
    || (l' == l && forall r: nat, d: nat :: IsReceiver(u, r) && IsDonor(u, z, r, d) ==> u[r] - u[d] <= T_CHANGE)
  }

  /** The tick looks at the network queue group as receiver or as the group to take a core from. */
  ghost predicate NetInvolved(l: Layout, p: Readings)
    requires Populated(l)
  {
    var u, z := Averages(l, p), Sizes(l);
    || IsReceiver(u, NET)
    || exists r: nat :: IsReceiver(u, r) && (IsDonor(u, z, r, NET) || IsPoorest(u, z, r, NET))
  }

  lemma ReceiverUnique(u: seq<int>, r: nat, r': nat)
    requires |u| == 4 && IsReceiver(u, r) && IsReceiver(u, r')
    ensures r == r'
  {
    assert r != r' ==> Above(u, r, r');
    assert r != r' ==> Above(u, r', r);
  }

  lemma DonorUnique(u: seq<int>, z: seq<int>, r: nat, d: nat, d': nat)
    requires |u| == |z| == 4 && IsDonor(u, z, r, d) && IsDonor(u, z, r, d')
    ensures d == d'
  {
  }

  /** Sizes and outer boundaries determine a layout. */
  lemma PassUnique(l: Layout, a: Layout, b: Layout, d: nat, r: nat)
    requires CorePasses(l, a, d, r) && CorePasses(l, b, d, r)
    ensures a == b
  {
    assert Size(a, NET) == Size(b, NET) && Size(a, SYS) == Size(b, SYS);
    assert Size(a, APP) == Size(b, APP) && Size(a, BLK) == Size(b, BLK);
    assert a.netEnd == b.netEnd && a.appStart == b.appStart;
    assert a.appEnd == b.appEnd && a.blkStart == b.blkStart;
  }

  /** A tick is deterministic: readings and layout decide the next layout. */
  lemma RebalanceUnique(l: Layout, p: Readings, a: Layout, b: Layout)
    requires Populated(l) && Rebalanced(l, p, a) && Rebalanced(l, p, b)
    ensures a == b
  {
    var u, z := Averages(l, p), Sizes(l);
    if exists r: nat, d: nat :: IsReceiver(u, r) && IsDonor(u, z, r, d) && u[r] - u[d] > T_CHANGE {
      var r: nat, d: nat :| IsReceiver(u, r) && IsDonor(u, z, r, d) && u[r] - u[d] > T_CHANGE;
      forall r': nat, d': nat | IsReceiver(u, r') && IsDonor(u, z, r', d') ensures r' == r && d' == d {
        ReceiverUnique(u, r, r');
        DonorUnique(u, z, r, d, d');
      }
      PassUnique(l, a, b, d, r);
    }
  }

  // ----- Sorting the groups ---------------------------------------------------------------------

  predicate Permutation(a: seq<nat>) {
    |a| == 4 && (forall i :: 0 <= i < 4 ==> a[i] < 4) && forall i, j :: 0 <= i < j < 4 ==> a[i] != a[j]
  }

  predicate Sorted(u: seq<int>, a: seq<nat>)
    requires |u| == 4 && Permutation(a)
  {
    forall i, j :: 0 <= i < j < 4 ==> Above(u, a[j], a[i])
  }

  /** After `i` passes and `j` steps of the next: equals are in index order, the last `i` places are
      final, and place `j` holds the most utilised of the places up to it. */
  predicate Bubbling(u: seq<int>, a: seq<nat>, i: nat, j: nat)
    requires |u| == 4
  {
    && Permutation(a) && i + j <= 3
    && (forall k, m :: 0 <= k < m < 4 && u[a[k]] == u[a[m]] ==> a[k] < a[m])
    && (forall k, m :: 0 <= k < m < 4 && m >= 4 - i ==> Above(u, a[m], a[k]))
    && (forall k :: 0 <= k < j ==> Above(u, a[j], a[k]))
  }

  function Swapped(a: seq<nat>, j: nat): seq<nat>
    requires j + 1 < |a|
  {
    a[j := a[j + 1]][j + 1 := a[j]]
  }

  lemma SwapPermutes(a: seq<nat>, j: nat)
    requires Permutation(a) && j < 3
    ensures Permutation(Swapped(a, j))
  {
  }

  lemma BubbleSwap(u: seq<int>, a: seq<nat>, i: nat, j: nat)
    requires |u| == 4 && Bubbling(u, a, i, j) && i + j < 3 && u[a[j]] > u[a[j + 1]]
    ensures Bubbling(u, Swapped(a, j), i, j + 1)
  {
    SwapPermutes(a, j);
    var b := Swapped(a, j);
    forall k, m | 0 <= k < m < 4 && u[b[k]] == u[b[m]] ensures b[k] < b[m] {
    }
    forall k, m | 0 <= k < m < 4 && m >= 4 - i ensures Above(u, b[m], b[k]) {
    }
  }

  lemma BubbleKeep(u: seq<int>, a: seq<nat>, i: nat, j: nat)
    requires |u| == 4 && Bubbling(u, a, i, j) && i + j < 3 && u[a[j]] <= u[a[j + 1]]
    ensures Bubbling(u, a, i, j + 1)
  {
    assert Above(u, a[j + 1], a[j]);
  }

  lemma BubblePass(u: seq<int>, a: seq<nat>, i: nat, j: nat)
    requires |u| == 4 && i < 3 && i + j == 3 && Bubbling(u, a, i, j)
    ensures Bubbling(u, a, i + 1, 0)
  {
    forall k, m | 0 <= k < m < 4 && m >= 4 - (i + 1) ensures Above(u, a[m], a[k]) {
      assert m >= 4 - i || m == j;
    }
  }

  lemma BubbleStart(u: seq<int>)
    requires |u| == 4
    ensures Bubbling(u, [0, 1, 2, 3], 0, 0)
  {
  }

  lemma Bubbled(u: seq<int>, a: seq<nat>)
    requires |u| == 4 && Bubbling(u, a, 3, 0)
    ensures Permutation(a) && Sorted(u, a)
  {
    forall k, m | 0 <= k < m < 4 ensures Above(u, a[m], a[k]) {
    }
  }

  /** The bubble sort of group indices by utilisation, ascending; it swaps only on strictly greater,
      so equals stay in index order. */
  method SortGroups(u: seq<int>) returns (order: array<nat>)
    requires |u| == 4
    ensures fresh(order) && order.Length == 4
    ensures Permutation(order[..]) && Sorted(u, order[..])
  {
    order := new nat[4](i => i);
    assert order[..] == [0, 1, 2, 3];
    BubbleStart(u);
    for i := 0 to 3
      invariant Bubbling(u, order[..], i, 0)
    {
      var j := 0;
      while j < 3 - i
        invariant i + j <= 3 && Bubbling(u, order[..], i, j)
      {
        ghost var a := order[..];
        if u[order[j]] > u[order[j + 1]] {
          order[j], order[j + 1] := order[j + 1], order[j];
          assert order[..] == Swapped(a, j);
          BubbleSwap(u, a, i, j);
        } else {
          BubbleKeep(u, a, i, j);
        }
        j := j + 1;
      }
      BubblePass(u, order[..], i, j);
    }
    Bubbled(u, order[..]);
  }

  /** The group a core may be taken from: the first in sorted order below the receiver that has two
      cores or more, and the first of all if there is none. */
  method PickDonor(u: seq<int>, z: seq<int>, order: array<nat>) returns (min: nat)
    requires |u| == |z| == 4 && order.Length == 4 && Permutation(order[..]) && Sorted(u, order[..])
    ensures min < 4
    ensures z[min] >= 2 ==> IsDonor(u, z, order[3], min)
    ensures z[min] < 2 ==> IsPoorest(u, z, order[3], min)
  {
    ghost var a := order[..];
    min := order[0];
    if z[min] < 2 {
      var i := 1;
      while i < 3
        invariant 1 <= i <= 3 && min == order[0]
        invariant forall k :: 0 <= k < i ==> z[a[k]] < 2
      {
        if z[order[i]] >= 2 {
          min := order[i];
          DonorFound(u, z, a, i);
          return;
        }
        i := i + 1;
      }
      PoorestFound(u, z, a);
    } else {
      DonorFound(u, z, a, 0);
    }
  }

  lemma PlaceOf(a: seq<nat>, g: nat) returns (k: nat)
    requires Permutation(a) && g < 4
    ensures k < 4 && a[k] == g
  {
    k := if a[0] == g then 0 else if a[1] == g then 1 else if a[2] == g then 2 else 3;
  }

  lemma DonorFound(u: seq<int>, z: seq<int>, a: seq<nat>, i: nat)
    requires |u| == |z| == 4 && Permutation(a) && Sorted(u, a)
    requires i < 3 && z[a[i]] >= 2 && forall k :: 0 <= k < i ==> z[a[k]] < 2
    ensures IsDonor(u, z, a[3], a[i])
  {
    forall g | 0 <= g < 4 && g != a[3] && g != a[i] && z[g] >= 2 ensures Above(u, g, a[i]) {
      var k := PlaceOf(a, g);
      assert i < k;
    }
  }

  lemma PoorestFound(u: seq<int>, z: seq<int>, a: seq<nat>)
    requires |u| == |z| == 4 && Permutation(a) && Sorted(u, a)
    requires forall k :: 0 <= k < 3 ==> z[a[k]] < 2
    ensures IsPoorest(u, z, a[3], a[0])
  {
    forall g | 0 <= g < 4 && g != a[3] ensures z[g] < 2 {
      var k := PlaceOf(a, g);
    }
    forall g | 0 <= g < 4 && g != a[0] ensures Above(u, g, a[0]) {
      var k := PlaceOf(a, g);
    }
  }

  lemma LastReceives(u: seq<int>, a: seq<nat>)
    requires |u| == 4 && Permutation(a) && Sorted(u, a)
    ensures IsReceiver(u, a[3])
  {
    forall g | 0 <= g < 4 && g != a[3] ensures Above(u, a[3], g) {
      var k := PlaceOf(a, g);
    }
  }

  /** The boundaries between the donor and the receiver move by one. */
  function Shifted(l: Layout, d: nat, r: nat): Layout {
    var step := (g: nat) => (if r <= g then 1 else 0) - (if d <= g then 1 else 0);
    Layout(l.netStart, l.netEnd + step(NET), l.appStart + step(SYS),
           l.appEnd + step(APP), l.blkStart + step(APP), l.blkEnd)
  }

  lemma ShiftPassesCore(l: Layout, d: nat, r: nat)
    requires d < 4 && r < 4 && d != r
    ensures CorePasses(l, Shifted(l, d, r), d, r)
  {
  }

  // ----- The tick -------------------------------------------------------------------------------

  /** The globals of the module in this mode, and the hints last given to the interrupt queues. */
  class Controller {
    const netStart: array<int>
    const netEnd: array<int>
    const appStart: array<int>
    const appEnd: array<int>
    const blkStart: array<int>
    const blkEnd: array<int>
    const netHints: array<int>
    const blkHints: array<int>

    ghost predicate Shape() {
      && netStart.Length == netEnd.Length == appStart.Length == NUMBER_OF_SOCKETS
      && appEnd.Length == blkStart.Length == blkEnd.Length == NUMBER_OF_SOCKETS
      && netHints.Length == NET_QUEUES && blkHints.Length == BLK_QUEUES
      && netStart != netEnd && netStart != appStart && netStart != appEnd && netStart != blkStart
      && netEnd != appStart && netEnd != appEnd && netEnd != blkStart && netEnd != blkEnd
      && appStart != appEnd && appStart != blkStart && appStart != blkEnd
      && appEnd != blkStart && appEnd != blkEnd && blkStart != blkEnd
      && netHints != netStart && netHints != netEnd && netHints != appStart
      && netHints != appEnd && netHints != blkStart && netHints != blkEnd
      && blkHints != netEnd && blkHints != appStart && blkHints != appEnd && blkHints != blkStart
      && blkHints != netHints
    }

    ghost function LayoutOf(s: nat): Layout
      requires Shape() && s < NUMBER_OF_SOCKETS
      reads netStart, netEnd, appStart, appEnd, blkStart, blkEnd
    {
      Layout(netStart[s], netEnd[s], appStart[s], appEnd[s], blkStart[s], blkEnd[s])
    }

    /** The layout written in the module's initialisation. */
    constructor ()
      ensures Shape() && fresh(netStart) && fresh(netEnd) && fresh(appStart) && fresh(appEnd) && fresh(blkStart)
      ensures fresh(netHints)
      ensures LayoutOf(0) == CodedLayout(0) && LayoutOf(1) == CodedLayout(1)
    {
      netStart := new int[2] [0, 10];
      netEnd := new int[2] [1, 11];
      appStart := new int[2] [4, 14];
      appEnd := new int[2] [8, 18];
      blkStart := new int[2] [7, 17];
      blkEnd := new int[2] [9, 19];
      netHints := new int[NET_QUEUES];
      blkHints := new int[BLK_QUEUES];
    }

    /** The measuring loops for one socket. */
    method Measure(s: nat, p: Readings) returns (u: seq<int>, z: seq<int>)
      requires Shape() && s < NUMBER_OF_SOCKETS && Populated(LayoutOf(s))
      ensures u == Averages(LayoutOf(s), p) && z == Sizes(LayoutOf(s))
    {
      ghost var l := LayoutOf(s);
      assert Size(l, NET) >= 1 && Size(l, SYS) >= 1 && Size(l, APP) >= 1 && Size(l, BLK) >= 1;
      var blkUtil, blkCores := Accumulate(p, blkStart[s], blkEnd[s]);
      var netUtil, netCores := Accumulate(p, netStart[s], netEnd[s]);
      var sysUtil, sysCores := Accumulate(p, netEnd[s] + 1, appStart[s] - 1);
      var appUtil, appCores := Accumulate(p, appStart[s], appEnd[s]);
      u := [Quotient(netUtil, netCores), Quotient(sysUtil, sysCores),
            Quotient(appUtil, appCores), Quotient(blkUtil, blkCores)];
      z := [netCores, sysCores, appCores, blkCores];
    }

    /** The twelve branches that move boundaries. */
    method Adjust(s: nat, u: seq<int>, max: nat, min: nat)
      requires Shape() && s < NUMBER_OF_SOCKETS && |u| == 4 && max < 4 && min < 4 && max != min
      modifies netEnd, appStart, appEnd, blkStart
      ensures LayoutOf(s) == if u[max] - T_CHANGE > u[min] then Shifted(old(LayoutOf(s)), min, max)
                             else old(LayoutOf(s))
      ensures forall t: nat :: t < NUMBER_OF_SOCKETS && t != s ==> LayoutOf(t) == old(LayoutOf(t))
    {
      var limit := u[max] - T_CHANGE;
      if max == NET {
        if min == SYS {
          if limit > u[SYS] {
            netEnd[s] := netEnd[s] + 1;
          }
        } else if min == APP {
          if limit > u[APP] {
            appStart[s] := appStart[s] + 1;
            netEnd[s] := netEnd[s] + 1;
          }
        } else if min == BLK {
          if limit > u[BLK] {
            netEnd[s] := netEnd[s] + 1;
            appStart[s] := appStart[s] + 1;
            appEnd[s] := appEnd[s] + 1;
            blkStart[s] := blkStart[s] + 1;
          }
        }
      } else if max == SYS {
        if min == NET {
          if limit > u[NET] {
            netEnd[s] := netEnd[s] - 1;
          }
        } else if min == APP {
          if limit > u[APP] {
            appStart[s] := appStart[s] + 1;
          }
        } else if min == BLK {
          if limit > u[BLK] {
            blkStart[s] := blkStart[s] + 1;
            appEnd[s] := appEnd[s] + 1;
            appStart[s] := appStart[s] + 1;
          }
        }
      } else if max == APP {
        if min == NET {
          if limit > u[NET] {
            netEnd[s] := netEnd[s] - 1;
            appStart[s] := appStart[s] - 1;
          }
        } else if min == SYS {
          if limit > u[SYS] {
            appStart[s] := appStart[s] - 1;
          }
        } else if min == BLK {
          if limit > u[BLK] {
            appEnd[s] := appEnd[s] + 1;
            blkStart[s] := blkStart[s] + 1;
          }
        }
      } else if max == BLK {
        if min == NET {
          if limit > u[NET] {
            netEnd[s] := netEnd[s] - 1;
            appStart[s] := appStart[s] - 1;
            appEnd[s] := appEnd[s] - 1;
            blkStart[s] := blkStart[s] - 1;
          }
        } else if min == SYS {
          if limit > u[SYS] {
            appStart[s] := appStart[s] - 1;
            appEnd[s] := appEnd[s] - 1;
            blkStart[s] := blkStart[s] - 1;
          }
        } else if min == APP {
          if limit > u[APP] {
            appEnd[s] := appEnd[s] - 1;
            blkStart[s] := blkStart[s] - 1;
          }
        }
      }
    }

    /** Sorting, choosing and moving for one socket; the flags say which kinds of queue are affected. */
    method Balance(s: nat, ghost p: Readings, u: seq<int>, z: seq<int>) returns (net: bool, blk: bool)
      requires Shape() && s < NUMBER_OF_SOCKETS && Populated(LayoutOf(s))
      requires u == Averages(LayoutOf(s), p) && z == Sizes(LayoutOf(s))
      modifies netEnd, appStart, appEnd, blkStart
      ensures Rebalanced(old(LayoutOf(s)), p, LayoutOf(s))
      ensures forall t: nat :: t < NUMBER_OF_SOCKETS && t != s ==> LayoutOf(t) == old(LayoutOf(t))
      ensures net == NetInvolved(old(LayoutOf(s)), p) && !blk
    {
      ghost var l := LayoutOf(s);
      var order := SortGroups(u);
      var max := order[3];
      var min := PickDonor(u, z, order);
      LastReceives(u, order[..]);
      if z[min] >= 2 {
        Adjust(s, u, max, min);
      }
      Rebalances(l, p, max, min, LayoutOf(s));
      InvolvementFlag(u, z, max, min);
      net := max == 0 || min == 0;
      blk := min == 4 || max == 4;
    }

    ghost function State(): AppState
      requires Shape()
      reads netStart, netEnd, appStart, appEnd, blkStart, blkEnd, netHints, blkHints
    {
      AppState([LayoutOf(0), LayoutOf(1)], netHints[..], blkHints[..])
    }

    /** Measuring both sockets, then balancing them; `net` says whether the network queues are to be
        spread anew. */
    method BalanceSockets(p: Readings) returns (net: bool)
      requires Shape() && Populated(LayoutOf(0)) && Populated(LayoutOf(1))
      modifies netEnd, appStart, appEnd, blkStart
      ensures Rebalanced(old(LayoutOf(0)), p, LayoutOf(0)) && Rebalanced(old(LayoutOf(1)), p, LayoutOf(1))
      ensures net == (NetInvolved(old(LayoutOf(0)), p) || NetInvolved(old(LayoutOf(1)), p))
    {
      var u1, z1 := Measure(1, p);
      var u0, z0 := Measure(0, p);
      var net1, blk1 := Balance(1, p, u1, z1);
      var net0, blk0 := Balance(0, p, u0, z0);
      // the redistribution of block queues is guarded by a flag that is never set
      assert !blk1 && !blk0;
      net := net1 || net0;
    }

    /** One timer tick. */
    method Tick(p: Readings)
      requires Shape() && WellFormed(State())
      modifies netEnd, appStart, appEnd, blkStart, netHints
      ensures Ticked(old(State()), p, State())
    {
      ghost var s := State();
      assert Populated(s.sockets[0]) && Populated(s.sockets[1]);
      var net := BalanceSockets(p);
      RebalancedKeeps(s.sockets[0], p, LayoutOf(0));
      RebalancedKeeps(s.sockets[1], p, LayoutOf(1));
      if net {
        SpreadNet();
      }
    }

    /** The network queues over the current network ranges. */
    method SpreadNet()
      requires Shape() && Populated(LayoutOf(0)) && Populated(LayoutOf(1))
      modifies netHints
      ensures Spread(netHints[..], NetPool([LayoutOf(0), LayoutOf(1)]))
    {
      assert Size(LayoutOf(0), NET) >= 1 && Size(LayoutOf(1), NET) >= 1;
      assert netStart[..] == [netStart[0], netStart[1]] && netEnd[..] == [netEnd[0], netEnd[1]];
      Redistribute(netStart, netEnd, NUMBER_OF_SOCKETS, netHints);
    }
  }

  lemma Rebalances(l: Layout, p: Readings, max: nat, min: nat, l': Layout)
    requires Populated(l) && IsReceiver(Averages(l, p), max)
    requires min < 4 && max < 4 && (if Sizes(l)[min] >= 2 then IsDonor(Averages(l, p), Sizes(l), max, min)
                                    else IsPoorest(Averages(l, p), Sizes(l), max, min))
    requires var u := Averages(l, p);
             l' == if Sizes(l)[min] >= 2 && u[max] - T_CHANGE > u[min] then Shifted(l, min, max) else l
    ensures Rebalanced(l, p, l')
  {
    var u, z := Averages(l, p), Sizes(l);
    if z[min] >= 2 {
      ShiftPassesCore(l, min, max);
    }
    forall r: nat, d: nat | IsReceiver(u, r) && IsDonor(u, z, r, d) ensures r == max && z[min] >= 2 && d == min {
      ReceiverUnique(u, r, max);
      if z[min] >= 2 {
        DonorUnique(u, z, max, d, min);
      }
    }
  }

  lemma InvolvementFlag(u: seq<int>, z: seq<int>, max: nat, min: nat)
    requires |u| == |z| == 4 && IsReceiver(u, max)
    requires min < 4 && (if z[min] >= 2 then IsDonor(u, z, max, min) else IsPoorest(u, z, max, min))
    ensures (max == NET || min == NET) <==>
            || IsReceiver(u, NET)
            || exists r: nat :: IsReceiver(u, r) && (IsDonor(u, z, r, NET) || IsPoorest(u, z, r, NET))
  {
    if IsReceiver(u, NET) {
      ReceiverUnique(u, NET, max);
    }
    if exists r: nat :: IsReceiver(u, r) && (IsDonor(u, z, r, NET) || IsPoorest(u, z, r, NET)) {
      var r: nat :| IsReceiver(u, r) && (IsDonor(u, z, r, NET) || IsPoorest(u, z, r, NET));
      ReceiverUnique(u, r, max);
      if z[min] >= 2 {
        DonorUnique(u, z, max, NET, min);
      } else {
        PoorestUnique(u, z, max, NET, min);
      }
    }
  }

  lemma PoorestUnique(u: seq<int>, z: seq<int>, r: nat, m: nat, m': nat)
    requires |u| == |z| == 4 && IsPoorest(u, z, r, m') && (IsDonor(u, z, r, m) || IsPoorest(u, z, r, m))
    ensures m == m'
  {
    assert m != m' ==> Above(u, m, m');
    assert m != m' && IsPoorest(u, z, r, m) ==> Above(u, m', m);
  }

  function CodedLayout(s: nat): Layout
    requires s < NUMBER_OF_SOCKETS
  {
    if s == 0 then Layout(0, 1, 4, 8, 7, 9) else Layout(10, 11, 14, 18, 17, 19)
  }

  // ----- Which group gains and which loses ------------------------------------------------------

  /** The averages of the four groups, in the order network queues, network system calls, applications,
      block I/O. */
  predicate GroupAverages(l: Layout, p: Readings, u: seq<int>) {
    && |u| == 4
    && IsAverage(p, l.netStart, l.netEnd, u[0]) && IsAverage(p, l.netEnd + 1, l.appStart - 1, u[1])
    && IsAverage(p, l.appStart, l.appEnd, u[2]) && IsAverage(p, l.blkStart, l.blkEnd, u[3])
  }

  predicate GroupSizes(l: Layout, z: seq<int>) {
    z == [l.netEnd - l.netStart + 1, l.appStart - l.netEnd - 1, l.appEnd - l.appStart + 1, l.blkEnd - l.blkStart + 1]
  }

  lemma GroupsAre(l: Layout, p: Readings, u: seq<int>, z: seq<int>)
    requires Populated(l) && GroupAverages(l, p, u) && GroupSizes(l, z)
    ensures Averages(l, p) == u && Sizes(l) == z
  {
    assert Size(l, NET) >= 1 && Size(l, SYS) >= 1 && Size(l, APP) >= 1 && Size(l, BLK) >= 1;
  }

  /** There is always a receiver, and a donor if some other group has two cores. */
  lemma ReceiverExists(u: seq<int>) returns (r: nat)
    requires |u| == 4
    ensures IsReceiver(u, r)
  {
    r := 0;
    r := if Above(u, 1, r) then 1 else r;
    r := if Above(u, 2, r) then 2 else r;
    r := if Above(u, 3, r) then 3 else r;
  }

  lemma DonorExists(u: seq<int>, z: seq<int>, r: nat, e: nat) returns (d: nat)
    requires |u| == |z| == 4 && e < 4 && e != r && z[e] >= 2
    ensures IsDonor(u, z, r, d) && u[d] <= u[e]
  {
    d := e;
    for g := 0 to 4
      invariant d < 4 && d != r && z[d] >= 2 && u[d] <= u[e]
      invariant forall h :: 0 <= h < g && h != r && h != d && z[h] >= 2 ==> Above(u, h, d)
    {
      if g != r && g != d && z[g] >= 2 && !Above(u, g, d) {
        d := g;
      }
    }
  }

  /** Who passed a core to whom, when a socket has changed. */
  lemma Passed(l: Layout, p: Readings, l': Layout) returns (r: nat, d: nat)
    requires Populated(l) && Rebalanced(l, p, l') && l' != l
    ensures var u, z := Averages(l, p), Sizes(l);
            IsReceiver(u, r) && IsDonor(u, z, r, d) && u[r] - u[d] > T_CHANGE && CorePasses(l, l', d, r)
  {
    var u, z := Averages(l, p), Sizes(l);
    r, d :| IsReceiver(u, r) && IsDonor(u, z, r, d) && u[r] - u[d] > T_CHANGE && CorePasses(l, l', d, r);
  }

  lemma NoSelfPass(l: Layout, d: nat, r: nat)
    requires d < 4 && r < 4 && d != r
    ensures !CorePasses(l, l, d, r)
  {
    if CorePasses(l, l, d, r) {
      PassedSizes(l, l, Sizes(l), Sizes(l), d, r, r);
    }
  }

  /** With a donor far enough below the receiver a socket does change. */
  lemma MustChange(l: Layout, p: Readings, l': Layout, r: nat, d: nat)
    requires Populated(l) && Rebalanced(l, p, l')
    requires var u, z := Averages(l, p), Sizes(l); IsReceiver(u, r) && IsDonor(u, z, r, d) && u[r] - u[d] > T_CHANGE
    ensures l' != l
  {
    forall e: nat, q: nat | e < 4 && q < 4 && e != q ensures !CorePasses(l, l, e, q) {
      NoSelfPass(l, e, q);
    }
  }

  lemma NeedsGap(l: Layout, p: Readings, l': Layout) returns (d: nat, g: nat)
    requires Populated(l) && Rebalanced(l, p, l') && l' != l
    ensures d < 4 && g < 4 && Sizes(l)[d] >= 2 && Averages(l, p)[g] - Averages(l, p)[d] > T_CHANGE
  {
    g, d := Passed(l, p, l');
  }

  lemma GapSuffices(l: Layout, p: Readings, l': Layout, u: seq<int>, z: seq<int>, d: nat, g: nat)
    requires Populated(l) && Rebalanced(l, p, l') && Averages(l, p) == u && Sizes(l) == z
    requires d < 4 && g < 4 && z[d] >= 2 && u[g] - u[d] > T_CHANGE
    ensures l' != l
  {
    var r := ReceiverExists(u);
    ReceiverIsMost(u, r);
    var d' := DonorExists(u, z, r, d);
    MustChange(l, p, l', r, d');
  }

  /** Group `d` can spare a core and is less utilised than group `g` by more than `T_CHANGE`. */
  predicate Gap(u: seq<int>, z: seq<int>, d: nat, g: nat) {
    |u| == |z| == 4 && d < 4 && g < 4 && z[d] >= 2 && u[g] - u[d] > T_CHANGE
  }

  /** A tick changes a socket exactly when some group that can spare a core is less utilised than some other
      group by more than `T_CHANGE`. */
  lemma TransferIff(l: Layout, p: Readings, l': Layout, u: seq<int>, z: seq<int>)
    requires Populated(l) && Rebalanced(l, p, l') && GroupAverages(l, p, u) && GroupSizes(l, z)
    ensures l' != l <==> exists d: nat, g: nat :: Gap(u, z, d, g)
  {
    GroupsAre(l, p, u, z);
    if l' != l {
      var d, g := NeedsGap(l, p, l');
      assert Gap(u, z, d, g);
    }
    forall d: nat, g: nat | Gap(u, z, d, g) ensures l' != l {
      GapSuffices(l, p, l', u, z, d, g);
    }
  }

  lemma PassedSizes(l: Layout, l': Layout, z: seq<int>, z': seq<int>, d: nat, r: nat, g: nat)
    requires GroupSizes(l, z) && GroupSizes(l', z') && CorePasses(l, l', d, r) && g < 4
    ensures z'[g] == z[g] + (if g == r then 1 else 0) - (if g == d then 1 else 0)
  {
    assert Size(l', g) == Size(l, g) + (if g == r then 1 else 0) - (if g == d then 1 else 0);
  }

  /** The group that gains a core is one of the most utilised; the one that loses a core has two or more and
      is one of the least utilised of those. */
  lemma BusiestGains(l: Layout, p: Readings, l': Layout, u: seq<int>, z: seq<int>, z': seq<int>, g: nat)
    requires Populated(l) && Rebalanced(l, p, l') && GroupAverages(l, p, u)
    requires GroupSizes(l, z) && GroupSizes(l', z') && g < 4
    ensures -1 <= z'[g] - z[g] <= 1
    ensures z'[g] > z[g] ==> forall h :: 0 <= h < 4 ==> u[h] <= u[g]
    ensures z'[g] < z[g] ==> z[g] >= 2 && forall h :: 0 <= h < 4 && z[h] >= 2 ==> u[g] <= u[h]
  {
    if l' != l {
      GroupsAre(l, p, u, z);
      var r, d := Passed(l, p, l');
      PassedSizes(l, l', z, z', d, r, g);
      ReceiverIsMost(u, r);
      DonorIsLeast(u, z, r, d);
    }
  }

  lemma ReceiverIsMost(u: seq<int>, r: nat)
    requires |u| == 4 && IsReceiver(u, r)
    ensures forall h :: 0 <= h < 4 ==> u[h] <= u[r]
  {
    forall h | 0 <= h < 4 ensures u[h] <= u[r] {
      assert h != r ==> Above(u, r, h);
    }
  }

  lemma DonorIsLeast(u: seq<int>, z: seq<int>, r: nat, d: nat)
    requires |u| == |z| == 4 && IsReceiver(u, r) && IsDonor(u, z, r, d)
    ensures z[d] >= 2 && forall h :: 0 <= h < 4 && z[h] >= 2 ==> u[d] <= u[h]
  {
    ReceiverIsMost(u, r);
    forall h | 0 <= h < 4 && z[h] >= 2 ensures u[d] <= u[h] {
      assert h != r && h != d ==> Above(u, h, d);
    }
  }

  // ----- Runs -----------------------------------------------------------------------------------

  datatype AppState = AppState(sockets: seq<Layout>, netHints: seq<int>, blkHints: seq<int>)

  predicate WellFormed(s: AppState) {
    |s.sockets| == NUMBER_OF_SOCKETS && forall i :: 0 <= i < NUMBER_OF_SOCKETS ==> Populated(s.sockets[i])
  }

  /** The network ranges of socket 1, then of socket 0. */
  function NetPool(sockets: seq<Layout>): seq<int>
    requires |sockets| == NUMBER_OF_SOCKETS
  {
    Pool([sockets[0].netStart, sockets[1].netStart], [sockets[0].netEnd, sockets[1].netEnd], NUMBER_OF_SOCKETS)
  }

  /** What one tick does to the whole state. */
  ghost predicate Ticked(s: AppState, p: Readings, t: AppState) {
    WellFormed(s) ==>
      && |t.sockets| == NUMBER_OF_SOCKETS
      && (forall i :: 0 <= i < NUMBER_OF_SOCKETS ==> Rebalanced(s.sockets[i], p, t.sockets[i]))
      && t.blkHints == s.blkHints
      && (if NetInvolved(s.sockets[0], p) || NetInvolved(s.sockets[1], p) then
            Spread(t.netHints, NetPool(t.sockets))
          else t.netHints == s.netHints)
  }

  /** A socket keeps its outer boundaries, its total of counted cores, the offset between its
      application and block groups, and a core in every group. */
  predicate SameSocket(l: Layout, l': Layout) {
    && Populated(l')
    && l'.netStart == l.netStart && l'.blkEnd == l.blkEnd
    && l'.appEnd - l'.blkStart == l.appEnd - l.blkStart
    && Size(l', NET) + Size(l', SYS) + Size(l', APP) + Size(l', BLK)
       == Size(l, NET) + Size(l, SYS) + Size(l, APP) + Size(l, BLK)
  }

  lemma RebalancedKeeps(l: Layout, p: Readings, l': Layout)
    requires Populated(l) && Rebalanced(l, p, l')
    ensures SameSocket(l, l')
  {
    if l' == l {
      assert SameSocket(l, l');
    } else {
      var u, z := Averages(l, p), Sizes(l);
      var r: nat, d: nat :| IsReceiver(u, r) && IsDonor(u, z, r, d) && CorePasses(l, l', d, r);
      assert Size(l, d) == Sizes(l)[d] >= 2;
    }
  }

  /** A tick that does not involve the network queue group leaves its range alone. */
  lemma NetRangeKept(l: Layout, p: Readings, l': Layout)
    requires Populated(l) && Rebalanced(l, p, l') && !NetInvolved(l, p)
    ensures l'.netStart == l.netStart && l'.netEnd == l.netEnd
  {
    if l' != l {
      var u, z := Averages(l, p), Sizes(l);
      var r: nat, d: nat :| IsReceiver(u, r) && IsDonor(u, z, r, d) && CorePasses(l, l', d, r);
      assert Size(l', NET) == Size(l, NET);
    }
  }

  ghost predicate TickRun(ss: seq<AppState>, ps: seq<Readings>) {
    && |ss| == |ps| + 1 && WellFormed(ss[0])
    && forall i {:trigger ps[i]} :: 0 <= i < |ps| ==> Ticked(ss[i], ps[i], ss[i + 1])
  }

  /** In every run, under any readings, a socket keeps its outer boundaries, its total, the offset
      between its application and block groups, and a core in each group, so no average is ever a
      division by zero; and the block queues are never given a hint. */
  lemma {:induction false} RunKeepsSocket(ss: seq<AppState>, ps: seq<Readings>, i: nat, s: nat)
    requires TickRun(ss, ps) && i < |ss| && s < NUMBER_OF_SOCKETS
    ensures WellFormed(ss[i]) && ss[i].blkHints == ss[0].blkHints
    ensures SameSocket(ss[0].sockets[s], ss[i].sockets[s])
  {
    if i > 0 {
      RunKeepsSocket(ss, ps, i - 1, s);
      assert Ticked(ss[i - 1], ps[i - 1], ss[i]);
      TickKeepsSockets(ss[i - 1], ps[i - 1], ss[i]);
    }
  }

  lemma TickKeepsSockets(s: AppState, p: Readings, t: AppState)
    requires WellFormed(s) && Ticked(s, p, t)
    ensures WellFormed(t) && t.blkHints == s.blkHints
    ensures forall i :: 0 <= i < NUMBER_OF_SOCKETS ==> SameSocket(s.sockets[i], t.sockets[i])
  {
    forall i | 0 <= i < NUMBER_OF_SOCKETS ensures SameSocket(s.sockets[i], t.sockets[i]) {
      RebalancedKeeps(s.sockets[i], p, t.sockets[i]);
    }
  }

  lemma TickKeepsHints(s: AppState, p: Readings, t: AppState)
    requires WellFormed(s) && WellFormed(t) && Ticked(s, p, t)
    requires Spread(s.netHints, NetPool(s.sockets))
    ensures Spread(t.netHints, NetPool(t.sockets))
  {
    if !NetInvolved(s.sockets[0], p) && !NetInvolved(s.sockets[1], p) {
      NetRangeKept(s.sockets[0], p, t.sockets[0]);
      NetRangeKept(s.sockets[1], p, t.sockets[1]);
    }
  }

  /** Once a tick `k` has involved the network group, the network hints are, in every later state, the
      spread of the queues over the current network ranges. */
  lemma {:induction false} NetHintsFollow(ss: seq<AppState>, ps: seq<Readings>, k: nat, i: nat)
    requires TickRun(ss, ps) && k < i < |ss| && WellFormed(ss[k])
    requires NetInvolved(ss[k].sockets[0], ps[k]) || NetInvolved(ss[k].sockets[1], ps[k])
    ensures WellFormed(ss[i]) && Spread(ss[i].netHints, NetPool(ss[i].sockets))
  {
    RunKeepsSocket(ss, ps, i, 0);
    assert Ticked(ss[i - 1], ps[i - 1], ss[i]);
    if k < i - 1 {
      NetHintsFollow(ss, ps, k, i - 1);
      TickKeepsHints(ss[i - 1], ps[i - 1], ss[i]);
    }
  }

  /** Core `c` belongs to group `g`. */
  predicate Owns(l: Layout, g: nat, c: int)
    requires g < 4
  {
    First(l, g) <= c <= Final(l, g)
  }

  predicate Covered(l: Layout, c: int) {
    Owns(l, NET, c) || Owns(l, SYS, c) || Owns(l, APP, c) || Owns(l, BLK, c)
  }

  /** The groups are disjoint and cover exactly the socket's cores. */
  ghost predicate Partitions(l: Layout) {
    && (forall c, g, h :: 0 <= g < h < 4 && Owns(l, g, c) ==> !Owns(l, h, c))
    && (forall c :: Covered(l, c) <==> l.netStart <= c <= l.blkEnd)
  }

  /** A populated layout is a partition exactly when its application group ends where its block group
      starts. */
  lemma PartitionsIff(l: Layout)
    requires Populated(l)
    ensures Partitions(l) <==> l.appEnd == l.blkStart - 1
  {
    assert Size(l, NET) >= 1 && Size(l, SYS) >= 1 && Size(l, APP) >= 1 && Size(l, BLK) >= 1;
    if l.appEnd < l.blkStart - 1 {
      assert !Covered(l, l.appEnd + 1);
    } else if l.appEnd >= l.blkStart {
      SharedCore(l);
    }
  }

  lemma SharedCore(l: Layout)
    requires Populated(l) && l.appEnd >= l.blkStart
    ensures !Partitions(l)
  {
    assert Size(l, NET) >= 1 && Size(l, SYS) >= 1 && Size(l, APP) >= 1 && Size(l, BLK) >= 1;
    if l.appEnd > l.blkEnd {
      assert Covered(l, l.appEnd);
    } else {
      assert Owns(l, APP, l.appEnd) && Owns(l, BLK, l.appEnd);
    }
  }

  /** A run that starts from an exact partition of both sockets stays one, whatever the readings. */
  lemma PartitionRun(ss: seq<AppState>, ps: seq<Readings>, i: nat, s: nat)
    requires TickRun(ss, ps) && i < |ss| && s < NUMBER_OF_SOCKETS
    ensures s < |ss[0].sockets| && s < |ss[i].sockets|
    ensures Partitions(ss[0].sockets[s]) <==> Partitions(ss[i].sockets[s])
    ensures ss[i].sockets[s].netStart == ss[0].sockets[s].netStart && ss[i].sockets[s].blkEnd == ss[0].sockets[s].blkEnd
  {
    RunKeepsSocket(ss, ps, i, s);
    PartitionsIff(ss[0].sockets[s]);
    PartitionsIff(ss[i].sockets[s]);
  }

  /** Socket `s`, ten cores wide, with the application group ending one core into the block group. */
  predicate CodedShape(l: Layout, s: nat) {
    Populated(l) && l.appEnd == l.blkStart + 1 && l.netStart == 10 * s && l.blkEnd == 10 * s + 9
  }

  /** Its groups overlap, count twelve cores and may end one past the socket. */
  ghost predicate Overlapping(l: Layout, s: nat) {
    && CodedShape(l, s) && !Partitions(l) && l.appEnd <= l.blkEnd + 1
    && Size(l, NET) + Size(l, SYS) + Size(l, APP) + Size(l, BLK) == 12
  }

  /** From the layout the module writes at start-up the groups are never a partition, in any run. */
  lemma CodedRunOverlaps(ss: seq<AppState>, ps: seq<Readings>, i: nat, s: nat)
    requires TickRun(ss, ps) && i < |ss| && s < NUMBER_OF_SOCKETS
    requires forall k :: 0 <= k < NUMBER_OF_SOCKETS ==> ss[0].sockets[k] == CodedLayout(k)
    ensures s < |ss[i].sockets| && Populated(ss[i].sockets[s]) && Overlapping(ss[i].sockets[s], s)
  {
    RunKeepsSocket(ss, ps, i, s);
    CodedSocketOverlaps(ss[0].sockets[s], ss[i].sockets[s], s);
  }

  lemma CodedSocketOverlaps(l: Layout, l': Layout, s: nat)
    requires s < NUMBER_OF_SOCKETS && l == CodedLayout(s) && SameSocket(l, l')
    ensures Overlapping(l', s)
  {
    assert Size(l', BLK) >= 1;
    PartitionsIff(l');
  }

  /** The measuring loops stay within the 20 entries of `p_dynamic` exactly while the block group of
      the second socket has two cores or more. */
  lemma ReadsInRange(ss: seq<AppState>, ps: seq<Readings>, i: nat, s: nat)
    requires TickRun(ss, ps) && i < |ss| && s < NUMBER_OF_SOCKETS
    requires forall k :: 0 <= k < NUMBER_OF_SOCKETS ==> ss[0].sockets[k] == CodedLayout(k)
    ensures s < |ss[i].sockets|
    ensures var l := ss[i].sockets[s];
            (forall g, c :: 0 <= g < 4 && Owns(l, g, c) ==> 0 <= c < MAX_CPUS) <==> (s == 1 ==> Size(l, BLK) >= 2)
  {
    CodedRunOverlaps(ss, ps, i, s);
    SocketReadsInRange(ss[i].sockets[s], s);
  }

  lemma SocketReadsInRange(l: Layout, s: nat)
    requires s < NUMBER_OF_SOCKETS && Populated(l)
    requires Overlapping(l, s)
    ensures (forall g, c :: 0 <= g < 4 && Owns(l, g, c) ==> 0 <= c < MAX_CPUS) <==> (s == 1 ==> Size(l, BLK) >= 2)
  {
    assert Size(l, NET) >= 1 && Size(l, SYS) >= 1 && Size(l, APP) >= 1 && Size(l, BLK) >= 1;
    if s == 1 && Size(l, BLK) < 2 {
      assert Owns(l, APP, MAX_CPUS);
    }
  }

  /** From the coded layout the network queues are spread evenly: once they have been spread, no two
      network cores ever differ by more than one queue. */
  lemma NetLoadsBalanced(ss: seq<AppState>, ps: seq<Readings>, k: nat, i: nat, a: nat, b: nat)
    requires TickRun(ss, ps) && k < i < |ss| && WellFormed(ss[k])
    requires forall s :: 0 <= s < NUMBER_OF_SOCKETS ==> ss[0].sockets[s] == CodedLayout(s)
    requires NetInvolved(ss[k].sockets[0], ps[k]) || NetInvolved(ss[k].sockets[1], ps[k])
    ensures WellFormed(ss[i])
    ensures var pool := NetPool(ss[i].sockets);
            a < |pool| && b < |pool| ==>
              -1 <= Count(ss[i].netHints, pool[a]) - Count(ss[i].netHints, pool[b]) <= 1
  {
    NetHintsFollow(ss, ps, k, i);
    CodedRunOverlaps(ss, ps, i, 0);
    CodedRunOverlaps(ss, ps, i, 1);
    NetPoolDistinct(ss[i].sockets);
    var pool := NetPool(ss[i].sockets);
    if a < |pool| && b < |pool| {
      LoadsBalanced(ss[i].netHints, pool, a, b);
    }
  }

  lemma NetPoolDistinct(sockets: seq<Layout>)
    requires |sockets| == NUMBER_OF_SOCKETS && Populated(sockets[0]) && Populated(sockets[1])
    requires Overlapping(sockets[0], 0) && Overlapping(sockets[1], 1)
    ensures Distinct(NetPool(sockets))
  {
    assert Size(sockets[0], NET) >= 1 && Size(sockets[1], NET) >= 1;
    assert Size(sockets[0], SYS) >= 1 && Size(sockets[0], APP) >= 1;
    PoolDistinct([sockets[0].netStart, sockets[1].netStart], [sockets[0].netEnd, sockets[1].netEnd], 2);
  }
}
