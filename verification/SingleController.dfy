/**
 The SINGLE mode: one socket, whose cores 10..19 are split into network queues, network system calls
 and block queues.  Ticks alternate between adjusting the block boundary and the network boundary.
 */
module SingleController {
  import opened Timer
  import opened IrqSpread

  /** Both queue groups have a core and the network system-call group between them has two. */
  predicate Bounds(netEnd: int, blkStart: int) {
    NET_START <= netEnd && blkStart <= BLK_END && blkStart - netEnd >= 3
  }

  function BlkSize(b: int): int { BLK_END - b + 1 }

  function NetSize(n: int): int { n - NET_START + 1 }

  function BlkUtil(b: int, p: Readings): int { Total(p, b, BLK_END) }

  function NetUtil(n: int, p: Readings): int { Total(p, NET_START, n) }

  function SysUtil(n: int, b: int, p: Readings): int { Total(p, n + 1, b - 1) }

  function BlkAverage(b: int, p: Readings): int
    requires b <= BLK_END
  {
    Quotient(BlkUtil(b, p), BlkSize(b))
  }

  function NetAverage(n: int, p: Readings): int
    requires NET_START <= n
  {
    Quotient(NetUtil(n, p), NetSize(n))
  }

  function SysAverage(n: int, b: int, p: Readings): int
    requires b - n >= 2
  {
    Quotient(SysUtil(n, b, p), b - n - 1)
  }

  // ----- When a boundary moves ------------------------------------------------------------------

  predicate BlkHot(b: int, p: Readings) { BlkUtil(b, p) > T_HIGH * BlkSize(b) }

  predicate BlkCold(b: int, p: Readings) { BlkUtil(b, p) < T_LOW * BlkSize(b) }

  predicate NetHot(n: int, p: Readings) { NetUtil(n, p) > T_HIGH * NetSize(n) }

  predicate NetCold(n: int, p: Readings) { NetUtil(n, p) < T_LOW * NetSize(n) }

  /** The block group takes a core: it is hot, busier than the system-call group, and that group has
      more than two cores. */
  predicate BlkGrows(n: int, b: int, p: Readings)
    requires Bounds(n, b)
  {
    BlkHot(b, p) && BlkAverage(b, p) > SysAverage(n, b, p) && b - n > 3
  }

  /** The block group gives a core up, keeping at least one.  While hot its average is compared with
      the system-call total over all cores below the group but one. */
  predicate BlkShrinks(n: int, b: int, p: Readings)
    requires Bounds(n, b)
  {
    && b != BLK_END
    && (if BlkHot(b, p) then
          && BlkAverage(b, p) <= SysAverage(n, b, p)
          && BlkAverage(b, p) < Quotient(SysUtil(n, b, p), b - NET_START - 1)
        else BlkCold(b, p))
  }

  predicate NetGrows(n: int, b: int, p: Readings)
    requires Bounds(n, b)
  {
    NetHot(n, p) && NetAverage(n, p) > SysAverage(n, b, p) && b - n > 3
  }

  /** The system-call group has only two cores, so it moves up as a whole at the block group's cost. */
  predicate NetPushes(n: int, b: int, p: Readings)
    requires Bounds(n, b)
  {
    && NetHot(n, p) && NetAverage(n, p) > SysAverage(n, b, p) && b - n == 3
    && SysAverage(n, b, p) > BlkAverage(b, p) && b != BLK_END
  }

  predicate NetShrinks(n: int, b: int, p: Readings)
    requires Bounds(n, b)
  {
    (NetHot(n, p) || NetCold(n, p)) && NetAverage(n, p) < SysAverage(n, b, p) && n != NET_START
  }

  datatype Single = Single(netEnd: int, blkStart: int, turn: int, netHints: seq<int>, blkHints: seq<int>)

  predicate WellFormed(s: Single) {
    Bounds(s.netEnd, s.blkStart) && (s.turn == 0 || s.turn == 1)
  }

  /** One tick.  A turn writes all the hints of its own kind of queue and none of the other kind. */
  predicate Ticked(s: Single, p: Readings, t: Single) {
    WellFormed(s) ==>
      var n, b := s.netEnd, s.blkStart;
      && t.turn == 1 - s.turn
      && |t.netHints| == |s.netHints| && |t.blkHints| == |s.blkHints|
      && (if s.turn == 0 then
            && t.netEnd == n
            && t.blkStart == (if BlkGrows(n, b, p) then b - 1 else if BlkShrinks(n, b, p) then b + 1 else b)
            && t.netHints == s.netHints
            && Spread(t.blkHints, Cores(t.blkStart, BLK_END))
          else
            && t.netEnd == (if NetGrows(n, b, p) || NetPushes(n, b, p) then n + 1
                            else if NetShrinks(n, b, p) then n - 1 else n)
            && t.blkStart == (if NetPushes(n, b, p) then b + 1 else b)
            && t.blkHints == s.blkHints
            && Spread(t.netHints, Cores(NET_START, t.netEnd)))
  }

  class Controller {
    var netEnd: int
    var blkStart: int
    var turn: int
    const netHints: array<int>
    const blkHints: array<int>

    ghost predicate Shape() {
      netHints.Length == NET_QUEUES && blkHints.Length == BLK_QUEUES && netHints != blkHints
    }

    ghost function State(): Single
      reads this, netHints, blkHints
    {
      Single(netEnd, blkStart, turn, netHints[..], blkHints[..])
    }

    constructor ()
      ensures Shape() && WellFormed(State()) && fresh(netHints) && fresh(blkHints)
      ensures netEnd == 12 && blkStart == 16 && turn == 0
    {
      blkStart, netEnd, turn := 16, 12, 0;
      netHints := new int[NET_QUEUES];
      blkHints := new int[BLK_QUEUES];
    }

    method Tick(p: Readings)
      requires Shape() && WellFormed(State())
      modifies this, netHints, blkHints
      ensures Ticked(old(State()), p, State())
    {
      var blkUtil, blkCores := Accumulate(p, blkStart, BLK_END);
      var netUtil, netCores := Accumulate(p, NET_START, netEnd);
      var sysUtil, sysCores := Accumulate(p, netEnd + 1, blkStart - 1);
      if turn == 0 {
        TurnForBlk(p, blkUtil, sysUtil);
      } else if turn == 1 {
        TurnForNet(p, blkUtil, netUtil, sysUtil);
      }
    }

    method TurnForBlk(ghost p: Readings, blkUtil: int, sysUtil: int)
      requires Shape() && WellFormed(State()) && turn == 0
      requires blkUtil == BlkUtil(blkStart, p) && sysUtil == SysUtil(netEnd, blkStart, p)
      modifies this, blkHints
      ensures Ticked(old(State()), p, State())
    {
      var size := BLK_END - blkStart + 1;
      if blkUtil > T_HIGH * size {
        if Quotient(blkUtil, size) > Quotient(sysUtil, blkStart - netEnd - 1) {
          if blkStart - netEnd > 3 {
            blkStart := blkStart - 1;
          }
        } else if Quotient(blkUtil, size) < Quotient(sysUtil, blkStart - NET_START - 1) {
          if blkStart != BLK_END {
            blkStart := blkStart + 1;
          }
        }
      } else if blkUtil < T_LOW * size && BLK_END != blkStart {
        blkStart := blkStart + 1;
      }
      Assign(blkHints, blkStart, BLK_END);
      turn := 1;
    }

    method TurnForNet(ghost p: Readings, blkUtil: int, netUtil: int, sysUtil: int)
      requires Shape() && WellFormed(State()) && turn == 1
      requires blkUtil == BlkUtil(blkStart, p) && sysUtil == SysUtil(netEnd, blkStart, p)
      requires netUtil == NetUtil(netEnd, p)
      modifies this, netHints
      ensures Ticked(old(State()), p, State())
    {
      var size := netEnd - NET_START + 1;
      if netUtil > T_HIGH * size {
        if Quotient(netUtil, size) > Quotient(sysUtil, blkStart - netEnd - 1) {
          if blkStart - netEnd > 3 {
            netEnd := netEnd + 1;
          } else if Quotient(sysUtil, blkStart - netEnd - 1) > Quotient(blkUtil, BLK_END - blkStart + 1) {
            if BLK_END != blkStart {
              blkStart := blkStart + 1;
              netEnd := netEnd + 1;
            }
          }
        } else if Quotient(netUtil, size) < Quotient(sysUtil, blkStart - netEnd - 1) {
          if NET_START != netEnd {
            netEnd := netEnd - 1;
          }
        }
      } else if netUtil < T_LOW * size {
        if Quotient(netUtil, size) < Quotient(sysUtil, blkStart - netEnd - 1) {
          if NET_START != netEnd {
            netEnd := netEnd - 1;
          }
        }
      }
      Assign(netHints, NET_START, netEnd);
      turn := 0;
    }

    /** The single-socket redistribution loop over cores `lo..hi`. */
    method Assign(hints: array<int>, lo: int, hi: int)
      requires lo <= hi
      modifies hints
      ensures Spread(hints[..], Cores(lo, hi))
    {
      for j := 0 to hints.Length
        invariant forall m :: 0 <= m < j ==> hints[m] == Cores(lo, hi)[m % |Cores(lo, hi)|]
      {
        var core := j % (hi - lo + 1);
        hints[j] := core + lo;
      }
    }
  }

  // ----- Runs -----------------------------------------------------------------------------------

  predicate TickRun(ss: seq<Single>, ps: seq<Readings>) {
    && |ss| == |ps| + 1 && WellFormed(ss[0]) && ss[0].turn == 0
    && forall i {:trigger ps[i]} :: 0 <= i < |ps| ==> Ticked(ss[i], ps[i], ss[i + 1])
  }

  /** Block hints stay close to the block group: inside it right after a block turn, and at most one
      core below it after the network turn that follows. */
  predicate HintsNear(s: Single) {
    && (forall j :: 0 <= j < |s.blkHints| ==>
          (if s.turn == 1 then s.blkStart else s.blkStart - 1) <= s.blkHints[j] <= BLK_END)
  }

  lemma TickKeepsBounds(s: Single, p: Readings, t: Single)
    requires WellFormed(s) && Ticked(s, p, t)
    ensures WellFormed(t)
    ensures s.turn == 0 || HintsNear(s) ==> HintsNear(t)
  {
    if s.turn == 0 {
      assert |Cores(t.blkStart, BLK_END)| == BlkSize(t.blkStart);
    }
  }

  /** In every run, under any readings, both boundaries keep their distance -- so no divisor is ever
      zero -- and after the first tick every block hint is near the block group. */
  lemma {:induction false} RunKeepsBounds(ss: seq<Single>, ps: seq<Readings>, i: nat)
    requires TickRun(ss, ps) && i < |ss|
    ensures WellFormed(ss[i]) && ss[i].turn == i % 2
    ensures i > 0 ==> HintsNear(ss[i])
  {
    if i > 0 {
      RunKeepsBounds(ss, ps, i - 1);
      assert Ticked(ss[i - 1], ps[i - 1], ss[i]);
      TickKeepsBounds(ss[i - 1], ps[i - 1], ss[i]);
    }
  }

  /** From the second tick on the network hints are the spread of the queues over the current network
      group; right after each block turn the block hints are the spread over the block group. */
  lemma HintsExact(ss: seq<Single>, ps: seq<Readings>, i: nat)
    requires TickRun(ss, ps) && 1 <= i < |ss|
    ensures WellFormed(ss[i])
    ensures i >= 2 ==> Spread(ss[i].netHints, Cores(NET_START, ss[i].netEnd))
    ensures ss[i].turn == 1 ==> Spread(ss[i].blkHints, Cores(ss[i].blkStart, BLK_END))
  {
    RunKeepsBounds(ss, ps, i);
    RunKeepsBounds(ss, ps, i - 1);
    assert Ticked(ss[i - 1], ps[i - 1], ss[i]);
    if i >= 2 && ss[i].turn == 1 {
      RunKeepsBounds(ss, ps, i - 2);
      assert Ticked(ss[i - 2], ps[i - 2], ss[i - 1]);
    }
  }

  /** Each tick moves each boundary by at most one core, and only the boundary whose turn it is --
      except that a network turn may push both up together, and then only when the system-call group
      is at its minimum, which keeps its size. */
  lemma TickMovesOneCore(s: Single, p: Readings, t: Single)
    requires WellFormed(s) && Ticked(s, p, t)
    ensures -1 <= t.netEnd - s.netEnd <= 1 && -1 <= t.blkStart - s.blkStart <= 1
    ensures t.netEnd != s.netEnd && t.blkStart != s.blkStart ==>
              s.turn == 1 && s.blkStart - s.netEnd == t.blkStart - t.netEnd == 3
  {
  }

  // ----- Which way the boundaries move ----------------------------------------------------------

  /** The averages of the three groups in state `s`. */
  predicate Averages(s: Single, p: Readings, blk: int, net: int, sys: int) {
    && IsAverage(p, s.blkStart, BLK_END, blk) && IsAverage(p, NET_START, s.netEnd, net)
    && IsAverage(p, s.netEnd + 1, s.blkStart - 1, sys)
  }

  /** Both boundaries move up together: the network group is hot and busier than the system-call group,
      which has only two cores and is busier than the block group. */
  predicate Pushed(s: Single, p: Readings, blk: int, net: int, sys: int) {
    && s.turn == 1 && Total(p, NET_START, s.netEnd) > T_HIGH * (s.netEnd - NET_START + 1)
    && net > sys > blk && s.blkStart - s.netEnd == 3 && s.blkStart != BLK_END
  }

  /** Exactly when the block boundary moves, and which way. */
  lemma BlkMovesIff(s: Single, p: Readings, t: Single, blk: int, net: int, sys: int)
    requires WellFormed(s) && Ticked(s, p, t) && Averages(s, p, blk, net, sys)
    ensures var util, size := Total(p, s.blkStart, BLK_END), BLK_END - s.blkStart + 1;
            && (t.blkStart < s.blkStart <==>
                  s.turn == 0 && util > T_HIGH * size && blk > sys && s.blkStart - s.netEnd > 3)
            && (t.blkStart > s.blkStart <==>
                  || Pushed(s, p, blk, net, sys)
                  || (s.turn == 0 && s.blkStart != BLK_END &&
                      if util > T_HIGH * size then
                        blk <= sys && blk < Quotient(Total(p, s.netEnd + 1, s.blkStart - 1), s.blkStart - NET_START - 1)
                      else util < T_LOW * size))
  {
  }

  lemma NetMovesIff(s: Single, p: Readings, t: Single, blk: int, net: int, sys: int)
    requires WellFormed(s) && Ticked(s, p, t) && Averages(s, p, blk, net, sys)
    ensures var util, size := Total(p, NET_START, s.netEnd), s.netEnd - NET_START + 1;
            && (t.netEnd > s.netEnd <==>
                  || Pushed(s, p, blk, net, sys)
                  || (s.turn == 1 && util > T_HIGH * size && net > sys && s.blkStart - s.netEnd > 3))
            && (t.netEnd < s.netEnd <==>
                  s.turn == 1 && s.netEnd != NET_START && net < sys && (util > T_HIGH * size || util < T_LOW * size))
  {
  }

  /** In every run, a group that is hot and busier than the system-call group never loses a core. */
  lemma HotGroupsKeepCores(ss: seq<Single>, ps: seq<Readings>, j: nat, blk: int, net: int, sys: int)
    requires TickRun(ss, ps) && j < |ps| && Averages(ss[j], ps[j], blk, net, sys)
    ensures var s, t, p := ss[j], ss[j + 1], ps[j];
            && (Total(p, s.blkStart, BLK_END) > T_HIGH * (BLK_END - s.blkStart + 1) && blk > sys ==>
                  t.blkStart <= s.blkStart)
            && (Total(p, NET_START, s.netEnd) > T_HIGH * (s.netEnd - NET_START + 1) && net > sys ==>
                  t.netEnd >= s.netEnd)
  {
    RunKeepsBounds(ss, ps, j);
    assert Ticked(ss[j], ps[j], ss[j + 1]);
    BlkMovesIff(ss[j], ps[j], ss[j + 1], blk, net, sys);
    NetMovesIff(ss[j], ps[j], ss[j + 1], blk, net, sys);
  }
}
