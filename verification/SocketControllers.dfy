/**
 The CROSS and PER modes: every socket has its own network and block ranges.  CROSS uses one or two
 sockets depending on load, PER always both; otherwise they are the same controller.
 */
module SocketControllers {
  import opened Timer
  import opened IrqSpread

  datatype Socket = Socket(netStart: int, netEnd: int, blkStart: int, blkEnd: int)

  /** Both queue groups have a core and the system-call group between them has two. */
  predicate Sound(k: Socket) {
    k.netStart <= k.netEnd && k.blkStart <= k.blkEnd && k.blkStart - k.netEnd >= 3
  }

  /** The averages of one socket's three groups. */
  datatype Load = Load(blk: int, net: int, sys: int)

  function LoadOf(k: Socket, p: Readings): Load
    requires Sound(k)
  {
    Load(Quotient(Total(p, k.blkStart, k.blkEnd), k.blkEnd - k.blkStart + 1),
         Quotient(Total(p, k.netStart, k.netEnd), k.netEnd - k.netStart + 1),
         Quotient(Total(p, k.netEnd + 1, k.blkStart - 1), k.blkStart - k.netEnd - 1))
  }

  /** The block boundary after a block turn.  `tested` is the value compared with `T_HIGH`, which the
      code reads at the index of the loop counter rather than of the socket. */
  function BlkTurn(k: Socket, v: Load, tested: int): Socket {
    if T_HIGH < tested then
      if v.blk > v.sys && k.blkStart - k.netEnd > 3 then k.(blkStart := k.blkStart - 1)
      else if v.blk < v.sys && k.blkStart != k.blkEnd then k.(blkStart := k.blkStart + 1)
      else k
    else if v.blk < T_LOW && k.blkStart != k.blkEnd then k.(blkStart := k.blkStart + 1)
    else k
  }

  /** The network boundary after a network turn. */
  function NetTurn(k: Socket, v: Load): Socket {
    if T_HIGH < v.net then
      if v.net > v.sys && k.blkStart - k.netEnd > 3 then k.(netEnd := k.netEnd + 1)
      else if v.net < v.sys && k.netStart != k.netEnd then k.(netEnd := k.netEnd - 1)
      else k
    else if v.net < T_LOW && k.netStart != k.netEnd then k.(netEnd := k.netEnd - 1)
    else k
  }

  lemma TurnsKeepSound(k: Socket, v: Load, tested: int)
    requires Sound(k)
    ensures Sound(BlkTurn(k, v, tested)) && Sound(NetTurn(k, v))
  {
  }

  /** How many sockets CROSS uses next. */
  function NextActive(active: int, mean: int): int {
    if T_HIGH < mean then (if active < NUMBER_OF_SOCKETS then active + 1 else active)
    else if T_LOW > mean then (if active > 1 then active - 1 else active)
    else active
  }

  datatype State = State(sockets: seq<Socket>, active: int, turn: int, netHints: seq<int>, blkHints: seq<int>)

  predicate WellFormed(s: State) {
    && |s.sockets| == NUMBER_OF_SOCKETS
    && (forall i :: 0 <= i < NUMBER_OF_SOCKETS ==> Sound(s.sockets[i]))
    && 1 <= s.active <= NUMBER_OF_SOCKETS
    && (s.turn == 0 || s.turn == 1)
  }

  /** What the reads one past the end of the averages return on one tick; they happen for socket 0 only.
      The first three are added to the mean that CROSS uses, `tested` is compared with `T_HIGH` later. */
  datatype Beyond = Beyond(blk: int, net: int, sys: int, tested: int)

  /** The mean that CROSS compares with its thresholds. */
  function Mean(s: State, p: Readings, o: Beyond): int
    requires WellFormed(s)
  {
    var one := LoadOf(s.sockets[1], p);
    var sum := one.blk + one.net + one.sys;
    if s.active == 1 then Quotient(sum, 3) else Quotient(sum + o.blk + o.net + o.sys, 6)
  }

  lemma MeanOf(s: State, p: Readings, o: Beyond, sum: int)
    requires WellFormed(s)
    requires var one := LoadOf(s.sockets[1], p);
             sum == one.blk + one.net + one.sys + if s.active == 2 then o.blk + o.net + o.sys else 0
    ensures Quotient(sum, s.active * 3) == Mean(s, p, o)
  {
    assert s.active == 1 || s.active == 2;
  }

  function Turned(s: State, p: Readings, o: Beyond, i: nat): Socket
    requires WellFormed(s) && i < NUMBER_OF_SOCKETS
  {
    var k := s.sockets[i];
    if s.turn == 1 then NetTurn(k, LoadOf(k, p))
    else BlkTurn(k, LoadOf(k, p), if i == 1 then LoadOf(k, p).blk else o.tested)
  }

  function BlkPool(sockets: seq<Socket>, active: nat): seq<int>
    requires |sockets| == NUMBER_OF_SOCKETS && active <= NUMBER_OF_SOCKETS
  {
    Pool([sockets[0].blkStart, sockets[1].blkStart], [sockets[0].blkEnd, sockets[1].blkEnd], active)
  }

  function NetPool(sockets: seq<Socket>, active: nat): seq<int>
    requires |sockets| == NUMBER_OF_SOCKETS && active <= NUMBER_OF_SOCKETS
  {
    Pool([sockets[0].netStart, sockets[1].netStart], [sockets[0].netEnd, sockets[1].netEnd], active)
  }

  /** One tick in which `active` sockets take part: each of them moves its boundary, the others stay,
      and the queues whose turn it is are spread over the active sockets. */
  predicate TurnTaken(s: State, active: int, p: Readings, o: Beyond, t: State)
    requires WellFormed(s) && 1 <= active <= NUMBER_OF_SOCKETS
  {
    && t.active == active && t.turn == 1 - s.turn && |t.sockets| == NUMBER_OF_SOCKETS
    && t.sockets[1] == Turned(s, p, o, 1)
    && t.sockets[0] == (if active == 2 then Turned(s, p, o, 0) else s.sockets[0])
    && (if s.turn == 0 then t.netHints == s.netHints && Spread(t.blkHints, BlkPool(t.sockets, active))
        else t.blkHints == s.blkHints && Spread(t.netHints, NetPool(t.sockets, active)))
  }

  predicate CrossTicked(s: State, p: Readings, o: Beyond, t: State) {
    WellFormed(s) ==>
      var active := NextActive(s.active, Mean(s, p, o));
      1 <= active <= NUMBER_OF_SOCKETS && TurnTaken(s, active, p, o, t)
  }

  predicate PerTicked(s: State, p: Readings, o: Beyond, t: State) {
    WellFormed(s) ==> TurnTaken(s, NUMBER_OF_SOCKETS, p, o, t)
  }

  class Controller {
    const netStart: array<int>
    const netEnd: array<int>
    const blkStart: array<int>
    const blkEnd: array<int>
    const blkAvg: array<int>
    const netAvg: array<int>
    const sysAvg: array<int>
    const netHints: array<int>
    const blkHints: array<int>
    var active: int
    var turn: int

    ghost predicate Shape() {
      && netStart.Length == netEnd.Length == blkStart.Length == blkEnd.Length == NUMBER_OF_SOCKETS
      && blkAvg.Length == netAvg.Length == sysAvg.Length == NUMBER_OF_SOCKETS
      && netHints.Length == NET_QUEUES && blkHints.Length == BLK_QUEUES
      && netStart != netEnd && netStart != blkStart && netEnd != blkStart && netEnd != blkEnd && blkStart != blkEnd
      && {blkAvg, netAvg, sysAvg} !! {netStart, netEnd, blkStart, blkEnd, netHints, blkHints}
      && blkAvg != netAvg && blkAvg != sysAvg && netAvg != sysAvg
      && {netHints, blkHints} !! {netStart, netEnd, blkStart, blkEnd} && netHints != blkHints
    }

    ghost function SocketOf(i: nat): Socket
      requires Shape() && i < NUMBER_OF_SOCKETS
      reads netStart, netEnd, blkStart, blkEnd
    {
      Socket(netStart[i], netEnd[i], blkStart[i], blkEnd[i])
    }

    ghost function Snapshot(): State
      requires Shape()
      reads this, netStart, netEnd, blkStart, blkEnd, netHints, blkHints
    {
      State([SocketOf(0), SocketOf(1)], active, turn, netHints[..], blkHints[..])
    }

    /** The initial layout of both modes. */
    constructor ()
      ensures Shape() && WellFormed(Snapshot()) && turn == 0 && active == 1
      ensures Snapshot().sockets == [Socket(0, 2, 6, 9), Socket(10, 12, 16, 19)]
    {
      blkStart := new int[2] [6, 16];
      blkEnd := new int[2] [9, 19];
      netStart := new int[2] [0, 10];
      netEnd := new int[2] [2, 12];
      blkAvg, netAvg, sysAvg := new int[2], new int[2], new int[2];
      netHints := new int[NET_QUEUES];
      blkHints := new int[BLK_QUEUES];
      active, turn := 1, 0;
    }

    ghost predicate Measured(i: nat, p: Readings)
      requires Shape() && i < NUMBER_OF_SOCKETS
      reads netStart, netEnd, blkStart, blkEnd, blkAvg, netAvg, sysAvg
    {
      Sound(SocketOf(i)) && Load(blkAvg[i], netAvg[i], sysAvg[i]) == LoadOf(SocketOf(i), p)
    }

    method MeasureSocket(i: nat, p: Readings)
      requires Shape() && i < NUMBER_OF_SOCKETS && Sound(SocketOf(i))
      modifies blkAvg, netAvg, sysAvg
      ensures Measured(i, p)
      ensures forall j :: 0 <= j < NUMBER_OF_SOCKETS && j != i ==>
                blkAvg[j] == old(blkAvg[j]) && netAvg[j] == old(netAvg[j]) && sysAvg[j] == old(sysAvg[j])
    {
      var blkUtil, blkCores := Accumulate(p, blkStart[i], blkEnd[i]);
      blkAvg[i] := Quotient(blkUtil, blkCores);
      var netUtil, netCores := Accumulate(p, netStart[i], netEnd[i]);
      netAvg[i] := Quotient(netUtil, netCores);
      var sysUtil, sysCores := Accumulate(p, netEnd[i] + 1, blkStart[i] - 1);
      sysAvg[i] := Quotient(sysUtil, sysCores);
    }

    /** The measuring loop; `sum` adds up the averages at the loop counter's own index. */
    method Measure(p: Readings, o: Beyond) returns (sum: int)
      requires Shape() && WellFormed(Snapshot())
      modifies blkAvg, netAvg, sysAvg
      ensures Measured(1, p) && (active == 2 ==> Measured(0, p))
      ensures var one := LoadOf(SocketOf(1), p);
              sum == one.blk + one.net + one.sys + if active == 2 then o.blk + o.net + o.sys else 0
    {
      sum := 0;
      assert Sound(Snapshot().sockets[0]) && Sound(Snapshot().sockets[1]);
      var i := 1;
      while i <= active
        invariant 1 <= i <= active + 1
        invariant i > 1 ==> Measured(1, p)
        invariant i > 2 ==> Measured(0, p)
        invariant var one := LoadOf(SocketOf(1), p);
                  sum == (if i > 1 then one.blk + one.net + one.sys else 0)
                       + (if i > 2 then o.blk + o.net + o.sys else 0)
      {
        MeasureSocket(NUMBER_OF_SOCKETS - i, p);
        sum := sum + (if i < NUMBER_OF_SOCKETS then blkAvg[i] else o.blk);
        sum := sum + (if i < NUMBER_OF_SOCKETS then netAvg[i] else o.net);
        sum := sum + (if i < NUMBER_OF_SOCKETS then sysAvg[i] else o.sys);
        i := i + 1;
      }
    }

    /** The boundary branches for one socket. */
    method AdjustSocket(i: nat, ghost p: Readings, o: Beyond)
      requires Shape() && 1 <= i <= NUMBER_OF_SOCKETS && WellFormed(Snapshot())
      requires Measured(NUMBER_OF_SOCKETS - i, p)
      modifies blkStart, netEnd
      ensures SocketOf(NUMBER_OF_SOCKETS - i) == Turned(old(Snapshot()), p, o, NUMBER_OF_SOCKETS - i)
      ensures SocketOf(i - 1) == old(SocketOf(i - 1))
    {
      var k := NUMBER_OF_SOCKETS - i;
      if turn == 0 {
        if T_HIGH < (if i < NUMBER_OF_SOCKETS then blkAvg[i] else o.tested) {
          if blkAvg[k] > sysAvg[k] {
            if blkStart[k] - netEnd[k] > 3 {
              blkStart[k] := blkStart[k] - 1;
            }
          } else if blkAvg[k] < sysAvg[k] {
            if blkStart[k] != blkEnd[k] {
              blkStart[k] := blkStart[k] + 1;
            }
          }
        } else if blkAvg[k] < T_LOW {
          if blkEnd[k] != blkStart[k] {
            blkStart[k] := blkStart[k] + 1;
          }
        }
      } else if turn == 1 {
        if T_HIGH < netAvg[k] {
          if netAvg[k] > sysAvg[k] {
            if blkStart[k] - netEnd[k] > 3 {
              netEnd[k] := netEnd[k] + 1;
            }
          } else if netAvg[k] < sysAvg[k] {
            if netStart[k] != netEnd[k] {
              netEnd[k] := netEnd[k] - 1;
            }
          }
        } else if netAvg[k] < T_LOW {
          if netStart[k] != netEnd[k] {
            netEnd[k] := netEnd[k] - 1;
          }
        }
      }
    }

    method AdjustActive(ghost p: Readings, o: Beyond)
      requires Shape() && WellFormed(Snapshot())
      requires Measured(1, p) && (active == 2 ==> Measured(0, p))
      modifies blkStart, netEnd
      ensures WellFormed(Snapshot())
      ensures SocketOf(1) == Turned(old(Snapshot()), p, o, 1)
      ensures SocketOf(0) == if active == 2 then Turned(old(Snapshot()), p, o, 0) else old(SocketOf(0))
    {
      ghost var s := Snapshot();
      assert Sound(s.sockets[0]) && Sound(s.sockets[1]);
      TurnsKeepSound(s.sockets[1], LoadOf(s.sockets[1], p), LoadOf(s.sockets[1], p).blk);
      TurnsKeepSound(s.sockets[0], LoadOf(s.sockets[0], p), o.tested);
      AdjustSocket(1, p, o);
      if active == 2 {
        AdjustSocket(2, p, o);
      }
    }

    /** Spreading the queues whose turn it is over the active sockets. */
    method SpreadQueues()
      requires Shape() && WellFormed(Snapshot())
      modifies this`turn, netHints, blkHints
      ensures turn == 1 - old(turn)
      ensures if old(turn) == 0 then
                && netHints[..] == old(netHints[..])
                && Spread(blkHints[..], BlkPool(Snapshot().sockets, active))
              else
                && blkHints[..] == old(blkHints[..])
                && Spread(netHints[..], NetPool(Snapshot().sockets, active))
    {
      assert Sound(Snapshot().sockets[0]) && Sound(Snapshot().sockets[1]);
      if turn == 0 {
        assert blkStart[..] == [blkStart[0], blkStart[1]] && blkEnd[..] == [blkEnd[0], blkEnd[1]];
        Redistribute(blkStart, blkEnd, active, blkHints);
        turn := 1;
      } else if turn == 1 {
        assert netStart[..] == [netStart[0], netStart[1]] && netEnd[..] == [netEnd[0], netEnd[1]];
        Redistribute(netStart, netEnd, active, netHints);
        turn := 0;
      }
    }

    /** Adjusting the active sockets, then spreading; `s` is the state before the tick. */
    method TakeTurn(ghost s: State, ghost p: Readings, o: Beyond)
      requires Shape() && WellFormed(s) && WellFormed(Snapshot()) && Snapshot() == s.(active := active)
      requires Measured(1, p) && (active == 2 ==> Measured(0, p))
      modifies this`turn, blkStart, netEnd, netHints, blkHints
      ensures TurnTaken(s, active, p, o, Snapshot())
    {
      AdjustActive(p, o);
      SpreadQueues();
    }

    method PerTick(p: Readings, o: Beyond)
      requires Shape() && WellFormed(Snapshot())
      modifies this, blkStart, netEnd, netHints, blkHints, blkAvg, netAvg, sysAvg
      ensures PerTicked(old(Snapshot()), p, o, Snapshot())
    {
      ghost var s := Snapshot();
      active := NUMBER_OF_SOCKETS;
      assert Snapshot() == s.(active := 2);
      var sum := Measure(p, o);
      TakeTurn(s, p, o);
    }

    /** One socket more when busy on average, one less when not. */
    method AdaptSockets(mean: int)
      modifies this`active
      ensures active == NextActive(old(active), mean)
    {
      if T_HIGH < mean {
        if active < NUMBER_OF_SOCKETS {
          active := active + 1;
        }
      } else if T_LOW > mean {
        if active > 1 {
          active := active - 1;
        }
      }
    }

    /** Measuring the sockets in use and adapting their number. */
    method ChooseSockets(p: Readings, o: Beyond)
      requires Shape() && WellFormed(Snapshot())
      modifies this`active, blkAvg, netAvg, sysAvg
      ensures Snapshot() == old(Snapshot()).(active := NextActive(old(active), Mean(old(Snapshot()), p, o)))
    {
      var sum := Measure(p, o);
      MeanOf(old(Snapshot()), p, o, sum);
      AdaptSockets(Quotient(sum, active * 3));
    }

    /** `again` is what the stray reads of the second measuring pass return; its sum is not used. */
    method CrossTick(p: Readings, o: Beyond, again: Beyond)
      requires Shape() && WellFormed(Snapshot())
      modifies this, blkStart, netEnd, netHints, blkHints, blkAvg, netAvg, sysAvg
      ensures CrossTicked(old(Snapshot()), p, o, Snapshot())
    {
      ghost var s := Snapshot();
      ChooseSockets(p, o);
      var sum := Measure(p, again);
      TakeTurn(s, p, o);
    }
  }

  // ----- Runs -----------------------------------------------------------------------------------

  predicate TickRun(cross: bool, ss: seq<State>, ps: seq<Readings>, os: seq<Beyond>) {
    && |ss| == |ps| + 1 == |os| + 1 && WellFormed(ss[0])
    && forall i {:trigger ps[i]} :: 0 <= i < |ps| ==>
         if cross then CrossTicked(ss[i], ps[i], os[i], ss[i + 1]) else PerTicked(ss[i], ps[i], os[i], ss[i + 1])
  }

  lemma TurnKeepsSound(s: State, active: int, p: Readings, o: Beyond, t: State)
    requires WellFormed(s) && 1 <= active <= NUMBER_OF_SOCKETS && TurnTaken(s, active, p, o, t)
    ensures WellFormed(t)
  {
    var one, zero := s.sockets[1], s.sockets[0];
    TurnsKeepSound(one, LoadOf(one, p), LoadOf(one, p).blk);
    TurnsKeepSound(zero, LoadOf(zero, p), o.tested);
  }

  /** In every run of either mode, whatever the readings and whatever the stray reads return, every
      socket keeps its boundaries apart and one or two sockets are in use, so every divisor and
      modulus is positive. */
  lemma {:induction false} RunKeepsSound(cross: bool, ss: seq<State>, ps: seq<Readings>, os: seq<Beyond>, i: nat)
    requires TickRun(cross, ss, ps, os) && i < |ss|
    ensures WellFormed(ss[i])
  {
    if i > 0 {
      RunKeepsSound(cross, ss, ps, os, i - 1);
      var s, p, o := ss[i - 1], ps[i - 1], os[i - 1];
      TurnKeepsSound(s, if cross then NextActive(s.active, Mean(s, p, o)) else 2, p, o, ss[i]);
    }
  }

  /** No tick moves the outer boundaries of a socket. */
  lemma {:induction false} RunKeepsEnds(cross: bool, ss: seq<State>, ps: seq<Readings>, os: seq<Beyond>, i: nat, k: nat)
    requires TickRun(cross, ss, ps, os) && i < |ss| && k < NUMBER_OF_SOCKETS
    ensures WellFormed(ss[i])
    ensures ss[i].sockets[k].netStart == ss[0].sockets[k].netStart && ss[i].sockets[k].blkEnd == ss[0].sockets[k].blkEnd
  {
    RunKeepsSound(cross, ss, ps, os, i);
    if i > 0 {
      RunKeepsEnds(cross, ss, ps, os, i - 1, k);
      var s, p, o := ss[i - 1], ps[i - 1], os[i - 1];
      assert TurnTaken(s, if cross then NextActive(s.active, Mean(s, p, o)) else 2, p, o, ss[i]);
    }
  }

  /** A turn of one kind does not move the other kind's ranges. */
  lemma OtherRangesKept(s: State, active: int, p: Readings, o: Beyond, t: State, used: nat)
    requires WellFormed(s) && 1 <= active <= 2 && TurnTaken(s, active, p, o, t) && used <= NUMBER_OF_SOCKETS
    ensures s.turn == 0 ==> NetPool(t.sockets, used) == NetPool(s.sockets, used)
    ensures s.turn == 1 ==> BlkPool(t.sockets, used) == BlkPool(s.sockets, used)
  {
  }

  /** In PER, from the second tick on, both kinds of hint are the spread of the queues over the current
      ranges of both sockets. */
  lemma PerHintsExact(ss: seq<State>, ps: seq<Readings>, os: seq<Beyond>, i: nat)
    requires TickRun(false, ss, ps, os) && 2 <= i < |ss|
    ensures WellFormed(ss[i])
    ensures Spread(ss[i].blkHints, BlkPool(ss[i].sockets, 2))
    ensures Spread(ss[i].netHints, NetPool(ss[i].sockets, 2))
  {
    RunKeepsSound(false, ss, ps, os, i - 2);
    RunKeepsSound(false, ss, ps, os, i - 1);
    RunKeepsSound(false, ss, ps, os, i);
    TwoTurns(ss[i - 2], ps[i - 2], os[i - 2], ss[i - 1], ps[i - 1], os[i - 1], ss[i]);
  }

  lemma TwoTurns(s: State, p: Readings, o: Beyond, t: State, p': Readings, o': Beyond, u: State)
    requires WellFormed(s) && PerTicked(s, p, o, t) && WellFormed(t) && PerTicked(t, p', o', u) && WellFormed(u)
    ensures Spread(u.blkHints, BlkPool(u.sockets, 2)) && Spread(u.netHints, NetPool(u.sockets, 2))
  {
    OtherRangesKept(t, 2, p', o', u, 2);
  }

  /** The tick of CROSS between two states of a run. */
  lemma CrossTurn(ss: seq<State>, ps: seq<Readings>, os: seq<Beyond>, i: nat)
    requires TickRun(true, ss, ps, os) && 1 <= i < |ss|
    ensures WellFormed(ss[i - 1]) && WellFormed(ss[i])
    ensures TurnTaken(ss[i - 1], ss[i].active, ps[i - 1], os[i - 1], ss[i])
  {
    RunKeepsSound(true, ss, ps, os, i - 1);
    RunKeepsSound(true, ss, ps, os, i);
    assert CrossTicked(ss[i - 1], ps[i - 1], os[i - 1], ss[i]);
  }

  /** The queues of one kind (0 for block, 1 for network) are spread over their current ranges in the
      `used` upper sockets. */
  predicate HintsOver(s: State, kind: int, used: nat) {
    && |s.sockets| == NUMBER_OF_SOCKETS && used <= NUMBER_OF_SOCKETS
    && (if kind == 0 then Spread(s.blkHints, BlkPool(s.sockets, used))
        else Spread(s.netHints, NetPool(s.sockets, used)))
  }

  /** A turn writes the hints of its own kind and keeps those of the other exact. */
  lemma TurnHints(s: State, active: int, p: Readings, o: Beyond, t: State, used: nat)
    requires WellFormed(s) && 1 <= active <= 2 && TurnTaken(s, active, p, o, t) && used <= NUMBER_OF_SOCKETS
    ensures HintsOver(t, s.turn, active)
    ensures HintsOver(s, t.turn, used) ==> HintsOver(t, t.turn, used)
  {
    OtherRangesKept(s, active, p, o, t, used);
  }

  /** In CROSS, right after a tick, the queues whose turn it was are spread over the sockets now in use,
      starting from the upper socket.  From the second tick on, the other queues are spread over the
      current ranges of the sockets that were in use one tick before, and so not over those in use now
      when their number has changed. */
  lemma CrossHintsExact(ss: seq<State>, ps: seq<Readings>, os: seq<Beyond>, i: nat)
    requires TickRun(true, ss, ps, os) && 1 <= i < |ss|
    ensures WellFormed(ss[i - 1]) && WellFormed(ss[i])
    ensures HintsOver(ss[i], 1 - ss[i].turn, ss[i].active)
    ensures i >= 2 ==> HintsOver(ss[i], ss[i].turn, ss[i - 1].active)
  {
    var s, t := ss[i - 1], ss[i];
    CrossTurn(ss, ps, os, i);
    TurnHints(s, t.active, ps[i - 1], os[i - 1], t, s.active);
    if i >= 2 {
      HintsAfter(ss, ps, os, i - 1);
    }
  }

  lemma HintsAfter(ss: seq<State>, ps: seq<Readings>, os: seq<Beyond>, i: nat)
    requires TickRun(true, ss, ps, os) && 1 <= i < |ss|
    ensures WellFormed(ss[i]) && HintsOver(ss[i], 1 - ss[i].turn, ss[i].active)
  {
    CrossTurn(ss, ps, os, i);
    TurnHints(ss[i - 1], ss[i].active, ps[i - 1], os[i - 1], ss[i], 0);
  }

  // ----- Which way the boundaries move ----------------------------------------------------------

  /** Exactly when the block boundary of a socket moves, and which way.  `tested` is the average that the
      code reads at its loop counter: the socket's own for the upper socket, anything for the lower. */
  lemma BlkMovesIff(s: State, active: int, p: Readings, o: Beyond, t: State, i: nat, blk: int, sys: int, tested: int)
    requires WellFormed(s) && 1 <= active <= 2 && TurnTaken(s, active, p, o, t) && i < NUMBER_OF_SOCKETS
    requires IsAverage(p, s.sockets[i].blkStart, s.sockets[i].blkEnd, blk)
    requires IsAverage(p, s.sockets[i].netEnd + 1, s.sockets[i].blkStart - 1, sys)
    requires tested == if i == 1 then blk else o.tested
    ensures var k, k', turns := s.sockets[i], t.sockets[i], s.turn == 0 && (i == 1 || active == 2);
            && (k'.blkStart < k.blkStart <==>
                  turns && tested > T_HIGH && blk > sys && k.blkStart - k.netEnd > 3)
            && (k'.blkStart > k.blkStart <==>
                  turns && k.blkStart != k.blkEnd && if tested > T_HIGH then blk < sys else blk < T_LOW)
            && -1 <= k'.blkStart - k.blkStart <= 1
  {
    assert Sound(s.sockets[i]);
  }

  lemma NetMovesIff(s: State, active: int, p: Readings, o: Beyond, t: State, i: nat, net: int, sys: int)
    requires WellFormed(s) && 1 <= active <= 2 && TurnTaken(s, active, p, o, t) && i < NUMBER_OF_SOCKETS
    requires IsAverage(p, s.sockets[i].netStart, s.sockets[i].netEnd, net)
    requires IsAverage(p, s.sockets[i].netEnd + 1, s.sockets[i].blkStart - 1, sys)
    ensures var k, k', turns := s.sockets[i], t.sockets[i], s.turn == 1 && (i == 1 || active == 2);
            && (k'.netEnd > k.netEnd <==>
                  turns && net > T_HIGH && net > sys && k.blkStart - k.netEnd > 3)
            && (k'.netEnd < k.netEnd <==>
                  turns && k.netStart != k.netEnd && if net > T_HIGH then net < sys else net < T_LOW)
            && -1 <= k'.netEnd - k.netEnd <= 1
  {
    assert Sound(s.sockets[i]);
  }

  /** Exactly when CROSS takes one socket more or one less; `b`, `n` and `y` are the averages of the upper
      socket's three groups. */
  lemma SocketsInUseIff(s: State, p: Readings, o: Beyond, t: State, b: int, n: int, y: int)
    requires WellFormed(s) && CrossTicked(s, p, o, t)
    requires IsAverage(p, s.sockets[1].blkStart, s.sockets[1].blkEnd, b)
    requires IsAverage(p, s.sockets[1].netStart, s.sockets[1].netEnd, n)
    requires IsAverage(p, s.sockets[1].netEnd + 1, s.sockets[1].blkStart - 1, y)
    ensures var sum := b + n + y + if s.active == 2 then o.blk + o.net + o.sys else 0;
            var mean := Quotient(sum, 3 * s.active);
            && (t.active == 2 <==> (if s.active == 1 then mean > T_HIGH else mean >= T_LOW))
            && 1 <= t.active <= 2
  {
  }

  /** In every run of either mode, whatever the stray reads return, a group that is hot and busier than the
      system-call group never loses a core. */
  lemma HotGroupsKeepCores(cross: bool, ss: seq<State>, ps: seq<Readings>, os: seq<Beyond>, j: nat, i: nat,
                           blk: int, net: int, sys: int)
    requires TickRun(cross, ss, ps, os) && j < |ps| && i < NUMBER_OF_SOCKETS && |ss[j].sockets| == NUMBER_OF_SOCKETS
    requires IsAverage(ps[j], ss[j].sockets[i].blkStart, ss[j].sockets[i].blkEnd, blk)
    requires IsAverage(ps[j], ss[j].sockets[i].netStart, ss[j].sockets[i].netEnd, net)
    requires IsAverage(ps[j], ss[j].sockets[i].netEnd + 1, ss[j].sockets[i].blkStart - 1, sys)
    ensures |ss[j + 1].sockets| == NUMBER_OF_SOCKETS
    ensures blk > T_HIGH && blk > sys ==> ss[j + 1].sockets[i].blkStart <= ss[j].sockets[i].blkStart
    ensures net > T_HIGH && net > sys ==> ss[j + 1].sockets[i].netEnd >= ss[j].sockets[i].netEnd
  {
    var s, p, o, t := ss[j], ps[j], os[j], ss[j + 1];
    RunKeepsSound(cross, ss, ps, os, j);
    var active := if cross then NextActive(s.active, Mean(s, p, o)) else 2;
    assert TurnTaken(s, active, p, o, t);
    BlkMovesIff(s, active, p, o, t, i, blk, sys, if i == 1 then blk else o.tested);
    NetMovesIff(s, active, p, o, t, i, net, sys);
  }
}
