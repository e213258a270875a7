/**
 The CPU masks of service threads.  Each mode reads the current boundaries and allows a thread the
 cores of one group.
 */
module Affinity {
  import opened Timer
  import IrqSpread
  import Dynamic
  import SingleController
  import Sock = SocketControllers
  import App = AppController
  import AppWitness

  /** Cores `lo` to `hi - 1`. */
  function Range(lo: int, hi: int): (r: set<int>)
    ensures forall c :: c in r <==> lo <= c < hi
    decreases hi - lo
  {
    if hi <= lo then {} else Range(lo, hi - 1) + {hi - 1}
  }

  /** The loop that sets one bit after another. */
  method Fill(mask: set<int>, lo: int, hi: int) returns (r: set<int>)
    ensures r == mask + Range(lo, hi)
  {
    r := mask;
    var c := lo;
    while c < hi
      invariant lo <= c && (c <= hi || c == lo) && r == mask + Range(lo, c)
    {
      r := r + {c};
      c := c + 1;
    }
  }

  /** Three disjoint sets of cores that together are `all`. */
  predicate Splits(a: set<int>, b: set<int>, c: set<int>, all: set<int>) {
    a !! b && a !! c && b !! c && a + b + c == all
  }

  /** How many values each mode prints. */
  const SINGLE_VALUES := 2
  const CROSS_VALUES := 9
  const PER_VALUES := 8
  const APP_VALUES := 12

  // ----- SINGLE ---------------------------------------------------------------------------------

  function SingleMask(netEnd: int, fileStart: int, file: bool): set<int> {
    if file then Range(fileStart, MAX_CPUS) else Range(netEnd + 1, fileStart)
  }

  method SetCpuSingle(text: string, file: bool) returns (mask: set<int>)
    ensures var v := Dynamic.Values(text, SINGLE_VALUES); mask == SingleMask(v[0], v[1], file)
  {
    var v := Dynamic.ReadValues(text, SINGLE_VALUES);
    if file {
      mask := Fill({}, v[1], MAX_CPUS);
    } else {
      mask := Fill({}, v[0] + 1, v[1]);
    }
  }

  /** The mask that a service thread gets from what the module prints in state `s`. */
  function SingleMaskIn(s: SingleController.Single, file: bool): set<int> {
    var v := Dynamic.Values(Dynamic.Printed([s.netEnd, s.blkStart]), SINGLE_VALUES);
    SingleMask(v[0], v[1], file)
  }

  /** In every reachable state the cores of the network queues, the network mask and the file mask are
      non-empty, disjoint, and together all of 10..19. */
  lemma SingleMasksPartition(ss: seq<SingleController.Single>, ps: seq<Readings>, i: nat)
    requires SingleController.TickRun(ss, ps) && i < |ss|
    ensures var queues := Range(NET_START, ss[i].netEnd + 1);
            var net, file := SingleMaskIn(ss[i], false), SingleMaskIn(ss[i], true);
            && queues != {} && net != {} && file != {}
            && Splits(queues, net, file, Range(10, 20))
  {
    SingleController.RunKeepsBounds(ss, ps, i);
    var n, b := ss[i].netEnd, ss[i].blkStart;
    Dynamic.ShortIff(n);
    Dynamic.ShortIff(b);
    Dynamic.RoundTrip([n, b]);
    SingleMasks(n, b);
  }

  /** In every reachable state a network thread gets the cores between the two boundaries and a file thread
      those from the block boundary on. */
  lemma SingleMaskMembers(ss: seq<SingleController.Single>, ps: seq<Readings>, i: nat, c: int)
    requires SingleController.TickRun(ss, ps) && i < |ss|
    ensures c in SingleMaskIn(ss[i], false) <==> ss[i].netEnd < c < ss[i].blkStart
    ensures c in SingleMaskIn(ss[i], true) <==> ss[i].blkStart <= c <= 19
  {
    SingleController.RunKeepsBounds(ss, ps, i);
    Dynamic.ShortIff(ss[i].netEnd);
    Dynamic.ShortIff(ss[i].blkStart);
    Dynamic.RoundTrip([ss[i].netEnd, ss[i].blkStart]);
  }

  /** Right after each block turn every block queue interrupts a core of the file mask; from the second tick
      on no network queue interrupts a core of either mask. */
  lemma HintsMeetMasks(ss: seq<SingleController.Single>, ps: seq<Readings>, i: nat, j: nat)
    requires SingleController.TickRun(ss, ps) && 1 <= i < |ss|
    ensures ss[i].turn == 1 && j < |ss[i].blkHints| ==> ss[i].blkHints[j] in SingleMaskIn(ss[i], true)
    ensures i >= 2 && j < |ss[i].netHints| ==>
              ss[i].netHints[j] !in SingleMaskIn(ss[i], false) && ss[i].netHints[j] !in SingleMaskIn(ss[i], true)
  {
    SingleController.RunKeepsBounds(ss, ps, i);
    SingleController.HintsExact(ss, ps, i);
    if j < |ss[i].blkHints| {
      SingleMaskMembers(ss, ps, i, ss[i].blkHints[j]);
    }
    if j < |ss[i].netHints| {
      SingleMaskMembers(ss, ps, i, ss[i].netHints[j]);
    }
  }

  lemma SingleMasks(n: int, b: int)
    requires SingleController.Bounds(n, b)
    ensures var queues, net, file := Range(NET_START, n + 1), SingleMask(n, b, false), SingleMask(n, b, true);
            && queues != {} && net != {} && file != {}
            && Splits(queues, net, file, Range(10, 20))
  {
    assert NET_START in Range(NET_START, n + 1) && n + 1 in Range(n + 1, b) && b in Range(b, MAX_CPUS);
  }

  // ----- CROSS ----------------------------------------------------------------------------------

  type Sockets = ks: seq<Sock.Socket> | |ks| == NUMBER_OF_SOCKETS
    witness seq(2, i => Sock.Socket(0, 0, 0, 0))

  /** What CROSS and PER print of their sockets. */
  function Flat(ks: Sockets): seq<int> {
    [ks[0].netStart, ks[0].netEnd, ks[0].blkStart, ks[0].blkEnd,
     ks[1].netStart, ks[1].netEnd, ks[1].blkStart, ks[1].blkEnd]
  }

  /** In this order, one to a line. */
  lemma PerPrints(ks: Sockets)
    ensures Dynamic.Printed(Flat(ks)) ==
            Four(ks[0].netStart, ks[0].netEnd, ks[0].blkStart, ks[0].blkEnd,
                 Four(ks[1].netStart, ks[1].netEnd, ks[1].blkStart, ks[1].blkEnd, ""))
  {
    var k0, k1 := ks[0], ks[1];
    var upper := [k1.netStart, k1.netEnd, k1.blkStart, k1.blkEnd];
    assert Flat(ks) == [k0.netStart, k0.netEnd, k0.blkStart, k0.blkEnd] + upper && upper + [] == upper;
    FourPrints(k1.netStart, k1.netEnd, k1.blkStart, k1.blkEnd, []);
    FourPrints(k0.netStart, k0.netEnd, k0.blkStart, k0.blkEnd, upper);
  }

  /** Four values on their lines, and what follows. */
  function Four(a: int, b: int, c: int, d: int, tail: string): string {
    Two(a, b, Two(c, d, tail))
  }

  function Two(a: int, b: int, tail: string): string {
    Dynamic.LineThen(Dynamic.Decimal(a), Dynamic.LineThen(Dynamic.Decimal(b), tail))
  }

  lemma FourPrints(a: int, b: int, c: int, d: int, xs: seq<int>)
    ensures Dynamic.Printed([a, b, c, d] + xs) == Four(a, b, c, d, Dynamic.Printed(xs))
  {
    assert [a, b, c, d] + xs == [a, b] + ([c, d] + xs);
    Dynamic.PrintedTwo(a, b, [c, d] + xs);
    Dynamic.PrintedTwo(c, d, xs);
  }

  /** One pass of the loop with which CROSS and PER print their sockets. */
  method ShowSocket(text: string, ghost xs: seq<int>, k: Sock.Socket) returns (r: string)
    requires text == Dynamic.Printed(xs)
    ensures r == Dynamic.Printed(xs + [k.netStart, k.netEnd, k.blkStart, k.blkEnd])
  {
    r := Dynamic.Show(text, xs, k.netStart);
    r := Dynamic.Show(r, xs + [k.netStart], k.netEnd);
    r := Dynamic.Show(r, xs + [k.netStart] + [k.netEnd], k.blkStart);
    r := Dynamic.Show(r, xs + [k.netStart] + [k.netEnd] + [k.blkStart], k.blkEnd);
    assert xs + [k.netStart, k.netEnd, k.blkStart, k.blkEnd] ==
           xs + [k.netStart] + [k.netEnd] + [k.blkStart] + [k.blkEnd];
  }

  lemma FlatSplits(before: seq<int>, ks: Sockets, i: nat)
    requires i < 2
    ensures before + Flat(ks)[..4 * (i + 1)] ==
            before + Flat(ks)[..4 * i] + [ks[i].netStart, ks[i].netEnd, ks[i].blkStart, ks[i].blkEnd]
  {
    assert Flat(ks)[..4 * (i + 1)] ==
           Flat(ks)[..4 * i] + [ks[i].netStart, ks[i].netEnd, ks[i].blkStart, ks[i].blkEnd];
  }

  /** The whole loop; CROSS prints the number of sockets before it. */
  method ShowSockets(ks: Sockets, before: seq<int>, start: string) returns (text: string)
    requires start == Dynamic.Printed(before)
    ensures text == Dynamic.Printed(before + Flat(ks))
  {
    text := start;
    ghost var xs := before;
    for i := 0 to NUMBER_OF_SOCKETS
      invariant text == Dynamic.Printed(xs) && xs == before + Flat(ks)[..4 * i]
    {
      text := ShowSocket(text, xs, ks[i]);
      xs := xs + [ks[i].netStart, ks[i].netEnd, ks[i].blkStart, ks[i].blkEnd];
      FlatSplits(before, ks, i);
    }
    assert Flat(ks)[..8] == Flat(ks);
  }

  /** The sockets read back from eight consecutive values. */
  function Unflat(v: seq<int>): Sockets
    requires |v| == PER_VALUES
  {
    [Sock.Socket(v[0], v[1], v[2], v[3]), Sock.Socket(v[4], v[5], v[6], v[7])]
  }

  /** The cores of one group of one socket. */
  function SocketCores(k: Sock.Socket, file: bool): set<int> {
    if file then Range(k.blkStart, k.blkEnd + 1) else Range(k.netEnd + 1, k.blkStart)
  }

  /** What the loops read at index `k`: beyond the two sockets, anything may be there. */
  function SocketAt(k: int, ks: Sockets, beyond: int -> Sock.Socket): Sock.Socket {
    if 0 <= k < NUMBER_OF_SOCKETS then ks[k] else beyond(k)
  }

  /** The group's cores in the `active` upper sockets. */
  function CrossMask(active: int, ks: Sockets, beyond: int -> Sock.Socket, file: bool): set<int> {
    if active <= 0 then {}
    else CrossMask(active - 1, ks, beyond, file) + SocketCores(SocketAt(NUMBER_OF_SOCKETS - active, ks, beyond), file)
  }

  method SetCpuCross(text: string, beyond: int -> Sock.Socket, file: bool) returns (mask: set<int>)
    ensures var v := Dynamic.Values(text, CROSS_VALUES); mask == CrossMask(v[0], Unflat(v[1..]), beyond, file)
  {
    var v := Dynamic.ReadValues(text, CROSS_VALUES);
    mask := CrossLoop(v[0], Unflat(v[1..]), beyond, file);
  }

  /** The loop over the sockets in use. */
  method CrossLoop(active: int, ks: Sockets, beyond: int -> Sock.Socket, file: bool) returns (mask: set<int>)
    ensures mask == CrossMask(active, ks, beyond, file)
  {
    mask := {};
    var i := 1;
    while i <= active
      invariant 1 <= i && (i <= active + 1 || i == 1) && mask == CrossMask(i - 1, ks, beyond, file)
    {
      mask := FillSocket(mask, SocketAt(NUMBER_OF_SOCKETS - i, ks, beyond), file);
      i := i + 1;
    }
  }

  method FillSocket(mask: set<int>, k: Sock.Socket, file: bool) returns (r: set<int>)
    ensures r == mask + SocketCores(k, file)
  {
    if file {
      r := Fill(mask, k.blkStart, k.blkEnd + 1);
    } else {
      r := Fill(mask, k.netEnd + 1, k.blkStart);
    }
  }

  // ----- PER ------------------------------------------------------------------------------------

  /** The file loop stops before the last core of the group. */
  function PerMask(k: Sock.Socket, file: bool): set<int> {
    if file then Range(k.blkStart, k.blkEnd) else Range(k.netEnd + 1, k.blkStart)
  }

  method SetCpuPer(text: string, file: bool, core: nat) returns (mask: set<int>)
    requires core < MAX_CPUS
    ensures mask == PerMask(Unflat(Dynamic.Values(text, PER_VALUES))[core / 10], file)
  {
    var v := Dynamic.ReadValues(text, PER_VALUES);
    var k := Unflat(v)[core / 10];
    if file {
      mask := Fill({}, k.blkStart, k.blkEnd);
    } else {
      mask := Fill({}, k.netEnd + 1, k.blkStart);
    }
  }

  // ----- CROSS and PER in every run -------------------------------------------------------------

  /** The sockets are the halves 0..9 and 10..19 of the machine. */
  predicate Halves(ks: Sockets) {
    ks[0].netStart == 0 && ks[0].blkEnd == 9 && ks[1].netStart == 10 && ks[1].blkEnd == 19
  }

  lemma SocketsReadBack(s: Sock.State)
    requires Sock.WellFormed(s) && Halves(s.sockets)
    ensures Unflat(Dynamic.Values(Dynamic.Printed(Flat(s.sockets)), PER_VALUES)) == s.sockets
    ensures var v := Dynamic.Values(Dynamic.Printed([s.active] + Flat(s.sockets)), CROSS_VALUES);
            v[0] == s.active && Unflat(v[1..]) == s.sockets
  {
    FlatInMachine(s.sockets);
    InMachine(Flat(s.sockets));
    WithActive(s.active, Flat(s.sockets));
  }

  lemma FlatInMachine(ks: Sockets)
    requires Sock.Sound(ks[0]) && Sock.Sound(ks[1]) && Halves(ks)
    ensures forall i :: 0 <= i < 8 ==> 0 <= Flat(ks)[i] <= MAX_CPUS
    ensures Unflat(Flat(ks)) == ks
  {
  }

  lemma WithActive(active: int, v: seq<int>)
    requires |v| == 8 && 0 <= active <= MAX_CPUS && forall i :: 0 <= i < 8 ==> 0 <= v[i] <= MAX_CPUS
    ensures var r := Dynamic.Values(Dynamic.Printed([active] + v), CROSS_VALUES); r[0] == active && r[1..] == v
  {
    InMachine([active] + v);
  }

  lemma InMachine(v: seq<int>)
    requires forall i :: 0 <= i < |v| ==> 0 <= v[i] <= MAX_CPUS
    ensures Dynamic.Values(Dynamic.Printed(v), |v|) == v
  {
    forall i | 0 <= i < |v| ensures Dynamic.Short(v[i]) {
      Dynamic.ShortIff(v[i]);
    }
    Dynamic.RoundTrip(v);
  }

  lemma RunReadsBack(cross: bool, ss: seq<Sock.State>, ps: seq<Readings>, os: seq<Sock.Beyond>, i: nat)
    requires Sock.TickRun(cross, ss, ps, os) && Halves(ss[0].sockets) && i < |ss|
    ensures Sock.WellFormed(ss[i]) && Halves(ss[i].sockets)
    ensures Unflat(Dynamic.Values(Dynamic.Printed(Flat(ss[i].sockets)), PER_VALUES)) == ss[i].sockets
    ensures var v := Dynamic.Values(Dynamic.Printed([ss[i].active] + Flat(ss[i].sockets)), CROSS_VALUES);
            v[0] == ss[i].active && Unflat(v[1..]) == ss[i].sockets
  {
    Sock.RunKeepsEnds(cross, ss, ps, os, i, 0);
    Sock.RunKeepsEnds(cross, ss, ps, os, i, 1);
    SocketsReadBack(ss[i]);
  }

  /** The mask that a service thread gets from what CROSS prints in state `s`. */
  function CrossMaskIn(s: Sock.State, beyond: int -> Sock.Socket, file: bool): set<int>
    requires |s.sockets| == NUMBER_OF_SOCKETS
  {
    var v := Dynamic.Values(Dynamic.Printed([s.active] + Flat(s.sockets)), CROSS_VALUES);
    CrossMask(v[0], Unflat(v[1..]), beyond, file)
  }

  /** The cores of the network queues in the `active` upper sockets. */
  function QueueCores(active: int, ks: Sockets): set<int> {
    (if active >= 1 then Range(ks[1].netStart, ks[1].netEnd + 1) else {})
    + (if active >= 2 then Range(ks[0].netStart, ks[0].netEnd + 1) else {})
  }

  /** In every reachable state of CROSS the queue cores and the two masks partition the sockets in use. */
  lemma CrossMasksPartition(ss: seq<Sock.State>, ps: seq<Readings>, os: seq<Sock.Beyond>, i: nat,
                            beyond: int -> Sock.Socket)
    requires Sock.TickRun(true, ss, ps, os) && Halves(ss[0].sockets) && i < |ss|
    ensures |ss[i].sockets| == NUMBER_OF_SOCKETS && Halves(ss[i].sockets) && 1 <= ss[i].active <= NUMBER_OF_SOCKETS
    ensures var queues := QueueCores(ss[i].active, ss[i].sockets);
            var net, file := CrossMaskIn(ss[i], beyond, false), CrossMaskIn(ss[i], beyond, true);
            && net != {} && file != {}
            && Splits(queues, net, file, Range(ss[i].sockets[NUMBER_OF_SOCKETS - ss[i].active].netStart, MAX_CPUS))
  {
    RunReadsBack(true, ss, ps, os, i);
    CrossMasks(ss[i].active, ss[i].sockets, beyond);
  }

  lemma CrossMaskIs(active: int, ks: Sockets, beyond: int -> Sock.Socket, file: bool)
    requires 1 <= active <= 2
    ensures CrossMask(active, ks, beyond, file) ==
            if active == 1 then SocketCores(ks[1], file) else SocketCores(ks[1], file) + SocketCores(ks[0], file)
  {
    assert CrossMask(0, ks, beyond, file) == {};
    assert CrossMask(1, ks, beyond, file) == SocketCores(ks[1], file);
  }

  /** In every reachable state of CROSS, the cores between the boundaries of the sockets in use, and the
      block cores of those sockets. */
  lemma CrossMaskMembers(ss: seq<Sock.State>, ps: seq<Readings>, os: seq<Sock.Beyond>, i: nat,
                         beyond: int -> Sock.Socket, c: int)
    requires Sock.TickRun(true, ss, ps, os) && Halves(ss[0].sockets) && i < |ss|
    ensures |ss[i].sockets| == NUMBER_OF_SOCKETS
    ensures var one, zero := ss[i].sockets[1], ss[i].sockets[0];
            && (c in CrossMaskIn(ss[i], beyond, false) <==>
                  one.netEnd < c < one.blkStart || (ss[i].active == 2 && zero.netEnd < c < zero.blkStart))
            && (c in CrossMaskIn(ss[i], beyond, true) <==>
                  one.blkStart <= c <= one.blkEnd || (ss[i].active == 2 && zero.blkStart <= c <= zero.blkEnd))
  {
    RunReadsBack(true, ss, ps, os, i);
    CrossMaskIs(ss[i].active, ss[i].sockets, beyond, false);
    CrossMaskIs(ss[i].active, ss[i].sockets, beyond, true);
  }

  lemma CrossMasks(active: int, ks: Sockets, beyond: int -> Sock.Socket)
    requires Sock.Sound(ks[0]) && Sock.Sound(ks[1]) && Halves(ks)
    requires 1 <= active <= 2
    ensures var queues := QueueCores(active, ks);
            var net, file := CrossMask(active, ks, beyond, false), CrossMask(active, ks, beyond, true);
            && net != {} && file != {}
            && Splits(queues, net, file, Range(ks[NUMBER_OF_SOCKETS - active].netStart, ks[1].blkEnd + 1))
  {
    SocketSplits(ks[1]);
    CrossMaskIs(active, ks, beyond, false);
    CrossMaskIs(active, ks, beyond, true);
    assert ks[1].netEnd + 1 in SocketCores(ks[1], false) && ks[1].blkEnd in SocketCores(ks[1], true);
    if active == 1 {
      assert QueueCores(1, ks) == Range(ks[1].netStart, ks[1].netEnd + 1);
    } else {
      BothSockets(ks);
    }
  }

  lemma BothSockets(ks: Sockets)
    requires Sock.Sound(ks[0]) && Sock.Sound(ks[1]) && Halves(ks)
    ensures Splits(QueueCores(2, ks), SocketCores(ks[1], false) + SocketCores(ks[0], false),
                   SocketCores(ks[1], true) + SocketCores(ks[0], true), Range(ks[0].netStart, ks[1].blkEnd + 1))
  {
    SocketSplits(ks[0]);
    SocketSplits(ks[1]);
    BothSplit(Range(ks[1].netStart, ks[1].netEnd + 1), SocketCores(ks[1], false), SocketCores(ks[1], true),
              Range(ks[1].netStart, ks[1].blkEnd + 1),
              Range(ks[0].netStart, ks[0].netEnd + 1), SocketCores(ks[0], false), SocketCores(ks[0], true),
              Range(ks[0].netStart, ks[0].blkEnd + 1));
    RangesMeet(ks[0].netStart, ks[1].netStart, ks[1].blkEnd + 1);
  }

  lemma RangesMeet(lo: int, mid: int, hi: int)
    requires lo <= mid <= hi
    ensures Range(mid, hi) + Range(lo, mid) == Range(lo, hi)
  {
  }

  lemma SocketSplits(k: Sock.Socket)
    requires Sock.Sound(k)
    ensures Splits(Range(k.netStart, k.netEnd + 1), SocketCores(k, false), SocketCores(k, true),
                   Range(k.netStart, k.blkEnd + 1))
  {
  }

  lemma BothSplit(a: set<int>, b: set<int>, c: set<int>, all: set<int>,
                   a': set<int>, b': set<int>, c': set<int>, all': set<int>)
    requires Splits(a, b, c, all) && Splits(a', b', c', all') && all !! all'
    ensures Splits(a + a', b + b', c + c', all + all')
  {
    forall x | x in all ensures x !in all' {
    }
  }

  /** The mask that a service thread on a core of socket `k` gets from what PER prints in state `s`. */
  function PerMaskIn(s: Sock.State, k: nat, file: bool): set<int>
    requires |s.sockets| == NUMBER_OF_SOCKETS && k < NUMBER_OF_SOCKETS
  {
    PerMask(Unflat(Dynamic.Values(Dynamic.Printed(Flat(s.sockets)), PER_VALUES))[k], file)
  }

  /** In every reachable state of PER the queue cores and the masks are disjoint and cover the socket but
      for its last core, which no service thread may use; the file mask is empty exactly when the block
      group has one core. */
  lemma PerMasksMissLastCore(ss: seq<Sock.State>, ps: seq<Readings>, os: seq<Sock.Beyond>, i: nat, k: nat)
    requires Sock.TickRun(false, ss, ps, os) && Halves(ss[0].sockets) && i < |ss| && k < NUMBER_OF_SOCKETS
    ensures |ss[i].sockets| == NUMBER_OF_SOCKETS
    ensures var s := ss[i].sockets[k];
            var queues := Range(s.netStart, s.netEnd + 1);
            var net, file := PerMaskIn(ss[i], k, false), PerMaskIn(ss[i], k, true);
            && net != {} && (file == {} <==> s.blkStart == s.blkEnd)
            && Splits(queues, net, file, Range(10 * k, 10 * k + 9))
  {
    RunReadsBack(false, ss, ps, os, i);
    PerMasks(ss[i].sockets[k]);
    assert ss[i].sockets[k].netStart == 10 * k && ss[i].sockets[k].blkEnd == 10 * k + 9;
  }

  lemma PerMaskMembers(ss: seq<Sock.State>, ps: seq<Readings>, os: seq<Sock.Beyond>, i: nat, k: nat, c: int)
    requires Sock.TickRun(false, ss, ps, os) && Halves(ss[0].sockets) && i < |ss| && k < NUMBER_OF_SOCKETS
    ensures |ss[i].sockets| == NUMBER_OF_SOCKETS
    ensures var s := ss[i].sockets[k];
            && (c in PerMaskIn(ss[i], k, false) <==> s.netEnd < c < s.blkStart)
            && (c in PerMaskIn(ss[i], k, true) <==> s.blkStart <= c < s.blkEnd)
  {
    RunReadsBack(false, ss, ps, os, i);
  }

  lemma PerMasks(s: Sock.Socket)
    requires Sock.Sound(s)
    ensures var queues, net, file := Range(s.netStart, s.netEnd + 1), PerMask(s, false), PerMask(s, true);
            && net != {} && (file == {} <==> s.blkStart == s.blkEnd)
            && Splits(queues, net, file, Range(s.netStart, s.blkEnd))
  {
    assert s.netEnd + 1 in PerMask(s, false);
    assert s.blkStart < s.blkEnd ==> s.blkStart in PerMask(s, true);
  }

  // ----- An idle machine under PER --------------------------------------------------------------

  predicate Idle(p: Readings) {
    forall c :: 0 <= c < MAX_CPUS ==> p(c) == 0
  }

  lemma IdleLoad(k: Sock.Socket, p: Readings)
    requires Sock.Sound(k) && Idle(p) && 0 <= k.netStart && k.blkEnd < MAX_CPUS
    ensures Sock.LoadOf(k, p) == Sock.Load(0, 0, 0)
  {
    IdleQuotient(p, k.blkStart, k.blkEnd);
    IdleQuotient(p, k.netStart, k.netEnd);
    IdleQuotient(p, k.netEnd + 1, k.blkStart - 1);
  }

  lemma IdleQuotient(p: Readings, lo: int, hi: int)
    requires Idle(p) && 0 <= lo <= hi < MAX_CPUS
    ensures Quotient(Total(p, lo, hi), hi - lo + 1) == 0
  {
    TotalUniform(p, lo, hi, 0);
  }

  /** Where a block group with range `lo..hi` starts after it has been asked `n` times for a core, keeping
      one. */
  function Shrunk(lo: int, hi: int, n: nat): int {
    if lo + n <= hi then lo + n else hi
  }

  /** On an idle tick the block group of socket `k` gives a core up on its turn -- unless, for socket 0,
      the stray read that is compared with the threshold is above it. */
  predicate GivesUp(turn: int, k: nat, o: Sock.Beyond) {
    turn == 0 && (k == 1 || o.tested <= T_HIGH)
  }

  function Given(ss: seq<Sock.State>, os: seq<Sock.Beyond>, k: nat, n: nat): nat
    requires n <= |os| <= |ss|
  {
    if n == 0 then 0 else Given(ss, os, k, n - 1) + if GivesUp(ss[n - 1].turn, k, os[n - 1]) then 1 else 0
  }

  lemma IdleTurn(s: Sock.State, p: Readings, o: Sock.Beyond, t: Sock.State, k: nat)
    requires Sock.WellFormed(s) && Sock.PerTicked(s, p, o, t) && Idle(p)
    requires Halves(s.sockets) && k < NUMBER_OF_SOCKETS
    ensures |t.sockets| == NUMBER_OF_SOCKETS && t.turn == 1 - s.turn
    ensures t.sockets[k].blkEnd == s.sockets[k].blkEnd
    ensures t.sockets[k].blkStart ==
            Shrunk(s.sockets[k].blkStart, s.sockets[k].blkEnd, if GivesUp(s.turn, k, o) then 1 else 0)
  {
    assert Sock.Sound(s.sockets[k]);
    IdleLoad(s.sockets[k], p);
    assert t.sockets[k] == Sock.Turned(s, p, o, k);
  }

  predicate IdleRun(ss: seq<Sock.State>, ps: seq<Readings>, os: seq<Sock.Beyond>) {
    && Sock.TickRun(false, ss, ps, os) && Halves(ss[0].sockets)
    && forall i :: 0 <= i < |ps| ==> Idle(ps[i])
  }

  lemma {:induction false} IdleRunShrinks(ss: seq<Sock.State>, ps: seq<Readings>,
                                          os: seq<Sock.Beyond>, n: nat, k: nat)
    requires IdleRun(ss, ps, os) && n < |ss| && k < NUMBER_OF_SOCKETS
    ensures Sock.WellFormed(ss[n]) && Halves(ss[n].sockets)
    ensures var k0 := ss[0].sockets[k];
            && ss[n].sockets[k].blkStart == Shrunk(k0.blkStart, k0.blkEnd, Given(ss, os, k, n))
            && ss[n].sockets[k].blkEnd == k0.blkEnd
  {
    RunReadsBack(false, ss, ps, os, n);
    if n > 0 {
      IdleRunShrinks(ss, ps, os, n - 1, k);
      assert Sock.PerTicked(ss[n - 1], ps[n - 1], os[n - 1], ss[n]) && Idle(ps[n - 1]);
      var k0 := ss[0].sockets[k];
      IdleStep(ss[n - 1], ps[n - 1], os[n - 1], ss[n], k, k0.blkStart, k0.blkEnd, Given(ss, os, k, n - 1));
    } else {
      assert Sock.Sound(ss[0].sockets[k]);
    }
  }

  lemma IdleStep(s: Sock.State, p: Readings, o: Sock.Beyond, t: Sock.State, k: nat, lo: int, hi: int, n: nat)
    requires Sock.WellFormed(s) && Sock.PerTicked(s, p, o, t) && Idle(p)
    requires Halves(s.sockets) && k < NUMBER_OF_SOCKETS
    requires s.sockets[k].blkStart == Shrunk(lo, hi, n) && s.sockets[k].blkEnd == hi
    ensures |t.sockets| == NUMBER_OF_SOCKETS && t.sockets[k].blkEnd == hi
    ensures t.sockets[k].blkStart == Shrunk(lo, hi, n + if GivesUp(s.turn, k, o) then 1 else 0)
  {
    IdleTurn(s, p, o, t, k);
    assert Sock.Sound(s.sockets[k]);
    ShrinksAgain(lo, hi, n);
  }

  lemma ShrinksAgain(lo: int, hi: int, n: nat)
    ensures Shrunk(Shrunk(lo, hi, n), hi, 1) == Shrunk(lo, hi, n + 1)
    ensures Shrunk(Shrunk(lo, hi, n), hi, 0) == Shrunk(lo, hi, n)
  {
  }

  /** In every idle run of PER, whatever the stray reads return, the file mask of a socket is empty
      exactly once its block group has been asked for all its cores but one. */
  lemma IdlePerMaskIff(ss: seq<Sock.State>, ps: seq<Readings>, os: seq<Sock.Beyond>,
                       n: nat, k: nat)
    requires IdleRun(ss, ps, os) && n < |ss| && k < NUMBER_OF_SOCKETS
    ensures |ss[n].sockets| == NUMBER_OF_SOCKETS
    ensures PerMaskIn(ss[n], k, true) == {} <==>
            Given(ss, os, k, n) >= ss[0].sockets[k].blkEnd - ss[0].sockets[k].blkStart
  {
    IdleRunShrinks(ss, ps, os, n, k);
    PerMasksMissLastCore(ss, ps, os, n, k);
    assert Sock.Sound(ss[0].sockets[k]);
  }

  lemma {:induction false} GivenHalf(ss: seq<Sock.State>, ps: seq<Readings>,
                                     os: seq<Sock.Beyond>, n: nat, k: nat)
    requires Sock.TickRun(false, ss, ps, os) && n < |ss| && k < NUMBER_OF_SOCKETS
    requires k == 0 ==> forall i :: 0 <= i < n ==> os[i].tested <= T_HIGH
    ensures Given(ss, os, k, n) >= n / 2
  {
    if n > 1 {
      GivenHalf(ss, ps, os, n - 2, k);
      Sock.RunKeepsSound(false, ss, ps, os, n - 2);
      Sock.RunKeepsSound(false, ss, ps, os, n - 1);
      assert Sock.PerTicked(ss[n - 2], ps[n - 2], os[n - 2], ss[n - 1]);
      assert Given(ss, os, k, n - 1) >= Given(ss, os, k, n - 2);
    }
  }

  /** Twelve idle ticks leave the file mask of the upper socket empty in every run, and that of the lower
      one in every run whose stray reads stay at or below the threshold. */
  lemma IdlePerEmptiesFileMask(ss: seq<Sock.State>, ps: seq<Readings>,
                               os: seq<Sock.Beyond>, n: nat, k: nat)
    requires IdleRun(ss, ps, os) && 12 <= n < |ss| && k < NUMBER_OF_SOCKETS
    requires k == 0 ==> forall i :: 0 <= i < n ==> os[i].tested <= T_HIGH
    ensures |ss[n].sockets| == NUMBER_OF_SOCKETS && PerMaskIn(ss[n], k, true) == {}
  {
    IdlePerMaskIff(ss, ps, os, n, k);
    GivenHalf(ss, ps, os, n, k);
    assert Sock.Sound(ss[0].sockets[k]);
  }

  /** There is such a run from any state. */
  lemma {:induction false} IdleRunExists(first: Sock.State, n: nat)
    returns (ss: seq<Sock.State>, ps: seq<Readings>, os: seq<Sock.Beyond>)
    requires Sock.WellFormed(first) && Halves(first.sockets)
    ensures IdleRun(ss, ps, os) && |ss| == n + 1 && ss[0] == first && forall i :: 0 <= i < n ==> os[i].tested == 0
  {
    if n == 0 {
      ss, ps, os := [first], [], [];
    } else {
      ss, ps, os := IdleRunExists(first, n - 1);
      Sock.RunKeepsSound(false, ss, ps, os, n - 1);
      var p: Readings, o := c => 0, Sock.Beyond(0, 0, 0, 0);
      var t := SomeTick(ss[n - 1], p, o);
      ss, ps, os := ss + [t], ps + [p], os + [o];
    }
  }

  /** The tick is defined for all readings and stray reads. */
  lemma SomeTick(s: Sock.State, p: Readings, o: Sock.Beyond)
    returns (t: Sock.State)
    requires Sock.WellFormed(s)
    ensures Sock.PerTicked(s, p, o, t)
  {
    var one, zero := s.sockets[1], s.sockets[0];
    Sock.TurnsKeepSound(one, Sock.LoadOf(one, p), Sock.LoadOf(one, p).blk);
    Sock.TurnsKeepSound(zero, Sock.LoadOf(zero, p), o.tested);
    var ks := [Sock.Turned(s, p, o, 0), Sock.Turned(s, p, o, 1)];
    if s.turn == 0 {
      var hints := IrqSpread.Spreading(BLK_QUEUES, Sock.BlkPool(ks, 2));
      t := Sock.State(ks, 2, 1, s.netHints, hints);
    } else {
      var hints := IrqSpread.Spreading(NET_QUEUES, Sock.NetPool(ks, 2));
      t := Sock.State(ks, 2, 0, hints, s.blkHints);
    }
  }

  // ----- APP ------------------------------------------------------------------------------------

  type Layouts = ls: seq<App.Layout> | |ls| == NUMBER_OF_SOCKETS
    witness seq(2, i => App.Layout(0, 0, 0, 0, 0, 0))

  /** What APP prints of its sockets. */
  function FlatApp(ls: Layouts): seq<int> {
    [ls[0].netStart, ls[0].netEnd, ls[0].appStart, ls[0].appEnd, ls[0].blkStart, ls[0].blkEnd,
     ls[1].netStart, ls[1].netEnd, ls[1].appStart, ls[1].appEnd, ls[1].blkStart, ls[1].blkEnd]
  }

  /** In this order, one to a line. */
  lemma AppPrints(ls: Layouts)
    ensures Dynamic.Printed(FlatApp(ls)) == SixThen(ls[0], SixThen(ls[1], ""))
  {
    FlatAppSplits(ls);
    SixPrints(ls[1], []);
    SixPrints(ls[0], Six(ls[1]) + []);
  }

  lemma FlatAppSplits(ls: Layouts)
    ensures FlatApp(ls) == Six(ls[0]) + (Six(ls[1]) + [])
  {
  }

  /** The six boundaries of a socket on their lines, and what follows. */
  function SixThen(l: App.Layout, tail: string): string {
    Two(l.netStart, l.netEnd, Two(l.appStart, l.appEnd, Two(l.blkStart, l.blkEnd, tail)))
  }

  function Six(l: App.Layout): seq<int> {
    [l.netStart, l.netEnd, l.appStart, l.appEnd, l.blkStart, l.blkEnd]
  }

  lemma SixPrints(l: App.Layout, xs: seq<int>)
    ensures Dynamic.Printed(Six(l) + xs) == SixThen(l, Dynamic.Printed(xs))
  {
    assert Six(l) + xs == [l.netStart, l.netEnd] + ([l.appStart, l.appEnd] + ([l.blkStart, l.blkEnd] + xs));
    Dynamic.PrintedTwo(l.netStart, l.netEnd, [l.appStart, l.appEnd] + ([l.blkStart, l.blkEnd] + xs));
    Dynamic.PrintedTwo(l.appStart, l.appEnd, [l.blkStart, l.blkEnd] + xs);
    Dynamic.PrintedTwo(l.blkStart, l.blkEnd, xs);
  }

  function UnflatApp(v: seq<int>): Layouts
    requires |v| == APP_VALUES
  {
    [App.Layout(v[0], v[1], v[2], v[3], v[4], v[5]), App.Layout(v[6], v[7], v[8], v[9], v[10], v[11])]
  }

  function AppMask(l: App.Layout, file: bool): set<int> {
    if file then Range(l.blkStart, l.blkEnd) else Range(l.netEnd + 1, l.blkStart)
  }

  method SetCpuApp(text: string, file: bool, core: nat) returns (mask: set<int>)
    requires core < MAX_CPUS
    ensures mask == AppMask(UnflatApp(Dynamic.Values(text, APP_VALUES))[core / 10], file)
  {
    var v := Dynamic.ReadValues(text, APP_VALUES);
    var l := UnflatApp(v)[core / 10];
    if file {
      mask := Fill({}, l.blkStart, l.blkEnd);
    } else {
      mask := Fill({}, l.netEnd + 1, l.blkStart);
    }
  }

  function AppMaskIn(s: App.AppState, k: nat, file: bool): set<int>
    requires |s.sockets| == NUMBER_OF_SOCKETS && k < NUMBER_OF_SOCKETS
  {
    AppMask(UnflatApp(Dynamic.Values(Dynamic.Printed(FlatApp(s.sockets)), APP_VALUES))[k], file)
  }

  lemma AppReadsBack(ls: Layouts)
    requires App.CodedShape(ls[0], 0) && App.CodedShape(ls[1], 1)
    ensures UnflatApp(Dynamic.Values(Dynamic.Printed(FlatApp(ls)), APP_VALUES)) == ls
  {
    CodedSizes(ls[0], 0);
    CodedSizes(ls[1], 1);
    InMachine(FlatApp(ls));
    assert UnflatApp(FlatApp(ls)) == ls;
  }

  lemma CodedSizes(l: App.Layout, k: nat)
    requires App.CodedShape(l, k)
    ensures l.netStart <= l.netEnd < l.appStart - 1 <= l.appEnd - 1 == l.blkStart <= l.blkEnd
  {
    assert App.Size(l, App.NET) >= 1 && App.Size(l, App.SYS) >= 1;
    assert App.Size(l, App.APP) >= 1 && App.Size(l, App.BLK) >= 1;
  }

  /** In every state reached from the coded layout: the file mask leaves the last block core out and is
      empty exactly when the block group has one core; the network mask is the network system-call group
      exactly when the application group starts where the block group does, and empty exactly when both
      the system-call and the application group have one core. */
  lemma AppMasksIff(ss: seq<App.AppState>, ps: seq<Readings>, i: nat, k: nat)
    requires App.TickRun(ss, ps) && i < |ss| && k < NUMBER_OF_SOCKETS
    requires ss[0].sockets == [App.CodedLayout(0), App.CodedLayout(1)]
    ensures |ss[i].sockets| == NUMBER_OF_SOCKETS
    ensures MaskFacts(ss[i].sockets[k], AppMaskIn(ss[i], k, false), AppMaskIn(ss[i], k, true))
  {
    App.RunKeepsSocket(ss, ps, i, 0);
    App.RunKeepsSocket(ss, ps, i, 1);
    AppReadsBack(ss[i].sockets);
    AppMasks(ss[i].sockets[k], k);
  }

  lemma AppMaskMembers(ss: seq<App.AppState>, ps: seq<Readings>, i: nat, k: nat, c: int)
    requires App.TickRun(ss, ps) && i < |ss| && k < NUMBER_OF_SOCKETS
    requires ss[0].sockets == [App.CodedLayout(0), App.CodedLayout(1)]
    ensures |ss[i].sockets| == NUMBER_OF_SOCKETS
    ensures var l := ss[i].sockets[k];
            && (c in AppMaskIn(ss[i], k, false) <==> l.netEnd < c < l.blkStart)
            && (c in AppMaskIn(ss[i], k, true) <==> l.blkStart <= c < l.blkEnd)
  {
    App.RunKeepsSocket(ss, ps, i, 0);
    App.RunKeepsSocket(ss, ps, i, 1);
    AppReadsBack(ss[i].sockets);
  }

  predicate MaskFacts(l: App.Layout, net: set<int>, file: set<int>) {
    && l.blkEnd !in file && (file == {} <==> App.Size(l, App.BLK) == 1)
    && (net == Range(l.netEnd + 1, l.appStart) <==> l.appStart == l.blkStart)
    && (net == {} <==> App.Size(l, App.SYS) == 1 && App.Size(l, App.APP) == 1)
    && net !! file
  }

  lemma AppMasks(l: App.Layout, k: nat)
    requires App.CodedShape(l, k)
    ensures MaskFacts(l, AppMask(l, false), AppMask(l, true))
  {
    CodedSizes(l, k);
    var net, file, sys := AppMask(l, false), AppMask(l, true), Range(l.netEnd + 1, l.appStart);
    assert l.blkStart < l.blkEnd ==> l.blkStart in file;
    assert l.netEnd + 1 < l.blkStart ==> l.netEnd + 1 in net;
    assert l.appStart < l.blkStart ==> l.appStart in net && l.appStart !in sys;
    assert l.appStart > l.blkStart ==> l.blkStart in sys && l.blkStart !in net;
  }

  /** Both failures are reached from the coded layout.  Already in it the network mask of either socket is
      not the network system-call group. */
  lemma CodedNetMask(first: App.AppState, k: nat)
    requires AppWitness.CodedState(first) && k < NUMBER_OF_SOCKETS
    ensures var l := first.sockets[k]; AppMaskIn(first, k, false) != Range(l.netEnd + 1, l.appStart)
  {
    AppWitness.StartsRun(first);
    AppMasksIff([first], [], 0, k);
  }

  /** When applications are busy, two ticks can leave the upper socket's file mask empty. */
  lemma AppFileMaskCanBeEmpty(first: App.AppState)
    returns (ss: seq<App.AppState>, ps: seq<Readings>)
    requires AppWitness.CodedState(first)
    ensures App.TickRun(ss, ps) && |ss| == 3 && ss[0] == first
    ensures |ss[2].sockets| == NUMBER_OF_SOCKETS && AppMaskIn(ss[2], 1, true) == {}
  {
    ss, ps := AppWitness.ReadingsCanRunPastTable(first);
    AppMasksIff(ss, ps, 2, 1);
  }

  /** When block I/O is busy, five ticks can leave its network mask empty. */
  lemma AppNetMaskCanBeEmpty(first: App.AppState)
    returns (ss: seq<App.AppState>, ps: seq<Readings>)
    requires AppWitness.CodedState(first)
    ensures App.TickRun(ss, ps) && |ss| == 6 && ss[0] == first
    ensures |ss[5].sockets| == NUMBER_OF_SOCKETS && AppMaskIn(ss[5], 1, false) == {}
  {
    ss, ps := AppWitness.GroupsCanShrinkToOne(first);
    AppMasksIff(ss, ps, 5, 1);
  }
}
