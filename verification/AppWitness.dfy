/**
 Runs of the APP controller from the layout that the module writes at start-up.  Socket 0 stays idle
 while socket 1 passes cores between its groups.
 */
module AppWitness {
  import opened Timer
  import opened IrqSpread
  import opened AppController

  /** The layouts of socket 1 in which groups meet as in the coded one. */
  function Wide(appStart: int, blkStart: int): Layout {
    Layout(10, 11, appStart, blkStart + 1, blkStart, 19)
  }

  predicate IdleBelow(p: Readings) {
    forall c :: 0 <= c <= 9 ==> p(c) == 0
  }

  lemma QuotientOfMultiple(n: int, v: nat)
    requires n > 0
    ensures Quotient(n * v, n) == v
  {
    Remainder(n * v, v, 0, n);
  }

  lemma AverageUniform(l: Layout, p: Readings, g: nat, v: nat)
    requires g < 4 && Size(l, g) >= 1 && forall c :: First(l, g) <= c <= Final(l, g) ==> p(c) == v
    ensures Average(l, p, g) == v
  {
    TotalUniform(p, First(l, g), Final(l, g), v);
    QuotientOfMultiple(Size(l, g), v);
  }

  lemma IdleSocketStays(p: Readings)
    requires IdleBelow(p)
    ensures var l := CodedLayout(0); Populated(l) && Rebalanced(l, p, l) && NetInvolved(l, p)
  {
    var l := CodedLayout(0);
    AverageUniform(l, p, NET, 0);
    AverageUniform(l, p, SYS, 0);
    AverageUniform(l, p, APP, 0);
    AverageUniform(l, p, BLK, 0);
    var u, z := Averages(l, p), Sizes(l);
    assert u[0] == 0 && u[1] == 0 && u[2] == 0 && u[3] == 0;
    assert IsReceiver(u, BLK) && IsDonor(u, z, BLK, NET);
  }

  /** A core passes from `d` to `r` under readings with averages `u`. */
  lemma Transfers(l: Layout, p: Readings, u: seq<int>, d: nat, r: nat)
    requires Populated(l) && Averages(l, p) == u && IsReceiver(u, r) && IsDonor(u, Sizes(l), r, d)
    requires u[r] - u[d] > T_CHANGE
    ensures Rebalanced(l, p, Shifted(l, d, r))
  {
    ShiftPassesCore(l, d, r);
  }

  /** Socket 1 goes from `l` to `l'` while socket 0 stays, and the network queues are spread again. */
  lemma UpperTick(s: AppState, p: Readings, l: Layout, l': Layout) returns (t: AppState)
    requires s.sockets == [CodedLayout(0), l] && Populated(l) && Rebalanced(l, p, l') && IdleBelow(p)
    requires l'.netStart <= l'.netEnd
    ensures WellFormed(s) && Ticked(s, p, t) && t.sockets == [CodedLayout(0), l']
  {
    var l0 := CodedLayout(0);
    IdleSocketStays(p);
    t := AppState([l0, l'], Spreading(NET_QUEUES, NetPool([l0, l'])), s.blkHints);
  }

  lemma RunGrows(ss: seq<AppState>, ps: seq<Readings>, p: Readings, t: AppState)
    returns (ss': seq<AppState>, ps': seq<Readings>)
    requires TickRun(ss, ps) && Ticked(ss[|ss| - 1], p, t)
    ensures TickRun(ss', ps') && |ss'| == |ss| + 1 && ss'[0] == ss[0] && ss'[|ss|] == t
  {
    ss', ps' := ss + [t], ps + [p];
    forall i | 0 <= i < |ps'| ensures Ticked(ss'[i], ps'[i], ss'[i + 1]) {
      if i < |ps| {
        assert ps'[i] == ps[i];
      }
    }
  }

  /** The state in which the module starts, with any hints. */
  predicate CodedState(s: AppState) {
    s.sockets == [CodedLayout(0), CodedLayout(1)]
  }

  lemma StartsRun(s: AppState)
    requires CodedState(s)
    ensures TickRun([s], [])
  {
    assert Populated(CodedLayout(0)) && Populated(CodedLayout(1));
  }

  // ----- Applications take the block cores ------------------------------------------------------

  /** Socket 1's application cores busy, its block cores idle. */
  function BusyApps(): Readings {
    c => if 10 <= c <= 13 then 50 else if 14 <= c <= 16 then 100 else 0
  }

  lemma WidePopulated(a: int, b: int)
    requires 13 <= a <= b + 1 && b <= 19
    ensures Populated(Wide(a, b))
  {
  }

  lemma BusyAppAverage(b: int)
    requires b == 17 || b == 18
    ensures Average(Wide(14, b), BusyApps(), APP) >= 50
  {
    var p := BusyApps();
    TotalUniform(p, 14, 16, 100);
    TotalUniform(p, 17, b + 1, 0);
    TotalSplits(p, 14, 16, b + 1);
  }

  lemma BusyAverages(b: int) returns (u: seq<int>)
    requires b == 17 || b == 18
    ensures Populated(Wide(14, b)) && u == Averages(Wide(14, b), BusyApps())
    ensures u[0] == 50 && u[1] == 50 && 50 <= u[2] && u[3] == 0
  {
    var l := Wide(14, b);
    WidePopulated(14, b);
    AverageUniform(l, BusyApps(), NET, 50);
    AverageUniform(l, BusyApps(), SYS, 50);
    AverageUniform(l, BusyApps(), BLK, 0);
    BusyAppAverage(b);
    u := Averages(l, BusyApps());
  }

  lemma BusyPasses(b: int)
    requires b == 17 || b == 18
    ensures Populated(Wide(14, b)) && Rebalanced(Wide(14, b), BusyApps(), Wide(14, b + 1))
  {
    var u := BusyAverages(b);
    assert IsReceiver(u, APP) && IsDonor(u, Sizes(Wide(14, b)), APP, BLK);
    Transfers(Wide(14, b), BusyApps(), u, BLK, APP);
  }

  lemma BusyTick(s: AppState, b: int) returns (t: AppState)
    requires (b == 17 || b == 18) && s.sockets == [CodedLayout(0), Wide(14, b)]
    ensures WellFormed(s) && Ticked(s, BusyApps(), t) && t.sockets == [CodedLayout(0), Wide(14, b + 1)]
  {
    BusyPasses(b);
    t := UpperTick(s, BusyApps(), Wide(14, b), Wide(14, b + 1));
  }

  /** Two ticks from the coded layout suffice for the application group of socket 1 to end at core 20,
      one past the last entry of the readings, and for its block group to have one core. */
  lemma ReadingsCanRunPastTable(first: AppState) returns (ss: seq<AppState>, ps: seq<Readings>)
    requires CodedState(first)
    ensures TickRun(ss, ps) && |ss| == 3 && ss[0] == first
    ensures |ss[2].sockets| == NUMBER_OF_SOCKETS && ss[2].sockets[1].appEnd == MAX_CPUS
    ensures Size(ss[2].sockets[1], BLK) == 1
  {
    StartsRun(first);
    var t := BusyTick(first, 17);
    ss, ps := RunGrows([first], [], BusyApps(), t);
    t := BusyTick(t, 18);
    ss, ps := RunGrows(ss, ps, BusyApps(), t);
  }

  // ----- Block I/O takes the cores of both other groups -----------------------------------------

  /** The block cores that are not application cores busy, the network queue cores half as busy. */
  function BusyBlocks(b: int): Readings {
    c => if c <= 9 then 0 else if c <= 11 then 30 else if c >= b + 2 then 100 else 0
  }

  lemma BusyBlockAverage(a: int, b: int)
    requires 13 <= b <= 17
    ensures Average(Wide(a, b), BusyBlocks(b), BLK) >= 33
  {
    var p := BusyBlocks(b);
    TotalUniform(p, b, b + 1, 0);
    TotalUniform(p, b + 2, 19, 100);
    TotalSplits(p, b, b + 1, 19);
    assert Total(p, b, 19) == (18 - b) * 100;
  }

  lemma BlockAverages(a: int, b: int) returns (u: seq<int>)
    requires 13 <= a <= 14 && 13 <= b <= 17 && a <= b
    ensures Populated(Wide(a, b)) && u == Averages(Wide(a, b), BusyBlocks(b))
    ensures u[0] == 30 && u[1] == 0 && u[2] == 0 && u[3] >= 33
  {
    var l := Wide(a, b);
    WidePopulated(a, b);
    AverageUniform(l, BusyBlocks(b), NET, 30);
    AverageUniform(l, BusyBlocks(b), SYS, 0);
    AverageUniform(l, BusyBlocks(b), APP, 0);
    BusyBlockAverage(a, b);
    u := Averages(l, BusyBlocks(b));
  }

  /** The system-call group gives its second core first, then the application group all but one. */
  lemma BlockPasses(a: int, b: int)
    requires 13 <= a <= 14 && 13 <= b <= 17 && a <= b
    ensures Populated(Wide(a, b)) && Rebalanced(Wide(a, b), BusyBlocks(b), Wide(13, b - 1))
  {
    var u := BlockAverages(a, b);
    var l, d := Wide(a, b), if a == 14 then SYS else APP;
    assert IsReceiver(u, BLK) && IsDonor(u, Sizes(l), BLK, d);
    Transfers(l, BusyBlocks(b), u, d, BLK);
  }

  lemma BlockTick(s: AppState, a: int, b: int) returns (t: AppState)
    requires 13 <= a <= 14 && 13 <= b <= 17 && a <= b && s.sockets == [CodedLayout(0), Wide(a, b)]
    ensures WellFormed(s) && Ticked(s, BusyBlocks(b), t) && t.sockets == [CodedLayout(0), Wide(13, b - 1)]
  {
    BlockPasses(a, b);
    t := UpperTick(s, BusyBlocks(b), Wide(a, b), Wide(13, b - 1));
  }

  lemma {:induction false} BlockRun(first: AppState, n: nat) returns (ss: seq<AppState>, ps: seq<Readings>)
    requires CodedState(first) && n <= 5
    ensures TickRun(ss, ps) && |ss| == n + 1 && ss[0] == first
    ensures ss[n].sockets == [CodedLayout(0), Wide(if n == 0 then 14 else 13, 17 - n)]
  {
    if n == 0 {
      StartsRun(first);
      ss, ps := [first], [];
    } else {
      ss, ps := BlockRun(first, n - 1);
      var a, b := if n == 1 then 14 else 13, 18 - n;
      var t := BlockTick(ss[n - 1], a, b);
      ss, ps := RunGrows(ss, ps, BusyBlocks(b), t);
    }
  }

  /** Five ticks from the coded layout suffice for the system-call and application groups of socket 1 to
      have one core each. */
  lemma GroupsCanShrinkToOne(first: AppState) returns (ss: seq<AppState>, ps: seq<Readings>)
    requires CodedState(first)
    ensures TickRun(ss, ps) && |ss| == 6 && ss[0] == first && |ss[5].sockets| == NUMBER_OF_SOCKETS
    ensures Size(ss[5].sockets[1], SYS) == 1 && Size(ss[5].sockets[1], APP) == 1
  {
    ss, ps := BlockRun(first, 5);
  }
}
