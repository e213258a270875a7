/**
 Why replies need one client per entry.  The two directions of an entry share one buffer but not one
 mutex, so with two readers on the same entry a reply can overwrite a request that has not been read,
 and the reply can be taken by the wrong reader.  Whenever two clients are admitted to an entry at rest,
 whatever else is going on, the run can continue so; and for any two requests and any answer of the
 kernel there is a run from the initial state in which that happens.
 */
module DelegationCrossing {
  import opened Basics
  import opened Channel
  import opened Delegation
  import opened DelegationInvariant
  import opened DelegationReplies
  import opened DelegationStartup

  function Last<T>(s: seq<T>): T
    requires |s| > 0
  {
    s[|s| - 1]
  }

  /** Only client 0 ever talks to an entry. */
  predicate SoloState(s: State) {
    |s.clients| == 2 && !s.clients[1].Talking?
  }

  predicate Solo(r: Run) {
    forall i {:trigger r.states[i]} :: 0 <= i < |r.states| ==> SoloState(r.states[i])
  }

  lemma Extend(r: Run, a: Action, t: State) returns (r': Run)
    requires Valid(r) && Step(Last(r.states), a, t)
    ensures Valid(r') && Last(r'.states) == t
    ensures r'.states == r.states + [t] && r'.actions == r.actions + [a]
    ensures Solo(r) && SoloState(t) ==> Solo(r')
  {
    r' := Run(r.states + [t], r.actions + [a]);
    forall i | 0 <= i < |r'.actions| ensures Step(r'.states[i], r'.actions[i], r'.states[i + 1]) {
      if i < |r.actions| {
        assert r'.actions[i] == r.actions[i];
      }
    }
  }

  // ----- Two clients of one entry ---------------------------------------------------------------

  predicate Continues(r: Run, r': Run) {
    Valid(r') && r.states <= r'.states && r.actions <= r'.actions
  }

  /** A run at whose end clients `c` and `d` are talking to node `n`. */
  datatype Stage = Stage(r: Run, n: nat, fd: int, c: nat, d: nat)

  predicate Staged(g: Stage) {
    && |g.r.states| > 0
    && var s := Last(g.r.states);
    && g.c < |s.clients| && g.d < |s.clients| && g.c != g.d && g.n < |s.nodes|
  }

  /** The two calls and the entry. */
  datatype Pair = Pair(a: Call, b: Call, e: Entry)

  /** The state at the end of the run, but for the two clients and the node. */
  function Embed(g: Stage, x: Pair): State
    requires Staged(g)
  {
    var s := Last(g.r.states);
    s.(clients := s.clients[g.c := Talking(g.n, g.fd, x.a)][g.d := Talking(g.n, g.fd, x.b)],
       nodes := s.nodes[g.n := Live(x.e)])
  }

  /** The run `r` continues that of the stage and has got to `x`. */
  predicate At(r: Run, g: Stage, x: Pair) {
    Staged(g) && Continues(g.r, r) && |r.states| > 0 && Last(r.states) == Embed(g, x)
  }

  lemma Onward(r: Run, g: Stage, x: Pair, a: Action, y: Pair) returns (r': Run)
    requires At(r, g, x) && Step(Embed(g, x), a, Embed(g, y))
    ensures At(r', g, y)
  {
    r' := Extend(r, a, Embed(g, y));
  }

  function Moved(x: Pair, first: bool, c: Call, e: Entry): Pair {
    if first then Pair(c, x.b, e) else Pair(x.a, c, e)
  }

  lemma ClientMoves(r: Run, g: Stage, x: Pair, first: bool, c: Call, e: Entry) returns (r': Run, y: Pair)
    requires At(r, g, x) && ClientStep(if first then x.a else x.b, x.e, c, e)
    ensures At(r', g, y) && y == Moved(x, first, c, e)
  {
    y := Moved(x, first, c, e);
    TalkEmbeds(g, x, first, c, e);
    r' := Onward(r, g, x, Talk(if first then g.c else g.d), y);
  }

  lemma TalkEmbeds(g: Stage, x: Pair, first: bool, c: Call, e: Entry)
    requires Staged(g) && ClientStep(if first then x.a else x.b, x.e, c, e)
    ensures Step(Embed(g, x), Talk(if first then g.c else g.d), Embed(g, Moved(x, first, c, e)))
  {
    var s, t := Embed(g, x), Embed(g, Moved(x, first, c, e));
    var i := if first then g.c else g.d;
    assert t.nodes == s.nodes[g.n := Live(e)];
    assert t.clients == s.clients[i := Talking(g.n, g.fd, c)];
    assert TalkStep(s, i, t);
  }

  lemma ServiceMoves(r: Run, g: Stage, x: Pair, e: Entry) returns (r': Run, y: Pair)
    requires At(r, g, x) && ServiceStep(x.e, e)
    ensures At(r', g, y) && y == x.(e := e)
  {
    y := x.(e := e);
    ServeEmbeds(g, x, e);
    r' := Onward(r, g, x, Serve(g.n), y);
  }

  lemma ServeEmbeds(g: Stage, x: Pair, e: Entry)
    requires Staged(g) && ServiceStep(x.e, e)
    ensures Step(Embed(g, x), Serve(g.n), Embed(g, x.(e := e)))
  {
    var s, t := Embed(g, x), Embed(g, x.(e := e));
    assert t.nodes == s.nodes[g.n := Live(e)];
    assert ServeStep(s, g.n, t);
  }

  /** A wait or post of the service thread. */
  lemma ServicePasses(r: Run, g: Stage, x: Pair) returns (r': Run, y: Pair)
    requires At(r, g, x) && ServiceReady(x.e.service.at, x.e.gates)
    requires !x.e.service.at.CopyRequest? && !x.e.service.at.Execute? && !x.e.service.at.CopyReply?
    ensures At(r', g, y)
    ensures var v := x.e.service;
            y == x.(e := x.e.(gates := ServiceGates(v.at, x.e.gates),
                              service := v.(at := ServiceNext(v.at, Terminates(v.request.tag)))))
  {
    var v := x.e.service;
    r', y := ServiceMoves(r, g, x, x.e.(gates := ServiceGates(v.at, x.e.gates),
                                         service := v.(at := ServiceNext(v.at, Terminates(v.request.tag)))));
  }

  /** A client whose turn it is puts its request in the buffer and announces it. */
  lemma Sends(r: Run, g: Stage, x: Pair, first: bool) returns (r': Run, y: Pair)
    requires At(r, g, x)
    requires var c := if first then x.a else x.b; c.at.AwaitEmpty?
    requires x.e.gates.empty > 0 && x.e.gates.mutex > 0
    ensures At(r', g, y)
    ensures var c := if first then x.a else x.b;
            y == Moved(x, first, c.(at := AwaitFull2, ticket := |x.e.done|),
                       x.e.(gates := x.e.gates.(empty := x.e.gates.empty - 1, full := x.e.gates.full + 1),
                            buffer := Asked(c.request), sent := x.e.sent + [c.request]))
  {
    var c := if first then x.a else x.b;
    var h, k := x.e.gates, |x.e.done|;
    var e1 := x.e.(gates := h.(empty := h.empty - 1));
    var e2 := x.e.(gates := e1.gates.(mutex := h.mutex - 1));
    var e3 := e2.(buffer := Asked(c.request), sent := x.e.sent + [c.request]);
    var e4 := e3.(gates := e1.gates);
    var e5 := e4.(gates := e1.gates.(full := h.full + 1));
    r', y := ClientMoves(r, g, x, first, c.(at := AwaitMutex), e1);
    r', y := ClientMoves(r', g, y, first, c.(at := PutRequest), e2);
    r', y := ClientMoves(r', g, y, first, c.(at := SignalMutex, ticket := k), e3);
    r', y := ClientMoves(r', g, y, first, c.(at := SignalFull, ticket := k), e4);
    r', y := ClientMoves(r', g, y, first, c.(at := AwaitFull2, ticket := k), e5);
  }

  /** The service thread takes the request in the buffer and frees the request side. */
  lemma Fetches(r: Run, g: Stage, x: Pair) returns (r': Run, y: Pair)
    requires At(r, g, x)
    requires x.e.service.at.WaitFull? && x.e.gates.full > 0 && x.e.gates.mutex > 0 && x.e.buffer.Asked?
    ensures At(r', g, y)
    ensures y == x.(e := x.e.(gates := x.e.gates.(empty := x.e.gates.empty + 1, full := x.e.gates.full - 1),
                              service := x.e.service.(at := Execute, request := x.e.buffer.request)))
  {
    r', y := ServicePasses(r, g, x);
    r', y := ServicePasses(r', g, y);
    r', y := ServiceMoves(r', g, y, y.e.(service := y.e.service.(at := PostMutex, request := y.e.buffer.request)));
    r', y := ServicePasses(r', g, y);
    r', y := ServicePasses(r', g, y);
  }

  /** The service thread executes the request it has and gets hold of the reply side. */
  lemma Executes(r: Run, g: Stage, x: Pair, value: int) returns (r': Run, y: Pair)
    requires At(r, g, x) && x.e.service.at.Execute? && !Terminates(x.e.service.request.tag)
    requires x.e.gates.empty2 > 0 && x.e.gates.mutex2 > 0
    ensures At(r', g, y)
    ensures var h, q := x.e.gates, x.e.service.request;
            y == x.(e := x.e.(gates := h.(empty2 := h.empty2 - 1, mutex2 := h.mutex2 - 1),
                              service := Service(CopyReply, q, value), done := x.e.done + [Execution(q, value)]))
  {
    var q := x.e.service.request;
    r', y := ServiceMoves(r, g, x, x.e.(service := Service(WaitEmpty2, q, value),
                                         done := x.e.done + [Execution(q, value)]));
    r', y := ServicePasses(r', g, y);
    r', y := ServicePasses(r', g, y);
  }

  /** The service thread writes its reply and announces it. */
  lemma Announces(r: Run, g: Stage, x: Pair) returns (r': Run, y: Pair)
    requires At(r, g, x) && x.e.service.at.CopyReply?
    ensures At(r', g, y)
    ensures var h, v := x.e.gates, x.e.service;
            y == x.(e := x.e.(gates := h.(mutex2 := h.mutex2 + 1, full2 := h.full2 + 1),
                              buffer := Answered(Reply(v.request.tag, v.value)), service := v.(at := LoopTest)))
  {
    var v := x.e.service;
    r', y := ServiceMoves(r, g, x, x.e.(service := v.(at := PostMutex2),
                                         buffer := Answered(Reply(v.request.tag, v.value))));
    r', y := ServicePasses(r', g, y);
    r', y := ServicePasses(r', g, y);
  }

  /** The second client takes the announced reply. */
  lemma Takes(r: Run, g: Stage, x: Pair) returns (r': Run, y: Pair)
    requires At(r, g, x)
    requires x.b.at.AwaitFull2? && x.e.gates.full2 > 0 && x.e.gates.mutex2 > 0 && x.e.buffer.Answered?
    ensures At(r', g, y)
    ensures y == Pair(x.a, x.b.(at := SignalMutex2, reply := x.e.buffer.reply),
                      x.e.(gates := x.e.gates.(full2 := x.e.gates.full2 - 1, mutex2 := x.e.gates.mutex2 - 1)))
  {
    var h := x.e.gates;
    var e1 := x.e.(gates := h.(full2 := h.full2 - 1));
    var e2 := x.e.(gates := e1.gates.(mutex2 := h.mutex2 - 1));
    var b := x.b.(at := SignalMutex2, reply := x.e.buffer.reply);
    r', y := ClientMoves(r, g, x, false, x.b.(at := AwaitMutex2), e1);
    r', y := ClientMoves(r', g, y, false, x.b.(at := TakeReply), e2);
    r', y := ClientMoves(r', g, y, false, b, e2);
  }

  /** From two clients admitted to an entry at rest to the second holding the answer to the first one's
      request. */
  lemma Crosses(r: Run, g: Stage, x: Pair, value: int) returns (r': Run, y: Pair)
    requires At(r, g, x) && x.a.at.AwaitEmpty? && x.b.at.AwaitEmpty? && !Terminates(x.a.request.tag)
    requires x.e.gates == Gates(1, 0, 1, 1, 0, 1) && x.e.service.at.WaitFull?
    ensures At(r', g, y)
    ensures y.b.at.SignalMutex2? && y.b.request == x.b.request && y.b.reply == Reply(x.a.request.tag, value)
    ensures y.e.sent == x.e.sent + [x.a.request] + [x.b.request]
    ensures y.e.done == x.e.done + [Execution(x.a.request, value)]
    ensures y.e.buffer == Answered(Reply(x.a.request.tag, value)) && y.e.service.request == x.a.request
  {
    r', y := Sends(r, g, x, true);
    r', y := Fetches(r', g, y);
    r', y := Sends(r', g, y, false);
    r', y := Executes(r', g, y, value);
    r', y := Announces(r', g, y);
    r', y := Takes(r', g, y);
  }

  /** Clients `c` and `d` have just been admitted to the same entry, which is at rest. */
  predicate BothAdmitted(s: State, c: nat, d: nat) {
    && c < |s.clients| && d < |s.clients| && c != d && s.clients[c].Talking? && s.clients[d].Talking?
    && s.clients[c].node == s.clients[d].node < |s.nodes| && s.nodes[s.clients[c].node].Live?
    && s.clients[c].call.at.AwaitEmpty? && s.clients[d].call.at.AwaitEmpty?
    && var e := s.nodes[s.clients[c].node].entry;
    && e.gates == Gates(1, 0, 1, 1, 0, 1) && e.service.at.WaitFull?
  }

  /** Client `d` holds the answer `value` to the request of `c`, while its own has been sent, has not been
      executed and is nowhere left to be read; `s` is the state before. */
  predicate Crossed(s: State, t: State, c: nat, d: nat, value: int)
    requires BothAdmitted(s, c, d)
  {
    var n, q1, q2 := s.clients[c].node, s.clients[c].call.request, s.clients[d].call.request;
    && |t.clients| == |s.clients| && |t.nodes| == |s.nodes|
    && (forall i :: 0 <= i < |s.clients| && i != c && i != d ==> t.clients[i] == s.clients[i])
    && t.clients[d].Talking? && t.clients[d].node == n && t.clients[d].call.at.SignalMutex2?
    && t.clients[d].call.request == q2 && t.clients[d].call.reply == Reply(q1.tag, value)
    && t.nodes[n].Live?
    && var e, e' := s.nodes[n].entry, t.nodes[n].entry;
    && e'.sent == e.sent + [q1] + [q2] && e'.done == e.done + [Execution(q1, value)]
    && e'.buffer == Answered(Reply(q1.tag, value)) && e'.service.request == q1
  }

  /** Whenever two clients have been admitted to an entry at rest -- whatever other clients, entries and
      locks there are -- the run can continue so that the second takes the answer to the first one's
      request, for any answer, and its own request is overwritten without being executed. */
  lemma RepliesCross(r: Run, c: nat, d: nat, value: int) returns (r': Run)
    requires Valid(r) && BothAdmitted(Last(r.states), c, d)
    requires !Terminates(Last(r.states).clients[c].call.request.tag)
    ensures Continues(r, r') && |r'.states| > 0 && Crossed(Last(r.states), Last(r'.states), c, d, value)
  {
    var s := Last(r.states);
    var p, q := s.clients[c], s.clients[d];
    InvRun(r, |r.states| - 1);
    assert RefOk(p, s.nodes) && RefOk(q, s.nodes);
    var g := Stage(r, p.node, p.fd, c, d);
    var x := Pair(p.call, q.call, s.nodes[p.node].entry);
    EmbedsItself(g, x);
    var y;
    r', y := Crosses(r, g, x, value);
  }

  lemma EmbedsItself(g: Stage, x: Pair)
    requires Staged(g)
    requires var s := Last(g.r.states);
             && s.clients[g.c] == Talking(g.n, g.fd, x.a) && s.clients[g.d] == Talking(g.n, g.fd, x.b)
             && s.nodes[g.n] == Live(x.e)
    ensures Embed(g, x) == Last(g.r.states)
  {
    var s := Last(g.r.states);
    assert Embed(g, x).clients == s.clients && Embed(g, x).nodes == s.nodes;
  }

  // ----- Reaching that situation ----------------------------------------------------------------

  const RESTING := State([Resting, Resting], [], Lock(multiset{}, Nobody), multiset{})

  /** Client 0 has the lock it needs to register `fd`. */
  lemma Registers(job: Job) returns (r: Run)
    requires job.Register?
    ensures Valid(r) && Solo(r)
    ensures Last(r.states) == Goto(RESTING, 0, Looking(job)).(lock := TakeLock(RESTING.lock, 0, NeedsWrite(job)))
  {
    r := Run([RESTING], []);
    var s1 := Goto(RESTING, 0, Locking(job));
    r := Extend(r, Invoke(0, job), s1);
    var s2 := Goto(s1, 0, Looking(job)).(lock := TakeLock(RESTING.lock, 0, NeedsWrite(job)));
    r := Extend(r, Acquire(0), s2);
    assert s2.clients == RESTING.clients[0 := Looking(job)];
  }

  /** A file is opened as descriptor `fd`; its service thread has not looked itself up yet. */
  lemma OpensFile(fd: int, q: Request) returns (r: Run)
    requires fd > 0
    ensures Valid(r) && Solo(r)
    ensures Last(r.states) == RESTING.(nodes := [Live(NewEntry(fd, true))])
  {
    r := Registers(Register(fd, true, false, q));
    var s3 := Goto(WithNode(Last(r.states), fd, true), 0, Unlocking(true, Return(fd)));
    r := Extend(r, Look(0, 0), s3);
    var s4 := Goto(s3, 0, Resting).(lock := Lock(multiset{}, Nobody));
    r := Extend(r, Release(0), s4);
    assert s4.clients == RESTING.clients;
  }

  /** Its service thread reaches its loop. */
  lemma OpensEntry(fd: int, q: Request) returns (r: Run)
    requires fd > 0
    ensures Valid(r)
    ensures Last(r.states) == RESTING.(nodes := [Live(Begun(NewEntry(fd, true), true))])
  {
    r := OpensFile(fd, q);
    var s := Last(r.states);
    BarOne(s.nodes[0]);
    var t := SetNode(s, 0, Live(Begun(NewEntry(fd, true), true)));
    assert BeginStep(s, 0, true, t);
    r := Extend(r, Begin(0, true), t);
  }

  lemma BarOne(x: Slot)
    ensures Bar([x]) == if Has(x, 0) then 1 else 0
  {
    BarGrows([], x);
    assert [] + [x] == [x];
  }

  /** A failing `epoll_create` leaves its read lock taken twice when it returns. */
  lemma FailedEpollCreateLeaks(fd: int, q: Request) returns (r: Run)
    requires fd < 0
    ensures Valid(r) && Last(r.states).clients == [Resting, Resting]
    ensures Last(r.states).leaked == multiset{0, 0} == Last(r.states).lock.readers
  {
    r := Registers(Register(fd, false, true, q));
    var s := Last(r.states);
    r := Extend(r, Look(0, 0), Goto(s, 0, Resting).(lock := TakeLock(s.lock, 0, false),
                                                     leaked := s.leaked + multiset{0} + multiset{0}));
  }

  /** Client `c` starts an I/O call on `fd` and finds the entry. */
  lemma Admits(r: Run, c: nat, fd: int, q: Request) returns (r': Run)
    requires Valid(r) && !Terminates(q.tag)
    requires var s := Last(r.states);
             && c < |s.clients| && s.clients[c].Resting? && s.lock.writer.Nobody?
             && |s.nodes| == 1 && Has(s.nodes[0], fd) && fd != 0 && s.nodes[0].entry.file
    ensures Valid(r') && (Solo(r) && c == 0 ==> Solo(r'))
    ensures var s := Last(r.states);
            Last(r'.states) == Goto(s, c, Talking(0, fd, NewCall(q))).(lock := TakeLock(s.lock, c, false))
  {
    var s := Last(r.states);
    assert s.nodes == [s.nodes[0]];
    BarOne(s.nodes[0]);
    var job := Delegate(fd, true, q);
    var s1 := Goto(s, c, Locking(job));
    r' := Extend(r, Invoke(c, job), s1);
    var s2 := Goto(s1, c, Looking(job)).(lock := TakeLock(s.lock, c, false));
    r' := Extend(r', Acquire(c), s2);
    var s3 := Goto(s2, c, Talking(0, fd, NewCall(q)));
    r' := Extend(r', Look(c, 0), s3);
    assert s3.clients == s.clients[c := Talking(0, fd, NewCall(q))];
  }

  /** For any two I/O requests and any answer of the kernel there is a run in which two threads use the
      same descriptor, the second thread gets the answer to the first thread's request, and its own
      request is lost: it was sent, has not been executed, and is nowhere left to be read. */
  lemma TwoClientsCanLoseARequest(fd: int, q1: Request, q2: Request, value: int) returns (r: Run)
    requires fd > 0 && !Terminates(q1.tag) && !Terminates(q2.tag)
    ensures Valid(r)
    ensures var s := Last(r.states);
            && |s.clients| == 2 && s.clients[1].Talking? && s.clients[1].node == 0
            && s.clients[1].call.at.SignalMutex2? && s.clients[1].call.request == q2
            && s.clients[1].call.reply == Reply(q1.tag, value)
            && |s.nodes| == 1 && s.nodes[0].Live?
            && var e := s.nodes[0].entry;
            && e.sent == [q1, q2] && e.done == [Execution(q1, value)]
            && e.buffer == Answered(Reply(q1.tag, value)) && e.service.request == q1
  {
    r := OpensEntry(fd, q1);
    r := Admits(r, 0, fd, q1);
    r := Admits(r, 1, fd, q2);
    r := RepliesCross(r, 0, 1, value);
    assert [] + [q1] + [q2] == [q1, q2];
  }

  // ----- A reader stranded by descriptor 0 ------------------------------------------------------

  /** Client 0 alone in an exchange with node 0. */
  function Asks(fd: int, x: Call, e: Entry): State {
    State([Talking(0, fd, x), Resting], [Live(e)], Lock(multiset{0}, Nobody), multiset{})
  }

  lemma AskOnce(r: Run, fd: int, x: Call, e: Entry, x': Call, e': Entry) returns (r': Run)
    requires Valid(r) && Solo(r) && Last(r.states) == Asks(fd, x, e) && ClientStep(x, e, x', e')
    ensures Valid(r') && Solo(r') && Last(r'.states) == Asks(fd, x', e')
  {
    assert TalkStep(Asks(fd, x, e), 0, Asks(fd, x', e'));
    r' := Extend(r, Talk(0), Asks(fd, x', e'));
  }

  /** The entry of `fd` after `q` has been sent to it. */
  function Posted(fd: int, q: Request): Entry {
    var e := NewEntry(fd, true);
    e.(gates := e.gates.(empty := 0, full := 1), buffer := Asked(q), sent := [q])
  }

  /** The client sends its request and waits for the reply. */
  lemma SendsAlone(r: Run, fd: int, q: Request) returns (r': Run)
    requires Valid(r) && Solo(r) && Last(r.states) == Asks(fd, NewCall(q), NewEntry(fd, true))
    ensures Valid(r') && Solo(r') && Last(r'.states) == Asks(fd, NewCall(q).(at := AwaitFull2), Posted(fd, q))
  {
    var x, e0 := NewCall(q), NewEntry(fd, true);
    var e1 := e0.(gates := e0.gates.(empty := 0));
    var e2 := e0.(gates := e0.gates.(empty := 0, mutex := 0));
    var e3 := e2.(buffer := Asked(q), sent := [q]);
    var e4 := e3.(gates := e1.gates);
    r' := AskOnce(r, fd, x, e0, x.(at := AwaitMutex), e1);
    r' := AskOnce(r', fd, x.(at := AwaitMutex), e1, x.(at := PutRequest), e2);
    r' := AskOnce(r', fd, x.(at := PutRequest), e2, x.(at := SignalMutex), e3);
    r' := AskOnce(r', fd, x.(at := SignalMutex), e3, x.(at := SignalFull), e4);
    r' := AskOnce(r', fd, x.(at := SignalFull), e4, x.(at := AwaitFull2), Posted(fd, q));
  }

  /** Client 1 is inside the table with a descriptor that `epoll_create` has just returned. */
  lemma EntersWith(r: Run, s: State, job: Job) returns (r': Run)
    requires Valid(r) && Solo(r) && Last(r.states) == s && |s.clients| == 2 && s.clients[1].Resting?
    requires s.lock.writer.Nobody? && !NeedsWrite(job)
    ensures Valid(r') && Solo(r')
    ensures Last(r'.states) == Goto(s, 1, Looking(job)).(lock := TakeLock(s.lock, 1, false))
  {
    var s1 := Goto(s, 1, Locking(job));
    r' := Extend(r, Invoke(1, job), s1);
    var s2 := Goto(s1, 1, Looking(job)).(lock := TakeLock(s.lock, 1, false));
    r' := Extend(r', Acquire(1), s2);
    assert s2.clients == s.clients[1 := Looking(job)];
  }

  /** Client 1's `epoll_create` returns 0 and registers it in front of the only entry. */
  lemma RegistersZero(r: Run, s: State, z: Request) returns (r': Run)
    requires Valid(r) && Solo(r) && Last(r.states) == s && |s.clients| == 2 && s.clients[1].Resting?
    requires s.lock == Lock(multiset{0}, Nobody) && |s.nodes| == 1 && !Has(s.nodes[0], 0)
    ensures Valid(r') && Solo(r') && Last(r'.states) == WithNode(s, 0, false)
  {
    r' := EntersWith(r, s, Register(0, false, true, z));
    var s2 := Last(r'.states);
    var s3 := Goto(WithNode(s2, 0, false), 1, Unlocking(false, Return(0)));
    assert LiveCount(s.nodes[1..]) == 0;
    r' := Extend(r', Look(1, 0), s3);
    var s4 := Goto(s3, 1, Resting).(lock := DropLock(s3.lock, 1, false));
    r' := Extend(r', Release(1), s4);
    assert s4.clients == s.clients && s4.lock.readers == s.lock.readers;
  }

  /** With one client per entry and no lock leaked, a call on an opened file can still be stranded: its
      service thread has not started when another thread's `epoll_create` returns 0, so it does not find
      its entry and exits.  The client then waits for ever holding its read lock. */
  lemma ZeroStrandsReader(fd: int, q: Request, z: Request) returns (r: Run)
    requires fd > 0 && !Terminates(q.tag)
    ensures Valid(r) && OneClientRun(r)
    ensures var s := Last(r.states);
            && |s.clients| == 2 && s.clients[1].Resting? && Doomed(s, 0)
            && s.clients[0] == Talking(0, fd, NewCall(q).(at := AwaitFull2))
            && s.leaked == multiset{} && s.lock == Lock(multiset{0}, Nobody)
            && |s.nodes| == 2 && s.nodes[0] == Live(Begun(Posted(fd, q), false))
  {
    r := OpensFile(fd, q);
    r := Admits(r, 0, fd, q);
    assert Last(r.states) == Asks(fd, NewCall(q), NewEntry(fd, true));
    r := SendsAlone(r, fd, q);
    r := RegistersZero(r, Last(r.states), z);
    var s := Last(r.states);
    BarGrows(s.nodes[..1], s.nodes[1]);
    assert s.nodes == s.nodes[..1] + [s.nodes[1]];
    r := Extend(r, Begin(0, false), SetNode(s, 0, Live(Begun(Posted(fd, q), false))));
    BarStays(s.nodes, 0, Live(Begun(Posted(fd, q), false)));
    forall i | 0 <= i < |r.states| ensures OneClient(r.states[i]) {
      assert SoloState(r.states[i]);
    }
  }
}
