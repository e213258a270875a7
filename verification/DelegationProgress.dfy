/**
 Progress of the delegation protocol, for any number of clients and entries.  Every step except the
 start of a new call uses up some of a fixed budget, and a state with nothing left to do is one where
 every call has returned but the stuck ones.  Exactly two things make a call stuck: a leaked read lock,
 for calls that need the write lock, and a service thread that does not find its own entry, for the
 client that waits for it and then, through its read lock, for calls that need the write lock.
 Otherwise holding the table lock across an exchange cannot deadlock, because the service threads never
 touch it.
 */
module DelegationProgress {
  import opened Basics
  import opened Channel
  import opened Delegation
  import opened DelegationInvariant
  import opened DelegationStartup
  import opened DelegationCalls

  // ----- Every step uses up part of the budget --------------------------------------------------

  /** Steps left until a client is out of its exchange, counting the pass through the service loop
      that its request will cause. */
  function CallRank(at: ClientPoint): nat {
    match at
    case AwaitEmpty => 28
    case AwaitMutex => 27
    case PutRequest => 26
    case SignalMutex => 25
    case SignalFull => 24
    case AwaitFull2 => 10
    case AwaitMutex2 => 9
    case TakeReply => 8
    case SignalMutex2 => 7
    case SignalEmpty2 => 6
    case Received => 5
  }

  function ClientRank(p: Pc): nat {
    match p
    case Resting => 0
    case Locking(_) => 30
    case Looking(_) => 29
    case Talking(_, _, call) => CallRank(call.at)
    case Joining(_, _, _) => 4
    case Deleting(_, _, _) => 3
    case Unlocking(_, _) => 2
    case Calling(_) => 1
  }

  function ServiceRank(at: ServicePoint): nat {
    match at
    case Start => 1
    case WaitFull => 0
    case WaitMutex => 11
    case CopyRequest => 10
    case PostMutex => 9
    case PostEmpty => 8
    case Execute => 7
    case WaitEmpty2 => 6
    case WaitMutex2 => 5
    case CopyReply => 4
    case PostMutex2 => 3
    case PostFull2 => 2
    case LoopTest => 1
    case Exited => 0
  }

  function NodeRank(x: Slot): nat {
    match x
    case Live(e) => 13 * e.gates.full + ServiceRank(e.service.at)
    case Freed => 0
  }

  function ClientBudget(clients: seq<Pc>): nat {
    if clients == [] then 0 else ClientRank(clients[0]) + ClientBudget(clients[1..])
  }

  function NodeBudget(nodes: seq<Slot>): nat {
    if nodes == [] then 0 else NodeRank(nodes[0]) + NodeBudget(nodes[1..])
  }

  function Budget(s: State): nat {
    ClientBudget(s.clients) + NodeBudget(s.nodes)
  }

  lemma {:induction false} ClientBudgetMoves(clients: seq<Pc>, c: nat, p: Pc)
    requires c < |clients|
    ensures ClientBudget(clients[c := p]) + ClientRank(clients[c]) == ClientBudget(clients) + ClientRank(p)
  {
    if c == 0 {
      assert clients[c := p][1..] == clients[1..];
    } else {
      assert clients[c := p][1..] == clients[1..][c - 1 := p];
      ClientBudgetMoves(clients[1..], c - 1, p);
    }
  }

  lemma {:induction false} NodeBudgetMoves(nodes: seq<Slot>, n: nat, x: Slot)
    requires n < |nodes|
    ensures NodeBudget(nodes[n := x]) + NodeRank(nodes[n]) == NodeBudget(nodes) + NodeRank(x)
  {
    if n == 0 {
      assert nodes[n := x][1..] == nodes[1..];
    } else {
      assert nodes[n := x][1..] == nodes[1..][n - 1 := x];
      NodeBudgetMoves(nodes[1..], n - 1, x);
    }
  }

  lemma {:induction false} NodeBudgetGrows(nodes: seq<Slot>, x: Slot)
    ensures NodeBudget(nodes + [x]) == NodeBudget(nodes) + NodeRank(x)
  {
    if nodes == [] {
      assert nodes + [x] == [x];
    } else {
      assert (nodes + [x])[1..] == nodes[1..] + [x];
      NodeBudgetGrows(nodes[1..], x);
    }
  }

  lemma ClientSpends(s: State, c: nat, p: Pc, t: State)
    requires c < |s.clients| && t.clients == s.clients[c := p] && t.nodes == s.nodes
    requires ClientRank(p) < ClientRank(s.clients[c])
    ensures Budget(t) < Budget(s)
  {
    ClientBudgetMoves(s.clients, c, p);
  }

  lemma BeginSpends(s: State, n: nat, found: bool, t: State)
    requires n < |s.nodes| && s.nodes[n].Live? && BeginStep(s, n, found, t)
    ensures Budget(t) < Budget(s)
  {
    NodeBudgetMoves(s.nodes, n, t.nodes[n]);
  }

  lemma TalkSpends(s: State, c: nat, t: State)
    requires c < |s.clients| && s.clients[c].Talking? && TalkStep(s, c, t)
    ensures Budget(t) < Budget(s)
  {
    var p := s.clients[c];
    ClientBudgetMoves(s.clients, c, t.clients[c]);
    NodeBudgetMoves(s.nodes, p.node, t.nodes[p.node]);
  }

  lemma ServeSpends(s: State, n: nat, t: State)
    requires n < |s.nodes| && s.nodes[n].Live? && ServeStep(s, n, t)
    ensures Budget(t) < Budget(s)
  {
    NodeBudgetMoves(s.nodes, n, t.nodes[n]);
  }

  lemma LookSpends(s: State, c: nat, n: nat, t: State)
    requires c < |s.clients| && s.clients[c].Looking? && LookStep(s, c, n, t)
    ensures Budget(t) < Budget(s)
  {
    ClientBudgetMoves(s.clients, c, t.clients[c]);
    var job := s.clients[c].job;
    NodeBudgetGrows(s.nodes, Live(NewEntry(job.fd, job.file)));
  }

  lemma FinishSpends(s: State, c: nat, t: State)
    requires c < |s.clients| && s.clients[c].Talking? && s.clients[c].call.at.Received? && FinishStep(s, c, t)
    ensures Budget(t) < Budget(s)
  {
    ClientBudgetMoves(s.clients, c, t.clients[c]);
    NodeBudgetGrows(s.nodes, Live(NewEntry(s.clients[c].call.reply.value, false)));
  }

  lemma DeleteSpends(s: State, c: nat, n: nat, t: State)
    requires c < |s.clients| && s.clients[c].Deleting? && DeleteStep(s, c, n, t)
    ensures Budget(t) < Budget(s)
  {
    ClientBudgetMoves(s.clients, c, t.clients[c]);
    if n < |s.nodes| {
      NodeBudgetMoves(s.nodes, n, Freed);
    }
  }

  /** Every step that does not start a new call uses up part of the budget. */
  lemma StepSpends(s: State, a: Action, t: State)
    requires Step(s, a, t) && !a.Invoke?
    ensures Budget(t) < Budget(s)
  {
    match a {
      case Acquire(c) => ClientSpends(s, c, t.clients[c], t);
      case Look(c, n) => LookSpends(s, c, n, t);
      case Talk(c) => TalkSpends(s, c, t);
      case Finish(c) => FinishSpends(s, c, t);
      case Join(c) => ClientSpends(s, c, t.clients[c], t);
      case Delete(c, n) => DeleteSpends(s, c, n, t);
      case Release(c) => ClientSpends(s, c, t.clients[c], t);
      case Original(c, _) => ClientSpends(s, c, Resting, t);
      case Begin(n, found) => BeginSpends(s, n, found, t);
      case Serve(n) => ServeSpends(s, n, t);
    }
  }

  // ----- A client inside the table can always go on, or its service thread can ------------------

  function Field(k: Census, r: Role): nat {
    match r
    case Idle => 0
    case Claimed => k.claimed
    case Locked => k.locked
    case Unlocked => k.unlocked
    case Waiting => k.waiting
    case Claimed2 => k.claimed2
    case Locked2 => k.locked2
    case Unlocked2 => k.unlocked2
  }

  lemma {:induction false} FindRole(clients: seq<Pc>, n: nat, r: Role) returns (c: nat)
    requires Field(CensusOf(clients, n), r) > 0
    ensures c < |clients| && RoleAt(clients[c], n) == r
  {
    if RoleAt(clients[0], n) == r {
      c := 0;
    } else {
      var c' := FindRole(clients[1..], n, r);
      c := c' + 1;
    }
  }

  lemma TalkEnabled(s: State, c: nat) returns (t: State)
    requires c < |s.clients| && s.clients[c].Talking?
    requires s.clients[c].node < |s.nodes| && s.nodes[s.clients[c].node].Live?
    requires ClientReady(s.clients[c].call.at, s.nodes[s.clients[c].node].entry.gates)
    ensures Step(s, Talk(c), t)
  {
    var p := s.clients[c];
    var e, x := s.nodes[p.node].entry, p.call;
    var r := match e.buffer case Zeroed => Reply(Io, 0) case Asked(q) => Reply(q.tag, 0) case Answered(r) => r;
    var x' := Call(ClientNext(x.at), x.request, if x.at.PutRequest? then |e.done| else x.ticket,
                   if x.at.TakeReply? then r else x.reply);
    var e' := (if x.at.PutRequest? then e.(buffer := Asked(x.request), sent := e.sent + [x.request]) else e)
              .(gates := ClientGates(x.at, e.gates));
    t := Goto(SetNode(s, p.node, Live(e')), c, p.(call := x'));
  }

  lemma ServeEnabled(s: State, n: nat) returns (t: State)
    requires n < |s.nodes| && s.nodes[n].Live?
    requires ServiceReady(s.nodes[n].entry.service.at, s.nodes[n].entry.gates)
    ensures Step(s, Serve(n), t)
  {
    var e := s.nodes[n].entry;
    var v := e.service;
    var q := match e.buffer case Zeroed => Request(Io, 0) case Asked(q) => q case Answered(r) => Request(r.tag, 0);
    var v' := Service(ServiceNext(v.at, Terminates(v.request.tag)),
                      if v.at.CopyRequest? then q else v.request, v.value);
    var e' := Entry(e.fd, e.file, ServiceGates(v.at, e.gates),
                    if v.at.CopyReply? then Answered(Reply(v.request.tag, v.value)) else e.buffer,
                    v', e.sent,
                    if v.at.Execute? then e.done + [Execution(v.request, v'.value)] else e.done);
    t := SetNode(s, n, Live(e'));
  }

  lemma BeginEnabled(s: State, n: nat) returns (a: Action, t: State)
    requires n < |s.nodes| && s.nodes[n].Live? && s.nodes[n].entry.service.at.Start?
    ensures a.Begin? && Step(s, a, t)
  {
    var found := Bar(s.nodes) <= n;
    a, t := Begin(n, found), SetNode(s, n, Live(Begun(s.nodes[n].entry, found)));
  }

  /** A client holding tokens of an entry is never blocked. */
  lemma HolderReady(s: State, n: nat, c: nat)
    requires Core(s) && n < |s.nodes| && s.nodes[n].Live? && c < |s.clients|
    requires !RoleAt(s.clients[c], n).Idle?
    requires RoleAt(s.clients[c], n).Waiting? ==> s.nodes[n].entry.gates.full2 > 0
    ensures ClientReady(s.clients[c].call.at, s.nodes[n].entry.gates)
  {
    var e := s.nodes[n].entry;
    assert TokenInv(s, n);
    CensusIncludes(s.clients, c, n);
    MutexNeverBlocks(e.gates, e.service.at, CensusOf(s.clients, n));
  }

  /** If the reply side's token is with a client, or announced, that client can go on. */
  lemma ReceiverMoves(s: State, n: nat) returns (t: State, c: nat)
    requires Core(s) && n < |s.nodes| && s.nodes[n].Live?
    requires s.nodes[n].entry.service.at.WaitEmpty2? && s.nodes[n].entry.gates.empty2 == 0
    ensures Step(s, Talk(c), t)
  {
    var e, k := s.nodes[n].entry, CensusOf(s.clients, n);
    assert TokenInv(s, n);
    var r := if e.gates.full2 > 0 then Waiting
             else if k.claimed2 > 0 then Claimed2 else if k.locked2 > 0 then Locked2 else Unlocked2;
    c := FindRole(s.clients, n, r);
    HolderReady(s, n, c);
    t := TalkEnabled(s, c);
  }

  lemma SenderMoves(s: State, n: nat) returns (t: State, c: nat)
    requires Core(s) && n < |s.nodes| && s.nodes[n].Live?
    requires !Fetching(s.nodes[n].entry.service.at)
    requires s.nodes[n].entry.gates.empty == 0 && s.nodes[n].entry.gates.full == 0
    ensures Step(s, Talk(c), t)
  {
    var k := CensusOf(s.clients, n);
    assert TokenInv(s, n);
    var r := if k.claimed > 0 then Claimed else if k.locked > 0 then Locked else Unlocked;
    c := FindRole(s.clients, n, r);
    HolderReady(s, n, c);
    t := TalkEnabled(s, c);
  }

  /** A client talking to an entry whose service thread has left its loop has its answer announced. */
  lemma ExitedAnswers(s: State, c: nat)
    requires Inv(s) && c < |s.clients| && s.clients[c].Talking?
    requires RefOk(s.clients[c], s.nodes)
    requires var e := s.nodes[s.clients[c].node].entry; e.service.at.Exited? && !Stillborn(e)
    ensures s.clients[c].call.at.Received? ||
            ClientReady(s.clients[c].call.at, s.nodes[s.clients[c].node].entry.gates)
  {
    var p := s.clients[c];
    var e := s.nodes[p.node].entry;
    assert PhaseInv(s, p.node);
    assert Holding(p, c, s.lock, s.leaked);
    NoOther(s, c);
    WriterTokens(s, c);
    MutexNeverBlocks(e.gates, e.service.at, Alone(p.call.at));
  }

  lemma TalkerProgress(s: State, c: nat) returns (a: Action, t: State)
    requires Inv(s) && Births(s) && c < |s.clients| && s.clients[c].Talking? && !s.clients[c].call.at.Received?
    requires !Doomed(s, c)
    ensures !a.Invoke? && Step(s, a, t)
  {
    var p := s.clients[c];
    assert RefOk(p, s.nodes);
    var n := p.node;
    var e := s.nodes[n].entry;
    if ClientReady(p.call.at, e.gates) {
      t := TalkEnabled(s, c);
      a := Talk(c);
    } else if ServiceReady(e.service.at, e.gates) {
      t := ServeEnabled(s, n);
      a := Serve(n);
    } else if e.service.at.Start? {
      a, t := BeginEnabled(s, n);
    } else {
      var d: nat;
      assert BirthOk(s.nodes, n);
      WhoBlocks(s, c);
      if e.service.at.WaitEmpty2? {
        t, d := ReceiverMoves(s, n);
      } else {
        t, d := SenderMoves(s, n);
      }
      a := Talk(d);
    }
  }

  /** When neither a client nor its service thread can move, another client holds what they need. */
  lemma WhoBlocks(s: State, c: nat)
    requires Inv(s) && c < |s.clients| && s.clients[c].Talking? && !s.clients[c].call.at.Received?
    requires RefOk(s.clients[c], s.nodes)
    requires var e := s.nodes[s.clients[c].node].entry;
             && !ClientReady(s.clients[c].call.at, e.gates) && !ServiceReady(e.service.at, e.gates)
             && !Unserved(e)
    ensures var e := s.nodes[s.clients[c].node].entry;
            || (e.service.at.WaitEmpty2? && e.gates.empty2 == 0)
            || (e.service.at.WaitFull? && e.gates.empty == 0 && e.gates.full == 0)
  {
    var p := s.clients[c];
    var e, k := s.nodes[p.node].entry, CensusOf(s.clients, p.node);
    assert TokenInv(s, p.node);
    CensusIncludes(s.clients, c, p.node);
    MutexNeverBlocks(e.gates, e.service.at, k);
    if e.service.at.Exited? {
      ExitedAnswers(s, c);
    }
  }

  lemma LookerProgress(s: State, c: nat) returns (a: Action, t: State)
    requires c < |s.clients| && s.clients[c].Looking?
    ensures !a.Invoke? && Step(s, a, t)
  {
    var job := s.clients[c].job;
    match job {
      case Delegate(fd, file, q) =>
        if m :| Bar(s.nodes) <= m < |s.nodes| && Finds(s.nodes[m], job) {
          a, t := Look(c, m), Goto(s, c, Talking(m, fd, NewCall(q)));
        } else {
          a, t := Look(c, |s.nodes|), Goto(s, c, Unlocking(NeedsWrite(job), CallOriginal(q)));
        }
      case Register(fd, file, epoll, _) =>
        a := Look(c, 0);
        if fd < 0 || Listed(s.nodes, fd) {
          t := if epoll then
                 Goto(s, c, Resting).(lock := TakeLock(s.lock, c, false),
                                      leaked := s.leaked + multiset{c} + multiset{c})
               else Goto(s, c, Unlocking(true, Return(fd)));
        } else {
          var added := (fd > 0 || !file) && LiveCount(s.nodes) < MAXTHREAD;
          t := Goto(if added then WithNode(s, fd, file) else s, c, Unlocking(!epoll, Return(fd)));
        }
    }
  }

  lemma JoinerProgress(s: State, c: nat) returns (a: Action, t: State)
    requires Inv(s) && c < |s.clients| && s.clients[c].Joining?
    ensures !a.Invoke? && Step(s, a, t)
  {
    var p := s.clients[c];
    assert RefOk(p, s.nodes) && PhaseInv(s, p.node) && Holding(p, c, s.lock, s.leaked);
    if s.nodes[p.node].entry.service.at.Exited? {
      a, t := Join(c), Goto(s, c, Deleting(p.node, p.fd, p.request));
    } else {
      t := ServeEnabled(s, p.node);
      a := Serve(p.node);
    }
  }

  /** Whoever is inside the table lock, some thread can take a step. */
  lemma HolderProgress(s: State, c: nat) returns (a: Action, t: State)
    requires Inv(s) && Births(s) && c < |s.clients| && Holds(s.clients[c]) && !Doomed(s, c)
    ensures !a.Invoke? && Step(s, a, t)
  {
    var p := s.clients[c];
    match p {
      case Looking(_) => a, t := LookerProgress(s, c);
      case Talking(_, _, call) =>
        if call.at.Received? {
          a, t := FinisherProgress(s, c);
        } else {
          a, t := TalkerProgress(s, c);
        }
      case Joining(_, _, _) => a, t := JoinerProgress(s, c);
      case Deleting(n, fd, q) =>
        assert RefOk(p, s.nodes);
        a, t := Delete(c, n), Goto(SetNode(s, n, Freed), c, Unlocking(true, CallOriginal(q)));
      case Unlocking(write, after) =>
        a, t := Release(c), Goto(s, c, AfterLock(after)).(lock := DropLock(s.lock, c, write));
    }
  }

  lemma FinisherProgress(s: State, c: nat) returns (a: Action, t: State)
    requires c < |s.clients| && s.clients[c].Talking? && s.clients[c].call.at.Received?
    ensures !a.Invoke? && Step(s, a, t)
  {
    var p := s.clients[c];
    var v := p.call.reply.value;
    a := Finish(c);
    if Terminates(p.call.request.tag) {
      t := Goto(s, c, Joining(p.node, p.fd, p.call.request));
    } else if p.call.request.tag.Accept? && v > 0 && !Listed(s.nodes, v) {
      t := Goto(WithNode(s, v, false), c, Unlocking(false, Return(v)));
    } else {
      t := Goto(s, c, Unlocking(false, Return(v)));
    }
  }

  /** The client waits for the write lock while some read lock is never given back. */
  ghost predicate HeldUp(s: State, c: nat)
    requires c < |s.clients|
  {
    && s.clients[c].Locking? && NeedsWrite(s.clients[c].job)
    && (s.leaked != multiset{} || exists d :: 0 <= d < |s.clients| && Doomed(s, d))
  }

  ghost predicate Stuck(s: State, c: nat)
    requires c < |s.clients|
  {
    Doomed(s, c) || HeldUp(s, c)
  }

  lemma WriterNotDoomed(s: State, c: nat)
    requires Inv(s) && c < |s.clients| && s.lock.writer == By(c)
    ensures Holds(s.clients[c]) && !Doomed(s, c)
  {
    assert Holding(s.clients[c], c, s.lock, s.leaked);
    if Doomed(s, c) {
      DoomedReads(s, c);
    }
  }

  lemma ReaderHolds(s: State, d: nat)
    requires Inv(s) && s.leaked == multiset{} && d in s.lock.readers
    ensures d < |s.clients| && Holds(s.clients[d])
  {
    assert Holding(s.clients[d], d, s.lock, s.leaked);
  }

  lemma LockerProgress(s: State, c: nat) returns (a: Action, t: State)
    requires Inv(s) && Births(s) && c < |s.clients| && s.clients[c].Locking? && !HeldUp(s, c)
    ensures !a.Invoke? && Step(s, a, t)
  {
    var p := s.clients[c];
    if CanLock(s.lock, NeedsWrite(p.job)) {
      a := Acquire(c);
      t := Goto(s, c, Looking(p.job)).(lock := TakeLock(s.lock, c, NeedsWrite(p.job)));
    } else if s.lock.writer.By? {
      WriterNotDoomed(s, s.lock.writer.client);
      a, t := HolderProgress(s, s.lock.writer.client);
    } else {
      var d :| d in s.lock.readers;
      ReaderHolds(s, d);
      a, t := HolderProgress(s, d);
    }
  }

  /** As long as some call has neither returned nor got stuck, some thread can take a step. */
  lemma CallsMakeProgress(s: State, c: nat) returns (a: Action, t: State)
    requires Inv(s) && Births(s) && c < |s.clients| && !s.clients[c].Resting? && !Stuck(s, c)
    ensures !a.Invoke? && Step(s, a, t)
  {
    var p := s.clients[c];
    if Holds(p) {
      a, t := HolderProgress(s, c);
    } else if p.Calling? {
      a, t := Original(c, 0), Goto(s, c, Resting);
    } else {
      a, t := LockerProgress(s, c);
    }
  }

  // ----- Stuck calls stay stuck -----------------------------------------------------------------

  lemma LockerStays(s: State, a: Action, t: State, c: nat)
    requires Step(s, a, t) && c < |s.clients| && s.clients[c].Locking? && NeedsWrite(s.clients[c].job)
    requires s.lock.readers != multiset{}
    ensures c < |t.clients| && t.clients[c] == s.clients[c]
  {
  }

  lemma HeldUpStep(s: State, a: Action, t: State, c: nat)
    requires Inv(s) && Births(s) && Step(s, a, t) && c < |s.clients| && HeldUp(s, c)
    ensures c < |t.clients| && HeldUp(t, c)
  {
    if s.leaked != multiset{} {
      LeakedStillRead(s);
      LockerStays(s, a, t, c);
      LeaksStay(s, a, t);
    } else {
      var d: nat :| d < |s.clients| && Doomed(s, d);
      DoomedHolds(s, d);
      LockerStays(s, a, t, c);
      DoomedStep(s, a, t, d);
    }
  }

  // ----- Main results --------------------------------------------------------------------------

  /** A run from a reachable state in which no new call is started. */
  predicate Finishing(ss: seq<State>, actions: seq<Action>) {
    && |ss| == |actions| + 1
    && Inv(ss[0])
    && forall i {:trigger actions[i]} :: 0 <= i < |actions| ==>
         !actions[i].Invoke? && Step(ss[i], actions[i], ss[i + 1])
  }

  /** Once no new call is started, every schedule ends after at most `Budget` steps. */
  lemma {:induction false} RunsEnd(ss: seq<State>, actions: seq<Action>, i: nat)
    requires Finishing(ss, actions) && i <= |actions|
    ensures Inv(ss[i]) && Budget(ss[i]) + i <= Budget(ss[0])
  {
    if i > 0 {
      RunsEnd(ss, actions, i - 1);
      InvStep(ss[i - 1], actions[i - 1], ss[i]);
      StepSpends(ss[i - 1], actions[i - 1], ss[i]);
    }
  }

  ghost predicate NothingEnabled(s: State) {
    forall a, t :: Step(s, a, t) ==> a.Invoke?
  }

  /** In a reachable state where no thread can take a step, the calls that have not returned are exactly
      the stuck ones. */
  lemma OnlyStuckRemain(s: State, c: nat)
    requires Inv(s) && Births(s) && NothingEnabled(s) && c < |s.clients|
    ensures !s.clients[c].Resting? <==> Stuck(s, c)
  {
    if !s.clients[c].Resting? && !Stuck(s, c) {
      var a, t := CallsMakeProgress(s, c);
    }
  }

  /** A stuck call never returns, whatever the schedule and whatever new calls are started. */
  lemma {:induction false} StuckNeverReturns(r: Run, i: nat, j: nat, c: nat)
    requires Valid(r) && i <= j < |r.states| && c < |r.states[i].clients| && Stuck(r.states[i], c)
    ensures c < |r.states[j].clients| && Stuck(r.states[j], c)
  {
    if i < j {
      StuckNeverReturns(r, i, j - 1, c);
      StuckNext(r, j, c);
    }
  }

  lemma StuckNext(r: Run, j: nat, c: nat)
    requires Valid(r) && 0 < j < |r.states| && c < |r.states[j - 1].clients| && Stuck(r.states[j - 1], c)
    ensures c < |r.states[j].clients| && Stuck(r.states[j], c)
  {
    InvRun(r, j - 1);
    BirthsRun(r, j - 1);
    assert Step(r.states[j - 1], r.actions[j - 1], r.states[j]);
    StuckStep(r.states[j - 1], r.actions[j - 1], r.states[j], c);
  }

  lemma StuckStep(s: State, a: Action, t: State, c: nat)
    requires Inv(s) && Births(s) && Step(s, a, t) && c < |s.clients| && Stuck(s, c)
    ensures c < |t.clients| && Stuck(t, c)
  {
    if Doomed(s, c) {
      DoomedStep(s, a, t, c);
    } else {
      HeldUpStep(s, a, t, c);
    }
  }

  lemma CallerStays(r: Run, m: nat, j: nat)
    requires Valid(r) && m < j < |r.states| && r.actions[m].Invoke?
    ensures r.actions[m].c < |r.states[j].clients|
  {
    assert Step(r.states[m], r.actions[m], r.states[m + 1]);
    ClientsRun(r, m);
    ClientsRun(r, j);
  }

  /** A run in which no read lock leaks and no `epoll_create` registers descriptor 0 while a client talks
      to an entry whose service thread has not looked itself up ends with every call returned; and every call
      started in it has been made, directly or by a service thread whose reply has come back. */
  lemma FinishedMeansReturned(r: Run, j: nat)
    requires Valid(r) && j < |r.states| && NothingEnabled(r.states[j]) && r.states[j].leaked == multiset{}
    requires forall c :: 0 <= c < |r.states[0].clients| ==> !DoomedBefore(r, j, c)
    ensures forall c :: 0 <= c < |r.states[j].clients| ==> r.states[j].clients[c].Resting?
    ensures forall m {:trigger r.actions[m]} :: 0 <= m < j && r.actions[m].Invoke? && r.actions[m].job.Delegate? ==>
              exists l :: m < l < j && Discharges(r.states[l], r.actions[l], r.actions[m].c, r.actions[m].job.request)
  {
    InvRun(r, j);
    BirthsRun(r, j);
    ClientsRun(r, j);
    forall c | 0 <= c < |r.states[j].clients| ensures !Doomed(r.states[j], c) {
      DoomedIff(r, j, c);
    }
    forall c | 0 <= c < |r.states[j].clients| ensures r.states[j].clients[c].Resting? {
      OnlyStuckRemain(r.states[j], c);
    }
    forall m | 0 <= m < j && r.actions[m].Invoke? && r.actions[m].job.Delegate?
      ensures exists l :: m < l < j && Discharges(r.states[l], r.actions[l], r.actions[m].c, r.actions[m].job.request)
    {
      var c, job := r.actions[m].c, r.actions[m].job;
      CallerStays(r, m, j);
      var l := NoCallIsDropped(r, m, j, c, job.fd, job.file, job.request);
    }
  }
}
