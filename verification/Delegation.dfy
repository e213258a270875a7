/**
 The delegation protocol as a whole: any number of application threads, any number of table entries
 each with its service thread, and the read-write lock around the table (`ld_preload.c`).

 A wrapper takes the lock, looks its descriptor up, exchanges one request for one reply with the
 entry's service thread while still holding the lock, and releases it.  `close` and `shutdown` do so
 under the write lock, then join the service thread and free the entry.  A service thread
 begins by looking its own entry up, without the lock.  Nodes are addresses that are
 never reused, so a reference to a `Freed` node is a dangling pointer.
 */
module Delegation {
  import opened Basics
  import opened Channel

  /** What a wrapper does inside the table lock: delegate a call on a descriptor, or register the
      descriptor `fd` with which the kernel has just answered the creating call `request`. */
  datatype Job =
    | Delegate(fd: int, file: bool, request: Request)
    | Register(fd: int, file: bool, epoll: bool, request: Request)

  /** What is left to do once the lock is released. */
  datatype After = Return(value: int) | CallOriginal(request: Request)

  datatype Pc =
    | Resting
    | Locking(job: Job)
    | Looking(job: Job)
    | Talking(node: nat, fd: int, call: Call)
    | Joining(node: nat, fd: int, request: Request)
    | Deleting(node: nat, fd: int, request: Request)
    | Unlocking(write: bool, after: After)
    | Calling(request: Request)

  datatype Slot = Live(entry: Entry) | Freed

  datatype Writer = Nobody | By(client: nat)

  datatype Lock = Lock(readers: multiset<nat>, writer: Writer)

  /** `leaked` is a history variable: the read holds that no `unlock` will ever give back. */
  datatype State = State(clients: seq<Pc>, nodes: seq<Slot>, lock: Lock, leaked: multiset<nat>)

  /** The lock mode of each wrapper; `epoll_create` registers under a read lock. */
  predicate NeedsWrite(job: Job) {
    match job
    case Delegate(_, _, q) => Terminates(q.tag)
    case Register(_, _, epoll, _) => !epoll
  }

  predicate HoldsWrite(p: Pc) {
    match p
    case Looking(job) => NeedsWrite(job)
    case Talking(_, _, call) => Terminates(call.request.tag)
    case Joining(_, _, _) => true
    case Deleting(_, _, _) => true
    case Unlocking(write, _) => write
    case _ => false
  }

  predicate Holds(p: Pc) {
    !(p.Resting? || p.Locking? || p.Calling?)
  }

  predicate HoldsRead(p: Pc) {
    Holds(p) && !HoldsWrite(p)
  }

  /** The client's local variable points at node `n`. */
  predicate Refers(p: Pc, n: nat) {
    (p.Talking? || p.Joining? || p.Deleting?) && p.node == n
  }

  // ----- Steps --------------------------------------------------------------------------------

  datatype Action =
    | Invoke(c: nat, job: Job)
    | Acquire(c: nat)
    | Look(c: nat, n: nat)
    | Talk(c: nat)
    | Finish(c: nat)
    | Join(c: nat)
    | Delete(c: nat, n: nat)
    | Release(c: nat)
    | Original(c: nat, value: int)
    | Begin(n: nat, found: bool)
    | Serve(n: nat)

  function Goto(s: State, c: nat, p: Pc): State
    requires c < |s.clients|
  {
    s.(clients := s.clients[c := p])
  }

  function SetNode(s: State, n: nat, x: Slot): State
    requires n < |s.nodes|
  {
    s.(nodes := s.nodes[n := x])
  }

  predicate Has(x: Slot, fd: int) {
    x.Live? && x.entry.fd == fd
  }

  /** The walks through the table go from the newest entry to the oldest and stop at descriptor 0:
      the entries that no walk reaches are those below `Bar`. */
  function Bar(nodes: seq<Slot>): (b: nat)
    ensures b <= |nodes|
  {
    if nodes == [] then 0
    else if Has(nodes[|nodes| - 1], 0) then |nodes|
    else Bar(nodes[..|nodes| - 1])
  }

  lemma {:induction false} BarIff(nodes: seq<Slot>, n: nat)
    ensures n < Bar(nodes) <==> exists m :: n <= m < |nodes| && Has(nodes[m], 0)
  {
    if nodes != [] {
      var front := nodes[..|nodes| - 1];
      BarIff(front, n);
      if n < Bar(nodes) && !Has(nodes[|nodes| - 1], 0) {
        var m :| n <= m < |front| && Has(front[m], 0);
        assert Has(nodes[m], 0);
      } else if m :| n <= m < |nodes| && Has(nodes[m], 0) {
        assert m < |front| ==> Has(front[m], 0);
      }
    }
  }

  lemma BarGrows(nodes: seq<Slot>, x: Slot)
    ensures Bar(nodes + [x]) == if Has(x, 0) then |nodes| + 1 else Bar(nodes)
  {
    assert (nodes + [x])[..|nodes|] == nodes;
  }

  lemma {:induction false} BarStays(nodes: seq<Slot>, n: nat, x: Slot)
    requires n < |nodes| && Has(x, 0) == Has(nodes[n], 0)
    ensures Bar(nodes[n := x]) == Bar(nodes)
  {
    var front := nodes[..|nodes| - 1];
    if n < |nodes| - 1 {
      assert nodes[n := x][..|nodes| - 1] == front[n := x];
      BarStays(front, n, x);
    } else {
      assert nodes[n := x][..|nodes| - 1] == front;
    }
  }

  lemma {:induction false} BarBound(nodes: seq<Slot>, n: nat)
    requires Bar(nodes) <= n < |nodes|
    ensures !Has(nodes[n], 0)
  {
    if n < |nodes| - 1 {
      BarBound(nodes[..|nodes| - 1], n);
    }
  }

  lemma {:induction false} BarTop(nodes: seq<Slot>)
    requires Bar(nodes) > 0
    ensures Has(nodes[Bar(nodes) - 1], 0)
  {
    if !Has(nodes[|nodes| - 1], 0) {
      BarTop(nodes[..|nodes| - 1]);
    }
  }

  /** A walk reaches an entry for `fd`. */
  predicate Listed(nodes: seq<Slot>, fd: int) {
    exists m :: Bar(nodes) <= m < |nodes| && Has(nodes[m], fd)
  }

  /** `fdtable_get_by_fd` also compares the kind of descriptor; `close` and `shutdown` do not. */
  predicate Finds(x: Slot, job: Job)
    requires job.Delegate?
  {
    Has(x, job.fd) && (Terminates(job.request.tag) || x.entry.file == job.file)
  }

  function LiveCount(nodes: seq<Slot>): nat {
    if nodes == [] then 0 else One(nodes[0].Live?) + LiveCount(nodes[1..])
  }

  function WithNode(s: State, fd: int, file: bool): State {
    s.(nodes := s.nodes + [Live(NewEntry(fd, file))])
  }

  predicate CanLock(lock: Lock, write: bool) {
    lock.writer.Nobody? && (write ==> lock.readers == multiset{})
  }

  function TakeLock(lock: Lock, c: nat, write: bool): Lock {
    if write then lock.(writer := By(c)) else lock.(readers := lock.readers + multiset{c})
  }

  function DropLock(lock: Lock, c: nat, write: bool): Lock {
    if write then lock.(writer := Nobody) else lock.(readers := lock.readers - multiset{c})
  }

  predicate LookStep(s: State, c: nat, n: nat, t: State)
    requires c < |s.clients| && s.clients[c].Looking?
  {
    var job := s.clients[c].job;
    match job
    case Delegate(fd, file, q) =>
      if Bar(s.nodes) <= n < |s.nodes| && Finds(s.nodes[n], job) then
        t == Goto(s, c, Talking(n, fd, NewCall(q)))
      else
        && (forall m :: Bar(s.nodes) <= m < |s.nodes| ==> !Finds(s.nodes[m], job))
        && t == Goto(s, c, Unlocking(NeedsWrite(job), CallOriginal(q)))
    case Register(fd, file, epoll, _) =>
      if fd < 0 || Listed(s.nodes, fd) then
        if epoll then
          // the wrapper takes the read lock a second time and returns
          t == Goto(s, c, Resting).(lock := TakeLock(s.lock, c, false),
                                    leaked := s.leaked + multiset{c} + multiset{c})
        else
          t == Goto(s, c, Unlocking(true, Return(fd)))
      else if (fd > 0 || !file) && LiveCount(s.nodes) < MAXTHREAD then
        t == Goto(WithNode(s, fd, file), c, Unlocking(!epoll, Return(fd)))
      else
        t == Goto(s, c, Unlocking(!epoll, Return(fd)))
  }

  predicate FinishStep(s: State, c: nat, t: State)
    requires c < |s.clients| && s.clients[c].Talking?
  {
    var p := s.clients[c];
    if Terminates(p.call.request.tag) then
      t == Goto(s, c, Joining(p.node, p.fd, p.call.request))
    else
      var v := p.call.reply.value;
      if p.call.request.tag.Accept? && v > 0 && !Listed(s.nodes, v) then
        t == Goto(WithNode(s, v, false), c, Unlocking(false, Return(v)))
      else
        t == Goto(s, c, Unlocking(false, Return(v)))
  }

  predicate AcquireStep(s: State, c: nat, t: State)
    requires c < |s.clients| && s.clients[c].Locking?
  {
    var job := s.clients[c].job;
    && CanLock(s.lock, NeedsWrite(job))
    && t == Goto(s, c, Looking(job)).(lock := TakeLock(s.lock, c, NeedsWrite(job)))
  }

  predicate TalkStep(s: State, c: nat, t: State)
    requires c < |s.clients| && s.clients[c].Talking?
  {
    var p := s.clients[c];
    && |t.clients| == |s.clients| && t.clients[c].Talking?
    && p.node < |s.nodes| && s.nodes[p.node].Live?
    && |t.nodes| == |s.nodes| && t.nodes[p.node].Live?
    && ClientStep(p.call, s.nodes[p.node].entry, t.clients[c].call, t.nodes[p.node].entry)
    && t == Goto(SetNode(s, p.node, t.nodes[p.node]), c, p.(call := t.clients[c].call))
  }

  predicate JoinStep(s: State, c: nat, t: State)
    requires c < |s.clients| && s.clients[c].Joining?
  {
    var p := s.clients[c];
    && p.node < |s.nodes| && s.nodes[p.node].Live? && s.nodes[p.node].entry.service.at.Exited?
    && t == Goto(s, c, Deleting(p.node, p.fd, p.request))
  }

  /** `fdtable_delete` searches the table for the descriptor again. */
  predicate DeleteStep(s: State, c: nat, n: nat, t: State)
    requires c < |s.clients| && s.clients[c].Deleting?
  {
    var p := s.clients[c];
    if Bar(s.nodes) <= n < |s.nodes| && Has(s.nodes[n], p.fd) then
      t == Goto(SetNode(s, n, Freed), c, Unlocking(true, CallOriginal(p.request)))
    else
      !Listed(s.nodes, p.fd) && t == Goto(s, c, Unlocking(true, CallOriginal(p.request)))
  }

  function AfterLock(after: After): Pc {
    match after
    case Return(_) => Resting
    case CallOriginal(q) => Calling(q)
  }

  predicate ReleaseStep(s: State, c: nat, t: State)
    requires c < |s.clients| && s.clients[c].Unlocking?
  {
    var p := s.clients[c];
    t == Goto(s, c, AfterLock(p.after)).(lock := DropLock(s.lock, c, p.write))
  }

  predicate ServeStep(s: State, n: nat, t: State)
    requires n < |s.nodes| && s.nodes[n].Live?
  {
    && |t.nodes| == |s.nodes| && t.nodes[n].Live?
    && ServiceStep(s.nodes[n].entry, t.nodes[n].entry)
    && t == SetNode(s, n, t.nodes[n])
  }

  /** A service thread looks its own entry up, without taking the lock.  Behind an entry for 0 it does not
      find it.  For an entry for 0 itself it may, because `socket` starts the thread before it writes the
      descriptor. */
  predicate BeginStep(s: State, n: nat, found: bool, t: State)
    requires n < |s.nodes| && s.nodes[n].Live?
  {
    && s.nodes[n].entry.service.at.Start?
    && (if found then Bar(s.nodes) <= n + 1 else n < Bar(s.nodes))
    && t == SetNode(s, n, Live(Begun(s.nodes[n].entry, found)))
  }

  /** One step of one thread. */
  predicate Step(s: State, a: Action, t: State) {
    match a
    case Invoke(c, job) => c < |s.clients| && s.clients[c].Resting? && t == Goto(s, c, Locking(job))
    case Acquire(c) => c < |s.clients| && s.clients[c].Locking? && AcquireStep(s, c, t)
    case Look(c, n) => c < |s.clients| && s.clients[c].Looking? && LookStep(s, c, n, t)
    case Talk(c) => c < |s.clients| && s.clients[c].Talking? && TalkStep(s, c, t)
    case Finish(c) =>
      && c < |s.clients| && s.clients[c].Talking?
      && s.clients[c].call.at.Received?
      && FinishStep(s, c, t)
    case Join(c) => c < |s.clients| && s.clients[c].Joining? && JoinStep(s, c, t)
    case Delete(c, n) => c < |s.clients| && s.clients[c].Deleting? && DeleteStep(s, c, n, t)
    case Release(c) => c < |s.clients| && s.clients[c].Unlocking? && ReleaseStep(s, c, t)
    case Original(c, _) => c < |s.clients| && s.clients[c].Calling? && t == Goto(s, c, Resting)
    case Begin(n, found) => n < |s.nodes| && s.nodes[n].Live? && BeginStep(s, n, found, t)
    case Serve(n) => n < |s.nodes| && s.nodes[n].Live? && ServeStep(s, n, t)
  }

  predicate Init(s: State) {
    && (forall c :: 0 <= c < |s.clients| ==> s.clients[c].Resting?)
    && s.nodes == []
    && s.lock == Lock(multiset{}, Nobody)
    && s.leaked == multiset{}
  }

  datatype Run = Run(states: seq<State>, actions: seq<Action>)

  predicate Valid(r: Run) {
    && |r.states| == |r.actions| + 1
    && Init(r.states[0])
    && forall i {:trigger r.actions[i]} :: 0 <= i < |r.actions| ==> Step(r.states[i], r.actions[i], r.states[i + 1])
  }

  // ----- Counting clients by role --------------------------------------------------------------

  function RoleAt(p: Pc, n: nat): Role {
    if p.Talking? && p.node == n then RoleOf(p.call.at) else Idle
  }

  function CensusOf(clients: seq<Pc>, n: nat): Census {
    if clients == [] then NOBODY else Plus(CensusOf(clients[1..], n), RoleAt(clients[0], n))
  }

  lemma PlusCommutes(k: Census, a: Role, b: Role)
    ensures Plus(Plus(k, a), b) == Plus(Plus(k, b), a)
  {
  }

  lemma {:induction false} CensusMoves(clients: seq<Pc>, c: nat, p: Pc, n: nat)
    requires c < |clients|
    ensures Plus(CensusOf(clients[c := p], n), RoleAt(clients[c], n))
         == Plus(CensusOf(clients, n), RoleAt(p, n))
  {
    var rest, x := clients[1..], clients[0];
    if c == 0 {
      assert clients[c := p][1..] == rest;
      PlusCommutes(CensusOf(rest, n), RoleAt(p, n), RoleAt(x, n));
    } else {
      assert clients[c := p][1..] == rest[c - 1 := p];
      CensusMoves(rest, c - 1, p, n);
      var k, k' := CensusOf(rest, n), CensusOf(rest[c - 1 := p], n);
      PlusCommutes(k', RoleAt(x, n), RoleAt(clients[c], n));
      PlusCommutes(k, RoleAt(x, n), RoleAt(p, n));
    }
  }

  lemma {:induction false} CensusAway(clients: seq<Pc>, n: nat)
    requires forall d :: 0 <= d < |clients| ==> RoleAt(clients[d], n).Idle?
    ensures CensusOf(clients, n) == NOBODY
  {
    if clients != [] {
      CensusAway(clients[1..], n);
    }
  }

  lemma {:induction false} CensusAlone(clients: seq<Pc>, c: nat, n: nat)
    requires c < |clients|
    requires forall d :: 0 <= d < |clients| && d != c ==> RoleAt(clients[d], n).Idle?
    ensures CensusOf(clients, n) == Plus(NOBODY, RoleAt(clients[c], n))
  {
    if c == 0 {
      CensusAway(clients[1..], n);
    } else {
      CensusAlone(clients[1..], c - 1, n);
    }
  }

  lemma CensusQuiet(clients: seq<Pc>, c: nat, p: Pc, n: nat)
    requires c < |clients| && RoleAt(clients[c], n).Idle? && RoleAt(p, n).Idle?
    ensures CensusOf(clients[c := p], n) == CensusOf(clients, n)
  {
    CensusMoves(clients, c, p, n);
  }
}
