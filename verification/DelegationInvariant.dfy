/**
 What every run of the delegation protocol keeps, for any number of clients: lock ownership, live
 references, distinct descriptors, semaphore tokens, and the shutting down of service threads.  The
 safety of freeing a table node follows.
 */
module DelegationInvariant {
  import opened Channel
  import opened Delegation

  // ----- The invariant of every run ------------------------------------------------------------

  /** The client's holds are exactly what its program counter says, plus what it has leaked. */
  predicate Holding(p: Pc, c: nat, lock: Lock, leaked: multiset<nat>) {
    && lock.readers[c] == One(HoldsRead(p)) + leaked[c]
    && (HoldsWrite(p) <==> lock.writer == By(c))
  }

  /** Only clients hold the lock, and a writer excludes readers. */
  predicate Exclusive(lock: Lock, leaked: multiset<nat>, clients: nat) {
    && (forall c :: c in lock.readers ==> c < clients)
    && (forall c :: c in leaked ==> c < clients)
    && (lock.writer.By? ==> lock.readers == multiset{} && lock.writer.client < clients)
  }

  predicate LockInv(s: State) {
    && Exclusive(s.lock, s.leaked, |s.clients|)
    && (forall c :: 0 <= c < |s.clients| ==> Holding(s.clients[c], c, s.lock, s.leaked))
  }

  predicate RefOk(p: Pc, nodes: seq<Slot>) {
    match p
    case Talking(node, fd, call) =>
      node < |nodes| && Has(nodes[node], fd) && (Terminates(call.request.tag) ==> Bar(nodes) <= node)
    case Joining(node, fd, _) => Bar(nodes) <= node < |nodes| && Has(nodes[node], fd)
    case Deleting(node, fd, _) => Bar(nodes) <= node < |nodes| && Has(nodes[node], fd)
    case _ => true
  }

  /** Every reference a client holds is to a live node of the descriptor it was looked up for, and the
      node that is being closed can still be reached. */
  predicate RefInv(s: State) {
    forall c :: 0 <= c < |s.clients| ==> RefOk(s.clients[c], s.nodes)
  }

  predicate SameFd(nodes: seq<Slot>, m: nat, n: nat) {
    && m < |nodes| && n < |nodes| && nodes[m].Live? && nodes[n].Live?
    && nodes[m].entry.fd == nodes[n].entry.fd
  }

  /** Live descriptors are not negative, and those that can be reached are distinct. */
  predicate TableInv(nodes: seq<Slot>) {
    && (forall m :: 0 <= m < |nodes| && nodes[m].Live? ==> nodes[m].entry.fd >= 0)
    && (forall m, n :: Bar(nodes) <= m < n < |nodes| ==> !SameFd(nodes, m, n))
  }

  predicate TokenInv(s: State, n: nat)
    requires n < |s.nodes|
  {
    s.nodes[n].Live? ==>
      Tokens(s.nodes[n].entry.gates, s.nodes[n].entry.service.at, CensusOf(s.clients, n))
  }

  /** What the client holding the write lock knows of the entry it is closing. */
  predicate Closing(e: Entry, p: Pc) {
    match p
    case Talking(_, _, call) => Carries(e, call)
    case Joining(_, _, _) =>
      && Terminates(e.service.request.tag)
      && (e.service.at.LoopTest? || e.service.at.Exited?)
    case _ => e.service.at.Exited?
  }

  /** The service thread of a live entry is told to stop by the writer only. */
  predicate PhaseInv(s: State, n: nat)
    requires n < |s.nodes|
  {
    s.nodes[n].Live? ==>
      var e, w := s.nodes[n].entry, s.lock.writer;
      if w.By? && w.client < |s.clients| && Refers(s.clients[w.client], n) then
        Closing(e, s.clients[w.client])
      else Undismissed(e)
  }

  // ----- The lock ------------------------------------------------------------------------------

  lemma LockKept(s: State, c: nat, p: Pc, t: State)
    requires LockInv(s) && c < |s.clients|
    requires t.clients == s.clients[c := p] && t.lock == s.lock && t.leaked == s.leaked
    requires HoldsWrite(p) == HoldsWrite(s.clients[c]) && HoldsRead(p) == HoldsRead(s.clients[c])
    ensures LockInv(t)
  {
    forall d | 0 <= d < |t.clients| ensures Holding(t.clients[d], d, t.lock, t.leaked) {
      assert Holding(s.clients[d], d, s.lock, s.leaked);
    }
  }

  lemma ReadTaken(lock: Lock, leaked: multiset<nat>, clients: nat, c: nat)
    requires Exclusive(lock, leaked, clients) && c < clients && lock.writer.Nobody?
    ensures Exclusive(TakeLock(lock, c, false), leaked, clients)
  {
  }

  lemma LockTaken(s: State, c: nat, p: Pc, t: State)
    requires LockInv(s) && c < |s.clients| && !Holds(s.clients[c]) && Holds(p)
    requires CanLock(s.lock, HoldsWrite(p))
    requires t.clients == s.clients[c := p] && t.leaked == s.leaked
    requires t.lock == TakeLock(s.lock, c, HoldsWrite(p))
    ensures LockInv(t)
  {
    if !HoldsWrite(p) {
      ReadTaken(s.lock, s.leaked, |s.clients|, c);
    }
    forall d | 0 <= d < |t.clients| ensures Holding(t.clients[d], d, t.lock, t.leaked) {
      assert Holding(s.clients[d], d, s.lock, s.leaked);
    }
  }

  lemma ReadDropped(lock: Lock, leaked: multiset<nat>, clients: nat, c: nat)
    requires Exclusive(lock, leaked, clients) && lock.readers[c] > 0
    ensures lock.writer.Nobody? && Exclusive(DropLock(lock, c, false), leaked, clients)
    ensures DropLock(lock, c, false).readers[c] == lock.readers[c] - 1
    ensures forall d :: d != c ==> DropLock(lock, c, false).readers[d] == lock.readers[d]
  {
  }

  lemma LockDropped(s: State, c: nat, p: Pc, t: State)
    requires LockInv(s) && c < |s.clients| && Holds(s.clients[c]) && !Holds(p)
    requires t.clients == s.clients[c := p] && t.leaked == s.leaked
    requires t.lock == DropLock(s.lock, c, HoldsWrite(s.clients[c]))
    ensures LockInv(t)
  {
    assert Holding(s.clients[c], c, s.lock, s.leaked);
    if !HoldsWrite(s.clients[c]) {
      ReadDropped(s.lock, s.leaked, |s.clients|, c);
    }
    forall d | 0 <= d < |t.clients| ensures Holding(t.clients[d], d, t.lock, t.leaked) {
      assert Holding(s.clients[d], d, s.lock, s.leaked);
    }
  }

  lemma LockLeaked(s: State, c: nat, p: Pc, t: State)
    requires LockInv(s) && c < |s.clients| && HoldsRead(s.clients[c]) && !Holds(p)
    requires t.clients == s.clients[c := p] && t.leaked == s.leaked + multiset{c} + multiset{c}
    requires t.lock == TakeLock(s.lock, c, false)
    ensures LockInv(t)
  {
    assert Holding(s.clients[c], c, s.lock, s.leaked);
    ReadTaken(s.lock, s.leaked, |s.clients|, c);
    forall d | 0 <= d < |t.clients| ensures Holding(t.clients[d], d, t.lock, t.leaked) {
      assert Holding(s.clients[d], d, s.lock, s.leaked);
    }
  }

  lemma LockAcquire(s: State, c: nat, t: State)
    requires LockInv(s) && c < |s.clients| && s.clients[c].Locking? && AcquireStep(s, c, t)
    ensures LockInv(t)
  {
    LockTaken(s, c, Looking(s.clients[c].job), t);
  }

  lemma LockLook(s: State, c: nat, n: nat, t: State)
    requires LockInv(s) && c < |s.clients| && s.clients[c].Looking? && LookStep(s, c, n, t)
    ensures LockInv(t)
  {
    if t.clients[c].Resting? {
      LockLeaked(s, c, Resting, t);
    } else {
      LockKept(s, c, t.clients[c], t);
    }
  }

  lemma LockTalk(s: State, c: nat, t: State)
    requires LockInv(s) && c < |s.clients| && s.clients[c].Talking? && TalkStep(s, c, t)
    ensures LockInv(t)
  {
    LockKept(s, c, t.clients[c], t);
  }

  lemma LockFinish(s: State, c: nat, t: State)
    requires LockInv(s) && c < |s.clients| && s.clients[c].Talking? && FinishStep(s, c, t)
    ensures LockInv(t)
  {
    LockKept(s, c, t.clients[c], t);
  }

  lemma LockDelete(s: State, c: nat, n: nat, t: State)
    requires LockInv(s) && c < |s.clients| && s.clients[c].Deleting? && DeleteStep(s, c, n, t)
    ensures LockInv(t)
  {
    LockKept(s, c, t.clients[c], t);
  }

  lemma LockRelease(s: State, c: nat, t: State)
    requires LockInv(s) && c < |s.clients| && s.clients[c].Unlocking? && ReleaseStep(s, c, t)
    ensures LockInv(t)
  {
    LockDropped(s, c, t.clients[c], t);
  }

  /** A step that leaves clients and lock alone. */
  lemma LockAside(s: State, t: State)
    requires LockInv(s) && t.clients == s.clients && t.lock == s.lock && t.leaked == s.leaked
    ensures LockInv(t)
  {
  }

  lemma LockStep(s: State, a: Action, t: State)
    requires LockInv(s) && Step(s, a, t)
    ensures LockInv(t)
  {
    match a {
      case Invoke(c, job) => LockKept(s, c, Locking(job), t);
      case Acquire(c) => LockAcquire(s, c, t);
      case Look(c, n) => LockLook(s, c, n, t);
      case Talk(c) => LockTalk(s, c, t);
      case Finish(c) => LockFinish(s, c, t);
      case Join(c) => LockKept(s, c, t.clients[c], t);
      case Delete(c, n) => LockDelete(s, c, n, t);
      case Release(c) => LockRelease(s, c, t);
      case Original(c, _) => LockKept(s, c, Resting, t);
      case Begin(n, found) => LockAside(s, t);
      case Serve(n) => LockAside(s, t);
    }
  }

  /** The holder of the write lock is the only client inside the table. */
  lemma WriterAlone(s: State, c: nat, d: nat)
    requires LockInv(s) && c < |s.clients| && d < |s.clients| && c != d
    requires HoldsWrite(s.clients[c])
    ensures !Holds(s.clients[d])
  {
    assert Holding(s.clients[c], c, s.lock, s.leaked) && Holding(s.clients[d], d, s.lock, s.leaked);
  }

  /** While a client reads the table nobody holds the write lock. */
  lemma NoWriter(s: State, c: nat)
    requires LockInv(s) && c < |s.clients| && HoldsRead(s.clients[c])
    ensures s.lock.writer.Nobody? && forall d :: 0 <= d < |s.clients| ==> !HoldsWrite(s.clients[d])
  {
    assert Holding(s.clients[c], c, s.lock, s.leaked);
    forall d | 0 <= d < |s.clients| ensures !HoldsWrite(s.clients[d]) {
      assert Holding(s.clients[d], d, s.lock, s.leaked);
    }
  }

  // ----- References and descriptors -------------------------------------------------------------

  /** No client but `c` is closing an entry. */
  predicate NoOtherWriter(s: State, c: nat) {
    forall d :: 0 <= d < |s.clients| && d != c ==> !HoldsWrite(s.clients[d])
  }

  lemma RefsKept(s: State, c: nat, p: Pc, t: State)
    requires RefInv(s) && c < |s.clients| && t.clients == s.clients[c := p] && RefOk(p, t.nodes)
    requires |s.nodes| <= |t.nodes| && (Bar(t.nodes) == Bar(s.nodes) || NoOtherWriter(s, c))
    requires forall n :: 0 <= n < |s.nodes| && s.nodes[n].Live? ==>
               t.nodes[n].Live? && t.nodes[n].entry.fd == s.nodes[n].entry.fd
    ensures RefInv(t)
  {
    forall d | 0 <= d < |t.clients| ensures RefOk(t.clients[d], t.nodes) {
      assert RefOk(s.clients[d], s.nodes);
    }
  }

  lemma NoOther(s: State, c: nat)
    requires LockInv(s) && c < |s.clients| && Holds(s.clients[c])
    ensures NoOtherWriter(s, c)
  {
    if HoldsWrite(s.clients[c]) {
      forall d | 0 <= d < |s.clients| && d != c ensures !HoldsWrite(s.clients[d]) {
        WriterAlone(s, c, d);
      }
    } else {
      NoWriter(s, c);
    }
  }

  lemma RefLook(s: State, c: nat, n: nat, t: State)
    requires LockInv(s) && RefInv(s) && c < |s.clients| && s.clients[c].Looking? && LookStep(s, c, n, t)
    ensures RefInv(t)
  {
    NoOther(s, c);
    RefsKept(s, c, t.clients[c], t);
  }

  lemma RefFinish(s: State, c: nat, t: State)
    requires LockInv(s) && RefInv(s) && c < |s.clients| && s.clients[c].Talking? && FinishStep(s, c, t)
    ensures RefInv(t)
  {
    NoOther(s, c);
    assert RefOk(s.clients[c], s.nodes);
    RefsKept(s, c, t.clients[c], t);
  }

  lemma RefTalk(s: State, c: nat, t: State)
    requires RefInv(s) && c < |s.clients| && s.clients[c].Talking? && TalkStep(s, c, t)
    ensures RefInv(t)
  {
    assert RefOk(s.clients[c], s.nodes);
    BarStays(s.nodes, s.clients[c].node, t.nodes[s.clients[c].node]);
    RefsKept(s, c, t.clients[c], t);
  }

  lemma RefDelete(s: State, c: nat, n: nat, t: State)
    requires LockInv(s) && RefInv(s) && c < |s.clients| && s.clients[c].Deleting? && DeleteStep(s, c, n, t)
    ensures RefInv(t)
  {
    forall d | 0 <= d < |t.clients| ensures RefOk(t.clients[d], t.nodes) {
      if d != c {
        WriterAlone(s, c, d);
        assert RefOk(s.clients[d], s.nodes);
      }
    }
  }

  /** A change of an entry that keeps its descriptor. */
  lemma RefNode(s: State, n: nat, e: Entry, t: State)
    requires RefInv(s) && n < |s.nodes| && s.nodes[n].Live? && e.fd == s.nodes[n].entry.fd
    requires t.clients == s.clients && t.nodes == s.nodes[n := Live(e)]
    ensures RefInv(t)
  {
    BarStays(s.nodes, n, Live(e));
    forall d | 0 <= d < |t.clients| ensures RefOk(t.clients[d], t.nodes) {
      assert RefOk(s.clients[d], s.nodes);
    }
  }

  lemma RefSame(s: State, c: nat, p: Pc, t: State)
    requires RefInv(s) && c < |s.clients| && t.clients == s.clients[c := p] && t.nodes == s.nodes
    requires RefOk(p, s.nodes)
    ensures RefInv(t)
  {
    RefsKept(s, c, p, t);
  }

  lemma RefJoin(s: State, c: nat, t: State)
    requires RefInv(s) && c < |s.clients| && s.clients[c].Joining? && JoinStep(s, c, t)
    ensures RefInv(t)
  {
    assert RefOk(s.clients[c], s.nodes);
    RefSame(s, c, t.clients[c], t);
  }

  lemma RefStep(s: State, a: Action, t: State)
    requires LockInv(s) && RefInv(s) && Step(s, a, t)
    ensures RefInv(t)
  {
    match a {
      case Invoke(c, job) => RefSame(s, c, Locking(job), t);
      case Acquire(c) => RefSame(s, c, Looking(s.clients[c].job), t);
      case Look(c, n) => RefLook(s, c, n, t);
      case Talk(c) => RefTalk(s, c, t);
      case Finish(c) => RefFinish(s, c, t);
      case Join(c) => RefJoin(s, c, t);
      case Delete(c, n) => RefDelete(s, c, n, t);
      case Release(c) => RefSame(s, c, t.clients[c], t);
      case Original(c, _) => RefSame(s, c, Resting, t);
      case Begin(n, found) => RefNode(s, n, Begun(s.nodes[n].entry, found), t);
      case Serve(n) => RefNode(s, n, t.nodes[n].entry, t);
    }
  }

  /** A new entry for a descriptor that no walk reaches; one for 0 hides all the others. */
  lemma TableGrows(nodes: seq<Slot>, fd: int, file: bool)
    requires TableInv(nodes) && fd >= 0 && !Listed(nodes, fd)
    ensures TableInv(nodes + [Live(NewEntry(fd, file))])
  {
    var nodes' := nodes + [Live(NewEntry(fd, file))];
    BarGrows(nodes, Live(NewEntry(fd, file)));
    forall m, n | Bar(nodes') <= m < n < |nodes'| ensures !SameFd(nodes', m, n) {
      if n < |nodes| {
        assert !SameFd(nodes, m, n);
      } else {
        assert !Has(nodes[m], fd);
      }
    }
  }

  lemma TableNode(nodes: seq<Slot>, n: nat, x: Slot)
    requires TableInv(nodes) && n < |nodes| && nodes[n].Live?
    requires x.Live? ==> x.entry.fd == nodes[n].entry.fd
    requires x.Freed? ==> Bar(nodes) <= n
    ensures TableInv(nodes[n := x])
  {
    var nodes' := nodes[n := x];
    if x.Freed? {
      BarBound(nodes, n);
    }
    BarStays(nodes, n, x);
    forall i, j | Bar(nodes') <= i < j < |nodes'| ensures !SameFd(nodes', i, j) {
      assert !SameFd(nodes, i, j);
    }
  }

  lemma TableLook(s: State, c: nat, n: nat, t: State)
    requires TableInv(s.nodes) && c < |s.clients| && s.clients[c].Looking? && LookStep(s, c, n, t)
    ensures TableInv(t.nodes)
  {
    var job := s.clients[c].job;
    if job.Register? && job.fd >= 0 && !Listed(s.nodes, job.fd) {
      TableGrows(s.nodes, job.fd, job.file);
    }
  }

  lemma TableFinish(s: State, c: nat, t: State)
    requires TableInv(s.nodes) && c < |s.clients| && s.clients[c].Talking? && FinishStep(s, c, t)
    ensures TableInv(t.nodes)
  {
    var v := s.clients[c].call.reply.value;
    if v > 0 && !Listed(s.nodes, v) {
      TableGrows(s.nodes, v, false);
    }
  }

  lemma TableDelete(s: State, c: nat, n: nat, t: State)
    requires TableInv(s.nodes) && c < |s.clients| && s.clients[c].Deleting? && DeleteStep(s, c, n, t)
    ensures TableInv(t.nodes)
  {
    if Bar(s.nodes) <= n < |s.nodes| && Has(s.nodes[n], s.clients[c].fd) {
      TableNode(s.nodes, n, Freed);
    }
  }

  lemma TableStep(s: State, a: Action, t: State)
    requires TableInv(s.nodes) && Step(s, a, t)
    ensures TableInv(t.nodes)
  {
    match a {
      case Look(c, n) => TableLook(s, c, n, t);
      case Talk(c) => TableNode(s.nodes, s.clients[c].node, t.nodes[s.clients[c].node]);
      case Finish(c) => TableFinish(s, c, t);
      case Delete(c, n) => TableDelete(s, c, n, t);
      case Begin(n, found) => TableNode(s.nodes, n, t.nodes[n]);
      case Serve(n) => TableNode(s.nodes, n, t.nodes[n]);
      case _ =>
    }
  }

  lemma OneReachable(nodes: seq<Slot>, m: nat, n: nat)
    requires TableInv(nodes) && Bar(nodes) <= m < |nodes| && Bar(nodes) <= n < |nodes| && SameFd(nodes, m, n)
    ensures m == n
  {
    assert m < n ==> !SameFd(nodes, m, n);
    assert n < m ==> !SameFd(nodes, n, m);
  }

  // ----- Tokens --------------------------------------------------------------------------------

  /** The client plays no role at any entry. */
  predicate Quiet(p: Pc) {
    p.Talking? ==> RoleOf(p.call.at).Idle?
  }

  /** `nodes'` is `nodes` with some nodes freed and possibly a new entry at the end. */
  predicate Resized(nodes: seq<Slot>, nodes': seq<Slot>) {
    && |nodes| <= |nodes'| <= |nodes| + 1
    && (forall n :: 0 <= n < |nodes| && nodes'[n].Live? ==> nodes'[n] == nodes[n])
    && (|nodes'| > |nodes| ==>
          nodes'[|nodes|].Live? &&
          nodes'[|nodes|].entry == NewEntry(nodes'[|nodes|].entry.fd, nodes'[|nodes|].entry.file))
  }

  lemma CensusBeyond(s: State, n: nat)
    requires RefInv(s) && n >= |s.nodes|
    ensures CensusOf(s.clients, n) == NOBODY
  {
    forall d | 0 <= d < |s.clients| ensures RoleAt(s.clients[d], n).Idle? {
      assert RefOk(s.clients[d], s.nodes);
    }
    CensusAway(s.clients, n);
  }

  lemma TokensQuiet(s: State, c: nat, p: Pc, t: State)
    requires RefInv(s) && (forall n :: 0 <= n < |s.nodes| ==> TokenInv(s, n))
    requires c < |s.clients| && t.clients == s.clients[c := p]
    requires Quiet(s.clients[c]) && Quiet(p)
    requires Resized(s.nodes, t.nodes)
    ensures forall n :: 0 <= n < |t.nodes| ==> TokenInv(t, n)
  {
    forall n | 0 <= n < |t.nodes| ensures TokenInv(t, n) {
      CensusQuiet(s.clients, c, p, n);
      if n < |s.nodes| {
        assert TokenInv(s, n);
      } else {
        CensusBeyond(s, n);
        NewEntryTokens(t.nodes[n].entry.fd, t.nodes[n].entry.file);
        assert t.nodes[n].entry == NewEntry(t.nodes[n].entry.fd, t.nodes[n].entry.file);
      }
    }
  }

  lemma TokensTalk(s: State, c: nat, t: State)
    requires forall n :: 0 <= n < |s.nodes| ==> TokenInv(s, n)
    requires c < |s.clients| && s.clients[c].Talking? && TalkStep(s, c, t)
    ensures forall n :: 0 <= n < |t.nodes| ==> TokenInv(t, n)
  {
    var p, p' := s.clients[c], t.clients[c];
    forall n | 0 <= n < |t.nodes| ensures TokenInv(t, n) {
      assert TokenInv(s, n);
      CensusMoves(s.clients, c, p', n);
      if n == p.node {
        ClientKeepsTokens(p.call.at, s.nodes[n].entry.gates, s.nodes[n].entry.service.at,
                          CensusOf(s.clients, n), CensusOf(t.clients, n));
      }
    }
  }

  lemma TokensServe(s: State, m: nat, t: State)
    requires forall n :: 0 <= n < |s.nodes| ==> TokenInv(s, n)
    requires m < |s.nodes| && s.nodes[m].Live? && ServeStep(s, m, t)
    ensures forall n :: 0 <= n < |t.nodes| ==> TokenInv(t, n)
  {
    forall n | 0 <= n < |t.nodes| ensures TokenInv(t, n) {
      assert TokenInv(s, n);
      if n == m {
        var e := s.nodes[n].entry;
        ServiceKeepsTokens(e.service.at, e.gates, Terminates(e.service.request.tag), CensusOf(s.clients, n));
      }
    }
  }

  lemma TokensBegin(s: State, m: nat, found: bool, t: State)
    requires forall n :: 0 <= n < |s.nodes| ==> TokenInv(s, n)
    requires m < |s.nodes| && s.nodes[m].Live? && BeginStep(s, m, found, t)
    ensures forall n :: 0 <= n < |t.nodes| ==> TokenInv(t, n)
  {
    forall n | 0 <= n < |t.nodes| ensures TokenInv(t, n) {
      assert TokenInv(s, n);
      if n == m {
        BeginKeepsTokens(s.nodes[n].entry, found, CensusOf(s.clients, n));
      }
    }
  }

  lemma TokensLook(s: State, c: nat, n: nat, t: State)
    requires RefInv(s) && (forall n :: 0 <= n < |s.nodes| ==> TokenInv(s, n))
    requires c < |s.clients| && s.clients[c].Looking? && LookStep(s, c, n, t)
    ensures forall n :: 0 <= n < |t.nodes| ==> TokenInv(t, n)
  {
    TokensQuiet(s, c, t.clients[c], t);
  }

  lemma TokensFinish(s: State, c: nat, t: State)
    requires RefInv(s) && (forall n :: 0 <= n < |s.nodes| ==> TokenInv(s, n))
    requires c < |s.clients| && s.clients[c].Talking? && s.clients[c].call.at.Received? && FinishStep(s, c, t)
    ensures forall n :: 0 <= n < |t.nodes| ==> TokenInv(t, n)
  {
    TokensQuiet(s, c, t.clients[c], t);
  }

  lemma TokensDelete(s: State, c: nat, n: nat, t: State)
    requires RefInv(s) && (forall n :: 0 <= n < |s.nodes| ==> TokenInv(s, n))
    requires c < |s.clients| && s.clients[c].Deleting? && DeleteStep(s, c, n, t)
    ensures forall n :: 0 <= n < |t.nodes| ==> TokenInv(t, n)
  {
    TokensQuiet(s, c, t.clients[c], t);
  }

  lemma TokensStep(s: State, a: Action, t: State)
    requires RefInv(s) && (forall n :: 0 <= n < |s.nodes| ==> TokenInv(s, n)) && Step(s, a, t)
    ensures forall n :: 0 <= n < |t.nodes| ==> TokenInv(t, n)
  {
    match a {
      case Invoke(c, job) => TokensQuiet(s, c, Locking(job), t);
      case Acquire(c) => TokensQuiet(s, c, Looking(s.clients[c].job), t);
      case Look(c, n) => TokensLook(s, c, n, t);
      case Talk(c) => TokensTalk(s, c, t);
      case Finish(c) => TokensFinish(s, c, t);
      case Join(c) => TokensQuiet(s, c, t.clients[c], t);
      case Delete(c, n) => TokensDelete(s, c, n, t);
      case Release(c) => TokensQuiet(s, c, t.clients[c], t);
      case Original(c, _) => TokensQuiet(s, c, Resting, t);
      case Begin(n, found) => TokensBegin(s, n, found, t);
      case Serve(n) => TokensServe(s, n, t);
    }
  }

  /** The tokens of the entry that the writer is talking to are those of a lone client. */
  lemma WriterTokens(s: State, c: nat)
    requires LockInv(s) && RefInv(s) && (forall n :: 0 <= n < |s.nodes| ==> TokenInv(s, n))
    requires c < |s.clients| && s.clients[c].Talking? && HoldsWrite(s.clients[c])
    ensures var p := s.clients[c];
            && RefOk(p, s.nodes)
            && var e := s.nodes[p.node].entry;
            && Tokens(e.gates, e.service.at, Alone(p.call.at)) && InTurn(p.call.at, e.gates, e.service.at)
  {
    var p := s.clients[c];
    assert RefOk(p, s.nodes);
    forall d | 0 <= d < |s.clients| && d != c ensures RoleAt(s.clients[d], p.node).Idle? {
      WriterAlone(s, c, d);
    }
    CensusAlone(s.clients, c, p.node);
    assert TokenInv(s, p.node);
    AloneTakesTurns(p.call.at, s.nodes[p.node].entry.gates, s.nodes[p.node].entry.service.at);
  }

  predicate Core(s: State) {
    LockInv(s) && RefInv(s) && TableInv(s.nodes) && forall n :: 0 <= n < |s.nodes| ==> TokenInv(s, n)
  }

  predicate Phases(s: State) {
    forall n :: 0 <= n < |s.nodes| ==> PhaseInv(s, n)
  }

  /** Phases survive when no writer refers to an entry before or after, and entries do not change. */
  lemma PhasesQuiet(s: State, t: State)
    requires Phases(s) && Resized(s.nodes, t.nodes)
    requires s.lock.writer.By? && s.lock.writer.client < |s.clients| ==>
               forall n :: 0 <= n < |s.nodes| && t.nodes[n].Live? ==> !Refers(s.clients[s.lock.writer.client], n)
    requires t.lock.writer.By? && t.lock.writer.client < |t.clients| ==>
               forall n :: 0 <= n < |t.nodes| ==> !Refers(t.clients[t.lock.writer.client], n)
    ensures Phases(t)
  {
    forall n | 0 <= n < |t.nodes| ensures PhaseInv(t, n) {
      if n < |s.nodes| {
        assert PhaseInv(s, n);
      }
    }
  }

  lemma PhasesTalk(s: State, c: nat, t: State)
    requires Core(s) && Phases(s) && c < |s.clients| && s.clients[c].Talking? && TalkStep(s, c, t)
    ensures Phases(t)
  {
    var p, p' := s.clients[c], t.clients[c];
    if HoldsWrite(p) {
      WriterTokens(s, c);
    } else {
      NoWriter(s, c);
    }
    forall n | 0 <= n < |t.nodes| ensures PhaseInv(t, n) {
      assert PhaseInv(s, n);
      if n == p.node {
        var e, e' := s.nodes[n].entry, t.nodes[n].entry;
        if HoldsWrite(p) {
          ClientKeepsCarries(p.call, e, p'.call, e');
        } else {
          StepsKeepUndismissed(p.call, e, p'.call, e');
        }
      }
    }
  }

  lemma PhasesServe(s: State, m: nat, t: State)
    requires Core(s) && Phases(s) && m < |s.nodes| && s.nodes[m].Live? && ServeStep(s, m, t)
    ensures Phases(t)
  {
    forall n | 0 <= n < |t.nodes| ensures PhaseInv(t, n) {
      assert PhaseInv(s, n);
      if n == m {
        var e, e' := s.nodes[n].entry, t.nodes[n].entry;
        var w := s.lock.writer;
        if w.By? && w.client < |s.clients| && Refers(s.clients[w.client], n) {
          if s.clients[w.client].Talking? {
            WriterTokens(s, w.client);
            ServiceKeepsCarries(e, e', s.clients[w.client].call);
          }
        } else {
          StepsKeepUndismissed(NewCall(e.service.request), e, NewCall(e.service.request), e');
        }
      }
    }
  }

  lemma PhasesBegin(s: State, m: nat, found: bool, t: State)
    requires Core(s) && Phases(s) && m < |s.nodes| && s.nodes[m].Live? && BeginStep(s, m, found, t)
    ensures Phases(t)
  {
    forall n | 0 <= n < |t.nodes| ensures PhaseInv(t, n) {
      assert PhaseInv(s, n);
      var w := s.lock.writer;
      if n == m && w.By? && w.client < |s.clients| && s.clients[w.client].Talking? {
        BeginKeepsCarries(s.nodes[n].entry, found, s.clients[w.client].call);
      }
    }
  }

  /** When CLOSE or SHUTDOWN has been answered the service thread is leaving its loop. */
  lemma ReplyEndsLoop(e: Entry, call: Call)
    requires InTurn(call.at, e.gates, e.service.at) && Carries(e, call)
    requires call.at.Received? && Terminates(call.request.tag)
    ensures Terminates(e.service.request.tag)
    ensures e.service.at.LoopTest? || e.service.at.Exited?
  {
  }

  lemma PhasesFinish(s: State, c: nat, t: State)
    requires Core(s) && Phases(s) && c < |s.clients| && s.clients[c].Talking? && FinishStep(s, c, t)
    requires s.clients[c].call.at.Received?
    ensures Phases(t)
  {
    if HoldsWrite(s.clients[c]) {
      PhasesTold(s, c, t);
    } else {
      NoWriter(s, c);
      PhasesQuiet(s, t);
    }
  }

  lemma PhasesTold(s: State, c: nat, t: State)
    requires Core(s) && Phases(s) && c < |s.clients| && s.clients[c].Talking? && HoldsWrite(s.clients[c])
    requires s.clients[c].call.at.Received?
    requires t == Goto(s, c, Joining(s.clients[c].node, s.clients[c].fd, s.clients[c].call.request))
    ensures Phases(t)
  {
    var p := s.clients[c];
    WriterTokens(s, c);
    assert PhaseInv(s, p.node);
    ReplyEndsLoop(s.nodes[p.node].entry, p.call);
    forall n | 0 <= n < |t.nodes| ensures PhaseInv(t, n) {
      assert PhaseInv(s, n);
      if n == p.node {
        assert Closing(t.nodes[n].entry, t.clients[c]);
      } else {
        assert !Refers(t.clients[c], n);
      }
    }
  }

  lemma PhasesLook(s: State, c: nat, n: nat, t: State)
    requires Core(s) && Phases(s) && c < |s.clients| && s.clients[c].Looking? && LookStep(s, c, n, t)
    ensures Phases(t)
  {
    if HoldsWrite(s.clients[c]) {
      if t.clients[c].Talking? {
        forall n | 0 <= n < |t.nodes| ensures PhaseInv(t, n) {
          assert PhaseInv(s, n);
        }
      } else {
        PhasesQuiet(s, t);
      }
    } else {
      NoWriter(s, c);
      PhasesQuiet(s, t);
    }
  }

  lemma PhasesJoin(s: State, c: nat, t: State)
    requires Core(s) && Phases(s) && c < |s.clients| && s.clients[c].Joining? && JoinStep(s, c, t)
    ensures Phases(t)
  {
    forall n | 0 <= n < |t.nodes| ensures PhaseInv(t, n) {
      assert PhaseInv(s, n);
    }
  }

  /** The search of `fdtable_delete` finds the entry that the wrapper has joined. */
  lemma DeletesOwn(s: State, c: nat, n: nat, t: State)
    requires RefInv(s) && TableInv(s.nodes)
    requires c < |s.clients| && s.clients[c].Deleting? && DeleteStep(s, c, n, t)
    ensures n == s.clients[c].node && n < |s.nodes|
    ensures t == Goto(SetNode(s, n, Freed), c, Unlocking(true, CallOriginal(s.clients[c].request)))
  {
    var p := s.clients[c];
    assert RefOk(p, s.nodes);
    assert Has(s.nodes[p.node], p.fd) && Listed(s.nodes, p.fd);
    OneReachable(s.nodes, n, p.node);
  }

  lemma PhasesDelete(s: State, c: nat, n: nat, t: State)
    requires Core(s) && Phases(s) && c < |s.clients| && s.clients[c].Deleting? && DeleteStep(s, c, n, t)
    ensures Phases(t)
  {
    DeletesOwn(s, c, n, t);
    PhasesQuiet(s, t);
  }

  lemma PhasesStep(s: State, a: Action, t: State)
    requires Core(s) && Phases(s) && Step(s, a, t)
    ensures Phases(t)
  {
    match a {
      case Invoke(c, job) => PhasesSame(s, c, t);
      case Acquire(c) => PhasesQuiet(s, t);
      case Look(c, n) => PhasesLook(s, c, n, t);
      case Talk(c) => PhasesTalk(s, c, t);
      case Finish(c) => PhasesFinish(s, c, t);
      case Join(c) => PhasesJoin(s, c, t);
      case Delete(c, n) => PhasesDelete(s, c, n, t);
      case Release(c) => PhasesRelease(s, c, t);
      case Original(c, _) => PhasesSame(s, c, t);
      case Begin(n, found) => PhasesBegin(s, n, found, t);
      case Serve(n) => PhasesServe(s, n, t);
    }
  }

  lemma PhasesSame(s: State, c: nat, t: State)
    requires Core(s) && Phases(s) && c < |s.clients| && !Holds(s.clients[c])
    requires |t.clients| == |s.clients| && t == Goto(s, c, t.clients[c])
    ensures Phases(t)
  {
    forall n | 0 <= n < |t.nodes| ensures PhaseInv(t, n) {
      assert PhaseInv(s, n);
    }
  }

  lemma PhasesRelease(s: State, c: nat, t: State)
    requires Core(s) && Phases(s) && c < |s.clients| && s.clients[c].Unlocking? && ReleaseStep(s, c, t)
    ensures Phases(t)
  {
    if !HoldsWrite(s.clients[c]) {
      NoWriter(s, c);
    }
    PhasesQuiet(s, t);
  }

  predicate Inv(s: State) {
    Core(s) && Phases(s)
  }

  lemma InvInit(s: State)
    requires Init(s)
    ensures Inv(s)
  {
  }

  lemma InvStep(s: State, a: Action, t: State)
    requires Inv(s) && Step(s, a, t)
    ensures Inv(t)
  {
    LockStep(s, a, t);
    RefStep(s, a, t);
    TableStep(s, a, t);
    TokensStep(s, a, t);
    PhasesStep(s, a, t);
  }

  lemma {:induction false} InvRun(r: Run, i: nat)
    requires Valid(r) && i < |r.states|
    ensures Inv(r.states[i])
  {
    if i == 0 {
      InvInit(r.states[0]);
    } else {
      InvRun(r, i - 1);
      InvStep(r.states[i - 1], r.actions[i - 1], r.states[i]);
    }
  }

  // ----- What every run guarantees, for any number of clients ----------------------------------

  lemma CensusIncludes(clients: seq<Pc>, c: nat, n: nat)
    requires c < |clients|
    ensures CensusOf(clients, n) == Plus(CensusOf(clients[c := Resting], n), RoleAt(clients[c], n))
  {
    CensusMoves(clients, c, Resting, n);
  }

  /** Token conservation on every entry in every state of every run: on each side the semaphores and
      the threads between a wait and the matching post add up to one, and so does each mutex. */
  lemma TokensConserved(r: Run, i: nat, n: nat)
    requires Valid(r) && i < |r.states| && n < |r.states[i].nodes| && r.states[i].nodes[n].Live?
    ensures var e := r.states[i].nodes[n].entry;
            var g, at, k := e.gates, e.service.at, CensusOf(r.states[i].clients, n);
            && g.empty + g.full + (k.claimed + k.locked + k.unlocked) + One(Fetching(at)) == 1
            && g.mutex + k.locked + One(at.CopyRequest? || at.PostMutex?) == 1
            && g.empty2 + g.full2 + (k.claimed2 + k.locked2 + k.unlocked2) + One(Answering(at)) == 1
            && g.mutex2 + k.locked2 + One(at.CopyReply? || at.PostMutex2?) == 1
            && k.waiting == g.full + One(InFlight(at)) + g.full2
  {
    InvRun(r, i);
    assert TokenInv(r.states[i], n);
  }

  lemma CensusIncludesTwo(clients: seq<Pc>, c: nat, d: nat, n: nat) returns (k: Census)
    requires c < |clients| && d < |clients| && c != d
    ensures CensusOf(clients, n) == Plus(Plus(k, RoleAt(clients[d], n)), RoleAt(clients[c], n))
  {
    k := CensusOf(clients[c := Resting][d := Resting], n);
    CensusIncludes(clients, c, n);
    CensusIncludes(clients[c := Resting], d, n);
  }

  /** For any number of clients, no client is at a copy while the service thread is at one on the same
      side: a request is never copied in and out at once, nor a reply. */
  lemma ServiceCopiesApart(r: Run, i: nat, n: nat, c: nat)
    requires Valid(r) && i < |r.states| && n < |r.states[i].nodes| && r.states[i].nodes[n].Live?
    requires c < |r.states[i].clients| && r.states[i].clients[c].Talking? && r.states[i].clients[c].node == n
    ensures var v, x := r.states[i].nodes[n].entry.service.at, r.states[i].clients[c].call.at;
            (x.PutRequest? ==> !v.CopyRequest?) && (x.TakeReply? ==> !v.CopyReply?)
  {
    InvRun(r, i);
    var s := r.states[i];
    assert TokenInv(s, n);
    CensusIncludes(s.clients, c, n);
    var e := s.nodes[n].entry;
    SideExcludesService(e.gates, e.service.at, CensusOf(s.clients[c := Resting], n), s.clients[c].call.at);
  }

  /** Nor are two clients at a copy on the same side. */
  lemma ClientsCopyApart(r: Run, i: nat, n: nat, c: nat, d: nat)
    requires Valid(r) && i < |r.states| && n < |r.states[i].nodes| && r.states[i].nodes[n].Live?
    requires c < |r.states[i].clients| && d < |r.states[i].clients| && c != d
    requires r.states[i].clients[c].Talking? && r.states[i].clients[c].node == n
    requires r.states[i].clients[d].Talking? && r.states[i].clients[d].node == n
    ensures var x, y := r.states[i].clients[c].call.at, r.states[i].clients[d].call.at;
            (x.PutRequest? ==> !y.PutRequest?) && (x.TakeReply? ==> !y.TakeReply?)
  {
    InvRun(r, i);
    var s := r.states[i];
    assert TokenInv(s, n);
    var k := CensusIncludesTwo(s.clients, c, d, n);
    var e := s.nodes[n].entry;
    SideExcludesClients(e.gates, e.service.at, k, s.clients[c].call.at, s.clients[d].call.at);
  }

  /** No thread is ever blocked on `mutex` or `mutex2`. */
  lemma MutexesNeverBlock(r: Run, i: nat, n: nat, c: nat)
    requires Valid(r) && i < |r.states| && n < |r.states[i].nodes| && r.states[i].nodes[n].Live?
    requires c < |r.states[i].clients|
    ensures var s := r.states[i];
            var e, p := s.nodes[n].entry, s.clients[c];
            && (p.Talking? && p.node == n && (p.call.at.AwaitMutex? || p.call.at.AwaitMutex2?) ==>
                  ClientReady(p.call.at, e.gates))
            && (e.service.at.WaitMutex? || e.service.at.WaitMutex2? ==> ServiceReady(e.service.at, e.gates))
  {
    InvRun(r, i);
    var s := r.states[i];
    assert TokenInv(s, n);
    CensusIncludes(s.clients, c, n);
    MutexNeverBlocks(s.nodes[n].entry.gates, s.nodes[n].entry.service.at, CensusOf(s.clients, n));
  }

  /** Every reference a client holds, in every state of every run, is to a live node that carries
      the descriptor it was found by. */
  lemma NoDanglingReference(r: Run, i: nat, c: nat)
    requires Valid(r) && i < |r.states| && c < |r.states[i].clients|
    ensures var s := r.states[i];
            var p := s.clients[c];
            p.Talking? || p.Joining? || p.Deleting? ==> p.node < |s.nodes| && Has(s.nodes[p.node], p.fd)
  {
    InvRun(r, i);
    assert RefOk(r.states[i].clients[c], r.states[i].nodes);
  }

  /** Among the entries that lookups reach, at most one carries a given descriptor, so the first match
      is the only one. */
  lemma OneReachableEntry(r: Run, i: nat, m: nat, n: nat)
    requires Valid(r) && i < |r.states| && m < |r.states[i].nodes| && n < |r.states[i].nodes|
    requires var nodes := r.states[i].nodes;
             Bar(nodes) <= m && Bar(nodes) <= n && SameFd(nodes, m, n)
    ensures m == n
  {
    InvRun(r, i);
    OneReachable(r.states[i].nodes, m, n);
  }

  /** A node is freed only by the client that joined its service thread, after that thread has left
      its loop, while no other client is inside the table, and nobody refers to it afterwards. */
  lemma NodeFreedSafely(r: Run, i: nat, n: nat)
    requires Valid(r) && i < |r.actions|
    requires n < |r.states[i].nodes| && r.states[i].nodes[n].Live?
    requires n < |r.states[i + 1].nodes| && r.states[i + 1].nodes[n].Freed?
    ensures var s, t, a := r.states[i], r.states[i + 1], r.actions[i];
            && a.Delete? && a.n == n && a.c < |s.clients|
            && s.clients[a.c].Deleting? && s.clients[a.c].node == n && s.clients[a.c].fd == s.nodes[n].entry.fd
            && s.nodes[n].entry.service.at.Exited?
            && (forall d :: 0 <= d < |s.clients| && d != a.c ==> !Holds(s.clients[d]))
            && (forall d :: 0 <= d < |t.clients| ==> !Refers(t.clients[d], n))
  {
    var s, t, a := r.states[i], r.states[i + 1], r.actions[i];
    InvRun(r, i);
    assert Step(s, a, t);
    OnlyDeleteFrees(s, a, t, n);
    var c := a.c;
    DeletesOwn(s, c, n, t);
    assert RefOk(s.clients[c], s.nodes) && PhaseInv(s, n) && Holding(s.clients[c], c, s.lock, s.leaked);
    forall d | 0 <= d < |s.clients| && d != c ensures !Holds(s.clients[d]) {
      WriterAlone(s, c, d);
    }
    forall d | 0 <= d < |t.clients| ensures !Refers(t.clients[d], n) {
      assert d != c ==> t.clients[d] == s.clients[d];
    }
  }

  lemma OnlyDeleteFrees(s: State, a: Action, t: State, n: nat)
    requires Step(s, a, t) && n < |s.nodes| && s.nodes[n].Live?
    requires n < |t.nodes| && t.nodes[n].Freed?
    ensures a.Delete? && a.n == n && a.c < |s.clients| && s.clients[a.c].Deleting? && DeleteStep(s, a.c, n, t)
  {
  }

  /** An `epoll_create` that fails, or finds its descriptor listed, keeps the read lock for good: from
      then on, in any run, no wrapper that needs the write lock ever gets it. */
  lemma {:induction false} LeakBlocksWriters(r: Run, i: nat, j: nat)
    requires Valid(r) && i <= j < |r.actions| && r.states[i].leaked != multiset{}
    ensures r.states[j].leaked != multiset{} && r.states[j].lock.readers != multiset{}
    ensures var a := r.actions[j];
            a.Acquire? ==> a.c < |r.states[j].clients| && r.states[j].clients[a.c].Locking? &&
                           !NeedsWrite(r.states[j].clients[a.c].job)
  {
    if i < j {
      LeakBlocksWriters(r, i, j - 1);
      LeaksStay(r.states[j - 1], r.actions[j - 1], r.states[j]);
    }
    InvRun(r, j);
    LeakedStillRead(r.states[j]);
    if r.actions[j].Acquire? {
      NoWriteWhileRead(r.states[j], r.actions[j], r.states[j + 1]);
    }
  }

  lemma LeakedStillRead(s: State)
    requires Inv(s) && s.leaked != multiset{}
    ensures s.lock.readers != multiset{}
  {
    var d :| d in s.leaked;
    assert Holding(s.clients[d], d, s.lock, s.leaked);
  }

  lemma LeaksStay(s: State, a: Action, t: State)
    requires Step(s, a, t)
    ensures s.leaked <= t.leaked
  {
  }

  lemma NoWriteWhileRead(s: State, a: Action, t: State)
    requires Step(s, a, t) && a.Acquire? && s.lock.readers != multiset{}
    ensures a.c < |s.clients| && s.clients[a.c].Locking? && !NeedsWrite(s.clients[a.c].job)
  {
  }
}
