/**
 Runs in which no two clients are exchanging messages with the same entry at the same time.  Then
 every delegated call gets the result of its own request, executed once and in order, and the shared
 buffer is never accessed by two threads at once.
 */
module DelegationReplies {
  import opened Channel
  import opened Delegation
  import opened DelegationInvariant

  predicate OneClient(s: State) {
    forall c, d :: 0 <= c < d < |s.clients| && s.clients[c].Talking? && s.clients[d].Talking? ==>
      s.clients[c].node != s.clients[d].node
  }

  predicate OneClientRun(r: Run) {
    Valid(r) && forall i :: 0 <= i < |r.states| ==> OneClient(r.states[i])
  }

  /** What client `c` knows of the entry it is talking to. */
  predicate Exchange(s: State, c: nat)
    requires c < |s.clients|
  {
    var p := s.clients[c];
    p.Talking? && p.node < |s.nodes| && s.nodes[p.node].Live? ==>
      var e := s.nodes[p.node].entry;
      Carries(e, p.call) && InOrder(e, Pending(e, p.call), p.call.request)
  }

  predicate Away(s: State, n: nat) {
    forall c :: 0 <= c < |s.clients| && s.clients[c].Talking? ==> s.clients[c].node != n
  }

  /** An entry nobody is talking to has executed everything it was sent. */
  predicate Settled(s: State, n: nat)
    requires n < |s.nodes|
  {
    s.nodes[n].Live? && Away(s, n) ==> InOrder(s.nodes[n].entry, false, Request(Io, 0))
  }

  predicate LoneInv(s: State) {
    && (forall c :: 0 <= c < |s.clients| ==> Exchange(s, c))
    && (forall n :: 0 <= n < |s.nodes| ==> Settled(s, n))
  }

  lemma LoneTokens(s: State, c: nat)
    requires Core(s) && OneClient(s) && c < |s.clients| && s.clients[c].Talking?
    ensures var p := s.clients[c];
            && RefOk(p, s.nodes)
            && var e := s.nodes[p.node].entry;
            && Tokens(e.gates, e.service.at, Alone(p.call.at)) && InTurn(p.call.at, e.gates, e.service.at)
  {
    var p := s.clients[c];
    assert RefOk(p, s.nodes);
    CensusAlone(s.clients, c, p.node);
    assert TokenInv(s, p.node);
    AloneTakesTurns(p.call.at, s.nodes[p.node].entry.gates, s.nodes[p.node].entry.service.at);
  }

  lemma AwayTokens(s: State, n: nat)
    requires Core(s) && Away(s, n) && n < |s.nodes| && s.nodes[n].Live?
    ensures Tokens(s.nodes[n].entry.gates, s.nodes[n].entry.service.at, NOBODY)
  {
    CensusAway(s.clients, n);
    assert TokenInv(s, n);
  }

  /** Steps that leave every entry and every exchange as it was. */
  lemma LoneKept(s: State, c: nat, p: Pc, t: State)
    requires Core(s) && LoneInv(s) && c < |s.clients| && t.clients == s.clients[c := p]
    requires !s.clients[c].Talking? && !p.Talking?
    requires Resized(s.nodes, t.nodes)
    ensures LoneInv(t)
  {
    forall d | 0 <= d < |t.clients| ensures Exchange(t, d) {
      assert Exchange(s, d) && RefOk(s.clients[d], s.nodes);
    }
    forall n | 0 <= n < |t.nodes| ensures Settled(t, n) {
      if n < |s.nodes| && Away(t, n) {
        forall d | 0 <= d < |s.clients| && s.clients[d].Talking? ensures s.clients[d].node != n {
          assert t.clients[d] == s.clients[d];
        }
        assert Settled(s, n);
      }
    }
  }

  lemma LoneTalk(s: State, c: nat, t: State)
    requires Core(s) && OneClient(s) && LoneInv(s)
    requires c < |s.clients| && s.clients[c].Talking? && TalkStep(s, c, t)
    ensures LoneInv(t)
  {
    var p, p' := s.clients[c], t.clients[c];
    LoneTokens(s, c);
    assert Exchange(s, c);
    forall d | 0 <= d < |t.clients| ensures Exchange(t, d) {
      assert Exchange(s, d);
      if d == c {
        ClientKeepsCarries(p.call, s.nodes[p.node].entry, p'.call, t.nodes[p.node].entry);
        ClientKeepsOrder(p.call, s.nodes[p.node].entry, p'.call, t.nodes[p.node].entry);
      }
    }
    forall n | 0 <= n < |t.nodes| ensures Settled(t, n) {
      assert !Away(t, p.node);
      AwayMoves(s, c, p', t, n);
      assert Settled(s, n);
    }
  }

  lemma AwayMoves(s: State, c: nat, p: Pc, t: State, n: nat)
    requires c < |s.clients| && t.clients == s.clients[c := p]
    requires s.clients[c].Talking? && s.clients[c].node == n ==> p.Talking? && p.node == n
    ensures Away(t, n) ==> Away(s, n)
  {
    if Away(t, n) {
      forall d | 0 <= d < |s.clients| && s.clients[d].Talking? ensures s.clients[d].node != n {
        assert t.clients[d] == if d == c then p else s.clients[d];
      }
    }
  }

  lemma LoneServe(s: State, m: nat, t: State)
    requires Core(s) && OneClient(s) && LoneInv(s)
    requires m < |s.nodes| && s.nodes[m].Live? && ServeStep(s, m, t)
    ensures LoneInv(t)
  {
    forall d | 0 <= d < |t.clients| ensures Exchange(t, d) {
      assert Exchange(s, d);
      if t.clients[d].Talking? && t.clients[d].node == m {
        LoneTokens(s, d);
        ServiceKeepsCarries(s.nodes[m].entry, t.nodes[m].entry, s.clients[d].call);
        ServiceKeepsOrder(s.nodes[m].entry, t.nodes[m].entry, s.clients[d].call);
      }
    }
    forall n | 0 <= n < |t.nodes| ensures Settled(t, n) {
      assert Settled(s, n);
      if n == m && Away(t, n) {
        AwayTokens(s, n);
        assert !InFlight(s.nodes[n].entry.service.at);
      }
    }
  }

  lemma LoneBegin(s: State, m: nat, found: bool, t: State)
    requires LoneInv(s) && m < |s.nodes| && s.nodes[m].Live? && BeginStep(s, m, found, t)
    ensures LoneInv(t)
  {
    forall d | 0 <= d < |t.clients| ensures Exchange(t, d) {
      assert Exchange(s, d);
      if t.clients[d].Talking? && t.clients[d].node == m {
        BeginKeepsCarries(s.nodes[m].entry, found, t.clients[d].call);
      }
    }
    forall n | 0 <= n < |t.nodes| ensures Settled(t, n) {
      assert Settled(s, n);
    }
  }

  lemma LoneFinish(s: State, c: nat, t: State)
    requires Core(s) && OneClient(s) && LoneInv(s)
    requires c < |s.clients| && s.clients[c].Talking? && s.clients[c].call.at.Received? && FinishStep(s, c, t)
    ensures LoneInv(t)
  {
    forall d | 0 <= d < |t.clients| ensures Exchange(t, d) {
      assert Exchange(s, d) && RefOk(s.clients[d], s.nodes);
    }
    forall n | 0 <= n < |t.nodes| ensures Settled(t, n) {
      if n < |s.nodes| {
        assert Settled(s, n) && Exchange(s, c);
        if n != s.clients[c].node {
          AwayMoves(s, c, t.clients[c], t, n);
        }
      }
    }
  }

  lemma LoneLook(s: State, c: nat, n: nat, t: State)
    requires Inv(s) && LoneInv(s) && OneClient(t)
    requires c < |s.clients| && s.clients[c].Looking? && LookStep(s, c, n, t)
    ensures LoneInv(t)
  {
    if t.clients[c].Talking? {
      assert Settled(s, n) by {
        assert n < |s.nodes|;
      }
      assert Away(s, n) by {
        forall d | 0 <= d < |s.clients| && s.clients[d].Talking? ensures s.clients[d].node != n {
          assert d != c && t.clients[d] == s.clients[d];
        }
      }
      assert Undismissed(s.nodes[n].entry) by {
        LookerSeesUndismissed(s, c, n);
      }
      forall d | 0 <= d < |t.clients| ensures Exchange(t, d) {
        assert Exchange(s, d);
      }
      forall m | 0 <= m < |t.nodes| ensures Settled(t, m) {
        assert Settled(s, m);
        AwayMoves(s, c, t.clients[c], t, m);
      }
    } else {
      LoneKept(s, c, t.clients[c], t);
    }
  }

  lemma LoneRelease(s: State, c: nat, t: State)
    requires Core(s) && LoneInv(s) && c < |s.clients| && s.clients[c].Unlocking? && ReleaseStep(s, c, t)
    ensures LoneInv(t)
  {
    LoneKept(s, c, t.clients[c], t);
  }

  lemma LoneDelete(s: State, c: nat, n: nat, t: State)
    requires Core(s) && LoneInv(s) && c < |s.clients| && s.clients[c].Deleting? && DeleteStep(s, c, n, t)
    ensures LoneInv(t)
  {
    LoneKept(s, c, t.clients[c], t);
  }

  /** A client that has just taken the lock finds no service thread told to stop. */
  lemma LookerSeesUndismissed(s: State, c: nat, n: nat)
    requires Inv(s) && c < |s.clients| && s.clients[c].Looking? && n < |s.nodes| && s.nodes[n].Live?
    ensures Undismissed(s.nodes[n].entry)
  {
    assert PhaseInv(s, n);
    if s.lock.writer.By? && s.lock.writer.client != c {
      WriterAlone(s, s.lock.writer.client, c);
    }
  }

  lemma LoneStep(s: State, a: Action, t: State)
    requires Inv(s) && OneClient(s) && OneClient(t) && LoneInv(s) && Step(s, a, t)
    ensures LoneInv(t)
  {
    match a {
      case Invoke(c, job) => LoneKept(s, c, Locking(job), t);
      case Acquire(c) => LoneKept(s, c, t.clients[c], t);
      case Look(c, n) => LoneLook(s, c, n, t);
      case Talk(c) => LoneTalk(s, c, t);
      case Finish(c) => LoneFinish(s, c, t);
      case Join(c) => LoneKept(s, c, t.clients[c], t);
      case Delete(c, n) => LoneDelete(s, c, n, t);
      case Release(c) => LoneRelease(s, c, t);
      case Original(c, _) => LoneKept(s, c, Resting, t);
      case Begin(n, found) => LoneBegin(s, n, found, t);
      case Serve(n) => LoneServe(s, n, t);
    }
  }

  lemma LoneInit(s: State)
    requires Init(s)
    ensures LoneInv(s)
  {
  }

  lemma LoneNext(r: Run, i: nat)
    requires OneClientRun(r) && i < |r.actions| && Inv(r.states[i]) && LoneInv(r.states[i])
    ensures LoneInv(r.states[i + 1])
  {
    var s, t := r.states[i], r.states[i + 1];
    assert OneClient(s) && OneClient(t);
    assert Step(s, r.actions[i], t);
    LoneStep(s, r.actions[i], t);
  }

  lemma {:induction false} LoneRun(r: Run, i: nat)
    requires OneClientRun(r) && i < |r.states|
    ensures LoneInv(r.states[i])
  {
    if i == 0 {
      LoneInit(r.states[0]);
    } else {
      LoneRun(r, i - 1);
      InvRun(r, i - 1);
      LoneNext(r, i - 1);
    }
  }

  // ----- Main results --------------------------------------------------------------------------

  /** A wrapper that has its reply holds the kernel's answer to the request it sent: the request with
      its ticket is its own, it has been executed exactly once, nothing is left unexecuted, and the
      value the wrapper returns is the value of that execution. */
  lemma DelegatedCallReturnsItsResult(r: Run, i: nat, c: nat)
    requires OneClientRun(r) && i < |r.actions| && r.actions[i] == Finish(c)
    ensures var s, t := r.states[i], r.states[i + 1];
            && c < |s.clients| && s.clients[c].Talking?
            && var p := s.clients[c];
            && p.node < |s.nodes| && s.nodes[p.node].Live? && s.nodes[p.node].entry.fd == p.fd
            && var e, k := s.nodes[p.node].entry, p.call.ticket;
            && |e.sent| == |e.done| == k + 1
            && e.sent[k] == p.call.request
            && e.done[k].request == p.call.request
            && p.call.reply == Reply(p.call.request.tag, e.done[k].value)
            && c < |t.clients|
            && (!Terminates(p.call.request.tag) ==> t.clients[c] == Unlocking(false, Return(e.done[k].value)))
            && (Terminates(p.call.request.tag) ==> t.clients[c] == Joining(p.node, p.fd, p.call.request))
  {
    InvRun(r, i);
    LoneRun(r, i);
    var s := r.states[i];
    assert Step(s, r.actions[i], r.states[i + 1]);
    assert RefOk(s.clients[c], s.nodes);
    assert Exchange(s, c);
  }

  /** On every entry, in every state, the executions are of the requests in the order they were
      sent, each once, and at most one request sent is still to be executed. */
  lemma RequestsRunOnceInOrder(r: Run, i: nat, n: nat)
    requires OneClientRun(r) && i < |r.states| && n < |r.states[i].nodes| && r.states[i].nodes[n].Live?
    ensures var e := r.states[i].nodes[n].entry;
            && |e.done| <= |e.sent| <= |e.done| + 1
            && forall k :: 0 <= k < |e.done| ==> e.done[k].request == e.sent[k]
  {
    InvRun(r, i);
    LoneRun(r, i);
    var s := r.states[i];
    assert Settled(s, n);
    if !Away(s, n) {
      var c :| 0 <= c < |s.clients| && s.clients[c].Talking? && s.clients[c].node == n;
      assert Exchange(s, c);
    }
  }

  /** The client or service thread is about to copy into or out of the buffer. */
  predicate Copying(at: ClientPoint) {
    at.PutRequest? || at.TakeReply?
  }

  predicate ServiceCopying(at: ServicePoint) {
    at.CopyRequest? || at.CopyReply?
  }

  /** While the only client of an entry is at a copy of its buffer, on either side, the service thread is
      at none.  (For the same side this holds for any number of clients, see `ServiceCopiesApart`.) */
  lemma BufferIsExclusive(r: Run, i: nat, c: nat)
    requires OneClientRun(r) && i < |r.states| && c < |r.states[i].clients|
    requires r.states[i].clients[c].Talking? && Copying(r.states[i].clients[c].call.at)
    ensures var s := r.states[i];
            var n := s.clients[c].node;
            n < |s.nodes| && s.nodes[n].Live? && !ServiceCopying(s.nodes[n].entry.service.at)
  {
    InvRun(r, i);
    LoneRun(r, i);
    LoneTokens(r.states[i], c);
  }
}
