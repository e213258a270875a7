/**
 Service threads that never reach their loop.  A service thread looks its own entry up without taking
 the table lock, and an entry for descriptor 0 added in front of it before it does so hides it: the
 thread exits, and a client that was already waiting for it waits for ever, holding its read lock.
 This module says exactly when that happens.
 */
module DelegationStartup {
  import opened Channel
  import opened Delegation
  import opened DelegationInvariant

  /** The service thread has exited without being told to. */
  predicate Stillborn(e: Entry) {
    e.service.at.Exited? && !Terminates(e.service.request.tag)
  }

  /** The service thread has never reached its loop. */
  predicate Unserved(e: Entry) {
    e.service.at.Start? || Stillborn(e)
  }

  predicate BirthOk(nodes: seq<Slot>, n: nat)
    requires n < |nodes|
  {
    nodes[n].Live? ==>
      var e := nodes[n].entry;
      && (Unserved(e) ==> e.gates.full2 == 0 && e.gates.empty2 == 1 && !Terminates(e.service.request.tag))
      && (Stillborn(e) ==> n < Bar(nodes))
  }

  predicate Asking(at: ClientPoint) {
    || at.AwaitEmpty? || at.AwaitMutex? || at.PutRequest? || at.SignalMutex? || at.SignalFull?
    || at.AwaitFull2?
  }

  /** The client talks to an entry whose service thread has never reached its loop. */
  predicate Waits(p: Pc, nodes: seq<Slot>) {
    p.Talking? && p.node < |nodes| && nodes[p.node].Live? && Unserved(nodes[p.node].entry)
  }

  predicate AskOk(p: Pc, nodes: seq<Slot>) {
    && (p.Talking? ==> p.fd != 0)
    && (Waits(p, nodes) ==> Asking(p.call.at))
  }

  predicate Births(s: State) {
    && (forall n :: 0 <= n < |s.nodes| ==> BirthOk(s.nodes, n))
    && (forall c :: 0 <= c < |s.clients| ==> AskOk(s.clients[c], s.nodes))
  }

  /** The client talks to an entry whose service thread has not started and will not find it, or has
      already exited for that reason. */
  predicate Doomed(s: State, c: nat)
    requires c < |s.clients|
  {
    Waits(s.clients[c], s.nodes) && s.clients[c].node < Bar(s.nodes)
  }

  // ----- What every step keeps ------------------------------------------------------------------

  lemma BirthsKept(s: State, c: nat, p: Pc, t: State)
    requires RefInv(s) && Births(s) && c < |s.clients| && t.clients == s.clients[c := p]
    requires Resized(s.nodes, t.nodes) && Bar(s.nodes) <= Bar(t.nodes) && AskOk(p, t.nodes)
    ensures Births(t)
  {
    forall n | 0 <= n < |t.nodes| ensures BirthOk(t.nodes, n) {
      if n < |s.nodes| {
        assert BirthOk(s.nodes, n);
      }
    }
    forall d | 0 <= d < |t.clients| ensures AskOk(t.clients[d], t.nodes) {
      assert AskOk(s.clients[d], s.nodes) && RefOk(s.clients[d], s.nodes);
    }
  }

  /** A change of one entry that neither brings a service thread back to its start nor answers anybody
      whose service thread has not started. */
  lemma BirthsNode(s: State, n: nat, e: Entry, t: State)
    requires Births(s) && n < |s.nodes| && s.nodes[n].Live?
    requires t.nodes == s.nodes[n := Live(e)] && t.clients == s.clients
    requires BirthOk(t.nodes, n) && (Unserved(e) ==> Unserved(s.nodes[n].entry)) && Bar(t.nodes) == Bar(s.nodes)
    ensures Births(t)
  {
    forall m | 0 <= m < |t.nodes| ensures BirthOk(t.nodes, m) {
      assert BirthOk(s.nodes, m);
    }
    forall d | 0 <= d < |t.clients| ensures AskOk(t.clients[d], t.nodes) {
      assert AskOk(s.clients[d], s.nodes);
    }
  }

  lemma BirthsLook(s: State, c: nat, n: nat, t: State)
    requires RefInv(s) && Births(s) && c < |s.clients| && s.clients[c].Looking? && LookStep(s, c, n, t)
    ensures Births(t) && Bar(s.nodes) <= Bar(t.nodes)
  {
    var job := s.clients[c].job;
    BarGrows(s.nodes, Live(NewEntry(job.fd, job.file)));
    if t.clients[c].Talking? {
      BarBound(s.nodes, n);
    }
    BirthsKept(s, c, t.clients[c], t);
  }

  lemma BirthsFinish(s: State, c: nat, t: State)
    requires RefInv(s) && Births(s) && c < |s.clients| && s.clients[c].Talking? && FinishStep(s, c, t)
    ensures Births(t) && Bar(s.nodes) == Bar(t.nodes)
  {
    BarGrows(s.nodes, Live(NewEntry(s.clients[c].call.reply.value, false)));
    BirthsKept(s, c, t.clients[c], t);
  }

  /** A client's step at an entry whose service thread has not started changes nothing on the reply
      side. */
  lemma AskStep(call: Call, e: Entry, call': Call, e': Entry)
    requires ClientStep(call, e, call', e')
    requires Unserved(e) ==> Asking(call.at) && e.gates.full2 == 0 && e.gates.empty2 == 1
    ensures e'.service == e.service && Unserved(e') == Unserved(e)
    ensures Unserved(e) ==> Asking(call'.at) && e'.gates.full2 == 0 && e'.gates.empty2 == 1
  {
  }

  lemma BirthsTalk(s: State, c: nat, t: State)
    requires RefInv(s) && Births(s) && c < |s.clients| && s.clients[c].Talking? && TalkStep(s, c, t)
    ensures Births(t) && Bar(s.nodes) == Bar(t.nodes)
    ensures Unserved(t.nodes[s.clients[c].node].entry) == Unserved(s.nodes[s.clients[c].node].entry)
  {
    var p, p' := s.clients[c], t.clients[c];
    var e, e' := s.nodes[p.node].entry, t.nodes[p.node].entry;
    BarStays(s.nodes, p.node, t.nodes[p.node]);
    assert AskOk(p, s.nodes) && BirthOk(s.nodes, p.node);
    AskStep(p.call, e, p'.call, e');
    forall m | 0 <= m < |t.nodes| ensures BirthOk(t.nodes, m) {
      assert BirthOk(s.nodes, m);
    }
    forall d | 0 <= d < |t.clients| ensures AskOk(t.clients[d], t.nodes) {
      assert AskOk(s.clients[d], s.nodes);
    }
  }

  lemma BirthsDelete(s: State, c: nat, n: nat, t: State)
    requires RefInv(s) && TableInv(s.nodes) && Births(s)
    requires c < |s.clients| && s.clients[c].Deleting? && DeleteStep(s, c, n, t)
    ensures Births(t) && Bar(s.nodes) == Bar(t.nodes)
  {
    DeletesOwn(s, c, n, t);
    assert RefOk(s.clients[c], s.nodes);
    BarBound(s.nodes, n);
    BarStays(s.nodes, n, Freed);
    BirthsKept(s, c, t.clients[c], t);
  }

  lemma BirthsBegin(s: State, n: nat, found: bool, t: State)
    requires Births(s) && n < |s.nodes| && s.nodes[n].Live? && BeginStep(s, n, found, t)
    ensures Births(t) && Bar(s.nodes) == Bar(t.nodes)
  {
    BarStays(s.nodes, n, t.nodes[n]);
    assert BirthOk(s.nodes, n);
    BirthsNode(s, n, Begun(s.nodes[n].entry, found), t);
  }

  lemma BirthsServe(s: State, n: nat, t: State)
    requires Births(s) && n < |s.nodes| && s.nodes[n].Live? && ServeStep(s, n, t)
    ensures Births(t) && Bar(s.nodes) == Bar(t.nodes) && !Unserved(t.nodes[n].entry)
  {
    BarStays(s.nodes, n, t.nodes[n]);
    assert BirthOk(s.nodes, n);
    BirthsNode(s, n, t.nodes[n].entry, t);
  }

  lemma BirthsStep(s: State, a: Action, t: State)
    requires RefInv(s) && TableInv(s.nodes) && Births(s) && Step(s, a, t)
    ensures Births(t) && Bar(s.nodes) <= Bar(t.nodes)
  {
    match a {
      case Invoke(c, job) => BirthsKept(s, c, Locking(job), t);
      case Acquire(c) => BirthsKept(s, c, t.clients[c], t);
      case Look(c, n) => BirthsLook(s, c, n, t);
      case Talk(c) => BirthsTalk(s, c, t);
      case Finish(c) => BirthsFinish(s, c, t);
      case Join(c) => BirthsKept(s, c, t.clients[c], t);
      case Delete(c, n) => BirthsDelete(s, c, n, t);
      case Release(c) => BirthsKept(s, c, t.clients[c], t);
      case Original(c, _) => BirthsKept(s, c, Resting, t);
      case Begin(n, found) => BirthsBegin(s, n, found, t);
      case Serve(n) => BirthsServe(s, n, t);
    }
  }

  lemma {:induction false} BirthsRun(r: Run, i: nat)
    requires Valid(r) && i < |r.states|
    ensures Births(r.states[i])
  {
    if i > 0 {
      BirthsRun(r, i - 1);
      InvRun(r, i - 1);
      BirthsStep(r.states[i - 1], r.actions[i - 1], r.states[i]);
    }
  }

  // ----- Who waits for ever ---------------------------------------------------------------------

  /** A doomed client holds its read lock: the entry that a writer talks to can be reached. */
  lemma DoomedReads(s: State, c: nat)
    requires RefInv(s) && c < |s.clients| && Doomed(s, c)
    ensures HoldsRead(s.clients[c])
  {
    assert RefOk(s.clients[c], s.nodes);
  }

  /** The service thread of a doomed client's entry does not find it. */
  lemma DoomedBegin(s: State, c: nat, n: nat, found: bool, t: State)
    requires RefInv(s) && Births(s) && c < |s.clients| && Doomed(s, c)
    requires n < |s.nodes| && s.nodes[n].Live? && BeginStep(s, n, found, t)
    ensures Doomed(t, c)
  {
    BirthsBegin(s, n, found, t);
    assert BirthOk(s.nodes, n) && AskOk(s.clients[c], s.nodes) && RefOk(s.clients[c], s.nodes);
    BarTop(s.nodes);
  }

  lemma DoomedTalk(s: State, c: nat, d: nat, t: State)
    requires RefInv(s) && Births(s) && c < |s.clients|
    requires d < |s.clients| && s.clients[d].Talking? && TalkStep(s, d, t)
    ensures Doomed(t, c) == Doomed(s, c)
  {
    BirthsTalk(s, d, t);
  }

  lemma DoomedStays(s: State, c: nat, d: nat, p: Pc, t: State)
    requires c < |s.clients| && d < |s.clients| && c != d && Doomed(s, c) && t.clients == s.clients[d := p]
    requires |s.nodes| <= |t.nodes| && Bar(s.nodes) <= Bar(t.nodes)
    requires s.clients[c].node < |s.nodes| ==> t.nodes[s.clients[c].node] == s.nodes[s.clients[c].node]
    ensures Doomed(t, c)
  {
  }

  lemma DoomedLook(s: State, c: nat, d: nat, n: nat, t: State)
    requires RefInv(s) && Births(s) && c < |s.clients| && Doomed(s, c)
    requires d < |s.clients| && s.clients[d].Looking? && LookStep(s, d, n, t)
    ensures Doomed(t, c)
  {
    BirthsLook(s, d, n, t);
    DoomedStays(s, c, d, t.clients[d], t);
  }

  lemma DoomedFinish(s: State, c: nat, d: nat, t: State)
    requires RefInv(s) && Births(s) && c < |s.clients| && Doomed(s, c)
    requires d < |s.clients| && s.clients[d].Talking? && s.clients[d].call.at.Received? && FinishStep(s, d, t)
    ensures Doomed(t, c)
  {
    BirthsFinish(s, d, t);
    assert AskOk(s.clients[c], s.nodes);
    DoomedStays(s, c, d, t.clients[d], t);
  }

  lemma DoomedServe(s: State, c: nat, n: nat, t: State)
    requires Births(s) && c < |s.clients| && n < |s.nodes| && s.nodes[n].Live? && ServeStep(s, n, t)
    ensures Doomed(t, c) == Doomed(s, c)
  {
    BirthsServe(s, n, t);
  }

  /** Once doomed, always doomed, whatever anybody does. */
  lemma DoomedStep(s: State, a: Action, t: State, c: nat)
    requires Inv(s) && Births(s) && Step(s, a, t) && c < |s.clients| && Doomed(s, c)
    ensures c < |t.clients| && Doomed(t, c)
  {
    DoomedReads(s, c);
    NoWriter(s, c);
    match a {
      case Invoke(d, job) => DoomedStays(s, c, d, Locking(job), t);
      case Acquire(d) => DoomedStays(s, c, d, t.clients[d], t);
      case Look(d, n) => DoomedLook(s, c, d, n, t);
      case Talk(d) => DoomedTalk(s, c, d, t);
      case Finish(d) => DoomedFinish(s, c, d, t);
      case Release(d) => DoomedStays(s, c, d, t.clients[d], t);
      case Original(d, _) => DoomedStays(s, c, d, Resting, t);
      case Begin(n, found) => DoomedBegin(s, c, n, found, t);
      case Serve(n) => DoomedServe(s, c, n, t);
      case _ =>
    }
  }

  /** The step in which `epoll_create` registers descriptor 0. */
  predicate AddsZero(s: State, a: Action, t: State) {
    && a.Look? && a.c < |s.clients| && s.clients[a.c].Looking?
    && s.clients[a.c].job.Register? && s.clients[a.c].job.fd == 0 && s.clients[a.c].job.epoll
    && t.nodes == s.nodes + [Live(NewEntry(0, false))]
  }

  /** The client talks to an entry whose service thread has not yet looked itself up. */
  predicate Early(s: State, c: nat)
    requires c < |s.clients|
  {
    var p := s.clients[c];
    p.Talking? && p.node < |s.nodes| && s.nodes[p.node].Live? && s.nodes[p.node].entry.service.at.Start?
  }

  lemma SparedElsewhere(s: State, d: nat, p: Pc, t: State, c: nat)
    requires RefInv(s) && c < |s.clients| && d < |s.clients| && t.clients == s.clients[d := p]
    requires Resized(s.nodes, t.nodes) && Bar(t.nodes) == Bar(s.nodes) && !Doomed(s, c) && (c == d ==> !p.Talking?)
    ensures !Doomed(t, c)
  {
    assert RefOk(s.clients[c], s.nodes);
  }

  lemma SparedFinish(s: State, d: nat, t: State, c: nat)
    requires RefInv(s) && Births(s) && c < |s.clients| && !Doomed(s, c)
    requires d < |s.clients| && s.clients[d].Talking? && FinishStep(s, d, t)
    ensures !Doomed(t, c)
  {
    BirthsFinish(s, d, t);
    SparedElsewhere(s, d, t.clients[d], t, c);
  }

  lemma SparedDelete(s: State, d: nat, n: nat, t: State, c: nat)
    requires RefInv(s) && TableInv(s.nodes) && Births(s) && c < |s.clients| && !Doomed(s, c)
    requires d < |s.clients| && s.clients[d].Deleting? && DeleteStep(s, d, n, t)
    ensures !Doomed(t, c)
  {
    BirthsDelete(s, d, n, t);
    SparedElsewhere(s, d, t.clients[d], t, c);
  }

  lemma SparedBegin(s: State, n: nat, found: bool, t: State, c: nat)
    requires Births(s) && n < |s.nodes| && s.nodes[n].Live? && BeginStep(s, n, found, t)
    requires c < |s.clients| && !Doomed(s, c)
    ensures !Doomed(t, c)
  {
    BirthsBegin(s, n, found, t);
  }

  /** A lookup dooms another client exactly when it registers descriptor 0 while that client waits for a
      service thread that has not started. */
  lemma LookDooms(s: State, d: nat, n: nat, t: State, c: nat)
    requires Inv(s) && Births(s) && d < |s.clients| && s.clients[d].Looking? && LookStep(s, d, n, t)
    requires c < |s.clients| && !Doomed(s, c)
    ensures Doomed(t, c) <==> AddsZero(s, Look(d, n), t) && Early(s, c)
  {
    assert RefOk(s.clients[c], s.nodes);
    if s.clients[d].job.Register? {
      RegisterDooms(s, d, n, t, c);
    }
  }

  lemma RegisterDooms(s: State, d: nat, n: nat, t: State, c: nat)
    requires Inv(s) && Births(s) && d < |s.clients| && s.clients[d].Looking? && LookStep(s, d, n, t)
    requires s.clients[d].job.Register? && c < |s.clients| && !Doomed(s, c) && RefOk(s.clients[c], s.nodes)
    ensures Doomed(t, c) <==> AddsZero(s, Look(d, n), t) && Early(s, c)
  {
    var job := s.clients[d].job;
    BarGrows(s.nodes, Live(NewEntry(job.fd, job.file)));
    if c != d && s.clients[c].Talking? {
      assert Holds(s.clients[c]) && BirthOk(s.nodes, s.clients[c].node);
      if HoldsWrite(s.clients[d]) {
        WriterAlone(s, d, c);
      }
    }
  }

  /** Exactly when a client becomes doomed: an `epoll_create` that returns 0 registers it while the
      client talks to an entry whose service thread has not yet looked itself up. */
  lemma DoomBegins(s: State, a: Action, t: State, c: nat)
    requires Inv(s) && Births(s) && Step(s, a, t) && c < |s.clients| && !Doomed(s, c)
    ensures c < |t.clients|
    ensures Doomed(t, c) <==> AddsZero(s, a, t) && Early(s, c)
  {
    match a {
      case Invoke(d, job) => SparedElsewhere(s, d, Locking(job), t, c);
      case Acquire(d) => SparedElsewhere(s, d, t.clients[d], t, c);
      case Look(d, n) => LookDooms(s, d, n, t, c);
      case Talk(d) => DoomedTalk(s, c, d, t);
      case Finish(d) => SparedFinish(s, d, t, c);
      case Join(d) => SparedElsewhere(s, d, t.clients[d], t, c);
      case Delete(d, n) => SparedDelete(s, d, n, t, c);
      case Release(d) => SparedElsewhere(s, d, t.clients[d], t, c);
      case Original(d, _) => SparedElsewhere(s, d, Resting, t, c);
      case Begin(n, found) => SparedBegin(s, n, found, t, c);
      case Serve(n) => DoomedServe(s, c, n, t);
    }
  }

  lemma ClientsStep(s: State, a: Action, t: State)
    requires Step(s, a, t)
    ensures |t.clients| == |s.clients|
  {
  }

  lemma {:induction false} ClientsRun(r: Run, i: nat)
    requires Valid(r) && i < |r.states|
    ensures |r.states[i].clients| == |r.states[0].clients|
  {
    if i > 0 {
      ClientsRun(r, i - 1);
      ClientsStep(r.states[i - 1], r.actions[i - 1], r.states[i]);
    }
  }

  /** Step `i` of the run registers descriptor 0 too early for the call that client `c` is making. */
  predicate Dooms(r: Run, i: nat, c: nat)
    requires Valid(r) && i < |r.actions| && c < |r.states[0].clients|
  {
    ClientsRun(r, i);
    AddsZero(r.states[i], r.actions[i], r.states[i + 1]) && Early(r.states[i], c)
  }

  ghost predicate DoomedBefore(r: Run, j: nat, c: nat)
    requires Valid(r) && j < |r.states| && c < |r.states[0].clients|
  {
    exists i :: 0 <= i < j && Dooms(r, i, c)
  }

  lemma OneMoreDoom(r: Run, j: nat, c: nat)
    requires Valid(r) && 0 < j < |r.states| && c < |r.states[0].clients|
    ensures DoomedBefore(r, j, c) <==> DoomedBefore(r, j - 1, c) || Dooms(r, j - 1, c)
  {
  }

  /** In every run, a client is doomed in a state exactly when an earlier step registered descriptor 0
      while the client was talking to an entry whose service thread had not looked itself up. */
  lemma {:induction false} DoomedIff(r: Run, j: nat, c: nat)
    requires Valid(r) && j < |r.states| && c < |r.states[0].clients|
    ensures c < |r.states[j].clients|
    ensures Doomed(r.states[j], c) <==> DoomedBefore(r, j, c)
  {
    ClientsRun(r, j);
    if j > 0 {
      DoomedIff(r, j - 1, c);
      OneMoreDoom(r, j, c);
      DoomedNext(r, j, c);
    }
  }

  lemma DoomedNext(r: Run, j: nat, c: nat)
    requires Valid(r) && 0 < j < |r.states| && c < |r.states[0].clients|
    ensures c < |r.states[j - 1].clients| && c < |r.states[j].clients|
    ensures Doomed(r.states[j], c) <==> Doomed(r.states[j - 1], c) || Dooms(r, j - 1, c)
  {
    ClientsRun(r, j - 1);
    ClientsRun(r, j);
    InvRun(r, j - 1);
    BirthsRun(r, j - 1);
    var s, a, t := r.states[j - 1], r.actions[j - 1], r.states[j];
    assert Step(s, a, t);
    if Doomed(s, c) {
      DoomedStep(s, a, t, c);
    } else {
      DoomBegins(s, a, t, c);
    }
  }

  /** A doomed client never returns, and never gives its read lock back. */
  lemma {:induction false} DoomedNeverReturns(r: Run, i: nat, j: nat, c: nat)
    requires Valid(r) && i <= j < |r.states| && c < |r.states[i].clients| && Doomed(r.states[i], c)
    ensures c < |r.states[j].clients| && Doomed(r.states[j], c)
    ensures HoldsRead(r.states[j].clients[c]) && r.states[j].lock.readers[c] > 0
  {
    ClientsRun(r, i);
    if i < j {
      DoomedNeverReturns(r, i, j - 1, c);
      DoomedNext(r, j, c);
    }
    InvRun(r, j);
    DoomedHolds(r.states[j], c);
  }

  lemma DoomedHolds(s: State, c: nat)
    requires Inv(s) && c < |s.clients| && Doomed(s, c)
    ensures HoldsRead(s.clients[c]) && s.lock.readers[c] > 0
  {
    DoomedReads(s, c);
    assert Holding(s.clients[c], c, s.lock, s.leaked);
  }
}
