/**
 The delegation protocol against the kernel.  Every call into the kernel -- executed by a service
 thread, made directly, or creating a descriptor -- is an event of the run, in the order it happens.
 With one client per entry, the value that a delegated call returns is the kernel's answer to its own
 request at one such event, which lies between the call's lookup and its return.
 */
module DelegationKernel {
  import opened Basics
  import opened Channel
  import opened Delegation
  import opened DelegationInvariant
  import opened DelegationReplies

  /** What the kernel answers to a request after the requests before it. */
  type Kernel = (seq<Request>, Request) -> int

  predicate CallsKernel(s: State, a: Action) {
    match a
    case Invoke(_, job) => job.Register?
    case Original(c, _) => c < |s.clients| && s.clients[c].Calling?
    case Serve(n) =>
      && n < |s.nodes| && s.nodes[n].Live? && s.nodes[n].entry.service.at.Execute?
      && !Terminates(s.nodes[n].entry.service.request.tag)
    case _ => false
  }

  function KernelCall(s: State, a: Action, t: State): Execution
    requires Step(s, a, t) && CallsKernel(s, a)
  {
    match a
    case Invoke(_, job) => Execution(job.request, job.fd)
    case Original(c, value) => Execution(s.clients[c].request, value)
    case Serve(n) => Execution(s.nodes[n].entry.service.request, t.nodes[n].entry.service.value)
  }

  predicate IsCall(r: Run, i: nat)
    requires Valid(r) && i < |r.actions|
  {
    CallsKernel(r.states[i], r.actions[i])
  }

  function CallAt(r: Run, i: nat): Execution
    requires Valid(r) && i < |r.actions| && IsCall(r, i)
  {
    assert Step(r.states[i], r.actions[i], r.states[i + 1]);
    KernelCall(r.states[i], r.actions[i], r.states[i + 1])
  }

  /** The requests that the kernel has been given before step `i`. */
  function Log(r: Run, i: nat): seq<Request>
    requires Valid(r) && i <= |r.actions|
  {
    if i == 0 then []
    else Log(r, i - 1) + if IsCall(r, i - 1) then [CallAt(r, i - 1).request] else []
  }

  /** What a service thread keeps of the answer to `q`: that of `lseek` goes through an `int` field.  (The
      fields of all other answers are as wide as their C types.) */
  function Kept(q: Request, answer: int): int {
    if q.tag.Lseek? then Trunc32(answer) else answer
  }

  /** Every value that comes out of the kernel in the run is the answer of `k`, as far as a service thread
      keeps it. */
  ghost predicate Answers(k: Kernel, r: Run)
    requires Valid(r)
  {
    forall i {:trigger IsCall(r, i)} :: 0 <= i < |r.actions| && IsCall(r, i) ==>
      var x, answer := CallAt(r, i), k(Log(r, i), CallAt(r, i).request);
      x.value == if r.actions[i].Serve? then Kept(x.request, answer) else answer
  }

  function Done(x: Slot): seq<Execution> {
    match x
    case Live(e) => e.done
    case Freed => []
  }

  /** The step is the execution `x` with index `k` on entry `n`. */
  predicate Executes(s: State, a: Action, t: State, n: nat, k: nat, x: Execution) {
    && a == Serve(n) && n < |s.nodes| && s.nodes[n].Live? && n < |t.nodes| && t.nodes[n].Live?
    && s.nodes[n].entry.service.at.Execute? && |s.nodes[n].entry.done| == k
    && x == Execution(s.nodes[n].entry.service.request, t.nodes[n].entry.service.value)
    && t.nodes[n].entry.done == s.nodes[n].entry.done + [x]
  }

  /** Executions come from steps of the service thread, one at a time. */
  lemma DoneStep(s: State, a: Action, t: State, n: nat)
    requires Step(s, a, t) && n < |t.nodes| && t.nodes[n].Live?
    ensures n >= |s.nodes| ==> Done(t.nodes[n]) == []
    ensures n < |s.nodes| ==>
              && s.nodes[n].Live?
              && (|| Done(t.nodes[n]) == Done(s.nodes[n])
                  || (|Done(t.nodes[n])| > 0 &&
                      Executes(s, a, t, n, |Done(s.nodes[n])|, Done(t.nodes[n])[|Done(t.nodes[n])| - 1])))
  {
    if a != Serve(n) {
      DoneElsewhere(s, a, t, n);
    }
  }

  lemma DoneElsewhere(s: State, a: Action, t: State, n: nat)
    requires Step(s, a, t) && n < |t.nodes| && t.nodes[n].Live? && a != Serve(n)
    ensures if n < |s.nodes| then s.nodes[n].Live? && Done(t.nodes[n]) == Done(s.nodes[n]) else Done(t.nodes[n]) == []
  {
  }

  /** The step at which an execution took place. */
  lemma {:induction false} ExecutedAt(r: Run, i: nat, n: nat, k: nat, x: Execution) returns (j: nat)
    requires Valid(r) && i < |r.states| && n < |r.states[i].nodes| && r.states[i].nodes[n].Live?
    requires k < |Done(r.states[i].nodes[n])| && Done(r.states[i].nodes[n])[k] == x
    ensures j < i && Executes(r.states[j], r.actions[j], r.states[j + 1], n, k, x)
  {
    var s, t := r.states[i - 1], r.states[i];
    assert Step(s, r.actions[i - 1], t);
    DoneStep(s, r.actions[i - 1], t, n);
    if n < |s.nodes| && k < |Done(s.nodes[n])| {
      j := ExecutedAt(r, i - 1, n, k, x);
    } else {
      j := i - 1;
    }
  }

  lemma {:induction false} DoneGrows(r: Run, m: nat, i: nat, n: nat)
    requires Valid(r) && m <= i < |r.states|
    requires n < |r.states[m].nodes| && n < |r.states[i].nodes| && r.states[i].nodes[n].Live?
    ensures r.states[m].nodes[n].Live? && |Done(r.states[m].nodes[n])| <= |Done(r.states[i].nodes[n])|
  {
    if m < i {
      assert Step(r.states[i - 1], r.actions[i - 1], r.states[i]);
      NodesStay(r, m, i - 1);
      DoneStep(r.states[i - 1], r.actions[i - 1], r.states[i], n);
      DoneGrows(r, m, i - 1, n);
    }
  }

  lemma NodesStep(s: State, a: Action, t: State)
    requires Step(s, a, t)
    ensures |s.nodes| <= |t.nodes|
  {
  }

  lemma {:induction false} NodesStay(r: Run, m: nat, i: nat)
    requires Valid(r) && m <= i < |r.states|
    ensures |r.states[m].nodes| <= |r.states[i].nodes|
  {
    if m < i {
      NodesStay(r, m, i - 1);
      NodesStep(r.states[i - 1], r.actions[i - 1], r.states[i]);
    }
  }

  /** From state `m`, where its lookup has just found node `n`, to state `i` the client is talking to it. */
  predicate Exchanges(r: Run, m: nat, i: nat, c: nat, n: nat) {
    && m <= i < |r.states|
    && (forall l {:trigger r.states[l]} :: m <= l <= i ==>
          c < |r.states[l].clients| && r.states[l].clients[c].Talking? && r.states[l].clients[c].node == n)
    && r.states[m].clients[c].call.at.AwaitEmpty?
  }

  /** The client has copied its request in. */
  predicate Sent(at: ClientPoint) {
    !at.AwaitEmpty? && !at.AwaitMutex? && !at.PutRequest?
  }

  /** Only its own step changes what a client that keeps talking knows of its call. */
  lemma OthersKeepCall(s: State, a: Action, t: State, c: nat)
    requires Step(s, a, t) && c < |s.clients| && s.clients[c].Talking? && a != Talk(c)
    requires c < |t.clients| && t.clients[c].Talking?
    ensures t.clients[c] == s.clients[c]
  {
  }

  lemma TicketTalk(s: State, c: nat, t: State)
    requires c < |s.clients| && s.clients[c].Talking? && TalkStep(s, c, t)
    ensures var n, x, x' := s.clients[c].node, s.clients[c].call, t.clients[c].call;
            && (Sent(x'.at) ==> Sent(x.at) || x.at.PutRequest?)
            && n < |s.nodes|
            && x'.ticket == if x.at.PutRequest? then |Done(s.nodes[n])| else x.ticket
  {
  }

  lemma TalksToLive(r: Run, i: nat, c: nat)
    requires Valid(r) && i < |r.states| && c < |r.states[i].clients| && r.states[i].clients[c].Talking?
    ensures var s := r.states[i]; s.clients[c].node < |s.nodes| && s.nodes[s.clients[c].node].Live?
  {
    InvRun(r, i);
    assert RefOk(r.states[i].clients[c], r.states[i].nodes);
  }

  /** The ticket of a sent request counts at least the executions before the lookup. */
  lemma {:induction false} TicketCounts(r: Run, m: nat, i: nat, c: nat, n: nat)
    requires Valid(r) && Exchanges(r, m, i, c, n)
    ensures n < |r.states[m].nodes|
    ensures Sent(r.states[i].clients[c].call.at) ==>
              r.states[i].clients[c].call.ticket >= |Done(r.states[m].nodes[n])|
  {
    TalksToLive(r, m, c);
    if m < i {
      var s, t := r.states[i - 1], r.states[i];
      TicketCounts(r, m, i - 1, c, n);
      TalksToLive(r, i - 1, c);
      DoneGrows(r, m, i - 1, n);
      assert Step(s, r.actions[i - 1], t);
      if r.actions[i - 1] == Talk(c) {
        TicketTalk(s, c, t);
      } else {
        OthersKeepCall(s, r.actions[i - 1], t, c);
      }
    }
  }

  // ----- Main result ----------------------------------------------------------------------------

  /** With one client per entry, in any interleaving, a delegated call takes effect at one instant `j`
      between its lookup at `m` and its return at `i`: what it returns is the kernel's answer to its own
      request after exactly the requests that the kernel was given before that instant -- except that an
      `lseek` returns the `int` that is congruent to it modulo 2^32, and so the answer itself exactly when it
      fits. */
  lemma ReturnsKernelAnswer(k: Kernel, r: Run, m: nat, i: nat, c: nat, n: nat) returns (j: nat, value: int)
    requires OneClientRun(r) && Answers(k, r) && Exchanges(r, m, i, c, n)
    requires i < |r.actions| && r.actions[i] == Finish(c) && !Terminates(r.states[i].clients[c].call.request.tag)
    ensures m <= j < i && r.actions[j] == Serve(n) && IsCall(r, j)
    ensures c < |r.states[i + 1].clients| && r.states[i + 1].clients[c] == Unlocking(false, Return(value))
    ensures var q := r.states[i].clients[c].call.request;
            var answer := k(Log(r, j), q);
            && CallAt(r, j).request == q
            && (!q.tag.Lseek? ==> value == answer)
            && (q.tag.Lseek? ==> -0x8000_0000 <= value < 0x8000_0000 && (answer - value) % 0x1_0000_0000 == 0)
            && (value == answer <==> (q.tag.Lseek? ==> Fits32(answer)))
  {
    DelegatedCallReturnsItsResult(r, i, c);
    var p := r.states[i].clients[c];
    var x := Done(r.states[i].nodes[n])[p.call.ticket];
    j := ExecutedAt(r, i, n, p.call.ticket, x);
    assert IsCall(r, j);
    value := x.value;
    KeptIs(p.call.request, k(Log(r, j), p.call.request), value);
    LiesWithin(r, m, i, c, n, j, x);
  }

  lemma KeptIs(q: Request, answer: int, value: int)
    requires value == Kept(q, answer)
    ensures !q.tag.Lseek? ==> value == answer
    ensures q.tag.Lseek? ==> -0x8000_0000 <= value < 0x8000_0000 && (answer - value) % 0x1_0000_0000 == 0
    ensures value == answer <==> (q.tag.Lseek? ==> Fits32(answer))
  {
    Trunc32Wraps(answer);
    Trunc32Iff(answer);
  }

  lemma LiesWithin(r: Run, m: nat, i: nat, c: nat, n: nat, j: nat, x: Execution)
    requires Valid(r) && Exchanges(r, m, i, c, n) && j < i && Sent(r.states[i].clients[c].call.at)
    requires Executes(r.states[j], r.actions[j], r.states[j + 1], n, r.states[i].clients[c].call.ticket, x)
    ensures m <= j
  {
    TicketCounts(r, m, i, c, n);
    TalksToLive(r, m, c);
    if j < m {
      DoneGrows(r, j + 1, m, n);
    }
  }
}
