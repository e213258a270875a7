/**
 Which calls reach the kernel.  No call that an application makes is dropped: it comes back only after
 the kernel has been called for it, by the service thread or directly.  With one client per entry, the
 calls of the applications and the calls into the kernel correspond one to one.  What a lookup finds,
 what a creating call registers and what `close` leaves behind are stated on the entries themselves.
 */
module DelegationCalls {
  import opened Basics
  import opened Channel
  import opened Delegation
  import opened DelegationInvariant
  import opened DelegationReplies
  import opened DelegationKernel

  // ----- No call is dropped ---------------------------------------------------------------------

  /** The client has still to take the call `q` to the kernel, or to fetch its result. */
  predicate Owes(p: Pc, q: Request) {
    match p
    case Resting => false
    case Locking(job) => job.Delegate? && job.request == q
    case Looking(job) => job.Delegate? && job.request == q
    case Talking(_, _, call) => call.request == q
    case Joining(_, _, x) => x == q
    case Deleting(_, _, x) => x == q
    case Unlocking(_, after) => after == CallOriginal(q)
    case Calling(x) => x == q
  }

  /** In this step client `c` makes the call `q` itself, or takes the reply to it from the service thread;
      nothing but the call itself is enough for `close` and `shutdown`. */
  predicate Discharges(s: State, a: Action, c: nat, q: Request) {
    && c < |s.clients|
    && match a
       case Original(d, _) => d == c && s.clients[c] == Calling(q)
       case Finish(d) =>
         && d == c && s.clients[c].Talking? && s.clients[c].call.request == q && s.clients[c].call.at.Received?
         && !q.tag.Close? && !q.tag.Shutdown?
       case _ => false
  }

  /** Whose step it is. */
  predicate Own(a: Action, c: nat) {
    match a
    case Begin(_, _) => false
    case Serve(_) => false
    case _ => a.c == c
  }

  lemma OthersKeepPc(s: State, a: Action, t: State, c: nat)
    requires Step(s, a, t) && c < |s.clients|
    ensures !Own(a, c) ==> c < |t.clients| && t.clients[c] == s.clients[c]
    ensures Own(a, c) ==> c < |t.clients| && (s.clients[c].Talking? ==> a == Talk(c) || a == Finish(c))
  {
  }

  lemma OwesStep(s: State, a: Action, t: State, c: nat, q: Request)
    requires Step(s, a, t) && c < |s.clients| && Owes(s.clients[c], q)
    ensures c < |t.clients| && (Owes(t.clients[c], q) || Discharges(s, a, c, q))
  {
    if Own(a, c) {
      if a.Look? {
        OwesLook(s, c, a.n, t, q);
      } else {
        OwesOwn(s, a, t, c, q);
      }
    } else {
      OthersKeepPc(s, a, t, c);
    }
  }

  lemma OwesLook(s: State, c: nat, n: nat, t: State, q: Request)
    requires c < |s.clients| && s.clients[c].Looking? && LookStep(s, c, n, t) && Owes(s.clients[c], q)
    ensures c < |t.clients| && Owes(t.clients[c], q)
  {
  }

  lemma OwesOwn(s: State, a: Action, t: State, c: nat, q: Request)
    requires Step(s, a, t) && Own(a, c) && !a.Look? && c < |s.clients| && Owes(s.clients[c], q)
    ensures c < |t.clients| && (Owes(t.clients[c], q) || Discharges(s, a, c, q))
  {
  }

  lemma {:induction false} OwedOrDischarged(r: Run, m: nat, i: nat, c: nat, q: Request) returns (done: bool, j: nat)
    requires Valid(r) && m < i < |r.states|
    requires c < |r.states[m + 1].clients| && Owes(r.states[m + 1].clients[c], q)
    ensures done ==> m < j < i && Discharges(r.states[j], r.actions[j], c, q)
    ensures !done ==> c < |r.states[i].clients| && Owes(r.states[i].clients[c], q)
  {
    if i == m + 1 {
      done, j := false, 0;
    } else {
      done, j := OwedOrDischarged(r, m, i - 1, c, q);
      if !done {
        j := i - 1;
        assert Step(r.states[j], r.actions[j], r.states[i]);
        OwesStep(r.states[j], r.actions[j], r.states[i], c, q);
        done := Discharges(r.states[j], r.actions[j], c, q);
      }
    }
  }

  /** For any number of clients and any schedule: once a call on a descriptor has started, its thread is
      back in the application only if in between it has made that very call, or -- never for `close` and
      `shutdown` -- has taken the service thread's reply to it. */
  lemma NoCallIsDropped(r: Run, m: nat, i: nat, c: nat, fd: int, file: bool, q: Request) returns (j: nat)
    requires Valid(r) && m < i < |r.states| && r.actions[m] == Invoke(c, Delegate(fd, file, q))
    requires c < |r.states[i].clients| && r.states[i].clients[c].Resting?
    ensures m < j < i && Discharges(r.states[j], r.actions[j], c, q)
  {
    assert Step(r.states[m], r.actions[m], r.states[m + 1]);
    var done, k := OwedOrDischarged(r, m, i, c, q);
    j := k;
  }

  // ----- One call, one kernel call --------------------------------------------------------------

  /** The step calls the kernel on behalf of client `c`. */
  predicate Makes(s: State, a: Action, c: nat) {
    && c < |s.clients| && CallsKernel(s, a)
    && match a
       case Invoke(d, _) => d == c
       case Original(d, _) => d == c
       case Serve(n) => s.clients[c].Talking? && s.clients[c].node == n
       case _ => false
  }

  /** What the client is doing concerns the call `q`. */
  predicate Concerns(p: Pc, q: Request) {
    || Owes(p, q)
    || p.Resting?
    || (p.Unlocking? && p.after.Return?)
    || ((p.Locking? || p.Looking?) && p.job.Register? && p.job.request == q)
  }

  /** The service thread has called the kernel for the exchange. */
  predicate Charged(call: Call, e: Entry) {
    !Terminates(call.request.tag) && Sent(call.at) && !Pending(e, call)
  }

  /** The kernel has been called for what the client is doing. */
  predicate Paid(p: Pc, nodes: seq<Slot>) {
    match p
    case Resting => true
    case Locking(job) => job.Register?
    case Looking(job) => job.Register?
    case Talking(n, _, call) => n < |nodes| && nodes[n].Live? && Charged(call, nodes[n].entry)
    case Joining(_, _, _) => false
    case Deleting(_, _, _) => false
    case Unlocking(_, after) => after.Return?
    case Calling(_) => false
  }

  lemma ConcernsStep(s: State, a: Action, t: State, c: nat, q: Request)
    requires Step(s, a, t) && c < |s.clients| && Concerns(s.clients[c], q) && !(a.Invoke? && a.c == c)
    ensures c < |t.clients| && Concerns(t.clients[c], q)
  {
    if Own(a, c) {
      if a.Look? {
        ConcernsLook(s, c, a.n, t, q);
      } else {
        ConcernsOwn(s, a, t, c, q);
      }
    } else {
      OthersKeepPc(s, a, t, c);
    }
  }

  lemma ConcernsLook(s: State, c: nat, n: nat, t: State, q: Request)
    requires c < |s.clients| && s.clients[c].Looking? && LookStep(s, c, n, t) && Concerns(s.clients[c], q)
    ensures c < |t.clients| && Concerns(t.clients[c], q)
  {
  }

  lemma ConcernsOwn(s: State, a: Action, t: State, c: nat, q: Request)
    requires Step(s, a, t) && Own(a, c) && !a.Look? && !a.Invoke? && Concerns(s.clients[c], q)
    ensures c < |t.clients| && Concerns(t.clients[c], q)
  {
  }

  lemma PaidLook(s: State, c: nat, n: nat, t: State)
    requires c < |s.clients| && s.clients[c].Looking? && LookStep(s, c, n, t)
    ensures Paid(t.clients[c], t.nodes) <==> Paid(s.clients[c], s.nodes)
  {
  }

  /** The steps that client `c` takes outside an exchange. */
  lemma PaidOwn(s: State, a: Action, t: State, c: nat)
    requires Step(s, a, t) && c < |s.clients| && Own(a, c) && !a.Invoke? && !a.Talk? && !a.Look?
    requires a.Finish? && !Terminates(s.clients[c].call.request.tag) ==> Paid(s.clients[c], s.nodes)
    ensures Paid(t.clients[c], t.nodes) <==> Paid(s.clients[c], s.nodes) || a.Original?
    ensures a.Original? ==> !Paid(s.clients[c], s.nodes)
  {
  }

  lemma PaidAtFinish(s: State, c: nat)
    requires Core(s) && OneClient(s) && c < |s.clients| && s.clients[c].Talking? && s.clients[c].call.at.Received?
    ensures !Terminates(s.clients[c].call.request.tag) ==> Paid(s.clients[c], s.nodes)
  {
    LoneTokens(s, c);
  }

  lemma PaidTalk(s: State, c: nat, t: State)
    requires Core(s) && OneClient(s) && c < |s.clients| && s.clients[c].Talking? && TalkStep(s, c, t)
    ensures Paid(t.clients[c], t.nodes) == Paid(s.clients[c], s.nodes)
  {
    LoneTokens(s, c);
    var p, p' := s.clients[c], t.clients[c];
    if !p.call.at.PutRequest? {
      PendingFollows(p.call, s.nodes[p.node].entry, p'.call, t.nodes[p.node].entry);
    }
  }

  /** The service thread's one kernel call in an exchange is for the request of that exchange. */
  lemma ServeCharges(e: Entry, e': Entry, call: Call)
    requires ServiceStep(e, e') && InTurn(call.at, e.gates, e.service.at) && Carries(e, call)
    ensures var calls := e.service.at.Execute? && !Terminates(e.service.request.tag);
            && (Charged(call, e') <==> Charged(call, e) || calls)
            && (calls ==> !Charged(call, e) && e.service.request == call.request)
  {
    if !e.service.at.Execute? {
      PendingWaits(e, e', call);
    }
  }

  lemma InExchange(s: State, c: nat)
    requires Core(s) && OneClient(s) && LoneInv(s) && c < |s.clients| && s.clients[c].Talking?
    ensures var p := s.clients[c];
            && p.node < |s.nodes| && s.nodes[p.node].Live?
            && var e := s.nodes[p.node].entry;
               InTurn(p.call.at, e.gates, e.service.at) && Carries(e, p.call)
  {
    LoneTokens(s, c);
    assert Exchange(s, c);
  }

  lemma PaidServe(s: State, c: nat, n: nat, t: State)
    requires c < |s.clients| && s.clients[c].Talking?
    requires n == s.clients[c].node && n < |s.nodes| && s.nodes[n].Live? && ServeStep(s, n, t)
    requires var e, call := s.nodes[n].entry, s.clients[c].call;
             InTurn(call.at, e.gates, e.service.at) && Carries(e, call)
    ensures Paid(t.clients[c], t.nodes) <==> Paid(s.clients[c], s.nodes) || Makes(s, Serve(n), c)
    ensures Makes(s, Serve(n), c) ==>
              !Paid(s.clients[c], s.nodes) && s.nodes[n].entry.service.request == s.clients[c].call.request
  {
    ServeCharges(s.nodes[n].entry, t.nodes[n].entry, s.clients[c].call);
  }

  lemma PaidBegin(s: State, c: nat, n: nat, found: bool, t: State)
    requires c < |s.clients| && s.clients[c].Talking?
    requires n == s.clients[c].node && n < |s.nodes| && s.nodes[n].Live? && BeginStep(s, n, found, t)
    ensures Paid(t.clients[c], t.nodes) == Paid(s.clients[c], s.nodes)
  {
    BeginKeepsCarries(s.nodes[n].entry, found, s.clients[c].call);
  }

  /** Other clients, and service threads of other entries, do not touch the entry `c` is talking to. */
  lemma NodeElsewhere(s: State, a: Action, t: State, c: nat)
    requires Step(s, a, t) && OneClient(s) && c < |s.clients| && s.clients[c].Talking?
    requires RefOk(s.clients[c], s.nodes) && RefOk(t.clients[c], t.nodes) && t.clients[c] == s.clients[c]
    requires a != Talk(c) && a != Serve(s.clients[c].node) && !(a.Begin? && a.n == s.clients[c].node)
    ensures t.nodes[s.clients[c].node] == s.nodes[s.clients[c].node]
  {
    if a.Talk? {
      assert a.c < c || c < a.c;
    }
  }

  lemma OwnMakes(s: State, a: Action, t: State, c: nat, q: Request)
    requires Step(s, a, t) && c < |s.clients| && Own(a, c) && !a.Invoke? && Concerns(s.clients[c], q)
    ensures Makes(s, a, c) <==> a.Original?
    ensures a.Original? ==> KernelCall(s, a, t).request == q
  {
  }

  lemma PaidOwnStep(s: State, a: Action, t: State, c: nat)
    requires Inv(s) && OneClient(s) && LoneInv(s) && Step(s, a, t) && c < |s.clients| && Own(a, c) && !a.Invoke?
    ensures c < |t.clients| && (Paid(t.clients[c], t.nodes) <==> Paid(s.clients[c], s.nodes) || a.Original?)
    ensures a.Original? ==> !Paid(s.clients[c], s.nodes)
  {
    match a {
      case Talk(_) => PaidTalk(s, c, t);
      case Look(_, n) => PaidLook(s, c, n, t);
      case _ =>
        if a.Finish? {
          PaidAtFinish(s, c);
        }
        PaidOwn(s, a, t, c);
    }
  }

  lemma PaidOtherStep(s: State, a: Action, t: State, c: nat)
    requires Inv(s) && OneClient(s) && LoneInv(s) && Step(s, a, t) && c < |s.clients| && !Own(a, c)
    requires c < |t.clients| && t.clients[c] == s.clients[c]
    ensures Paid(t.clients[c], t.nodes) <==> Paid(s.clients[c], s.nodes) || Makes(s, a, c)
    ensures Makes(s, a, c) ==>
              && !Paid(s.clients[c], s.nodes) && s.clients[c].Talking?
              && KernelCall(s, a, t).request == s.clients[c].call.request
  {
    var p := s.clients[c];
    if p.Talking? {
      if a == Serve(p.node) {
        InExchange(s, c);
        PaidServe(s, c, p.node, t);
      } else if a.Begin? && a.n == p.node {
        PaidBegin(s, c, p.node, a.found, t);
      } else {
        InvStep(s, a, t);
        NodeElsewhere(s, a, t, c);
      }
    }
  }

  lemma PaidStep(s: State, a: Action, t: State, c: nat, q: Request)
    requires Inv(s) && OneClient(s) && LoneInv(s) && Step(s, a, t) && c < |s.clients|
    requires Concerns(s.clients[c], q) && !(a.Invoke? && a.c == c)
    ensures c < |t.clients| && (Paid(t.clients[c], t.nodes) <==> Paid(s.clients[c], s.nodes) || Makes(s, a, c))
    ensures Makes(s, a, c) ==> !Paid(s.clients[c], s.nodes) && KernelCall(s, a, t).request == q
  {
    OthersKeepPc(s, a, t, c);
    if Own(a, c) {
      PaidOwnStep(s, a, t, c);
      OwnMakes(s, a, t, c, q);
    } else {
      PaidOtherStep(s, a, t, c);
    }
  }

  /** Step `l` of the run calls the kernel on behalf of client `c`. */
  predicate MadeAt(r: Run, l: nat, c: nat)
    requires l < |r.states| && l < |r.actions|
  {
    Makes(r.states[l], r.actions[l], c)
  }

  /** From its start at step `m` to state `i`, client `c` is inside the one call. */
  predicate Inside(r: Run, m: nat, i: nat, c: nat, job: Job) {
    && m < i < |r.states| && m < |r.actions| && r.actions[m] == Invoke(c, job)
    && forall l {:trigger r.states[l]} :: m < l < i ==> c < |r.states[l].clients| && !r.states[l].clients[c].Resting?
  }

  /** How the client stands with respect to the call `q`: the kernel call is still due, or it is made. */
  datatype Account = Unrelated | Due | Settled

  function AccountOf(s: State, c: nat, q: Request): Account {
    if c >= |s.clients| || !Concerns(s.clients[c], q) then Unrelated
    else if Paid(s.clients[c], s.nodes) then Settled
    else Due
  }

  lemma PaidNext(r: Run, i: nat, c: nat, q: Request)
    requires OneClientRun(r) && 0 < i <= |r.actions|
    requires c < |r.states[i - 1].clients| && !r.states[i - 1].clients[c].Resting?
    requires !AccountOf(r.states[i - 1], c, q).Unrelated?
    ensures AccountOf(r.states[i], c, q) == if MadeAt(r, i - 1, c) then Settled else AccountOf(r.states[i - 1], c, q)
    ensures MadeAt(r, i - 1, c) ==> AccountOf(r.states[i - 1], c, q) == Due && CallAt(r, i - 1).request == q
  {
    InvRun(r, i - 1);
    LoneRun(r, i - 1);
    var s, a, t := r.states[i - 1], r.actions[i - 1], r.states[i];
    assert Step(s, a, t) && OneClient(s);
    ConcernsStep(s, a, t, c, q);
    PaidStep(s, a, t, c, q);
  }

  predicate NoneMade(r: Run, m: nat, i: nat, c: nat)
    requires i <= |r.actions| < |r.states|
  {
    forall l :: m <= l < i ==> !MadeAt(r, l, c)
  }

  /** Of the steps from `m` to `i`, only step `j` can call the kernel for the client. */
  predicate NoneElse(r: Run, m: nat, i: nat, c: nat, j: nat)
    requires i <= |r.actions| < |r.states|
  {
    forall l :: m <= l < i && l != j ==> !MadeAt(r, l, c)
  }

  /** Of the steps from `m` to `i`, exactly step `j` calls the kernel for the client, and with request `q`. */
  predicate OnceMade(r: Run, m: nat, i: nat, c: nat, q: Request, j: nat)
    requires Valid(r) && i <= |r.actions|
  {
    m <= j < i && MadeAt(r, j, c) && CallAt(r, j).request == q && NoneElse(r, m, i, c, j)
  }

  lemma MadeFirst(r: Run, m: nat, c: nat, job: Job)
    requires Valid(r) && m < |r.actions| && r.actions[m] == Invoke(c, job)
    ensures AccountOf(r.states[m + 1], c, job.request) == if job.Register? then Settled else Due
    ensures if job.Register? then OnceMade(r, m, m + 1, c, job.request, m) else NoneMade(r, m, m + 1, c)
  {
    assert Step(r.states[m], r.actions[m], r.states[m + 1]);
  }

  lemma NoneKept(r: Run, m: nat, i: nat, c: nat)
    requires m < i <= |r.actions| < |r.states| && NoneMade(r, m, i - 1, c) && !MadeAt(r, i - 1, c)
    ensures NoneMade(r, m, i, c)
  {
  }

  lemma NoneElseKept(r: Run, m: nat, i: nat, c: nat, j: nat)
    requires m < i <= |r.actions| < |r.states|
    ensures NoneMade(r, m, i - 1, c) ==> NoneElse(r, m, i, c, i - 1)
    ensures NoneElse(r, m, i - 1, c, j) && !MadeAt(r, i - 1, c) ==> NoneElse(r, m, i, c, j)
  {
  }

  lemma OnceStarts(r: Run, m: nat, i: nat, c: nat, q: Request)
    requires Valid(r) && m < i <= |r.actions| && NoneMade(r, m, i - 1, c)
    requires MadeAt(r, i - 1, c) && CallAt(r, i - 1).request == q
    ensures OnceMade(r, m, i, c, q, i - 1)
  {
    NoneElseKept(r, m, i, c, i - 1);
  }

  lemma OnceKept(r: Run, m: nat, i: nat, c: nat, q: Request, j: nat)
    requires Valid(r) && m < i <= |r.actions| && OnceMade(r, m, i - 1, c, q, j) && !MadeAt(r, i - 1, c)
    ensures OnceMade(r, m, i, c, q, j)
  {
    NoneElseKept(r, m, i, c, j);
  }

  /** Which of the steps up to `i` have called the kernel for the client. */
  lemma PaidMore(r: Run, m: nat, i: nat, c: nat, q: Request, j: nat, paid: bool) returns (j': nat)
    requires Valid(r) && m + 1 < i <= |r.actions|
    requires if paid then OnceMade(r, m, i - 1, c, q, j) else NoneMade(r, m, i - 1, c)
    requires MadeAt(r, i - 1, c) ==> !paid && CallAt(r, i - 1).request == q
    ensures if paid || MadeAt(r, i - 1, c) then OnceMade(r, m, i, c, q, j') else NoneMade(r, m, i, c)
  {
    j' := j;
    if MadeAt(r, i - 1, c) {
      OnceStarts(r, m, i, c, q);
      j' := i - 1;
    } else if paid {
      OnceKept(r, m, i, c, q, j);
    } else {
      NoneKept(r, m, i, c);
    }
  }

  lemma StillInside(r: Run, m: nat, i: nat, c: nat, job: Job)
    requires Inside(r, m, i, c, job) && m + 1 < i
    ensures Inside(r, m, i - 1, c, job)
    ensures c < |r.states[i - 1].clients| && !r.states[i - 1].clients[c].Resting?
  {
  }

  /** Once paid, exactly one step so far has called the kernel for the client, and before that none. */
  lemma {:induction false} PaidOnce(r: Run, m: nat, i: nat, c: nat, job: Job) returns (j: nat, paid: bool)
    requires OneClientRun(r) && Inside(r, m, i, c, job)
    ensures AccountOf(r.states[i], c, job.request) == if paid then Settled else Due
    ensures if paid then OnceMade(r, m, i, c, job.request, j) else NoneMade(r, m, i, c)
  {
    if i == m + 1 {
      j, paid := m, job.Register?;
      MadeFirst(r, m, c, job);
    } else {
      StillInside(r, m, i, c, job);
      j, paid := PaidOnce(r, m, i - 1, c, job);
      PaidNext(r, i, c, job.request);
      j := PaidMore(r, m, i, c, job.request, j, paid);
      paid := paid || MadeAt(r, i - 1, c);
    }
  }

  /** With one client per entry, in any interleaving: between the start of a call and its return the kernel
      is called for it exactly once, and with the request of the call.  This holds of delegated and
      direct calls, of `close` and `shutdown`, and of calls that create a descriptor. */
  lemma ExactlyOneKernelCall(r: Run, m: nat, i: nat, c: nat, job: Job) returns (j: nat)
    requires OneClientRun(r) && Inside(r, m, i, c, job)
    requires c < |r.states[i].clients| && r.states[i].clients[c].Resting?
    ensures OnceMade(r, m, i, c, job.request, j)
  {
    var k, paid := PaidOnce(r, m, i, c, job);
    j := k;
  }

  /** Conversely the kernel is never called for nobody, nor once for two clients. */
  lemma EveryKernelCallHasItsCaller(r: Run, j: nat) returns (c: nat)
    requires OneClientRun(r) && j < |r.actions| && IsCall(r, j)
    ensures MadeAt(r, j, c) && forall d :: d != c ==> !MadeAt(r, j, d)
  {
    InvRun(r, j);
    LoneRun(r, j);
    var s := r.states[j];
    assert Step(s, r.actions[j], r.states[j + 1]) && OneClient(s);
    match r.actions[j] {
      case Invoke(d, _) => c := d;
      case Original(d, _) => c := d;
      case Serve(n) => c := ServedClient(s, n);
    }
  }

  lemma ServedClient(s: State, n: nat) returns (c: nat)
    requires Core(s) && OneClient(s) && n < |s.nodes| && s.nodes[n].Live? && InFlight(s.nodes[n].entry.service.at)
    ensures c < |s.clients| && s.clients[c].Talking? && s.clients[c].node == n
    ensures forall d :: 0 <= d < |s.clients| && d != c && s.clients[d].Talking? ==> s.clients[d].node != n
  {
    if Away(s, n) {
      AwayTokens(s, n);
    }
    c :| 0 <= c < |s.clients| && s.clients[c].Talking? && s.clients[c].node == n;
    forall d | 0 <= d < |s.clients| && d != c && s.clients[d].Talking? ensures s.clients[d].node != n {
      assert d < c || c < d;
    }
  }

  // ----- What a creating call returns -----------------------------------------------------------

  /** The client is registering `fd` and will return nothing else. */
  predicate Creates(p: Pc, fd: int) {
    match p
    case Resting => true
    case Locking(job) => job.Register? && job.fd == fd
    case Looking(job) => job.Register? && job.fd == fd
    case Unlocking(_, after) => after == Return(fd)
    case _ => false
  }

  lemma CreatesStep(s: State, a: Action, t: State, c: nat, fd: int)
    requires Step(s, a, t) && c < |s.clients| && Creates(s.clients[c], fd) && !s.clients[c].Resting?
    ensures c < |t.clients| && Creates(t.clients[c], fd)
  {
    if Own(a, c) {
      if a.Look? {
        CreatesLook(s, c, a.n, t, fd);
      }
    } else {
      OthersKeepPc(s, a, t, c);
    }
  }

  lemma CreatesLook(s: State, c: nat, n: nat, t: State, fd: int)
    requires c < |s.clients| && s.clients[c].Looking? && LookStep(s, c, n, t) && Creates(s.clients[c], fd)
    ensures c < |t.clients| && Creates(t.clients[c], fd)
  {
  }

  /** A creating call never returns anything but the descriptor that the kernel has given it, whether or not
      it could be registered. */
  lemma {:induction false} CreatedDescriptorIsReturned(r: Run, m: nat, i: nat, c: nat, job: Job)
    requires Valid(r) && Inside(r, m, i, c, job) && job.Register?
    ensures c < |r.states[i].clients| && Creates(r.states[i].clients[c], job.fd)
  {
    assert Step(r.states[i - 1], r.actions[i - 1], r.states[i]);
    if m + 1 < i {
      StillInside(r, m, i, c, job);
      CreatedDescriptorIsReturned(r, m, i - 1, c, job);
      CreatesStep(r.states[i - 1], r.actions[i - 1], r.states[i], c, job.fd);
    }
  }

  // ----- What close leaves behind ---------------------------------------------------------------

  /** The client is closing node `n`, or the node is gone. */
  predicate Dismissing(p: Pc, nodes: seq<Slot>, n: nat) {
    && n < |nodes|
    && (|| nodes[n].Freed?
        || (p.Talking? && p.node == n && (p.call.request.tag.Close? || p.call.request.tag.Shutdown?))
        || (p.Joining? && p.node == n)
        || (p.Deleting? && p.node == n))
  }

  lemma FreedStays(s: State, a: Action, t: State, n: nat)
    requires Step(s, a, t) && n < |s.nodes| && s.nodes[n].Freed?
    ensures n < |t.nodes| && t.nodes[n].Freed?
  {
  }

  lemma DismissingStep(s: State, a: Action, t: State, c: nat, n: nat)
    requires Inv(s) && Step(s, a, t) && c < |s.clients| && Dismissing(s.clients[c], s.nodes, n)
    ensures c < |t.clients| && Dismissing(t.clients[c], t.nodes, n)
  {
    OthersKeepPc(s, a, t, c);
    NodesStep(s, a, t);
    if s.nodes[n].Freed? {
      FreedStays(s, a, t, n);
    } else if Own(a, c) && a.Delete? {
      DeletesOwn(s, c, a.n, t);
    }
  }

  /** When a `close` or `shutdown` that found an entry has come back, that entry's node has been freed. */
  lemma {:induction false} DismissedEntryIsGone(r: Run, m: nat, i: nat, c: nat)
    requires Valid(r) && m <= i < |r.states| && c < |r.states[m].clients| && r.states[m].clients[c].Talking?
    requires r.states[m].clients[c].call.request.tag.Close? || r.states[m].clients[c].call.request.tag.Shutdown?
    ensures var n := r.states[m].clients[c].node;
            && c < |r.states[i].clients| && n < |r.states[i].nodes|
            && (r.states[i].clients[c].Resting? ==> r.states[i].nodes[n].Freed?)
  {
    DismissingRun(r, m, i, c, r.states[m].clients[c].node);
  }

  lemma {:induction false} DismissingRun(r: Run, m: nat, i: nat, c: nat, n: nat)
    requires Valid(r) && m <= i < |r.states| && c < |r.states[m].clients| && r.states[m].clients[c].Talking?
    requires r.states[m].clients[c].call.request.tag.Close? || r.states[m].clients[c].call.request.tag.Shutdown?
    requires n == r.states[m].clients[c].node
    ensures c < |r.states[i].clients| && Dismissing(r.states[i].clients[c], r.states[i].nodes, n)
  {
    if i == m {
      TalksToLive(r, m, c);
    } else {
      DismissingRun(r, m, i - 1, c, n);
      InvRun(r, i - 1);
      assert Step(r.states[i - 1], r.actions[i - 1], r.states[i]);
      DismissingStep(r.states[i - 1], r.actions[i - 1], r.states[i], c, n);
    }
  }

  // ----- What a lookup finds and a creating call adds -------------------------------------------

  /** A walk from the newest entry reaches node `n` for descriptor `fd`: no newer one, nor it itself, is for
      descriptor 0. */
  predicate Reaches(nodes: seq<Slot>, n: nat, fd: int) {
    && n < |nodes| && nodes[n].Live? && nodes[n].entry.fd == fd
    && forall k :: n <= k < |nodes| && nodes[k].Live? ==> nodes[k].entry.fd != 0
  }

  lemma ReachesIff(nodes: seq<Slot>, n: nat, fd: int)
    ensures Reaches(nodes, n, fd) <==> Bar(nodes) <= n < |nodes| && Has(nodes[n], fd)
  {
    BarIff(nodes, n);
    assert n < |nodes| ==>
      ((forall k :: n <= k < |nodes| && nodes[k].Live? ==> nodes[k].entry.fd != 0)
       <==> !exists k :: n <= k < |nodes| && Has(nodes[k], 0));
  }

  lemma ListedIff(nodes: seq<Slot>, fd: int)
    ensures Listed(nodes, fd) <==> exists m :: Reaches(nodes, m, fd)
  {
    if m: nat :| Bar(nodes) <= m < |nodes| && Has(nodes[m], fd) {
      ReachesIff(nodes, m, fd);
    }
    if m: nat :| Reaches(nodes, m, fd) {
      ReachesIff(nodes, m, fd);
    }
  }

  /** A node that a call on `fd` may be delegated to. */
  predicate Serves(nodes: seq<Slot>, n: nat, fd: int, file: bool, q: Request) {
    && Reaches(nodes, n, fd)
    && (q.tag.Close? || q.tag.Shutdown? || nodes[n].entry.file == file)
  }

  /** A call is delegated if and only if some entry for its descriptor can be reached, of the right kind
      unless it is `close` or `shutdown`; it goes to such an entry, and otherwise to the kernel. */
  lemma LookupIff(s: State, c: nat, n: nat, t: State, fd: int, file: bool, q: Request)
    requires Step(s, Look(c, n), t) && s.clients[c] == Looking(Delegate(fd, file, q))
    ensures c < |t.clients| && t.nodes == s.nodes
    ensures var p := t.clients[c];
            && (p.Talking? <==> exists m :: Serves(s.nodes, m, fd, file, q))
            && (p.Talking? ==> Serves(s.nodes, p.node, fd, file, q) && p.call.request == q)
            && (!p.Talking? ==> p.Unlocking? && Owes(p, q))
  {
    ReachesIff(s.nodes, n, fd);
    assert t.clients[c].Talking? ==> Serves(s.nodes, n, fd, file, q);
    if m: nat :| Serves(s.nodes, m, fd, file, q) {
      ReachesIff(s.nodes, m, fd);
      assert Finds(s.nodes[m], s.clients[c].job);
    }
  }

  /** The live entries. */
  function Alive(nodes: seq<Slot>): set<nat> {
    set n: nat | n < |nodes| && nodes[n].Live?
  }

  lemma {:induction false} LiveCountGrows(nodes: seq<Slot>, x: Slot)
    ensures LiveCount(nodes + [x]) == LiveCount(nodes) + One(x.Live?)
  {
    if nodes == [] {
      assert nodes + [x] == [x];
    } else {
      assert (nodes + [x])[1..] == nodes[1..] + [x];
      LiveCountGrows(nodes[1..], x);
    }
  }

  lemma AliveGrows(nodes: seq<Slot>, last: nat)
    requires |nodes| == last + 1
    ensures |Alive(nodes)| == |Alive(nodes[..last])| + One(nodes[last].Live?)
  {
    var front := Alive(nodes[..last]);
    assert Alive(nodes) == if nodes[last].Live? then front + {last} else front;
  }

  lemma {:induction false} LiveCountIs(nodes: seq<Slot>)
    ensures LiveCount(nodes) == |Alive(nodes)|
  {
    if nodes != [] {
      var last := |nodes| - 1;
      LiveCountIs(nodes[..last]);
      LiveCountGrows(nodes[..last], nodes[last]);
      assert nodes == nodes[..last] + [nodes[last]];
      AliveGrows(nodes, last);
    }
  }

  /** The table gains exactly one entry: for `fd`, of the given kind, reachable unless it is for 0. */
  predicate Gains(nodes: seq<Slot>, nodes': seq<Slot>, fd: int, file: bool) {
    && |nodes'| == |nodes| + 1 && nodes'[..|nodes|] == nodes
    && nodes'[|nodes|].Live? && nodes'[|nodes|].entry.fd == fd && nodes'[|nodes|].entry.file == file
    && (fd != 0 ==> Reaches(nodes', |nodes|, fd))
  }

  lemma Gained(nodes: seq<Slot>, fd: int, file: bool)
    ensures Gains(nodes, nodes + [Live(NewEntry(fd, file))], fd, file)
  {
  }

  /** A creating call adds its descriptor if and only if it is not negative, not reachable already, not a
      file's descriptor 0, and fewer than 65535 service threads exist; otherwise the table stays. */
  lemma RegistersIff(s: State, c: nat, n: nat, t: State, fd: int, file: bool, epoll: bool, q: Request)
    requires Step(s, Look(c, n), t) && s.clients[c] == Looking(Register(fd, file, epoll, q))
    ensures if fd >= 0 && (forall m :: !Reaches(s.nodes, m, fd)) && (fd > 0 || !file) && |Alive(s.nodes)| < 65535
            then Gains(s.nodes, t.nodes, fd, file) else t.nodes == s.nodes
  {
    ListedIff(s.nodes, fd);
    Gained(s.nodes, fd, file);
    LiveCountIs(s.nodes);
  }

  /** A reply adds an entry if and only if it is a positive descriptor that `accept` has returned and that
      cannot be reached already; the entry is for network calls. */
  lemma AcceptsIff(s: State, c: nat, t: State)
    requires Step(s, Finish(c), t)
    ensures var call := s.clients[c].call;
            if call.request.tag.Accept? && call.reply.value > 0 && forall m :: !Reaches(s.nodes, m, call.reply.value)
            then Gains(s.nodes, t.nodes, call.reply.value, false) else t.nodes == s.nodes
  {
    ListedIff(s.nodes, s.clients[c].call.reply.value);
    Gained(s.nodes, s.clients[c].call.reply.value, false);
  }

  /** A service thread finds its own entry and enters its loop if and only if no newer entry is for 0; it
      ends at once if and only if it or a newer entry is for 0.  (For an entry for 0 both may happen.) */
  lemma BeginIff(s: State, n: nat, found: bool, t: State)
    requires n < |s.nodes| && s.nodes[n].Live? && s.nodes[n].entry.service.at.Start?
    ensures Step(s, Begin(n, found), t) <==>
            && (if found then forall k :: n < k < |s.nodes| && s.nodes[k].Live? ==> s.nodes[k].entry.fd != 0
                else exists k :: n <= k < |s.nodes| && s.nodes[k].Live? && s.nodes[k].entry.fd == 0)
            && var e := s.nodes[n].entry;
               t == s.(nodes := s.nodes[n := Live(e.(service := e.service.(at := if found then WaitFull else Exited)))])
  {
    BarIff(s.nodes, n);
    BarIff(s.nodes, n + 1);
    if found {
      assert (forall k :: n < k < |s.nodes| && s.nodes[k].Live? ==> s.nodes[k].entry.fd != 0)
        <==> !exists k :: n + 1 <= k < |s.nodes| && Has(s.nodes[k], 0);
    } else {
      assert (exists k :: n <= k < |s.nodes| && s.nodes[k].Live? && s.nodes[k].entry.fd == 0)
        <==> exists k :: n <= k < |s.nodes| && Has(s.nodes[k], 0);
    }
  }

  /** `close`, `shutdown`, and the creating wrappers but `epoll_create`, wait until nobody holds the table
      lock; all others wait only for a writer. */
  lemma LockModes(s: State, c: nat, t: State)
    requires c < |s.clients| && s.clients[c].Locking?
    ensures var job := s.clients[c].job;
            var alone := if job.Delegate? then job.request.tag.Close? || job.request.tag.Shutdown? else !job.epoll;
            Step(s, Acquire(c), t) <==>
              && s.lock.writer.Nobody? && (alone ==> s.lock.readers == multiset{})
              && t == s.(clients := s.clients[c := Looking(job)],
                         lock := if alone then Lock(multiset{}, By(c))
                                 else Lock(s.lock.readers + multiset{c}, Nobody))
  {
  }
}
