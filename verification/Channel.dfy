/**
 One table entry seen as a channel between application threads and the entry's service thread.

 A client passes a request and takes a reply through a single shared buffer (`ipc.c`).  The two
 directions use different semaphores: `empty`/`full`/`mutex` guard the request, `empty2`/`full2`/
 `mutex2` guard the reply.  Each semaphore operation, each copy and each kernel call is one step, so
 every interleaving of the C code is a sequence of these steps.
 */
module Channel {

  /** The kinds of request that the library treats differently; `Io` is any other. */
  datatype Tag = Io | Lseek | Accept | Close | Shutdown

  datatype Request = Request(tag: Tag, arg: int)

  datatype Reply = Reply(tag: Tag, value: int)

  /** The bytes behind `message`: zeroed at creation, then the last request or reply copied in. */
  datatype Buffer = Zeroed | Asked(request: Request) | Answered(reply: Reply)

  /** One pass of the service loop's `switch`: the request it had and the value it produced. */
  datatype Execution = Execution(request: Request, value: int)

  /** Where the service thread is; each name is the operation it is about to perform.  At `Start` it is
      still to look its own entry up, which is a step of the table and not of the channel. */
  datatype ServicePoint =
    | Start
    | WaitFull | WaitMutex | CopyRequest | PostMutex | PostEmpty
    | Execute
    | WaitEmpty2 | WaitMutex2 | CopyReply | PostMutex2 | PostFull2
    | LoopTest
    | Exited

  /** Where a client is inside `CPART_send_to_thread` and then `CPART_recv_from_thread`. */
  datatype ClientPoint =
    | AwaitEmpty | AwaitMutex | PutRequest | SignalMutex | SignalFull
    | AwaitFull2 | AwaitMutex2 | TakeReply | SignalMutex2 | SignalEmpty2
    | Received

  datatype Service = Service(at: ServicePoint, request: Request, value: int)

  /** The six semaphores of an entry. */
  datatype Gates = Gates(empty: nat, full: nat, mutex: nat, empty2: nat, full2: nat, mutex2: nat)

  /** A client's side of one exchange; `ticket` is a history variable, the index in `done` that the
      execution of this request is to have. */
  datatype Call = Call(at: ClientPoint, request: Request, ticket: nat, reply: Reply)

  /** `sent` and `done` are history variables: the requests copied into the buffer, and the passes
      through the service loop's `switch`, in the order they happened. */
  datatype Entry = Entry(fd: int, file: bool, gates: Gates, buffer: Buffer, service: Service,
                         sent: seq<Request>, done: seq<Execution>)

  /** CLOSE and SHUTDOWN end the service loop. */
  predicate Terminates(tag: Tag) {
    tag.Close? || tag.Shutdown?
  }

  function NewEntry(fd: int, file: bool): Entry {
    Entry(fd, file, Gates(1, 0, 1, 1, 0, 1), Zeroed, Service(Start, Request(Io, 0), 0), [], [])
  }

  function NewCall(q: Request): Call {
    Call(AwaitEmpty, q, 0, Reply(q.tag, 0))
  }

  /** `args_data` and `retval_data` share the offset of `request_type` and nothing else, so reading
      a reply as a request keeps the type and leaves the arguments arbitrary. */
  predicate ReadsAsRequest(b: Buffer, q: Request) {
    match b
    case Zeroed => q.tag == Io
    case Asked(q') => q == q'
    case Answered(r) => q.tag == r.tag
  }

  predicate ReadsAsReply(b: Buffer, r: Reply) {
    match b
    case Zeroed => r.tag == Io
    case Asked(q) => r.tag == q.tag
    case Answered(r') => r == r'
  }

  // ----- Steps --------------------------------------------------------------------------------

  /** The client's next operation does not block. */
  predicate ClientReady(at: ClientPoint, g: Gates) {
    match at
    case AwaitEmpty => g.empty > 0
    case AwaitMutex => g.mutex > 0
    case AwaitFull2 => g.full2 > 0
    case AwaitMutex2 => g.mutex2 > 0
    case Received => false
    case _ => true
  }

  function ClientNext(at: ClientPoint): ClientPoint {
    match at
    case AwaitEmpty => AwaitMutex
    case AwaitMutex => PutRequest
    case PutRequest => SignalMutex
    case SignalMutex => SignalFull
    case SignalFull => AwaitFull2
    case AwaitFull2 => AwaitMutex2
    case AwaitMutex2 => TakeReply
    case TakeReply => SignalMutex2
    case SignalMutex2 => SignalEmpty2
    case SignalEmpty2 => Received
    case Received => Received
  }

  /** `sem_wait` and `sem_post` of a client. */
  function ClientGates(at: ClientPoint, g: Gates): Gates
    requires ClientReady(at, g)
  {
    match at
    case AwaitEmpty => g.(empty := g.empty - 1)
    case AwaitMutex => g.(mutex := g.mutex - 1)
    case SignalMutex => g.(mutex := g.mutex + 1)
    case SignalFull => g.(full := g.full + 1)
    case AwaitFull2 => g.(full2 := g.full2 - 1)
    case AwaitMutex2 => g.(mutex2 := g.mutex2 - 1)
    case SignalMutex2 => g.(mutex2 := g.mutex2 + 1)
    case SignalEmpty2 => g.(empty2 := g.empty2 + 1)
    case _ => g
  }

  predicate ServiceReady(at: ServicePoint, g: Gates) {
    match at
    case WaitFull => g.full > 0
    case WaitMutex => g.mutex > 0
    case WaitEmpty2 => g.empty2 > 0
    case WaitMutex2 => g.mutex2 > 0
    case Start => false
    case Exited => false
    case _ => true
  }

  function ServiceNext(at: ServicePoint, last: bool): ServicePoint {
    match at
    case Start => Start
    case WaitFull => WaitMutex
    case WaitMutex => CopyRequest
    case CopyRequest => PostMutex
    case PostMutex => PostEmpty
    case PostEmpty => Execute
    case Execute => WaitEmpty2
    case WaitEmpty2 => WaitMutex2
    case WaitMutex2 => CopyReply
    case CopyReply => PostMutex2
    case PostMutex2 => PostFull2
    case PostFull2 => LoopTest
    case LoopTest => if last then Exited else WaitFull
    case Exited => Exited
  }

  /** `sem_wait` and `sem_post` of the service thread. */
  function ServiceGates(at: ServicePoint, g: Gates): Gates
    requires ServiceReady(at, g)
  {
    match at
    case WaitFull => g.(full := g.full - 1)
    case WaitMutex => g.(mutex := g.mutex - 1)
    case PostMutex => g.(mutex := g.mutex + 1)
    case PostEmpty => g.(empty := g.empty + 1)
    case WaitEmpty2 => g.(empty2 := g.empty2 - 1)
    case WaitMutex2 => g.(mutex2 := g.mutex2 - 1)
    case PostMutex2 => g.(mutex2 := g.mutex2 + 1)
    case PostFull2 => g.(full2 := g.full2 + 1)
    case _ => g
  }

  /** One step of a client inside the exchange: it may put its request in the buffer, and what it
      takes out of the buffer is whatever the buffer reads as. */
  predicate ClientStep(c: Call, e: Entry, c': Call, e': Entry) {
    && ClientReady(c.at, e.gates)
    && c'.at == ClientNext(c.at)
    && c'.request == c.request
    && c'.ticket == (if c.at.PutRequest? then |e.done| else c.ticket)
    && (if c.at.TakeReply? then ReadsAsReply(e.buffer, c'.reply) else c'.reply == c.reply)
    && e' == (if c.at.PutRequest? then e.(buffer := Asked(c.request), sent := e.sent + [c.request]) else e)
             .(gates := ClientGates(c.at, e.gates))
  }

  /** One step of the service thread.  The kernel may answer an executed request with any value;
      CLOSE and SHUTDOWN are not executed here and leave the previous value in place. */
  predicate ServiceStep(e: Entry, e': Entry) {
    var v, v' := e.service, e'.service;
    && ServiceReady(v.at, e.gates)
    && v'.at == ServiceNext(v.at, Terminates(v.request.tag))
    && (if v.at.CopyRequest? then ReadsAsRequest(e.buffer, v'.request) else v'.request == v.request)
    && ((v.at.Execute? && !Terminates(v.request.tag)) || v'.value == v.value)
    && e' == Entry(
               e.fd, e.file, ServiceGates(v.at, e.gates),
               if v.at.CopyReply? then Answered(Reply(v.request.tag, v.value)) else e.buffer,
               v',
               e.sent,
               if v.at.Execute? then e.done + [Execution(v.request, v'.value)] else e.done)
  }

  // ----- Semaphore tokens ---------------------------------------------------------------------

  /** What a client of the entry is doing with its tokens.  `Claimed` clients have taken `empty` and
      are about to take `mutex`, `Locked` ones are inside it, `Unlocked` ones are about to post
      `full`; the names ending in 2 are the same on the reply side. */
  datatype Role = Idle | Claimed | Locked | Unlocked | Waiting | Claimed2 | Locked2 | Unlocked2

  function RoleOf(at: ClientPoint): Role {
    match at
    case AwaitEmpty => Idle
    case AwaitMutex => Claimed
    case PutRequest => Locked
    case SignalMutex => Locked
    case SignalFull => Unlocked
    case AwaitFull2 => Waiting
    case AwaitMutex2 => Claimed2
    case TakeReply => Locked2
    case SignalMutex2 => Locked2
    case SignalEmpty2 => Unlocked2
    case Received => Idle
  }

  /** The service thread is between its waits and posts on the request side. */
  predicate Fetching(at: ServicePoint) {
    at.WaitMutex? || at.CopyRequest? || at.PostMutex? || at.PostEmpty?
  }

  /** The service thread is between its waits and posts on the reply side. */
  predicate Answering(at: ServicePoint) {
    at.WaitMutex2? || at.CopyReply? || at.PostMutex2? || at.PostFull2?
  }

  /** The service thread has taken a request and has not announced its reply. */
  predicate InFlight(at: ServicePoint) {
    Fetching(at) || at.Execute? || at.WaitEmpty2? || Answering(at)
  }

  function One(b: bool): nat {
    if b then 1 else 0
  }

  /** How many clients of one entry play each role. */
  datatype Census = Census(
    claimed: nat, locked: nat, unlocked: nat,
    waiting: nat,
    claimed2: nat, locked2: nat, unlocked2: nat)

  /** Conservation: each semaphore pair carries one token, each mutex one, and every client waiting
      for a reply is matched by one request or reply in transit. */
  predicate Tokens(g: Gates, at: ServicePoint, k: Census) {
    Balanced(g, k, One(Fetching(at)), One(at.CopyRequest? || at.PostMutex?),
             One(Answering(at)), One(at.CopyReply? || at.PostMutex2?), One(InFlight(at)))
  }

  predicate Balanced(g: Gates, k: Census, fetching: nat, locked: nat, answering: nat, locked2: nat, inFlight: nat) {
    && g.empty + g.full + k.claimed + k.locked + k.unlocked + fetching == 1
    && g.mutex + k.locked + locked == 1
    && g.empty2 + g.full2 + k.claimed2 + k.locked2 + k.unlocked2 + answering == 1
    && g.mutex2 + k.locked2 + locked2 == 1
    && k.waiting == g.full + inFlight + g.full2
  }

  /** One more client in role `r`. */
  function Plus(k: Census, r: Role): Census {
    match r
    case Idle => k
    case Claimed => k.(claimed := k.claimed + 1)
    case Locked => k.(locked := k.locked + 1)
    case Unlocked => k.(unlocked := k.unlocked + 1)
    case Waiting => k.(waiting := k.waiting + 1)
    case Claimed2 => k.(claimed2 := k.claimed2 + 1)
    case Locked2 => k.(locked2 := k.locked2 + 1)
    case Unlocked2 => k.(unlocked2 := k.unlocked2 + 1)
  }

  const NOBODY := Census(0, 0, 0, 0, 0, 0, 0)

  lemma NewEntryTokens(fd: int, file: bool)
    ensures Tokens(NewEntry(fd, file).gates, NewEntry(fd, file).service.at, NOBODY)
  {
  }

  function Alone(at: ClientPoint): Census {
    Plus(NOBODY, RoleOf(at))
  }

  lemma ClientKeepsTokens(at: ClientPoint, g: Gates, v: ServicePoint, k: Census, k': Census)
    requires ClientReady(at, g) && Tokens(g, v, k)
    requires Plus(k', RoleOf(at)) == Plus(k, RoleOf(ClientNext(at)))
    ensures Tokens(ClientGates(at, g), v, k')
  {
    ClientKeepsBalance(at, g, k, k', One(Fetching(v)), One(v.CopyRequest? || v.PostMutex?),
                       One(Answering(v)), One(v.CopyReply? || v.PostMutex2?), One(InFlight(v)));
  }

  /** The token of the request side is taken by a wait and given back by a post. */
  lemma RequestTokenMoves(at: ClientPoint, g: Gates, k: Census, k': Census, f: nat)
    requires ClientReady(at, g) && Plus(k', RoleOf(at)) == Plus(k, RoleOf(ClientNext(at)))
    requires g.empty + g.full + k.claimed + k.locked + k.unlocked + f == 1
    ensures var h := ClientGates(at, g); h.empty + h.full + k'.claimed + k'.locked + k'.unlocked + f == 1
  {
  }

  lemma RequestMutexMoves(at: ClientPoint, g: Gates, k: Census, k': Census, l: nat)
    requires ClientReady(at, g) && Plus(k', RoleOf(at)) == Plus(k, RoleOf(ClientNext(at)))
    requires g.mutex + k.locked + l == 1
    ensures ClientGates(at, g).mutex + k'.locked + l == 1
  {
  }

  lemma ReplyTokenMoves(at: ClientPoint, g: Gates, k: Census, k': Census, a: nat)
    requires ClientReady(at, g) && Plus(k', RoleOf(at)) == Plus(k, RoleOf(ClientNext(at)))
    requires g.empty2 + g.full2 + k.claimed2 + k.locked2 + k.unlocked2 + a == 1
    ensures var h := ClientGates(at, g); h.empty2 + h.full2 + k'.claimed2 + k'.locked2 + k'.unlocked2 + a == 1
  {
  }

  lemma ReplyMutexMoves(at: ClientPoint, g: Gates, k: Census, k': Census, l2: nat)
    requires ClientReady(at, g) && Plus(k', RoleOf(at)) == Plus(k, RoleOf(ClientNext(at)))
    requires g.mutex2 + k.locked2 + l2 == 1
    ensures ClientGates(at, g).mutex2 + k'.locked2 + l2 == 1
  {
  }

  lemma WaitersMove(at: ClientPoint, g: Gates, k: Census, k': Census, i: nat)
    requires ClientReady(at, g) && Plus(k', RoleOf(at)) == Plus(k, RoleOf(ClientNext(at)))
    requires k.waiting == g.full + i + g.full2
    ensures k'.waiting == ClientGates(at, g).full + i + ClientGates(at, g).full2
  {
  }

  lemma ClientKeepsBalance(at: ClientPoint, g: Gates, k: Census, k': Census,
                           f: nat, l: nat, a: nat, l2: nat, i: nat)
    requires ClientReady(at, g) && Balanced(g, k, f, l, a, l2, i)
    requires Plus(k', RoleOf(at)) == Plus(k, RoleOf(ClientNext(at)))
    ensures Balanced(ClientGates(at, g), k', f, l, a, l2, i)
  {
    RequestTokenMoves(at, g, k, k', f);
    RequestMutexMoves(at, g, k, k', l);
    ReplyTokenMoves(at, g, k, k', a);
    ReplyMutexMoves(at, g, k, k', l2);
    WaitersMove(at, g, k, k', i);
  }

  lemma ServiceKeepsTokens(at: ServicePoint, g: Gates, last: bool, k: Census)
    requires ServiceReady(at, g) && Tokens(g, at, k)
    ensures Tokens(ServiceGates(at, g), ServiceNext(at, last), k)
  {
  }

  /** A thread that has passed its first semaphore never blocks on `mutex` or `mutex2`, however many
      clients the entry has. */
  lemma MutexNeverBlocks(g: Gates, at: ServicePoint, k: Census)
    requires Tokens(g, at, k)
    ensures k.claimed > 0 || at.WaitMutex? ==> g.mutex == 1
    ensures k.claimed2 > 0 || at.WaitMutex2? ==> g.mutex2 == 1
  {
  }

  /** A client is never at a copy on the same side as the service thread. */
  lemma SideExcludesService(g: Gates, v: ServicePoint, k: Census, x: ClientPoint)
    requires Tokens(g, v, Plus(k, RoleOf(x)))
    ensures x.PutRequest? ==> !v.CopyRequest?
    ensures x.TakeReply? ==> !v.CopyReply?
  {
  }

  /** Two clients are never at a copy on the same side. */
  lemma SideExcludesClients(g: Gates, v: ServicePoint, k: Census, x: ClientPoint, y: ClientPoint)
    requires Tokens(g, v, Plus(Plus(k, RoleOf(y)), RoleOf(x)))
    ensures x.PutRequest? ==> !y.PutRequest?
    ensures x.TakeReply? ==> !y.TakeReply?
  {
  }

  // ----- What a lone client's exchange carries ------------------------------------------------

  /** No terminating request is in the buffer or at the service thread. */
  predicate Undismissed(e: Entry) {
    !Terminates(BufferTag(e.buffer)) && !Terminates(e.service.request.tag)
  }

  function BufferTag(b: Buffer): Tag {
    match b
    case Zeroed => Io
    case Asked(q) => q.tag
    case Answered(r) => r.tag
  }

  /** The request of `c` has been copied in and not yet executed. */
  predicate Pending(e: Entry, c: Call) {
    || c.at.SignalMutex? || c.at.SignalFull?
    || (c.at.AwaitFull2? && (e.gates.full > 0 || Fetching(e.service.at) || e.service.at.Execute?))
  }

  /** The request of `c` has been executed, by the pass through the loop that its ticket names. */
  predicate Served(e: Entry, c: Call) {
    && |e.done| == c.ticket + 1
    && e.done[c.ticket].request == c.request
  }

  /** The request or reply of `c` is where the control points say it is.  Before it is copied in the
      service thread has not been told to stop; once it is served, a terminating request is the loop's last. */
  predicate Carries(e: Entry, c: Call) {
    var v := e.service;
    if c.at.AwaitEmpty? || c.at.AwaitMutex? || c.at.PutRequest? then Undismissed(e)
    else if Pending(e, c) then
      && |e.done| == c.ticket
      && (if v.at.PostMutex? || v.at.PostEmpty? || v.at.Execute? then v.request == c.request
          else e.buffer == Asked(c.request) && !Terminates(v.request.tag))
    else
      && Served(e, c)
      && v.request == c.request
      && (Terminates(c.request.tag) ==> !v.at.Start? && !v.at.WaitFull?)
      && var r := Reply(c.request.tag, e.done[c.ticket].value);
      match c.at
      case AwaitFull2 =>
        if v.at.WaitEmpty2? || v.at.WaitMutex2? || v.at.CopyReply? then v.value == r.value
        else e.buffer == Answered(r)
      case AwaitMutex2 => e.buffer == Answered(r)
      case TakeReply => e.buffer == Answered(r)
      case _ => c.reply == r
  }

  /** The service thread has a request only while the client waits for its reply, and then neither
      announcement is outstanding. */
  predicate InTurn(at: ClientPoint, g: Gates, v: ServicePoint) {
    if at.AwaitFull2? then g.full + g.full2 + One(InFlight(v)) == 1
    else !InFlight(v) && g.full == 0 && g.full2 == 0
  }

  /** A client and a service thread alone with each other take turns. */
  lemma AloneTakesTurns(at: ClientPoint, g: Gates, v: ServicePoint)
    requires Tokens(g, v, Alone(at))
    ensures InTurn(at, g, v)
  {
    assert Alone(at).waiting == One(at.AwaitFull2?);
  }

  lemma ClientKeepsCarries(c: Call, e: Entry, c': Call, e': Entry)
    requires ClientStep(c, e, c', e') && InTurn(c.at, e.gates, e.service.at) && Carries(e, c)
    ensures Carries(e', c')
  {
  }

  lemma ServiceKeepsCarries(e: Entry, e': Entry, c: Call)
    requires ServiceStep(e, e') && InTurn(c.at, e.gates, e.service.at) && Carries(e, c)
    ensures Carries(e', c)
  {
  }

  /** Every execution is of the request sent in the same position, and at most the last request
      sent is still to be executed. */
  predicate InOrder(e: Entry, pending: bool, q: Request) {
    && |e.sent| == |e.done| + One(pending)
    && (forall i :: 0 <= i < |e.done| ==> e.done[i].request == e.sent[i])
    && (pending ==> e.sent[|e.done|] == q)
  }

  lemma Appended(sent: seq<Request>, q: Request, done: seq<Execution>)
    requires |sent| == |done|
    requires forall i :: 0 <= i < |done| ==> done[i].request == sent[i]
    ensures forall i :: 0 <= i < |done| ==> done[i].request == (sent + [q])[i]
    ensures (sent + [q])[|done|] == q
  {
  }

  lemma PendingFollows(c: Call, e: Entry, c': Call, e': Entry)
    requires ClientStep(c, e, c', e') && InTurn(c.at, e.gates, e.service.at) && !c.at.PutRequest?
    ensures Pending(e', c') == Pending(e, c)
  {
  }

  lemma ClientKeepsOrder(c: Call, e: Entry, c': Call, e': Entry)
    requires ClientStep(c, e, c', e') && InTurn(c.at, e.gates, e.service.at)
    requires InOrder(e, Pending(e, c), c.request)
    ensures InOrder(e', Pending(e', c'), c.request)
  {
    if c.at.PutRequest? {
      assert !Pending(e, c) && Pending(e', c');
      Appended(e.sent, c.request, e.done);
    } else {
      PendingFollows(c, e, c', e');
      assert e'.sent == e.sent && e'.done == e.done;
    }
  }

  lemma ServiceKeepsOrder(e: Entry, e': Entry, c: Call)
    requires ServiceStep(e, e') && InTurn(c.at, e.gates, e.service.at) && Carries(e, c)
    requires InOrder(e, Pending(e, c), c.request)
    ensures InOrder(e', Pending(e', c), c.request)
  {
    if e.service.at.Execute? {
      assert Pending(e, c) && !Pending(e', c);
      assert e'.sent == e.sent && e'.done[..|e.done|] == e.done;
    } else {
      PendingWaits(e, e', c);
      assert e'.sent == e.sent && e'.done == e.done;
    }
  }

  lemma PendingWaits(e: Entry, e': Entry, c: Call)
    requires ServiceStep(e, e') && InTurn(c.at, e.gates, e.service.at) && !e.service.at.Execute?
    ensures Pending(e', c) == Pending(e, c)
  {
  }

  /** Steps of a client that is not closing the entry, and of the service thread, put nothing
      terminating in transit. */
  lemma StepsKeepUndismissed(c: Call, e: Entry, c': Call, e': Entry)
    requires Undismissed(e)
    ensures ClientStep(c, e, c', e') && (!Terminates(c.request.tag) || !c.at.PutRequest?) ==> Undismissed(e')
    ensures ServiceStep(e, e') ==> Undismissed(e')
  {
  }

  // ----- The start of a service thread ----------------------------------------------------------

  /** The entry once its service thread has looked itself up: in its loop, or gone. */
  function Begun(e: Entry, found: bool): Entry {
    e.(service := e.service.(at := if found then WaitFull else Exited))
  }

  lemma BeginKeepsTokens(e: Entry, found: bool, k: Census)
    requires e.service.at.Start? && Tokens(e.gates, Start, k)
    ensures Tokens(e.gates, Begun(e, found).service.at, k)
  {
  }

  lemma BeginKeepsCarries(e: Entry, found: bool, c: Call)
    requires e.service.at.Start?
    ensures Pending(Begun(e, found), c) == Pending(e, c)
    ensures Carries(e, c) ==> Carries(Begun(e, found), c)
  {
  }
}
