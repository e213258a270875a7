/**
 What one application thread sees of the intercepted calls: a delegated call goes through the service
 thread of its table entry, any other call straight to the kernel.
 */
module Preload {
  import opened Basics
  import FdTable

  datatype Op =
    | Socket | Open | OpenAt | EpollCreate | Accept | Close | Shutdown
    | Bind | Listen | Connect | Send | Recv | SetSockOpt | GetSockOpt | Read | Write | Poll | EpollCtl
    | SendTo | RecvFrom | SendMsg | RecvMsg | GetSockName | GetPeerName | Lseek

  /** `fd` is the descriptor the wrapper looks up (for `poll`, that of the last element); `args` stands
      for the other arguments. */
  datatype Call = Call(op: Op, fd: int, args: seq<int>)

  /** The kernel answers a call by what was asked before. */
  type Kernel = (seq<Call>, Call) -> int

  /** The calls whose C type is wider than an `int`. */
  predicate Wide(op: Op) {
    || op.Lseek? || op.Send? || op.Recv? || op.Read? || op.Write?
    || op.SendTo? || op.RecvFrom? || op.SendMsg? || op.RecvMsg?
  }

  ghost predicate Typed(k: Kernel) {
    forall h: seq<Call>, c: Call :: !Wide(c.op) ==> Fits32(k(h, c))
  }

  // ----- The table as the wrappers see it -------------------------------------------------------

  predicate Listed(t: seq<FdTable.Slot>, fd: int) {
    FdTable.Position(t, fd, {false, true}) < |t|
  }

  /** Whether a wrapper of operation `op` hands the call to a service thread. */
  predicate Delegated(t: seq<FdTable.Slot>, op: Op, fd: int) {
    FdTable.Position(t, fd, {FileOp(op)}) < |t|
  }

  predicate FileOp(op: Op) {
    op.Read? || op.Write? || op.Lseek?
  }

  function Fds(t: seq<FdTable.Slot>): seq<int> {
    seq(|t|, i requires 0 <= i < |t| => t[i].fd)
  }

  /** The lookup here is the one of the linked table. */
  lemma ListedIsFindable(t: seq<FdTable.Slot>, fd: int)
    ensures Listed(t, fd) <==> FdTable.Findable(Fds(t), fd)
  {
    FdTable.FindableIff(Fds(t), fd);
    var at := FdTable.Position(t, fd, {false, true});
    if at < |t| {
      assert Fds(t)[at] == fd && forall j :: 0 <= j <= at ==> !FdTable.Stops(Fds(t)[j]);
    } else if i: nat :| FdTable.FoundAt(Fds(t), fd, i) {
      assert t[i].fd == fd;
      assert forall j :: 0 <= j <= i ==> t[j].fd == Fds(t)[j];
    }
  }

  // ----- One call -------------------------------------------------------------------------------

  /** The table, the calls the kernel has been given, and the read locks never released. */
  datatype State = State(table: seq<FdTable.Slot>, log: seq<Call>, leaked: nat)

  const START := State([], [], 0)

  /** The counter of the table, read as an `int`, allows another service thread. */
  predicate HasRoom(t: seq<FdTable.Slot>) {
    Trunc32(|t|) < MAXTHREAD
  }

  /** Whether the wrapper of `op` waits for the write lock, given the kernel's answer `x`. */
  predicate NeedsWriteLock(op: Op, x: int) {
    op.Close? || op.Shutdown? || op.Socket? || op.OpenAt? || (op.Open? && x >= 3)
  }

  predicate Hangs(k: Kernel, s: State, c: Call) {
    s.leaked > 0 && NeedsWriteLock(c.op, k(s.log, c))
  }

  /** What the application sees of the kernel's answer `x`. */
  function Seen(t: seq<FdTable.Slot>, c: Call, x: int): int {
    if c.op.Lseek? && Delegated(t, c.op, c.fd) then Trunc32(x) else x
  }

  function Result(k: Kernel, s: State, c: Call): Option<int> {
    if Hangs(k, s, c) then None else Some(Seen(s.table, c, k(s.log, c)))
  }

  /** Whether a descriptor `x` just created gets an entry. */
  predicate Registers(t: seq<FdTable.Slot>, c: Call, x: int) {
    match c.op
    case Socket => x >= 0 && !Listed(t, x) && HasRoom(t)
    case EpollCreate => x >= 0 && !Listed(t, x) && HasRoom(t)
    case Open => x >= 3 && !Listed(t, x) && HasRoom(t)
    case OpenAt => x > 0 && !Listed(t, x) && HasRoom(t)
    case Accept => x > 0 && !Listed(t, x) && Delegated(t, c.op, c.fd)
    case _ => false
  }

  function TableAfter(t: seq<FdTable.Slot>, c: Call, x: int): seq<FdTable.Slot> {
    if c.op.Close? || c.op.Shutdown? then
      if Listed(t, c.fd) then FdTable.Without(t, FdTable.Position(t, c.fd, {false, true})) else t
    else if Registers(t, c, x) then
      [FdTable.Slot(x, c.op.Open? || c.op.OpenAt?)] + t
    else
      t
  }

  /** The creation of an epoll descriptor that takes the read lock a second time instead of releasing it. */
  predicate Leaks(t: seq<FdTable.Slot>, c: Call, x: int) {
    c.op.EpollCreate? && (x < 0 || Listed(t, x))
  }

  function After(k: Kernel, s: State, c: Call): State {
    var x := k(s.log, c);
    if Hangs(k, s, c) then
      if c.op.Close? || c.op.Shutdown? then s else s.(log := s.log + [c])
    else
      State(TableAfter(s.table, c, x), s.log + [c], if Leaks(s.table, c, x) then s.leaked + 2 else s.leaked)
  }

  datatype Option<T> = None | Some(value: T)

  // ----- The code -------------------------------------------------------------------------------

  /** A service thread answers in one of two fields and leaves the other as the last request left it. */
  datatype Reply = Reply(value: int, size: int)

  /** The dispatch of the service thread: the field that the kernel's answer is stored in. */
  function Dispatched(op: Op, x: int, last: Reply): Reply {
    match op
    case Send => last.(size := x)
    case Recv => last.(size := x)
    case Read => last.(size := x)
    case Write => last.(size := x)
    case SendTo => last.(size := x)
    case RecvFrom => last.(size := x)
    case SendMsg => last.(size := x)
    case RecvMsg => last.(size := x)
    case _ => last.(value := Trunc32(x))
  }

  /** The field that the wrapper returns. */
  function Returned(op: Op, r: Reply): int {
    match op
    case Read => r.size
    case Write => r.size
    case Send => r.size
    case Recv => r.size
    case SendTo => r.size
    case SendMsg => r.size
    case RecvFrom => r.size
    case RecvMsg => r.size
    case _ => r.value
  }

  /** Both ends use the same field, so a reply carries the kernel's answer whatever the previous
      requests left behind, as far as an `int` can hold it. */
  lemma FieldsAgree(k: Kernel, h: seq<Call>, c: Call, last: Reply)
    requires Typed(k)
    ensures var x := k(h, c);
            Returned(c.op, Dispatched(c.op, x, last)) == if c.op.Lseek? then Trunc32(x) else x
  {
    Trunc32Iff(k(h, c));
  }

  lemma AfterDismissal(k: Kernel, s: State, c: Call)
    requires c.op.Close? || c.op.Shutdown?
    ensures s.leaked > 0 ==> After(k, s, c) == s && Result(k, s, c) == None
    ensures s.leaked == 0 ==>
              && After(k, s, c) == s.(table := TableAfter(s.table, c, k(s.log, c)), log := s.log + [c])
              && Result(k, s, c) == Some(k(s.log, c))
  {
  }

  class Shim {
    const kernel: Kernel
    var table: seq<FdTable.Slot>
    /** The last reply of each entry's service thread. */
    var replies: seq<Reply>
    var log: seq<Call>
    var leaked: nat

    ghost predicate Valid()
      reads this
    {
      Typed(kernel) && |replies| == |table|
    }

    function View(): State
      reads this
    {
      State(table, log, leaked)
    }

    constructor (kernel: Kernel)
      requires Typed(kernel)
      ensures Valid() && this.kernel == kernel && View() == START
    {
      this.kernel, table, replies, log, leaked := kernel, [], [], [], 0;
    }

    /** A call into the kernel. */
    method Original(c: Call) returns (x: int)
      modifies this`log
      ensures x == kernel(old(log), c) && log == old(log) + [c]
    {
      x := kernel(log, c);
      log := log + [c];
    }

    /** Request and reply through the service thread of entry `at`. */
    method Handshake(c: Call, at: nat) returns (r: Reply)
      requires Valid() && at < |table|
      modifies this`log, this`replies
      ensures Valid() && log == old(log) + [c]
      ensures Returned(c.op, r) == if c.op.Lseek? then Trunc32(kernel(old(log), c)) else kernel(old(log), c)
    {
      FieldsAgree(kernel, log, c, replies[at]);
      var x := Original(c);
      r := Dispatched(c.op, x, replies[at]);
      replies := replies[at := r];
    }

    method Add(fd: int, file: bool)
      requires Valid()
      modifies this`table, this`replies
      ensures Valid() && table == [FdTable.Slot(fd, file)] + old(table)
    {
      table, replies := [FdTable.Slot(fd, file)] + table, [Reply(0, 0)] + replies;
    }

    method Delete(fd: int)
      requires Valid()
      modifies this`table, this`replies
      ensures Valid()
      ensures table == if Listed(old(table), fd)
                       then FdTable.Without(old(table), FdTable.Position(old(table), fd, {false, true}))
                       else old(table)
    {
      var at := FdTable.Position(table, fd, {false, true});
      if at < |table| {
        table, replies := FdTable.Without(table, at), FdTable.Without(replies, at);
      }
    }

    /** The wrappers that only forward a call. */
    method Forward(c: Call) returns (x: int)
      requires Valid()
      requires c.op !in {Socket, Open, OpenAt, EpollCreate, Accept, Close, Shutdown}
      modifies this`log, this`replies
      ensures Valid() && View() == After(kernel, old(View()), c)
      ensures Some(x) == Result(kernel, old(View()), c)
      ensures x == kernel(old(log), c) ||
              (c.op.Lseek? && -0x8000_0000 <= x < 0x8000_0000 && (kernel(old(log), c) - x) % 0x1_0000_0000 == 0)
    {
      Trunc32Wraps(kernel(log, c));
      var at := FdTable.Position(table, c.fd, {FileOp(c.op)});
      if at == |table| {
        x := Original(c);
      } else {
        var r := Handshake(c, at);
        x := Returned(c.op, r);
      }
    }

    method AcceptOn(c: Call) returns (x: int)
      requires Valid() && c.op.Accept?
      modifies this`table, this`log, this`replies
      ensures Valid() && View() == After(kernel, old(View()), c)
      ensures Some(x) == Result(kernel, old(View()), c)
    {
      var at := FdTable.Position(table, c.fd, {false});
      if at == |table| {
        x := Original(c);
      } else {
        var r := Handshake(c, at);
        x := r.value;
        if x > 0 && !Listed(table, x) {
          Add(x, false);
        }
      }
    }

    /** `close` and `shutdown`: the service thread is dismissed and its entry deleted before the call. */
    method Dismiss(c: Call) returns (x: Option<int>)
      requires Valid() && (c.op.Close? || c.op.Shutdown?)
      modifies this`table, this`log, this`replies
      ensures Valid() && View() == After(kernel, old(View()), c)
      ensures x == Result(kernel, old(View()), c)
    {
      AfterDismissal(kernel, View(), c);
      if leaked > 0 {
        return None;
      }
      if Listed(table, c.fd) {
        Delete(c.fd);
      }
      var y := Original(c);
      x := Some(y);
    }

    /** `socket`, `open` and `openat`: the call first, then an entry for its result. */
    method Create(c: Call) returns (x: Option<int>)
      requires Valid() && (c.op.Socket? || c.op.Open? || c.op.OpenAt?)
      modifies this`table, this`log, this`replies
      ensures Valid() && View() == After(kernel, old(View()), c)
      ensures x == Result(kernel, old(View()), c)
    {
      var ret := Original(c);
      if c.op.Open? && ret < 3 {
        return Some(ret);
      }
      if leaked > 0 {
        return None;
      }
      if Listed(table, ret) || ret < 0 {
        return Some(ret);
      }
      if (!c.op.OpenAt? || ret > 0) && HasRoom(table) {
        Add(ret, !c.op.Socket?);
      }
      x := Some(ret);
    }

    method CreateEpoll(c: Call) returns (ret: int)
      requires Valid() && c.op.EpollCreate?
      modifies this`table, this`log, this`replies, this`leaked
      ensures Valid() && View() == After(kernel, old(View()), c)
      ensures Some(ret) == Result(kernel, old(View()), c)
    {
      ret := Original(c);
      if Listed(table, ret) || ret < 0 {
        leaked := leaked + 2;
      } else if HasRoom(table) {
        Add(ret, false);
      }
    }

    /** Any intercepted call: no result means that the thread waits for the write lock for ever. */
    method Invoke(c: Call) returns (x: Option<int>)
      requires Valid()
      modifies this
      ensures Valid() && View() == After(kernel, old(View()), c)
      ensures x == Result(kernel, old(View()), c)
    {
      match c.op {
        case Close => x := Dismiss(c);
        case Shutdown => x := Dismiss(c);
        case Socket => x := Create(c);
        case Open => x := Create(c);
        case OpenAt => x := Create(c);
        case EpollCreate => var y := CreateEpoll(c); x := Some(y);
        case Accept => var y := AcceptOn(c); x := Some(y);
        case _ => var y := Forward(c); x := Some(y);
      }
    }
  }

  // ----- Any sequence of calls ------------------------------------------------------------------

  /** The state before call `n`. */
  function Before(k: Kernel, calls: seq<Call>, n: nat): State
    requires n <= |calls|
  {
    if n == 0 then START else After(k, Before(k, calls, n - 1), calls[n - 1])
  }

  /** The answer that call `i` gets when every call goes straight to the kernel. */
  function Direct(k: Kernel, calls: seq<Call>, i: nat): int
    requires i < |calls|
  {
    k(calls[..i], calls[i])
  }

  /** The result of call `i` through the wrappers. */
  function Outcome(k: Kernel, calls: seq<Call>, i: nat): Option<int>
    requires i < |calls|
  {
    Result(k, Before(k, calls, i), calls[i])
  }

  ghost predicate AllReturn(k: Kernel, calls: seq<Call>, n: nat)
    requires n <= |calls|
  {
    forall i :: 0 <= i < n ==> Outcome(k, calls, i).Some?
  }

  /** What a call that returns does to the state. */
  lemma Advance(k: Kernel, calls: seq<Call>, n: nat)
    requires n < |calls| && AllReturn(k, calls, n + 1)
    ensures AllReturn(k, calls, n) && !Hangs(k, Before(k, calls, n), calls[n])
    ensures Before(k, calls, n + 1) == After(k, Before(k, calls, n), calls[n])
    ensures Before(k, calls, n + 1).log == Before(k, calls, n).log + [calls[n]]
    ensures Before(k, calls, n + 1).leaked > 0 <==> Before(k, calls, n).leaked > 0 || LeaksAt(k, calls, n)
    ensures calls[..n + 1] == calls[..n] + [calls[n]]
  {
    assert Outcome(k, calls, n).Some?;
  }

  /** As long as calls return, the kernel is given every call once and in order. */
  lemma {:induction false} KernelSeesEachCallOnce(k: Kernel, calls: seq<Call>, n: nat)
    requires n <= |calls| && AllReturn(k, calls, n)
    ensures Before(k, calls, n).log == calls[..n]
  {
    if n > 0 {
      Advance(k, calls, n - 1);
      KernelSeesEachCallOnce(k, calls, n - 1);
    }
  }

  /** Call `i` is an `lseek` on a descriptor with a service thread. */
  predicate SeeksThroughThread(k: Kernel, calls: seq<Call>, i: nat)
    requires i < |calls|
  {
    calls[i].op.Lseek? && Delegated(Before(k, calls, i).table, Lseek, calls[i].fd)
  }

  /** A call that returns has the result of the direct call, delegated or not, exactly unless it is an
      `lseek` through a service thread whose offset does not fit in an `int`; and then it has the one
      `int` that differs from the offset by a multiple of 2^32. */
  lemma CallsAreTransparent(k: Kernel, calls: seq<Call>, i: nat)
    requires i < |calls| && AllReturn(k, calls, i + 1)
    ensures Outcome(k, calls, i) == Some(Direct(k, calls, i)) <==>
            (SeeksThroughThread(k, calls, i) ==> Fits32(Direct(k, calls, i)))
    ensures SeeksThroughThread(k, calls, i) ==>
              var x, y := Direct(k, calls, i), Outcome(k, calls, i).value;
              -0x8000_0000 <= y < 0x8000_0000 && (x - y) % 0x1_0000_0000 == 0
  {
    OutcomeIs(k, calls, i);
    Trunc32Iff(Direct(k, calls, i));
    Trunc32Wraps(Direct(k, calls, i));
  }

  lemma OutcomeIs(k: Kernel, calls: seq<Call>, i: nat)
    requires i < |calls| && AllReturn(k, calls, i + 1)
    ensures Outcome(k, calls, i) ==
            Some(if SeeksThroughThread(k, calls, i) then Trunc32(Direct(k, calls, i)) else Direct(k, calls, i))
  {
    KernelSeesEachCallOnce(k, calls, i);
    assert Outcome(k, calls, i).Some?;
  }

  predicate LeaksAt(k: Kernel, calls: seq<Call>, i: nat)
    requires i < |calls|
  {
    Leaks(Before(k, calls, i).table, calls[i], k(Before(k, calls, i).log, calls[i]))
  }

  ghost predicate LeakedBefore(k: Kernel, calls: seq<Call>, n: nat)
    requires n <= |calls|
  {
    exists i :: 0 <= i < n && LeaksAt(k, calls, i)
  }

  lemma LeakedOneMore(k: Kernel, calls: seq<Call>, n: nat)
    requires n < |calls|
    ensures LeakedBefore(k, calls, n + 1) <==> LeakedBefore(k, calls, n) || LeaksAt(k, calls, n)
  {
  }

  lemma {:induction false} LeakedIff(k: Kernel, calls: seq<Call>, n: nat)
    requires n <= |calls| && AllReturn(k, calls, n)
    ensures Before(k, calls, n).leaked > 0 <==> LeakedBefore(k, calls, n)
  {
    if n > 0 {
      Advance(k, calls, n - 1);
      LeakedIff(k, calls, n - 1);
      LeakedOneMore(k, calls, n - 1);
    }
  }

  // ----- When descriptors stay distinct ---------------------------------------------------------

  predicate NonNegative(t: seq<FdTable.Slot>) {
    forall i :: 0 <= i < |t| ==> t[i].fd >= 0
  }

  lemma FdsAdd(slot: FdTable.Slot, t: seq<FdTable.Slot>)
    ensures Fds([slot] + t) == [slot.fd] + Fds(t)
  {
  }

  lemma FdsWithout(t: seq<FdTable.Slot>, at: nat)
    requires at < |t|
    ensures Fds(FdTable.Without(t, at)) == FdTable.Without(Fds(t), at)
  {
  }

  lemma DistinctWithout(fds: seq<int>, at: nat)
    requires at < |fds| && Distinct(fds)
    ensures Distinct(FdTable.Without(fds, at))
  {
  }

  /** What one call does to the descriptors listed: it takes one out that is not 0, or puts one in front
      that no lookup finds, or leaves them. */
  lemma FdsAfter(t: seq<FdTable.Slot>, c: Call, x: int)
    ensures var fds, fds' := Fds(t), Fds(TableAfter(t, c, x));
            || fds' == fds
            || (exists at: nat :: at < |fds| && fds[at] != 0 && fds' == FdTable.Without(fds, at))
            || (Registers(t, c, x) && x >= 0 && !Listed(t, x) && fds' == [x] + fds)
    ensures Registers(t, c, x) ==> Fds(TableAfter(t, c, x)) == [x] + Fds(t)
  {
    if c.op.Close? || c.op.Shutdown? {
      var at := FdTable.Position(t, c.fd, {false, true});
      if at < |t| {
        FdsWithout(t, at);
        assert Fds(t)[at] != 0;
      }
    } else if Registers(t, c, x) {
      FdsAdd(FdTable.Slot(x, c.op.Open? || c.op.OpenAt?), t);
    }
  }

  lemma KeepsNonNegative(t: seq<FdTable.Slot>, c: Call, x: int)
    requires NonNegative(t)
    ensures NonNegative(TableAfter(t, c, x))
  {
  }

  /** Descriptor 0, once listed, stays. */
  lemma ZeroStays(t: seq<FdTable.Slot>, c: Call, x: int)
    ensures 0 in Fds(TableAfter(t, c, x)) <==> 0 in Fds(t) || (Registers(t, c, x) && x == 0)
  {
    FdsAfter(t, c, x);
    var fds, fds' := Fds(t), Fds(TableAfter(t, c, x));
    if at: nat :| at < |fds| && fds[at] != 0 && fds' == FdTable.Without(fds, at) {
      InWithout(fds, at, 0);
    }
  }

  lemma InWithout(s: seq<int>, at: nat, x: int)
    requires at < |s| && s[at] != x
    ensures x in FdTable.Without(s, at) <==> x in s
  {
    assert s == s[..at] + [s[at]] + s[at + 1..];
  }

  lemma KeepsDistinct(t: seq<FdTable.Slot>, c: Call, x: int)
    requires Distinct(Fds(t)) && NonNegative(t) && 0 !in Fds(t)
    ensures Distinct(Fds(TableAfter(t, c, x)))
  {
    FdsAfter(t, c, x);
    var fds, fds' := Fds(t), Fds(TableAfter(t, c, x));
    assert forall j :: 0 <= j < |fds| ==> fds[j] == t[j].fd && !FdTable.Stops(fds[j]);
    if at: nat :| at < |fds| && fds' == FdTable.Without(fds, at) {
      DistinctWithout(fds, at);
    } else if !Listed(t, x) {
      ListedIsFindable(t, x);
      FdTable.GuardedAddKeepsDistinct(fds, x);
    }
  }

  /** Whatever is called next and whatever the kernel answers, descriptors stay distinct. */
  ghost predicate SafeFromNow(t: seq<FdTable.Slot>) {
    forall c: Call, x: int :: Distinct(Fds(TableAfter(t, c, x)))
  }

  /** Exactly when the wrappers keep descriptors distinct: in a table with room, whatever is called next and
      whatever the kernel answers, if and only if 0 is not listed. */
  lemma KeepsDistinctIff(t: seq<FdTable.Slot>)
    requires Distinct(Fds(t)) && NonNegative(t) && HasRoom(t)
    ensures SafeFromNow(t) <==> 0 !in Fds(t)
  {
    if 0 !in Fds(t) {
      forall c: Call, x: int ensures Distinct(Fds(TableAfter(t, c, x))) {
        KeepsDistinct(t, c, x);
      }
    } else {
      ZeroAgain(t, Call(Socket, -1, []));
    }
  }

  /** No lookup finds 0, so it can be listed again and again. */
  lemma ZeroAgain(t: seq<FdTable.Slot>, c: Call)
    requires 0 in Fds(t) && HasRoom(t) && c.op.Socket?
    ensures !Distinct(Fds(TableAfter(t, c, 0)))
  {
    assert Registers(t, c, 0);
    FdsAfter(t, c, 0);
    var k :| 0 <= k < |Fds(t)| && Fds(t)[k] == 0;
    var fds := [0] + Fds(t);
    assert fds[0] == fds[k + 1];
  }

  /** Call `i` lists descriptor 0. */
  predicate ListsZero(k: Kernel, calls: seq<Call>, i: nat)
    requires i < |calls|
  {
    var s := Before(k, calls, i);
    k(s.log, calls[i]) == 0 && Registers(s.table, calls[i], 0)
  }

  ghost predicate ZeroBefore(k: Kernel, calls: seq<Call>, n: nat)
    requires n <= |calls|
  {
    exists i :: 0 <= i < n && ListsZero(k, calls, i)
  }

  lemma ZeroOneMore(k: Kernel, calls: seq<Call>, n: nat)
    requires n < |calls|
    ensures ZeroBefore(k, calls, n + 1) <==> ZeroBefore(k, calls, n) || ListsZero(k, calls, n)
  {
  }

  /** What the table of a run looks like, given whether some call has listed 0. */
  ghost predicate Tidy(t: seq<FdTable.Slot>, zero: bool) {
    NonNegative(t) && (0 in Fds(t) <==> zero) && (!zero ==> Distinct(Fds(t)))
  }

  lemma TidyStep(t: seq<FdTable.Slot>, zero: bool, c: Call, x: int)
    requires Tidy(t, zero)
    ensures Tidy(TableAfter(t, c, x), zero || (Registers(t, c, x) && x == 0))
  {
    KeepsNonNegative(t, c, x);
    ZeroStays(t, c, x);
    if !zero {
      KeepsDistinct(t, c, x);
    }
  }

  lemma TidyAfter(k: Kernel, s: State, zero: bool, c: Call)
    requires Tidy(s.table, zero) && !Hangs(k, s, c)
    ensures Tidy(After(k, s, c).table, zero || (k(s.log, c) == 0 && Registers(s.table, c, 0)))
  {
    TidyStep(s.table, zero, c, k(s.log, c));
  }

  lemma {:induction false} RunIsTidy(k: Kernel, calls: seq<Call>, n: nat) returns (s: State, zero: bool)
    requires n <= |calls| && AllReturn(k, calls, n)
    ensures s == Before(k, calls, n) && zero == ZeroBefore(k, calls, n) && Tidy(s.table, zero)
  {
    if n == 0 {
      s, zero := START, false;
    } else {
      Advance(k, calls, n - 1);
      s, zero := RunIsTidy(k, calls, n - 1);
      ZeroOneMore(k, calls, n - 1);
      TidyAfter(k, s, zero, calls[n - 1]);
      s, zero := After(k, s, calls[n - 1]), zero || ListsZero(k, calls, n - 1);
    }
  }

  /** Over any sequence of calls that return: as long as none has listed descriptor 0, no descriptor is
      listed twice. */
  lemma DistinctUntilZero(k: Kernel, calls: seq<Call>, n: nat)
    requires n <= |calls| && AllReturn(k, calls, n) && !ZeroBefore(k, calls, n)
    ensures Distinct(Fds(Before(k, calls, n).table))
  {
    var s, zero := RunIsTidy(k, calls, n);
  }

  /** And from then on a call may list one twice: after any such sequence, with room in a table without
      duplicates, every call that may follow keeps it so if and only if 0 has not been listed. */
  lemma DistinctFromNowIff(k: Kernel, calls: seq<Call>, n: nat)
    requires n <= |calls| && AllReturn(k, calls, n)
    requires HasRoom(Before(k, calls, n).table) && Distinct(Fds(Before(k, calls, n).table))
    ensures SafeFromNow(Before(k, calls, n).table) <==> !ZeroBefore(k, calls, n)
  {
    var s, zero := RunIsTidy(k, calls, n);
    KeepsDistinctIff(s.table);
    assert SafeFromNow(s.table) <==> !zero;
  }

  // ----- What a call does to the table ----------------------------------------------------------

  /** With a leaked read lock only `accept` and `epoll_create` change the table. */
  lemma LeakFreezesTable(k: Kernel, s: State, c: Call)
    requires s.leaked > 0 && After(k, s, c).table != s.table
    ensures c.op.Accept? || c.op.EpollCreate?
  {
  }

  /** The calls that never wait: all but the five that take the write lock, `open` of a standard
      descriptor, and any call while no read lock has leaked. */
  lemma OthersReturn(k: Kernel, s: State, c: Call)
    requires || s.leaked == 0
             || c.op !in {Close, Shutdown, Socket, Open, OpenAt}
             || (c.op.Open? && k(s.log, c) < 3)
    ensures Result(k, s, c).Some?
  {
  }

  /** Whether a successful call creates a descriptor that the wrappers hand to service threads. */
  predicate Serves(t: seq<FdTable.Slot>, c: Call, x: int) {
    || (c.op in {Socket, EpollCreate} && x > 0 && HasRoom(t))
    || (c.op.Open? && x >= 3 && HasRoom(t))
    || (c.op.OpenAt? && x > 0 && HasRoom(t))
    || (c.op.Accept? && x > 0 && Delegated(t, Accept, c.fd))
  }

  /** A descriptor just created is found by the next lookup; a new entry by `read`, `write` and `lseek` if
      the call was `open` or `openat`, and by all other wrappers if it was not. */
  lemma CreatedIsFound(k: Kernel, s: State, c: Call)
    requires Result(k, s, c).Some? && Serves(s.table, c, k(s.log, c))
    ensures var t, x := After(k, s, c).table, k(s.log, c);
            && Listed(t, x)
            && (!Listed(s.table, x) ==>
                  forall op: Op :: Delegated(t, op, x) <==> (op in {Read, Write, Lseek} <==> c.op in {Open, OpenAt}))
  {
    var t, x := After(k, s, c).table, k(s.log, c);
    if !Listed(s.table, x) {
      var slot := FdTable.Slot(x, c.op in {Open, OpenAt});
      assert t == [slot] + s.table && t[0] == slot;
      forall op: Op ensures Delegated(t, op, x) <==> (op in {Read, Write, Lseek} <==> c.op in {Open, OpenAt}) {
        NewInFront(slot, s.table, op);
      }
    }
  }

  lemma NewInFront(slot: FdTable.Slot, t: seq<FdTable.Slot>, op: Op)
    requires !FdTable.Stops(slot.fd) && !Listed(t, slot.fd)
    ensures Delegated([slot] + t, op, slot.fd) <==> (op in {Read, Write, Lseek} <==> slot.file)
  {
    var kinds := {FileOp(op)};
    assert ([slot] + t)[1..] == t;
    var at := FdTable.Position(t, slot.fd, kinds);
    if at < |t| {
      assert FdTable.Matches(t[at], slot.fd, {false, true});
      assert FdTable.Position(t, slot.fd, {false, true}) == |t|;
    }
  }

  /** Nothing else gets an entry: one that is added is for the kernel's answer to a creating call, which no
      lookup found before. */
  lemma OnlyCreatedIsAdded(k: Kernel, s: State, c: Call)
    requires |After(k, s, c).table| > |s.table|
    ensures var t, x := After(k, s, c).table, k(s.log, c);
            && !Listed(s.table, x) && t[1..] == s.table && t[0].fd == x
            && (x == 0 ==> c.op in {Socket, EpollCreate})
            && (x != 0 ==> Serves(s.table, c, x))
  {
  }

  // ----- Kernels that hand out fresh descriptors ------------------------------------------------

  predicate Creates(op: Op) {
    op.Socket? || op.Open? || op.OpenAt? || op.EpollCreate? || op.Accept?
  }

  /** The descriptors open after the calls `h`. */
  function OpenAfter(k: Kernel, h: seq<Call>): set<int> {
    if h == [] then {}
    else
      var front, c := h[..|h| - 1], h[|h| - 1];
      if c.op.Close? then OpenAfter(k, front) - {c.fd}
      else if Creates(c.op) then OpenAfter(k, front) + {k(front, c)}
      else OpenAfter(k, front)
  }

  ghost predicate Fresh(k: Kernel) {
    forall h: seq<Call>, c: Call :: Creates(c.op) && k(h, c) >= 0 ==> k(h, c) !in OpenAfter(k, h)
  }

  /** No entry up to `i` stops a lookup. */
  ghost predicate Visible(t: seq<FdTable.Slot>, i: int) {
    0 <= i < |t| && forall j :: 0 <= j <= i ==> !FdTable.Stops(t[j].fd)
  }

  /** The entries that lookups reach are open and distinct. */
  ghost predicate Tracks(t: seq<FdTable.Slot>, open: set<int>) {
    && (forall i :: Visible(t, i) ==> t[i].fd in open)
    && (forall i, j :: 0 <= i < j && Visible(t, j) ==> t[i].fd != t[j].fd)
  }

  lemma VisibleUnlisted(t: seq<FdTable.Slot>, fd: int, i: int)
    requires Visible(t, i) && !Listed(t, fd)
    ensures t[i].fd != fd
  {
    assert FdTable.Position(t, fd, {false, true}) == |t|;
  }

  lemma TracksAdd(t: seq<FdTable.Slot>, open: set<int>, slot: FdTable.Slot)
    requires Tracks(t, open) && !Listed(t, slot.fd)
    ensures Tracks([slot] + t, open + {slot.fd})
  {
    var r := [slot] + t;
    forall i | Visible(r, i) && i > 0 ensures Visible(t, i - 1) && t[i - 1] == r[i] && r[i].fd != slot.fd {
      assert forall j :: 0 <= j <= i - 1 ==> t[j] == r[j + 1];
      VisibleUnlisted(t, slot.fd, i - 1);
    }
  }

  /** What can be reached after an entry that could be reached is taken out could be reached before. */
  lemma VisibleWithout(t: seq<FdTable.Slot>, at: nat, i: nat)
    requires Visible(t, at) && i < |t| - 1 && Visible(FdTable.Without(t, at), i)
    ensures var m := if i < at then i else i + 1; Visible(t, m) && FdTable.Without(t, at)[i] == t[m]
  {
    var r := FdTable.Without(t, at);
    forall j | 0 <= j <= (if i < at then i else i + 1) ensures !FdTable.Stops(t[j].fd) {
      assert j < at ==> t[j] == r[j];
      assert j > at ==> t[j] == r[j - 1];
    }
  }

  lemma TracksWithout(t: seq<FdTable.Slot>, open: set<int>, fd: int)
    requires Tracks(t, open) && Listed(t, fd)
    ensures Tracks(FdTable.Without(t, FdTable.Position(t, fd, {false, true})), open - {fd})
  {
    var at := FdTable.Position(t, fd, {false, true});
    var r := FdTable.Without(t, at);
    forall i | Visible(r, i) ensures r[i].fd in open - {fd} {
      VisibleWithout(t, at, i);
    }
    forall i, j | 0 <= i < j && Visible(r, j) ensures r[i].fd != r[j].fd {
      VisibleWithout(t, at, i);
      VisibleWithout(t, at, j);
    }
  }

  lemma TracksUnlisted(t: seq<FdTable.Slot>, open: set<int>, fd: int)
    requires Tracks(t, open) && !Listed(t, fd)
    ensures Tracks(t, open - {fd})
  {
    forall i | Visible(t, i) ensures t[i].fd != fd {
      VisibleUnlisted(t, fd, i);
    }
  }

  /** The entries that lookups reach are open and distinct in the state that the kernel's log leads to. */
  ghost predicate InStep(k: Kernel, s: State) {
    Tracks(s.table, OpenAfter(k, s.log))
  }

  lemma OpenGrows(k: Kernel, h: seq<Call>, c: Call)
    ensures OpenAfter(k, h + [c]) ==
            if c.op.Close? then OpenAfter(k, h) - {c.fd}
            else if Creates(c.op) then OpenAfter(k, h) + {k(h, c)}
            else OpenAfter(k, h)
  {
    assert (h + [c])[..|h|] == h;
  }

  lemma TableTracks(t: seq<FdTable.Slot>, open: set<int>, c: Call, x: int)
    requires Tracks(t, open)
    ensures Tracks(TableAfter(t, c, x),
                   if c.op.Close? then open - {c.fd} else if Creates(c.op) then open + {x} else open)
  {
    if c.op.Close? || c.op.Shutdown? {
      if Listed(t, c.fd) {
        TracksWithout(t, open, c.fd);
      } else {
        TracksUnlisted(t, open, c.fd);
      }
    } else if Registers(t, c, x) {
      TracksAdd(t, open, FdTable.Slot(x, c.op.Open? || c.op.OpenAt?));
    }
  }

  lemma StepTracks(k: Kernel, s: State, c: Call)
    requires InStep(k, s) && !Hangs(k, s, c)
    ensures InStep(k, After(k, s, c))
  {
    OpenGrows(k, s.log, c);
    TableTracks(s.table, OpenAfter(k, s.log), c, k(s.log, c));
  }

  lemma {:induction false} RunTracks(k: Kernel, calls: seq<Call>, n: nat) returns (s: State)
    requires n <= |calls| && AllReturn(k, calls, n)
    ensures s == Before(k, calls, n) && InStep(k, s)
  {
    if n == 0 {
      s := START;
    } else {
      Advance(k, calls, n - 1);
      s := RunTracks(k, calls, n - 1);
      StepTracks(k, s, calls[n - 1]);
      s := After(k, s, calls[n - 1]);
    }
  }

  /** After `close` or `shutdown` has returned no lookup finds the descriptor. */
  lemma DismissedIsGone(k: Kernel, calls: seq<Call>, n: nat)
    requires n < |calls| && AllReturn(k, calls, n + 1) && calls[n].op in {Close, Shutdown}
    ensures !Listed(Before(k, calls, n + 1).table, calls[n].fd)
  {
    Advance(k, calls, n);
    var s := RunTracks(k, calls, n);
    if Listed(s.table, calls[n].fd) {
      NoneLeft(s.table, OpenAfter(k, s.log), calls[n].fd);
    }
  }

  lemma NoneLeft(t: seq<FdTable.Slot>, open: set<int>, fd: int)
    requires Tracks(t, open) && Listed(t, fd)
    ensures !Listed(FdTable.Without(t, FdTable.Position(t, fd, {false, true})), fd)
  {
    var at := FdTable.Position(t, fd, {false, true});
    TracksWithout(t, open, fd);
    NotOpenNotListed(FdTable.Without(t, at), open - {fd}, fd);
  }

  lemma NotOpenNotListed(t: seq<FdTable.Slot>, open: set<int>, fd: int)
    requires Tracks(t, open) && fd !in open
    ensures !Listed(t, fd)
  {
    var i := FdTable.Position(t, fd, {false, true});
    assert i < |t| ==> Visible(t, i);
  }

  /** An `epoll_create` that fails. */
  predicate EpollFails(k: Kernel, calls: seq<Call>, i: nat)
    requires i < |calls|
  {
    calls[i].op.EpollCreate? && Direct(k, calls, i) < 0
  }

  ghost predicate EpollFailedBefore(k: Kernel, calls: seq<Call>, n: nat)
    requires n <= |calls|
  {
    exists i :: 0 <= i < n && EpollFails(k, calls, i)
  }

  lemma LeaksOnFailure(k: Kernel, calls: seq<Call>, i: nat)
    requires Fresh(k) && i < |calls| && AllReturn(k, calls, i)
    ensures LeaksAt(k, calls, i) <==> EpollFails(k, calls, i)
  {
    var s := RunTracks(k, calls, i);
    KernelSeesEachCallOnce(k, calls, i);
    var t, x := s.table, Direct(k, calls, i);
    if calls[i].op.EpollCreate? && x >= 0 && Listed(t, x) {
      assert Visible(t, FdTable.Position(t, x, {false, true}));
    }
  }

  /** Among calls whose predecessors returned, those that never return are exactly the calls needing
      the write lock after a failed `epoll_create`. */
  lemma HangsIff(k: Kernel, calls: seq<Call>, n: nat)
    requires Fresh(k) && n < |calls| && AllReturn(k, calls, n)
    ensures Outcome(k, calls, n) == None <==>
            NeedsWriteLock(calls[n].op, Direct(k, calls, n)) && EpollFailedBefore(k, calls, n)
  {
    KernelSeesEachCallOnce(k, calls, n);
    LeakedIff(k, calls, n);
    forall i | 0 <= i < n ensures LeaksAt(k, calls, i) <==> EpollFails(k, calls, i) {
      assert forall j :: 0 <= j < i ==> Outcome(k, calls, j).Some?;
      LeaksOnFailure(k, calls, i);
    }
  }

  /** Call `i` neither seeks through a service thread to an offset that needs more than 32 bits, nor needs
      the write lock after a failed `epoll_create`. */
  ghost predicate Handled(k: Kernel, calls: seq<Call>, i: nat)
    requires i < |calls|
  {
    && (SeeksThroughThread(k, calls, i) ==> Fits32(Direct(k, calls, i)))
    && !(NeedsWriteLock(calls[i].op, Direct(k, calls, i)) && EpollFailedBefore(k, calls, i))
  }

  ghost predicate SameResults(k: Kernel, calls: seq<Call>, n: nat)
    requires n <= |calls|
  {
    forall i {:trigger Outcome(k, calls, i)} :: 0 <= i < n ==> Outcome(k, calls, i) == Some(Direct(k, calls, i))
  }

  ghost predicate AllHandled(k: Kernel, calls: seq<Call>, n: nat)
    requires n <= |calls|
  {
    forall i {:trigger Handled(k, calls, i)} :: 0 <= i < n ==> Handled(k, calls, i)
  }

  lemma OneMoreResult(k: Kernel, calls: seq<Call>, n: nat)
    requires Fresh(k) && n < |calls| && SameResults(k, calls, n)
    ensures Outcome(k, calls, n) == Some(Direct(k, calls, n)) <==> Handled(k, calls, n)
  {
    assert AllReturn(k, calls, n);
    HangsIff(k, calls, n);
    if Outcome(k, calls, n).Some? {
      assert AllReturn(k, calls, n + 1);
      CallsAreTransparent(k, calls, n);
    }
  }

  lemma OneMoreSame(k: Kernel, calls: seq<Call>, n: nat)
    requires n < |calls|
    ensures SameResults(k, calls, n + 1) <==>
            SameResults(k, calls, n) && Outcome(k, calls, n) == Some(Direct(k, calls, n))
    ensures AllHandled(k, calls, n + 1) <==> AllHandled(k, calls, n) && Handled(k, calls, n)
  {
  }

  /** Exactly when a program cannot tell the wrappers from the kernel: every result is the direct one if and
      only if every `lseek` through a service thread fits in an `int` and no call needs the write lock after
      a failed `epoll_create`. */
  lemma {:induction false} ProgramsCannotTell(k: Kernel, calls: seq<Call>, n: nat)
    requires Fresh(k) && n <= |calls|
    ensures SameResults(k, calls, n) <==> AllHandled(k, calls, n)
  {
    if n > 0 {
      ProgramsCannotTell(k, calls, n - 1);
      SameNext(k, calls, n - 1);
    }
  }

  lemma SameNext(k: Kernel, calls: seq<Call>, n: nat)
    requires Fresh(k) && n < |calls| && (SameResults(k, calls, n) <==> AllHandled(k, calls, n))
    ensures SameResults(k, calls, n + 1) <==> AllHandled(k, calls, n + 1)
  {
    OneMoreSame(k, calls, n);
    if SameResults(k, calls, n) {
      OneMoreResult(k, calls, n);
    }
  }

  /** An offset of 2 GiB in an opened file comes back negative. */
  lemma LargeOffsetComesBackNegative(k: Kernel, calls: seq<Call>, path: seq<int>)
    requires calls == [Call(Open, -1, path), Call(Lseek, 3, [])]
    requires k([], calls[0]) == 3 && k([calls[0]], calls[1]) == 0x8000_0000
    ensures Direct(k, calls, 1) == 0x8000_0000 && Outcome(k, calls, 1) == Some(-0x8000_0000)
  {
    var s := Before(k, calls, 1);
    assert Before(k, calls, 0) == START;
    assert s == State([FdTable.Slot(3, true)], [calls[0]], 0);
    assert FdTable.Position(s.table, 3, {true}) == 0;
    assert calls[..1] == [calls[0]];
  }

  /** After a failed `epoll_create` the next `close` never returns, and never reaches the kernel. */
  lemma CloseHangsAfterFailedEpoll(k: Kernel, calls: seq<Call>, fd: int)
    requires calls == [Call(EpollCreate, -1, [0]), Call(Close, fd, [])] && k([], calls[0]) == -1
    ensures Outcome(k, calls, 0) == Some(-1) && Outcome(k, calls, 1) == None
    ensures Before(k, calls, 2).log == [calls[0]]
  {
    assert Before(k, calls, 0) == START;
    assert Before(k, calls, 1) == State([], [calls[0]], 2);
  }

  /** A program that has closed its standard input can list a descriptor twice: once `socket` has returned
      0, no lookup finds the entry behind it, so the `close` of that descriptor leaves its entry and the
      next `open` adds another. */
  lemma ZeroDuplicatesAnEntry(k: Kernel, calls: seq<Call>, path: seq<int>, kind: seq<int>)
    requires calls == [Call(Open, -1, path), Call(Socket, -1, kind), Call(Close, 3, []), Call(Open, -1, path)]
    requires k([], calls[0]) == 3 && k(calls[..1], calls[1]) == 0 && k(calls[..3], calls[3]) == 3
    ensures AllReturn(k, calls, 4)
    ensures Before(k, calls, 4).table == [FdTable.Slot(3, true), FdTable.Slot(0, false), FdTable.Slot(3, true)]
  {
    assert calls[..1] == [calls[0]] && calls[..2] == calls[..1] + [calls[1]] && calls[..3] == calls[..2] + [calls[2]];
    OpenAt3(k, calls[0]);
    SocketAt0(k, calls[..1], calls[1]);
    CloseMisses(k, calls[..2], calls[2]);
    OpenAgain(k, calls[..3], calls[3]);
    assert Before(k, calls, 1) == After(k, Before(k, calls, 0), calls[0]);
    assert Before(k, calls, 2) == After(k, Before(k, calls, 1), calls[1]);
    assert Before(k, calls, 3) == After(k, Before(k, calls, 2), calls[2]);
  }

  const FILE3 := FdTable.Slot(3, true)
  const SOCKET0 := FdTable.Slot(0, false)

  lemma OpenAt3(k: Kernel, c: Call)
    requires c.op.Open? && k([], c) == 3
    ensures !Hangs(k, START, c) && After(k, START, c) == State([FILE3], [c], 0)
  {
  }

  lemma SocketAt0(k: Kernel, h: seq<Call>, c: Call)
    requires c.op.Socket? && k(h, c) == 0
    ensures var s := State([FILE3], h, 0); !Hangs(k, s, c) && After(k, s, c) == State([SOCKET0, FILE3], h + [c], 0)
  {
  }

  lemma CloseMisses(k: Kernel, h: seq<Call>, c: Call)
    requires c.op.Close?
    ensures var s := State([SOCKET0, FILE3], h, 0);
            !Hangs(k, s, c) && After(k, s, c) == State([SOCKET0, FILE3], h + [c], 0)
  {
  }

  lemma OpenAgain(k: Kernel, h: seq<Call>, c: Call)
    requires c.op.Open? && k(h, c) == 3
    ensures var s := State([SOCKET0, FILE3], h, 0);
            !Hangs(k, s, c) && After(k, s, c).table == [FILE3, SOCKET0, FILE3]
  {
  }
}
