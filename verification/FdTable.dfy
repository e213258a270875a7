/**
 The descriptor table: a doubly linked list of nodes between two sentinels, with a counter, and the
 pool of spare nodes that entries can be moved to and from.
 */
module FdTable {
  import opened Basics

  const HEADER_FD := -10
  const TAIL_FD := -11
  const NEW_FD := -12
  const WORD := 0x1_0000_0000

  class Node {
    var fd: int
    var tid: int
    var pid: int
    var file: bool
    var next: Node?
    var prev: Node?

    constructor (fd: int, pid: int)
      ensures this.fd == fd && this.pid == pid && tid == 0 && !file && next == null && prev == null
    {
      this.fd, this.pid, tid, file, next, prev := fd, pid, 0, false, null, null;
    }
  }

  // ----- Sequences of nodes ---------------------------------------------------------------------

  /** Neighbours in `s` point at each other. */
  ghost predicate Linked(s: seq<Node>)
    reads s
  {
    forall i {:trigger s[i].next} {:trigger s[i + 1].prev} :: 0 <= i < |s| - 1 ==>
      s[i].next == s[i + 1] && s[i + 1].prev == s[i]
  }

  /** A list from `head` to `tail` with `tail.next == null`. */
  ghost predicate List(head: Node, s: seq<Node>, tail: Node)
    reads s
  {
    |s| >= 2 && s[0] == head && s[|s| - 1] == tail && tail.next == null && Distinct(s) && Linked(s)
  }

  function Without<T>(s: seq<T>, k: nat): seq<T>
    requires k < |s|
  {
    s[..k] + s[k + 1..]
  }

  function WithSecond<T>(s: seq<T>, x: T): seq<T>
    requires |s| > 0
  {
    [s[0], x] + s[1..]
  }

  ghost predicate Apart<T>(s: seq<T>, t: seq<T>) {
    forall i :: 0 <= i < |s| ==> s[i] !in t
  }

  /** The list without its sentinels. */
  function Inner<T>(s: seq<T>): seq<T>
    requires |s| >= 2
  {
    s[1..|s| - 1]
  }

  lemma InnerWithSecond<T>(s: seq<T>, x: T)
    requires |s| >= 2
    ensures Inner(WithSecond(s, x)) == [x] + Inner(s)
    ensures multiset(WithSecond(s, x)) == multiset(s) + multiset{x}
  {
    assert s == [s[0]] + s[1..];
    assert WithSecond(s, x) == [s[0]] + [x] + s[1..];
  }

  lemma InnerWithout<T>(s: seq<T>, k: nat)
    requires 0 < k < |s| - 1
    ensures Inner(Without(s, k)) == Without(Inner(s), k - 1)
    ensures multiset(s) == multiset(Without(s, k)) + multiset{s[k]}
  {
    assert s == s[..k] + [s[k]] + s[k + 1..];
    assert Inner(Without(s, k)) == s[1..k] + s[k + 1..|s| - 1] == Without(Inner(s), k - 1);
  }

  lemma WithoutDrops<T>(s: seq<T>, k: nat)
    requires k < |s| && Distinct(s)
    ensures s[k] !in Without(s, k)
  {
  }

  function Backwards<T>(s: seq<T>): seq<T> {
    if s == [] then [] else Backwards(s[1..]) + [s[0]]
  }

  lemma {:induction false} BackwardsAppend<T>(s: seq<T>, x: T)
    ensures Backwards(s + [x]) == [x] + Backwards(s)
  {
    if s == [] {
      assert s + [x] == [x];
    } else {
      assert (s + [x])[1..] == s[1..] + [x];
      BackwardsAppend(s[1..], x);
    }
  }

  /** Listing backwards twice gives the list: the two traversals are mutual reverses. */
  lemma {:induction false} BackwardsTwice<T>(s: seq<T>)
    ensures Backwards(Backwards(s)) == s
  {
    if s != [] {
      BackwardsAppend(Backwards(s[1..]), s[0]);
      BackwardsTwice(s[1..]);
    }
  }

  // ----- Looking descriptors up -----------------------------------------------------------------

  /** The lookup loops stop at the tail's descriptor and, because they compare with NULL, at 0. */
  predicate Stops(fd: int) {
    fd == TAIL_FD || fd == 0
  }

  /** Position `i` is the first occurrence of `fd`, and no entry up to it stops the walk. */
  predicate FoundAt(fds: seq<int>, fd: int, i: nat) {
    && i < |fds| && fds[i] == fd
    && (forall j :: 0 <= j <= i ==> !Stops(fds[j]))
    && (forall j :: 0 <= j < i ==> fds[j] != fd)
  }

  ghost predicate Findable(fds: seq<int>, fd: int) {
    exists i: nat :: FoundAt(fds, fd, i)
  }

  /** Lookup succeeds exactly when some entry has the descriptor and nothing up to it stops the walk. */
  lemma {:induction false} FindableIff(fds: seq<int>, fd: int)
    ensures Findable(fds, fd) <==>
            exists i :: 0 <= i < |fds| && fds[i] == fd && forall j :: 0 <= j <= i ==> !Stops(fds[j])
  {
    if exists i :: 0 <= i < |fds| && fds[i] == fd && forall j :: 0 <= j <= i ==> !Stops(fds[j]) {
      var i :| 0 <= i < |fds| && fds[i] == fd && forall j :: 0 <= j <= i ==> !Stops(fds[j]);
      var k := FirstOf(fds, fd, i);
      assert FoundAt(fds, fd, k);
    }
  }

  lemma {:induction false} FirstOf(fds: seq<int>, fd: int, i: nat) returns (k: nat)
    requires i < |fds| && fds[i] == fd
    ensures k <= i && fds[k] == fd && forall j :: 0 <= j < k ==> fds[j] != fd
  {
    if j :| 0 <= j < i && fds[j] == fd {
      k := FirstOf(fds, fd, j);
    } else {
      k := i;
    }
  }

  // ----- Looking up by kind ----------------------------------------------------------------------

  datatype Slot = Slot(fd: int, file: bool)

  predicate Matches(x: Slot, fd: int, kinds: set<bool>) {
    x.fd == fd && x.file in kinds
  }

  /** The position at which a lookup of `fd` among entries of some kinds stops with a match, or the length
      of the table. */
  function Position(t: seq<Slot>, fd: int, kinds: set<bool>): (at: nat)
    ensures at <= |t|
    ensures at < |t| ==> Matches(t[at], fd, kinds) && forall j :: 0 <= j <= at ==> !Stops(t[j].fd)
    ensures forall i :: 0 <= i < at && Matches(t[i], fd, kinds) ==> exists j :: 0 <= j <= i && Stops(t[j].fd)
  {
    if t == [] then 0
    else if Stops(t[0].fd) then |t|
    else if Matches(t[0], fd, kinds) then 0
    else
      var rest := Position(t[1..], fd, kinds);
      assert forall i :: 1 <= i < |t| ==> t[i] == t[1..][i - 1];
      1 + rest
  }

  /** A walk that has passed `at` entries without a match goes on as if they were not there. */
  lemma {:induction false} PositionPasses(t: seq<Slot>, fd: int, kinds: set<bool>, at: nat)
    requires at <= |t| && forall j :: 0 <= j < at ==> !Stops(t[j].fd) && !Matches(t[j], fd, kinds)
    ensures Position(t, fd, kinds) == at + Position(t[at..], fd, kinds)
  {
    if at > 0 {
      assert t[1..][at - 1..] == t[at..];
      PositionPasses(t[1..], fd, kinds, at - 1);
    } else {
      assert t[0..] == t;
    }
  }

  lemma PositionFound(t: seq<Slot>, fd: int, kinds: set<bool>, at: nat)
    requires at < |t| && forall j :: 0 <= j < at ==> !Stops(t[j].fd) && !Matches(t[j], fd, kinds)
    requires !Stops(t[at].fd) && Matches(t[at], fd, kinds)
    ensures Position(t, fd, kinds) == at
  {
    PositionPasses(t, fd, kinds, at);
    assert t[at..][0] == t[at];
  }

  lemma PositionMissed(t: seq<Slot>, fd: int, kinds: set<bool>, at: nat)
    requires at <= |t| && forall j :: 0 <= j < at ==> !Stops(t[j].fd) && !Matches(t[j], fd, kinds)
    requires at < |t| ==> Stops(t[at].fd)
    ensures Position(t, fd, kinds) == |t|
  {
    PositionPasses(t, fd, kinds, at);
    assert at < |t| ==> t[at..][0] == t[at];
  }

  /** When no entry stops the walk, lookup succeeds exactly for the descriptors in the table. */
  lemma FindableWithoutStops(fds: seq<int>, fd: int)
    requires forall j :: 0 <= j < |fds| ==> fds[j] != 0 && fds[j] != -11
    ensures Findable(fds, fd) <==> fd in fds
  {
    FindableIff(fds, fd);
  }

  /** Adding a descriptor that lookup does not find keeps descriptors distinct, provided nothing in the
      table stops the walk. */
  lemma GuardedAddKeepsDistinct(fds: seq<int>, fd: int)
    requires Distinct(fds) && forall j :: 0 <= j < |fds| ==> fds[j] != 0 && fds[j] != -11
    requires !Findable(fds, fd)
    ensures Distinct([fd] + fds)
  {
    FindableWithoutStops(fds, fd);
  }

  /** An entry for descriptor 0 hides every entry behind it, so a hidden descriptor can be added twice. */
  lemma ZeroHidesEntries(front: seq<int>, behind: seq<int>, fd: int)
    requires fd !in front
    ensures !Findable(front + [0] + behind, fd)
    ensures fd in behind ==> !Distinct([fd] + (front + [0] + behind))
  {
    var fds := front + [0] + behind;
    assert forall j :: 0 <= j < |front| ==> fds[j] == front[j];
    assert Stops(fds[|front|]);
    if fd in behind {
      var k :| 0 <= k < |behind| && behind[k] == fd;
      var all := [fd] + fds;
      assert all[0] == all[1 + |front| + 1 + k];
    }
  }

  /** The two sentinels of an empty list. */
  method NewList(headFd: int, tailFd: int) returns (head: Node, tail: Node)
    ensures fresh(head) && fresh(tail) && List(head, [head, tail], tail)
    ensures head.fd == headFd && tail.fd == tailFd
  {
    head := new Node(headFd, 0);
    tail := new Node(tailFd, 0);
    head.next, head.prev, tail.next, tail.prev := tail, tail, null, head;
  }

  /** Putting `n` right behind the head. */
  method Insert(head: Node, ghost s: seq<Node>, ghost tail: Node, n: Node)
    requires List(head, s, tail) && n !in s
    modifies n`next, n`prev, s`next, s`prev
    ensures List(head, WithSecond(s, n), tail)
  {
    var second := head.next;
    assert second == s[1];
    n.prev := head;
    n.next := second;
    head.next := n;
    second.prev := n;
    ghost var r := WithSecond(s, n);
    assert r[0] == head && r[1] == n && r[2] == second;
    forall i | 0 <= i < |r| - 1 ensures r[i].next == r[i + 1] && r[i + 1].prev == r[i] {
      if i >= 2 {
        assert r[i] == s[i - 1] && r[i + 1] == s[i];
      }
    }
  }

  /** Taking the node at position `k` out; its own links are left as they are. */
  method Unlink(ghost head: Node, ghost s: seq<Node>, ghost tail: Node, n: Node, ghost k: nat)
    requires List(head, s, tail) && 0 < k < |s| - 1 && n == s[k]
    modifies s`next, s`prev
    ensures List(head, Without(s, k), tail)
  {
    ghost var r := Without(s, k);
    assert s[k - 1].next == n && s[k].next == s[k + 1];
    var nextNode, prevNode := n.next, n.prev;
    assert prevNode == s[k - 1] && nextNode == s[k + 1];
    prevNode.next := nextNode;
    nextNode.prev := prevNode;
    forall i | 0 <= i < |r| - 1 ensures r[i].next == r[i + 1] && r[i + 1].prev == r[i] {
      assert r[i] == s[if i < k then i else i + 1] && r[i + 1] == s[if i + 1 < k then i + 1 else i + 2];
    }
  }

  // ----- The counter ----------------------------------------------------------------------------

  /** `++` and `--` on an unsigned counter. */
  function Increment(count: int): int {
    if count == WORD - 1 then 0 else count + 1
  }

  function Decrement(count: int): int {
    if count == 0 then WORD - 1 else count - 1
  }

  /** Modulo the width of the counter, `count` is short of the table's length by the nodes taken back
      from the pool. */
  ghost predicate Counted(count: int, taken: int, length: int) {
    0 <= count < WORD && exists turns: int :: count + taken - length == turns * WORD
  }

  lemma CountedUp(count: int, taken: int, length: int)
    requires Counted(count, taken, length)
    ensures Counted(Increment(count), taken, length + 1)
  {
    var turns: int :| count + taken - length == turns * WORD;
    var turns' := if count + 1 == WORD then turns - 1 else turns;
    assert Increment(count) + taken - (length + 1) == turns' * WORD;
  }

  lemma CountedDown(count: int, taken: int, length: int)
    requires Counted(count, taken, length)
    ensures Counted(Decrement(count), taken, length - 1)
  {
    var turns: int :| count + taken - length == turns * WORD;
    var turns' := if count == 0 then turns + 1 else turns;
    assert Decrement(count) + taken - (length - 1) == turns' * WORD;
  }

  lemma CountedTaken(count: int, taken: int, length: int)
    requires Counted(count, taken, length)
    ensures Counted(count, taken + 1, length + 1)
  {
    var turns: int :| count + taken - length == turns * WORD;
    assert count + (taken + 1) - (length + 1) == turns * WORD;
  }

  /** As long as nothing was taken from the pool and the table is not too long, the counter is exactly
      the length. */
  lemma CountedExactly(count: int, length: nat)
    requires Counted(count, 0, length) && length < WORD
    ensures count == length
  {
  }

  // ----- The table ------------------------------------------------------------------------------

  class Table {
    const header: Node
    const tail: Node
    const poolHeader: Node
    const poolTail: Node
    var count: int

    /** The nodes of the table and of the pool in list order, sentinels included. */
    ghost var ring: seq<Node>
    ghost var spare: seq<Node>
    /** How many nodes have been taken back from the pool. */
    ghost var taken: nat

    ghost predicate Valid()
      reads this, ring, spare
    {
      && List(header, ring, tail) && List(poolHeader, spare, poolTail)
      && Apart(ring, spare)
      && tail.fd == TAIL_FD
      && Counted(count, taken, |ring| - 2)
    }

    ghost function Nodes(): seq<Node>
      requires |ring| >= 2
      reads this
    {
      Inner(ring)
    }

    ghost function Fds(): seq<int>
      requires |ring| >= 2
      reads this, ring
    {
      seq(|ring| - 2, i requires 0 <= i < |ring| - 2 reads this, ring => ring[i + 1].fd)
    }

    constructor ()
      ensures Valid() && Nodes() == [] && spare == [poolHeader, poolTail] && count == 0 && taken == 0
      ensures fresh(ring) && fresh(spare)
    {
      var h, t := NewList(HEADER_FD, TAIL_FD);
      var ph, pt := NewList(HEADER_FD, HEADER_FD);
      header, tail, poolHeader, poolTail := h, t, ph, pt;
      count, taken := 0, 0;
      assert 0 + 0 - 0 == 0 * WORD;
      ring, spare := [h, t], [ph, pt];
    }

    /** `fdtable_add`: a new node right behind the header. */
    method Add(pid: int) returns (n: Node)
      requires Valid()
      modifies this`count, this`ring, ring`next, ring`prev
      ensures Valid() && fresh(n) && n.fd == NEW_FD && n.pid == pid
      ensures ring == WithSecond(old(ring), n) && Nodes() == [n] + old(Nodes())
      ensures count == Increment(old(count))
    {
      n := new Node(NEW_FD, pid);
      Push(n);
    }

    /** Puts a node that is in neither list at the front of the table, and counts it. */
    method Push(n: Node)
      requires Valid() && n !in ring && n !in spare
      modifies this`count, this`ring, n`next, n`prev, ring`next, ring`prev
      ensures Valid() && ring == WithSecond(old(ring), n) && Nodes() == [n] + old(Nodes())
      ensures count == Increment(old(count))
    {
      ghost var was := ring;
      CountedUp(count, taken, |was| - 2);
      InnerWithSecond(was, n);
      count, ring := Increment(count), WithSecond(was, n);
      Insert(header, was, tail, n);
    }

    /** The lookup loop; `at` is the position of the node found. */
    method Find(fd: int) returns (n: Node?, ghost at: nat)
      requires Valid()
      ensures n == null <==> !Findable(Fds(), fd)
      ensures n != null ==> FoundAt(Fds(), fd, at) && n == Nodes()[at]
    {
      at := 0;
      var tmp := header.next;
      assert tmp == ring[1];
      while !Stops(tmp.fd)
        invariant at + 1 < |ring| && tmp == ring[at + 1]
        invariant forall j :: 0 <= j < at ==> !Stops(Fds()[j]) && Fds()[j] != fd
        decreases |ring| - at
      {
        assert at + 1 < |ring| - 1;
        if tmp.fd == fd {
          assert FoundAt(Fds(), fd, at);
          return tmp, at;
        }
        tmp, at := tmp.next, at + 1;
      }
      n := null;
      assert at < |Fds()| ==> Stops(Fds()[at]);
    }

    ghost function Slots(): seq<Slot>
      requires |ring| >= 2
      reads this, ring
    {
      seq(|ring| - 2, i requires 0 <= i < |ring| - 2 reads this, ring => Slot(ring[i + 1].fd, ring[i + 1].file))
    }

    /** The same walk, also comparing the kind of descriptor. */
    method FindKind(fd: int, file: bool) returns (n: Node?)
      requires Valid()
      ensures var at := Position(Slots(), fd, {file});
              && (n == null <==> at == |Slots()|)
              && (n != null ==> n == Nodes()[at])
    {
      ghost var at := 0;
      var tmp := header.next;
      assert tmp == ring[1];
      while !Stops(tmp.fd)
        invariant 0 <= at && at + 1 < |ring| && tmp == ring[at + 1]
        invariant forall j :: 0 <= j < at ==> !Stops(Slots()[j].fd) && !Matches(Slots()[j], fd, {file})
        decreases |ring| - at
      {
        assert at + 1 < |ring| - 1;
        if tmp.fd == fd && tmp.file == file {
          PositionFound(Slots(), fd, {file}, at);
          return tmp;
        }
        tmp, at := tmp.next, at + 1;
      }
      n := null;
      PositionMissed(Slots(), fd, {file}, at);
    }

    /** Position `i` is the first entry of the thread, and no entry up to it stops the walk. */
    ghost predicate ThreadAt(tid: int, i: nat)
      requires |ring| >= 2
      reads this, ring
    {
      && i < |Nodes()| && Nodes()[i].tid == tid
      && (forall j :: 0 <= j <= i ==> !Stops(Nodes()[j].fd))
      && (forall j :: 0 <= j < i ==> Nodes()[j].tid != tid)
    }

    /** The walk by thread, which a service thread uses to find its own entry. */
    method FindThread(tid: int) returns (n: Node?, ghost at: nat)
      requires Valid()
      ensures n == null <==> forall i: nat :: !ThreadAt(tid, i)
      ensures n != null ==> ThreadAt(tid, at) && n == Nodes()[at]
    {
      at := 0;
      var tmp := header.next;
      assert tmp == ring[1];
      while !Stops(tmp.fd)
        invariant at + 1 < |ring| && tmp == ring[at + 1]
        invariant forall j :: 0 <= j < at ==> !Stops(Nodes()[j].fd) && Nodes()[j].tid != tid
        decreases |ring| - at
      {
        assert at + 1 < |ring| - 1;
        if tmp.tid == tid {
          assert ThreadAt(tid, at) && tmp == Nodes()[at];
          return tmp, at;
        }
        tmp, at := tmp.next, at + 1;
      }
      n := null;
      assert at < |Nodes()| ==> Stops(Nodes()[at].fd);
    }

    /** Takes the entry at position `at` out of the table; its own links are left as they are. */
    method Remove(n: Node, ghost at: nat)
      requires Valid() && at < |Nodes()| && n == Nodes()[at]
      modifies this`count, this`ring, ring`next, ring`prev
      ensures Valid() && Nodes() == Without(old(Nodes()), at)
      ensures multiset(old(ring)) == multiset(ring) + multiset{n}
      ensures count == Decrement(old(count)) && n !in ring && n !in spare
    {
      ghost var was := ring;
      CountedDown(count, taken, |was| - 2);
      InnerWithout(was, at + 1);
      WithoutDrops(was, at + 1);
      assert n == was[at + 1];
      count, ring := Decrement(count), Without(was, at + 1);
      Unlink(header, was, tail, n, at + 1);
    }

    /** Clears the links of a node that is in neither list. */
    method Detach(n: Node)
      requires Valid() && n !in ring && n !in spare
      modifies n`next, n`prev
      ensures Valid() && n.next == null && n.prev == null
    {
      n.next, n.prev := null, null;
    }

    /** `fdtable_delete`: removes the first entry with the descriptor that lookup can reach. The source's
        third code, 1 for an entry with a null neighbour, is never returned. */
    method Delete(fd: int) returns (code: int, ghost at: nat)
      requires Valid()
      modifies this`count, this`ring, ring`next, ring`prev
      ensures Valid() && code == (if Findable(old(Fds()), fd) then 0 else 2)
      ensures code == 0 ==>
                && FoundAt(old(Fds()), fd, at) && Nodes() == Without(old(Nodes()), at)
                && count == Decrement(old(count))
      ensures code != 0 ==> ring == old(ring) && unchanged(old(ring)) && count == old(count)
    {
      var tmp;
      tmp, at := Find(fd);
      if tmp == null {
        return 2, at;
      }
      assert ring[at + 1].next == ring[at + 2] && ring[at].next == ring[at + 1];
      if tmp.next != null && tmp.prev != null {
        Remove(tmp, at);
        Detach(tmp);
        code := 0;
      } else {
        assert false;
      }
    }

    /** Puts a node that is in neither list at the front of the pool. */
    method Shelve(n: Node)
      requires Valid() && n !in ring && n !in spare
      modifies this`spare, n`next, n`prev, spare`next, spare`prev
      ensures Valid() && Inner(spare) == [n] + Inner(old(spare))
      ensures multiset(spare) == multiset(old(spare)) + multiset{n}
    {
      ghost var was := spare;
      InnerWithSecond(was, n);
      spare := WithSecond(was, n);
      Insert(poolHeader, was, poolTail, n);
    }

    /** `fdtable_entry_delete`: the same, reporting success also when nothing was found. */
    method EntryDelete(fd: int) returns (code: int, ghost at: nat)
      requires Valid()
      modifies this`count, this`ring, ring`next, ring`prev
      ensures Valid() && code == 0
      ensures if Findable(old(Fds()), fd)
              then FoundAt(old(Fds()), fd, at) && Nodes() == Without(old(Nodes()), at)
              else ring == old(ring) && unchanged(old(ring)) && count == old(count)
    {
      code, at := Delete(fd);
      code := 0;
    }

    /** `fdtable_traversal`: the nodes it lists, in the order of the list. */
    method Traversal() returns (listed: seq<Node>)
      requires Valid()
      ensures listed == Nodes()
    {
      listed := [];
      var tmp := header.next;
      assert tmp == ring[1];
      while tail != tmp
        invariant |listed| + 1 < |ring| && tmp == ring[|listed| + 1] && listed == ring[1..|listed| + 1]
        decreases |ring| - |listed|
      {
        assert |listed| + 1 < |ring| - 1;
        listed := listed + [tmp];
        tmp := tmp.next;
      }
    }

    /** `fdtable_traversal_reverse` lists them backwards. */
    method TraversalReverse() returns (listed: seq<Node>)
      requires Valid()
      ensures listed == Backwards(Nodes())
    {
      listed := [];
      var tmp := tail.prev;
      ghost var at := |ring| - 2;
      assert ring[at].next == tail;
      while header != tmp
        invariant 0 <= at <= |ring| - 2 && tmp == ring[at]
        invariant listed == Backwards(ring[at + 1..|ring| - 1])
        decreases at
      {
        assert ring[at - 1].next == ring[at];
        assert ring[at..|ring| - 1] == [tmp] + ring[at + 1..|ring| - 1];
        listed := listed + [tmp];
        tmp, at := tmp.prev, at - 1;
      }
      assert at == 0;
    }

    method MoveToPool(n: Node, ghost at: nat)
      requires Valid() && at < |Nodes()| && n == Nodes()[at]
      modifies this`count, this`ring, this`spare, n`fd, ring`next, ring`prev, spare`next, spare`prev
      ensures Valid() && n.fd == -1 && Nodes() == Without(old(Nodes()), at)
      ensures multiset(ring) + multiset(spare) == multiset(old(ring)) + multiset(old(spare))
      ensures Inner(spare) == [n] + Inner(old(spare)) && count == Decrement(old(count))
    {
      n.fd := -1;
      Remove(n, at);
      Shelve(n);
    }

    /** `fdtable_to_pool`: moves the entry found to the front of the pool, with descriptor -1. */
    method ToPool(fd: int) returns (ghost moved: bool, ghost at: nat)
      requires Valid()
      modifies this`count, this`ring, this`spare, ring`fd, ring`next, ring`prev, spare`next, spare`prev
      ensures Valid() && moved == Findable(old(Fds()), fd)
      ensures multiset(ring) + multiset(spare) == multiset(old(ring)) + multiset(old(spare))
      ensures moved ==>
                && FoundAt(old(Fds()), fd, at) && Nodes() == Without(old(Nodes()), at)
                && Inner(spare) == [old(Nodes()[at])] + Inner(old(spare)) && Inner(spare)[0].fd == -1
                && count == Decrement(old(count))
      ensures !moved ==> ring == old(ring) && spare == old(spare) && unchanged(old(ring)) && count == old(count)
    {
      var tmp;
      tmp, at := Find(fd);
      moved := tmp != null;
      if tmp != null {
        MoveToPool(tmp, at);
      }
    }

    /** Takes the first pool node out; it is then in neither list. */
    method Unshelve() returns (n: Node)
      requires Valid() && |spare| > 2
      modifies this`spare, spare`next, spare`prev
      ensures Valid() && n == Inner(old(spare))[0] && Inner(spare) == Inner(old(spare))[1..]
      ensures multiset(old(spare)) == multiset(spare) + multiset{n}
      ensures n !in ring && n !in spare
    {
      ghost var was := spare;
      n := poolHeader.next;
      assert n == was[1];
      InnerWithout(was, 1);
      spare := Without(was, 1);
      Unlink(poolHeader, was, poolTail, n, 1);
    }

    /** Puts such a node at the front of the table without counting it. */
    method Enlist(n: Node)
      requires Valid() && n !in ring && n !in spare
      modifies this`ring, this`taken, n`next, n`prev, ring`next, ring`prev
      ensures Valid() && Nodes() == [n] + old(Nodes()) && taken == old(taken) + 1
      ensures multiset(ring) == multiset(old(ring)) + multiset{n}
    {
      ghost var was := ring;
      CountedTaken(count, taken, |was| - 2);
      InnerWithSecond(was, n);
      ring, taken := WithSecond(was, n), taken + 1;
      Insert(header, was, tail, n);
    }

    /** `fdtable_from_pool`: the most recently pooled node becomes the first entry of the table, and the
        counter is left as it is. */
    method FromPool() returns (n: Node?)
      requires Valid()
      modifies this`ring, this`spare, this`taken, ring`next, ring`prev, spare`next, spare`prev
      ensures Valid() && (n == null <==> Inner(old(spare)) == [])
      ensures multiset(ring) + multiset(spare) == multiset(old(ring)) + multiset(old(spare))
      ensures n != null ==>
                && n == Inner(old(spare))[0] && n.fd == old(n.fd) && Inner(spare) == Inner(old(spare))[1..]
                && Nodes() == [n] + old(Nodes()) && taken == old(taken) + 1
      ensures n == null ==> ring == old(ring) && spare == old(spare) && taken == old(taken)
    {
      assert poolHeader.next == spare[1];
      if poolHeader.next != poolTail {
        n := Unshelve();
        Enlist(n);
      } else {
        n := null;
      }
    }
  }
}
