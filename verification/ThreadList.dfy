/** The doubly linked list of threads with two bookend nodes (kern/thread/threadlist.c). */
module ThreadList {
  class Node {
    var prev: Node?
    var next: Node?
    /** The thread the node is part of, which is taken for the same object; null for a bookend. */
    const self: Node?

    /** threadlistnode_init */
    constructor Thread()
      ensures self == this && prev == null && next == null
    {
      self := this;
      prev, next := null, null;
    }

    constructor Bookend()
      ensures self == null && prev == null && next == null
    {
      self := null;
      prev, next := null, null;
    }
  }

  /** The links of a spine: neighbours point at each other, and nothing sticks out at the ends. */
  ghost predicate Linked(s: seq<Node>)
    reads s
  {
    && (forall i :: 0 <= i < |s| - 1 ==> s[i].next == s[i + 1])
    && (forall i :: 0 < i < |s| ==> s[i].prev == s[i - 1])
    && (forall i, j :: 0 <= i < j < |s| ==> s[i] != s[j])
    && (|s| > 0 ==> s[0].prev == null && s[|s| - 1].next == null)
  }

  function Inserted(s: seq<Node>, at: nat, x: Node): seq<Node>
    requires at <= |s|
  {
    s[..at] + [x] + s[at..]
  }

  function Without(s: seq<Node>, at: nat): seq<Node>
    requires at < |s|
  {
    s[..at] + s[at + 1..]
  }

  /** threadlist_insertafternode */
  method InsertAfterNode(onlist: Node, n: Node, ghost s: seq<Node>, ghost at: nat)
    requires Linked(s) && at + 1 < |s| && s[at] == onlist && n !in s && n.prev == null && n.next == null
    modifies s, n
    ensures Linked(Inserted(s, at + 1, n))
  {
    assert s[at].next == s[at + 1];
    n.prev := onlist;
    n.next := onlist.next;
    n.prev.next := n;
    n.next.prev := n;
    ghost var s' := Inserted(s, at + 1, n);
    assert forall i :: 0 <= i <= at ==> s'[i] == s[i];
    assert s'[at + 1] == n;
    assert forall i :: at + 1 < i < |s'| ==> s'[i] == s[i - 1];
  }

  /** threadlist_insertbeforenode */
  method InsertBeforeNode(n: Node, onlist: Node, ghost s: seq<Node>, ghost at: nat)
    requires Linked(s) && 0 < at < |s| && s[at] == onlist && n !in s && n.prev == null && n.next == null
    modifies s, n
    ensures Linked(Inserted(s, at, n))
  {
    assert s[at].prev == s[at - 1];
    n.prev := onlist.prev;
    n.next := onlist;
    n.prev.next := n;
    n.next.prev := n;
    ghost var s' := Inserted(s, at, n);
    assert forall i :: 0 <= i < at ==> s'[i] == s[i];
    assert s'[at] == n;
    assert forall i :: at < i < |s'| ==> s'[i] == s[i - 1];
  }

  /** threadlist_removenode */
  method RemoveNode(n: Node, ghost s: seq<Node>, ghost at: nat)
    requires Linked(s) && 0 < at < |s| - 1 && s[at] == n
    modifies s
    ensures Linked(Without(s, at)) && n.prev == null && n.next == null
  {
    assert s[at].prev == s[at - 1] && s[at].next == s[at + 1];
    n.prev.next := n.next;
    n.next.prev := n.prev;
    n.prev := null;
    n.next := null;
    ghost var s' := Without(s, at);
    assert forall i :: 0 <= i < at ==> s'[i] == s[i];
    assert forall i :: at <= i < |s'| ==> s'[i] == s[i + 1];
  }

  /** The threads of a spine in order, without the two bookends. */
  ghost function Inner(s: seq<Node>): seq<Node>
    requires |s| >= 2
  {
    s[1..|s| - 1]
  }

  lemma InnerInserted(s: seq<Node>, at: nat, n: Node)
    requires |s| >= 2 && 0 < at < |s|
    ensures Inner(Inserted(s, at, n)) == Inserted(Inner(s), at - 1, n)
  {
  }

  lemma InnerWithout(s: seq<Node>, at: nat)
    requires 0 < at < |s| - 1
    ensures Inner(Without(s, at)) == Without(Inner(s), at - 1)
  {
  }

  /** The nodes between the bookends are threads. */
  ghost predicate Selves(s: seq<Node>) {
    forall i :: 0 <= i < |s| ==> s[i].self == if 0 < i < |s| - 1 then s[i] else null
  }

  lemma SelvesInserted(s: seq<Node>, at: nat, n: Node)
    requires Selves(s) && 0 < at < |s| && n.self == n
    ensures Selves(Inserted(s, at, n))
  {
    var s' := Inserted(s, at, n);
    assert forall i :: 0 <= i < |s'| ==> s'[i] == if i < at then s[i] else if i == at then n else s[i - 1];
  }

  lemma SelvesWithout(s: seq<Node>, at: nat)
    requires Selves(s) && 0 < at < |s| - 1
    ensures Selves(Without(s, at))
  {
    var s' := Without(s, at);
    assert forall i :: 0 <= i < |s'| ==> s'[i] == if i < at then s[i] else s[i + 1];
  }

  class List {
    const head: Node
    const tail: Node
    var count: nat
    /** All nodes from bookend to bookend. */
    ghost var spine: seq<Node>

    ghost predicate Valid()
      reads this, spine
    {
      && |spine| == count + 2 && spine[0] == head && spine[count + 1] == tail
      && Linked(spine) && Selves(spine)
    }

    /** The threads on the list, in order. */
    ghost function Threads(): seq<Node>
      requires |spine| >= 2
      reads this
    {
      Inner(spine)
    }

    ghost predicate Loose(n: Node)
      reads this, n
    {
      n.self == n && n.prev == null && n.next == null && n !in spine
    }

    /** threadlist_init */
    constructor ()
      ensures Valid() && Threads() == [] && fresh(spine)
    {
      var h := new Node.Bookend();
      var t := new Node.Bookend();
      h.next, t.prev := t, h;
      head, tail, count, spine := h, t, 0, [h, t];
    }

    /** threadlist_isempty */
    method IsEmpty() returns (b: bool)
      requires Valid()
      ensures b <==> Threads() == []
    {
      b := count == 0;
    }

    /** threadlist_addhead */
    method AddHead(n: Node)
      requires Valid() && Loose(n)
      modifies this, spine, n
      ensures Valid() && Threads() == [n] + old(Threads())
    {
      hide Linked, Selves;
      InsertAfterNode(head, n, spine, 0);
      InnerInserted(spine, 1, n);
      SelvesInserted(spine, 1, n);
      spine := Inserted(spine, 1, n);
      count := count + 1;
    }

    /** threadlist_addtail */
    method AddTail(n: Node)
      requires Valid() && Loose(n)
      modifies this, spine, n
      ensures Valid() && Threads() == old(Threads()) + [n]
    {
      hide Linked, Selves;
      ghost var at := |spine| - 1;
      InsertBeforeNode(n, tail, spine, at);
      InnerInserted(spine, at, n);
      SelvesInserted(spine, at, n);
      spine := Inserted(spine, at, n);
      count := count + 1;
    }

    /** threadlist_remhead */
    method RemHead() returns (t: Node?)
      requires Valid()
      modifies this, spine
      ensures Valid()
      ensures old(Threads()) == [] ==> t == null && Threads() == []
      ensures old(Threads()) != [] ==> t == old(Threads())[0] && Threads() == old(Threads())[1..] && Loose(t)
    {
      var n := head.next;
      assert n == spine[1] && (count > 0 ==> spine[1].next == spine[2]);
      if n.next == null {
        return null;
      }
      RemoveNode(n, spine, 1);
      InnerWithout(spine, 1);
      SelvesWithout(spine, 1);
      spine := Without(spine, 1);
      count := count - 1;
      t := n.self;
    }

    /** threadlist_remtail */
    method RemTail() returns (t: Node?)
      requires Valid()
      modifies this, spine
      ensures Valid()
      ensures old(Threads()) == [] ==> t == null && Threads() == []
      ensures old(Threads()) != [] ==>
        var q := old(Threads()); t == q[|q| - 1] && Threads() == q[..|q| - 1] && Loose(t)
    {
      var n := tail.prev;
      assert n == spine[count] && (count > 0 ==> spine[count].prev == spine[count - 1]);
      if n.prev == null {
        return null;
      }
      ghost var at := count;
      RemoveNode(n, spine, at);
      InnerWithout(spine, at);
      SelvesWithout(spine, at);
      spine := Without(spine, at);
      count := count - 1;
      t := n.self;
    }

    /** threadlist_insertafter */
    method InsertAfter(onlist: Node, n: Node, ghost at: nat)
      requires Valid() && Loose(n) && at < |Threads()| && Threads()[at] == onlist
      modifies this, spine, n
      ensures Valid() && Threads() == Inserted(old(Threads()), at + 1, n)
    {
      hide Linked, Selves;
      InsertAfterNode(onlist, n, spine, at + 1);
      InnerInserted(spine, at + 2, n);
      SelvesInserted(spine, at + 2, n);
      spine := Inserted(spine, at + 2, n);
      count := count + 1;
    }

    /** threadlist_insertbefore */
    method InsertBefore(n: Node, onlist: Node, ghost at: nat)
      requires Valid() && Loose(n) && at < |Threads()| && Threads()[at] == onlist
      modifies this, spine, n
      ensures Valid() && Threads() == Inserted(old(Threads()), at, n)
    {
      hide Linked, Selves;
      InsertBeforeNode(n, onlist, spine, at + 1);
      InnerInserted(spine, at + 1, n);
      SelvesInserted(spine, at + 1, n);
      spine := Inserted(spine, at + 1, n);
      count := count + 1;
    }

    /** threadlist_remove */
    method Remove(n: Node, ghost at: nat)
      requires Valid() && at < |Threads()| && Threads()[at] == n
      modifies this, spine
      ensures Valid() && Threads() == Without(old(Threads()), at) && Loose(n)
    {
      RemoveNode(n, spine, at + 1);
      InnerWithout(spine, at + 1);
      SelvesWithout(spine, at + 1);
      spine := Without(spine, at + 1);
      count := count - 1;
    }
  }
}
