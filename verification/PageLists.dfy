/** The singly linked lists of page descriptors (sizebases, allbase and remove_lists in kern/vm/kmalloc.c). */
module PageLists {
  import opened Common
  import opened Heap

  /** The pointer to element `i` of a list; a null pointer past the end. */
  function Nth(s: seq<nat>, i: nat): Option<nat> {
    if i < |s| then Some(s[i]) else None
  }

  predicate Linked(next: map<nat, Option<nat>>, s: seq<nat>, i: nat)
    requires i < |s|
  {
    s[i] in next && next[s[i]] == Nth(s, i + 1)
  }

  /** Following the links from `head` gives the list `s`. */
  ghost predicate Chain(head: Option<nat>, next: map<nat, Option<nat>>, s: seq<nat>) {
    head == Nth(s, 0) && forall i :: 0 <= i < |s| ==> Linked(next, s, i)
  }

  /** Links outside a list do not matter to it. */
  lemma ChainFrame(head: Option<nat>, next: map<nat, Option<nat>>, next': map<nat, Option<nat>>, s: seq<nat>)
    requires Chain(head, next, s) && forall x :: x in s && x in next ==> x in next' && next'[x] == next[x]
    ensures Chain(head, next', s)
  {
    forall i | 0 <= i < |s| ensures Linked(next', s, i) {
      assert Linked(next, s, i) && s[i] in s;
    }
  }

  /** A new element in front. */
  lemma ChainPush(head: Option<nat>, next: map<nat, Option<nat>>, s: seq<nat>, r: nat)
    requires Chain(head, next, s) && r !in s
    ensures Chain(Some(r), next[r := head], [r] + s)
  {
    var s', next' := [r] + s, next[r := head];
    forall i | 0 <= i < |s'| ensures Linked(next', s', i) {
      if i > 0 {
        assert Linked(next, s, i - 1) && s[i - 1] in s;
      }
    }
  }

  function Without(s: seq<nat>, i: nat): seq<nat>
    requires i < |s|
  {
    s[..i] + s[i + 1..]
  }

  lemma WithoutOk(s: seq<nat>, i: nat)
    requires NoDup(s) && i < |s|
    ensures NoDup(Without(s, i)) && forall x :: x in Without(s, i) <==> x in s && x != s[i]
  {
    assert s == s[..i] + [s[i]] + s[i + 1..];
  }

  /** The link that pointed at the first element points past it. */
  lemma ChainPop(head: Option<nat>, next: map<nat, Option<nat>>, s: seq<nat>)
    requires Chain(head, next, s) && s != []
    ensures s[0] in next && Chain(next[s[0]], next, Without(s, 0))
  {
    assert Linked(next, s, 0);
    var s' := Without(s, 0);
    forall j | 0 <= j < |s'| ensures Linked(next, s', j) {
      assert Linked(next, s, j + 1);
    }
  }

  /** The link of the element before points past the element taken out. */
  lemma ChainSkip(head: Option<nat>, next: map<nat, Option<nat>>, s: seq<nat>, i: nat)
    requires Chain(head, next, s) && NoDup(s) && 0 < i < |s|
    ensures s[i] in next && Chain(head, next[s[i - 1] := next[s[i]]], Without(s, i))
  {
    assert Linked(next, s, i);
    var s', next' := Without(s, i), next[s[i - 1] := next[s[i]]];
    forall j | 0 <= j < |s'| ensures Linked(next', s', j) {
      if j < i {
        assert Linked(next, s, j);
      } else {
        assert Linked(next, s, j + 1);
      }
    }
  }

  /**
    One of the two loops of remove_lists. The cell under consideration is the head of the
    list or, once an element has been passed, that element's link.
   */
  method Unlink(head: Option<nat>, next: map<nat, Option<nat>>, r: nat, ghost s: seq<nat>)
    returns (head': Option<nat>, next': map<nat, Option<nat>>, ghost s': seq<nat>)
    requires Chain(head, next, s) && NoDup(s)
    ensures Chain(head', next', s') && NoDup(s') && forall x :: x in s' <==> x in s && x != r
    ensures next'.Keys == next.Keys && forall x :: x in next && x !in s ==> next'[x] == next[x]
  {
    head', next', s' := head, next, s;
    var prev: Option<nat>, p := None, head;
    ghost var i := 0;
    while p.Some?
      invariant i <= |s| && p == Nth(s, i) && r !in s[..i]
      invariant prev == if i == 0 then None else Some(s[i - 1])
      decreases |s| - i
    {
      assert Linked(next, s, i);
      if p.value == r {
        WithoutOk(s, i);
        s' := Without(s, i);
        if prev == None {
          ChainPop(head, next, s);
          head' := next[r];
        } else {
          assert Linked(next, s, i - 1);
          ChainSkip(head, next, s, i);
          next' := next[prev.value := next[r]];
        }
        return;
      }
      prev, p, i := p, next[p.value], i + 1;
    }
  }

  // ------------------------------------------------------------------
  // All the lists

  ghost predicate LinksOk(sizeBases: seq<Option<nat>>, nextSame: map<nat, Option<nat>>, bySize: seq<seq<nat>>,
                          allBase: Option<nat>, nextAll: map<nat, Option<nat>>, all: seq<nat>)
  {
    && |sizeBases| == |bySize| == NSIZES && Chain(allBase, nextAll, all)
    && forall k :: 0 <= k < NSIZES ==> Chain(sizeBases[k], nextSame, bySize[k])
  }

  /** A descriptor goes to the front of the list of its size and of the list of all. */
  lemma PushLinks(sizeBases: seq<Option<nat>>, nextSame: map<nat, Option<nat>>, bySize: seq<seq<nat>>,
                  allBase: Option<nat>, nextAll: map<nat, Option<nat>>, all: seq<nat>, r: nat, k: nat)
    requires LinksOk(sizeBases, nextSame, bySize, allBase, nextAll, all) && k < NSIZES
    requires r !in all && forall j :: 0 <= j < NSIZES ==> r !in bySize[j]
    ensures LinksOk(sizeBases[k := Some(r)], nextSame[r := sizeBases[k]], bySize[k := [r] + bySize[k]],
                    Some(r), nextAll[r := allBase], [r] + all)
  {
    hide Chain;
    ChainPush(allBase, nextAll, all, r);
    ChainPush(sizeBases[k], nextSame, bySize[k], r);
    forall j | 0 <= j < NSIZES && j != k ensures Chain(sizeBases[j], nextSame[r := sizeBases[k]], bySize[j]) {
      ChainFrame(sizeBases[j], nextSame, nextSame[r := sizeBases[k]], bySize[j]);
    }
  }

  /** One list of a size changes and no link of the others. */
  lemma OneSize(sizeBases: seq<Option<nat>>, nextSame: map<nat, Option<nat>>, bySize: seq<seq<nat>>,
                k: nat, head: Option<nat>, next: map<nat, Option<nat>>, s: seq<nat>, refs: map<nat, Ref>, all: seq<nat>)
    requires |sizeBases| == NSIZES && k < NSIZES && ListsOk(refs, bySize, all)
    requires forall j :: 0 <= j < NSIZES ==> Chain(sizeBases[j], nextSame, bySize[j])
    requires Chain(head, next, s)
    requires next.Keys == nextSame.Keys && forall x :: x in nextSame && x !in bySize[k] ==> next[x] == nextSame[x]
    ensures var heads, lists := sizeBases[k := head], bySize[k := s];
      forall j :: 0 <= j < NSIZES ==> Chain(heads[j], next, lists[j])
  {
    hide Chain;
    forall j | 0 <= j < NSIZES && j != k ensures Chain(sizeBases[j], next, bySize[j]) {
      assert SizeList(refs, bySize[j], j) && SizeList(refs, bySize[k], k);
      ChainFrame(sizeBases[j], nextSame, next, bySize[j]);
    }
  }
}
