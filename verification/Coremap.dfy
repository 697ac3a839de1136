/**
  The coremap (kern/vm/coremap.c): one entry per physical frame. Frames are
  grouped into blocks; the first frame of a block, its head, records the
  length of the block and every other frame of the block records 0.
 */
module Coremap {
  import opened Common

  datatype Entry = Entry(occ: bool, fixed: bool, nframes: nat, owner: Option<Eid>)

  type Map = seq<Entry>

  /** Frame `h` heads a block. */
  predicate Head(cm: Map, h: int) {
    0 <= h < |cm| && cm[h].nframes > 0
  }

  /** Frame `k` lies inside the block at `h`, after its head. */
  predicate Inside(cm: Map, h: int, k: int) {
    Head(cm, h) && h < k < h + cm[h].nframes
  }

  /**
    The block at `h` lies within the table, its other frames record length 0
    and are free or occupied with it, and the next block starts where it ends.
   */
  ghost predicate BlockOk(cm: Map, h: int)
    requires Head(cm, h)
  {
    var end := h + cm[h].nframes;
    && end <= |cm|
    && (forall k :: h < k < end ==> cm[k].nframes == 0 && cm[k].occ == cm[h].occ)
    && (end < |cm| ==> cm[end].nframes > 0)
  }

  /** Heads with their lengths tile the frames. */
  ghost predicate Partition(cm: Map) {
    && (cm != [] ==> cm[0].nframes > 0)
    && (forall h {:trigger Head(cm, h)} :: Head(cm, h) ==> BlockOk(cm, h))
  }

  /** Free frames carry no residue; a frame with an owner is a block of its own. */
  ghost predicate Clean(cm: Map) {
    && (forall k :: 0 <= k < |cm| && !cm[k].occ ==> !cm[k].fixed && cm[k].owner == None)
    && (forall k :: 0 <= k < |cm| && cm[k].owner != None ==> cm[k].nframes == 1)
  }

  /** No two neighbouring blocks among those that start before `i` are both free. */
  ghost predicate CoalescedBelow(cm: Map, i: int) {
    forall h {:trigger Head(cm, h)} :: h < i && Head(cm, h) && h + cm[h].nframes < |cm| ==>
      cm[h].occ || cm[h + cm[h].nframes].occ
  }

  ghost predicate Coalesced(cm: Map) {
    CoalescedBelow(cm, |cm|)
  }

  ghost predicate ValidMap(cm: Map) {
    Partition(cm) && Clean(cm) && Coalesced(cm)
  }

  /** The block at `h` is free and long enough for `num` frames. */
  predicate Fits(cm: Map, h: nat, num: nat) {
    h < |cm| && !cm[h].occ && 0 < num <= cm[h].nframes
  }

  /** A frame that `get_victim` may choose: occupied, not pinned, owned by a page table entry. */
  predicate Eligible(cm: Map, f: nat) {
    f < |cm| && cm[f].occ && !cm[f].fixed && cm[f].owner != None
  }

  /** Entries agree on everything but the block length. */
  predicate SameUse(a: Entry, b: Entry) {
    a.occ == b.occ && a.fixed == b.fixed && a.owner == b.owner
  }

  /** `post` is `cm` after the `num` frames at `p` were handed to `owner`. */
  ghost predicate Taken(cm: Map, p: nat, num: nat, owner: Option<Eid>, post: Map) {
    && ValidMap(post) && |post| == |cm| && 0 < num && p + num <= |cm|
    && post[p].nframes == num
    && (forall k :: p <= k < p + num ==> post[k].occ && post[k].fixed && post[k].owner == owner)
    && (forall k :: 0 <= k < |cm| && !(p <= k < p + num) ==> SameUse(post[k], cm[k]))
    && (forall k :: 0 <= k < |cm| && !(p <= k < p + num) && cm[k].occ ==> post[k] == cm[k])
  }

  /** `post` is `cm` after the block at `p` was returned. */
  ghost predicate Freed(cm: Map, p: nat, post: Map) {
    && ValidMap(post) && |post| == |cm| && p < |cm| && 0 < cm[p].nframes && p + cm[p].nframes <= |cm|
    && (forall k :: p <= k < p + cm[p].nframes ==> !post[k].occ)
    && (forall k :: 0 <= k < |cm| && !(p <= k < p + cm[p].nframes) ==> SameUse(post[k], cm[k]))
    && (forall k :: 0 <= k < |cm| && !(p <= k < p + cm[p].nframes) && cm[k].occ ==> post[k] == cm[k])
  }

  // ------------------------------------------------------------------
  // The block structure is determined by how the frames are used

  /** Every frame lies in exactly one block. */
  lemma {:induction false} HeadOf(cm: Map, k: nat) returns (h: nat)
    requires Partition(cm) && k < |cm|
    ensures (h == k && Head(cm, k)) || Inside(cm, h, k)
    ensures forall g :: (g == k && Head(cm, k)) || Inside(cm, g, k) ==> g == h
    decreases k
  {
    if cm[k].nframes > 0 {
      h := k;
      assert Head(cm, k);
    } else {
      h := HeadOf(cm, k - 1);
      assert Head(cm, h);
      forall g | Inside(cm, g, k) ensures g == h {
        assert g == k - 1 || Inside(cm, g, k - 1);
      }
    }
  }

  /** Blocks handed out never overlap: two heads that share a frame are one head. */
  lemma BlocksDisjoint(cm: Map, g: nat, h: nat, k: nat)
    requires Partition(cm) && Head(cm, g) && Head(cm, h)
    requires g <= k < g + cm[g].nframes && h <= k < h + cm[h].nframes
    ensures g == h
  {
    var r := HeadOf(cm, k);
    assert g == k || Inside(cm, g, k);
    assert h == k || Inside(cm, h, k);
  }

  /** Frames are used alike, and what is occupied is laid out alike. */
  ghost predicate SameOccupied(a: Map, b: Map) {
    && |a| == |b|
    && (forall k :: 0 <= k < |a| ==> SameUse(a[k], b[k]))
    && (forall k :: 0 <= k < |a| && a[k].occ ==> a[k] == b[k])
  }

  /** A free frame that heads a block in one valid coremap heads one in the other. */
  lemma FreeHeadAgrees(a: Map, b: Map, k: nat)
    requires ValidMap(a) && ValidMap(b) && SameOccupied(a, b)
    requires Head(a, k) && !a[k].occ
    ensures Head(b, k)
  {
    if k > 0 {
      var h := HeadOf(a, k - 1);
      assert Head(a, h) && a[h].occ && a[k - 1].occ;
      var g := HeadOf(b, k - 1);
      assert Head(b, g) && b[g].occ && b[k - 1].occ;
    }
  }

  lemma FreeLengthAgrees(a: Map, b: Map, k: nat)
    requires ValidMap(a) && ValidMap(b) && SameOccupied(a, b)
    requires Head(a, k) && Head(b, k) && !a[k].occ
    ensures b[k].nframes <= a[k].nframes
  {
    var e := k + a[k].nframes;
    assert e < |a| ==> a[e].occ && b[e].occ;
  }

  /**
    Two valid coremaps whose frames are used alike and whose occupied blocks
    are the same are the same coremap: free runs have only one representation.
   */
  lemma UniqueLayout(a: Map, b: Map)
    requires ValidMap(a) && ValidMap(b) && SameOccupied(a, b)
    ensures a == b
  {
    forall k | 0 <= k < |a| ensures a[k] == b[k] {
      assert SameUse(a[k], b[k]);
      if !a[k].occ {
        if Head(a, k) {
          FreeHeadAgrees(a, b, k);
          FreeLengthAgrees(a, b, k);
          FreeLengthAgrees(b, a, k);
        } else if Head(b, k) {
          FreeHeadAgrees(b, a, k);
        }
      }
    }
  }

  /** Handing out a block and returning it restores the coremap exactly. */
  lemma TakeThenFree(cm: Map, p: nat, num: nat, owner: Option<Eid>, mid: Map, post: Map)
    requires ValidMap(cm) && Fits(cm, p, num)
    requires Taken(cm, p, num, owner, mid)
    requires Freed(mid, p, post)
    ensures post == cm
  {
    assert Head(cm, p);
    forall k | 0 <= k < |cm|
      ensures SameUse(cm[k], post[k]) && (cm[k].occ ==> cm[k] == post[k])
    {
      if p <= k < p + num {
        assert k == p || Inside(cm, p, k);
        assert !post[k].occ && !cm[k].occ;
      } else {
        assert SameUse(mid[k], cm[k]) && SameUse(post[k], mid[k]);
      }
    }
    UniqueLayout(cm, post);
  }

  // ------------------------------------------------------------------
  // Splitting and merging blocks

  /** The entry of frame `k` once the block at `page` has been split after `num` frames. */
  ghost function Split(was: Map, page: nat, num: nat, k: nat): Entry
    requires page < |was| && k < |was|
  {
    if k == page then was[k].(nframes := num)
    else if k == page + num && num < was[page].nframes then was[k].(nframes := was[page].nframes - num)
    else was[k]
  }

  /** The same entry once the first `num` frames have been marked. */
  ghost function Marked(was: Map, page: nat, num: nat, owner: Option<Eid>, k: nat): Entry
    requires page < |was| && k < |was|
  {
    if page <= k < page + num
    then Entry(true, true, Split(was, page, num, k).nframes, owner)
    else Split(was, page, num, k)
  }

  lemma TakenByMarking(was: Map, page: nat, num: nat, owner: Option<Eid>, post: Map)
    requires ValidMap(was) && Fits(was, page, num) && |post| == |was|
    requires owner != None ==> num == 1
    requires forall k :: 0 <= k < |was| ==> post[k] == Marked(was, page, num, owner, k)
    ensures Taken(was, page, num, owner, post)
  {
    assert Head(was, page);
    forall k | 0 <= k < |was| && !(page <= k < page + num)
      ensures SameUse(post[k], was[k]) && (was[k].occ ==> post[k] == was[k])
    {
      assert k == page + num < page + was[page].nframes ==> Inside(was, page, k);
    }
    forall h | Head(post, h)
      ensures BlockOk(post, h)
      ensures h + post[h].nframes < |post| ==> post[h].occ || post[h + post[h].nframes].occ
    {
      SplitBlock(was, page, num, owner, post, h);
    }
  }

  /** One block of the split coremap is laid out properly. */
  lemma SplitBlock(was: Map, page: nat, num: nat, owner: Option<Eid>, post: Map, h: int)
    requires ValidMap(was) && Fits(was, page, num) && |post| == |was|
    requires forall k :: 0 <= k < |was| ==> post[k] == Marked(was, page, num, owner, k)
    requires Head(post, h)
    ensures BlockOk(post, h)
    ensures h + post[h].nframes < |post| ==> post[h].occ || post[h + post[h].nframes].occ
  {
    assert Head(was, page);
    if h != page + num || num == was[page].nframes {
      assert Head(was, h);
    }
  }

  /** Repinning or re-owning a single-frame block keeps the coremap valid. */
  lemma RelabelValid(was: Map, f: nat, e: Entry)
    requires ValidMap(was) && f < |was| && was[f].occ
    requires e.occ && e.nframes == was[f].nframes && (e.owner != None ==> e.nframes == 1)
    ensures ValidMap(was[f := e])
  {
    var post := was[f := e];
    forall h | Head(post, h)
      ensures BlockOk(post, h)
      ensures h + post[h].nframes < |post| ==> post[h].occ || post[h + post[h].nframes].occ
    {
      assert Head(was, h);
    }
  }

  /** Clearing one block keeps the tiling, though it may leave free neighbours. */
  lemma ClearedPartition(was: Map, page: nat, post: Map)
    requires ValidMap(was) && Head(was, page) && |post| == |was|
    requires forall k :: 0 <= k < |was| ==>
      post[k] == if page <= k < page + was[page].nframes then Entry(false, false, was[k].nframes, None) else was[k]
    ensures Partition(post) && Clean(post)
  {
    forall h | Head(post, h) ensures BlockOk(post, h) {
      assert Head(was, h);
    }
  }

  /** The boundary below which every frame is occupied stays a block boundary. */
  lemma FirstStaysHead(was: Map, first: nat, post: Map)
    requires Partition(was) && Partition(post) && |post| == |was| && Head(was, first)
    requires forall k :: 0 <= k < first ==> post[k] == was[k]
    ensures Head(post, first)
  {
    var h := HeadOf(post, first);
    assert h < first ==> Head(was, h);
  }

  /** Folding the free block after the free block `i` into it keeps the tiling. */
  lemma MergeStep(was: Map, i: nat, post: Map)
    requires Partition(was) && Clean(was) && CoalescedBelow(was, i)
    requires Head(was, i) && !was[i].occ
    requires i + was[i].nframes < |was| && !was[i + was[i].nframes].occ
    requires var next := i + was[i].nframes;
      post == was[i := was[i].(nframes := was[i].nframes + was[next].nframes)][next := was[next].(nframes := 0)]
    ensures Partition(post) && Clean(post) && CoalescedBelow(post, i)
  {
    var next := i + was[i].nframes;
    assert Head(was, next);
    forall h | Head(post, h)
      ensures BlockOk(post, h)
      ensures h < i && h + post[h].nframes < |post| ==> post[h].occ || post[h + post[h].nframes].occ
    {
      assert Head(was, h);
    }
  }

  /** The sweep may step over a block that is not followed by free space it could absorb. */
  lemma SweepStep(cm: Map, i: nat)
    requires Partition(cm) && CoalescedBelow(cm, i) && Head(cm, i)
    requires var next := i + cm[i].nframes; next < |cm| && (cm[i].occ || cm[next].occ)
    ensures var next := i + cm[i].nframes;
      Head(cm, next) && next + cm[next].nframes <= |cm| && CoalescedBelow(cm, next)
  {
    assert Head(cm, i + cm[i].nframes);
  }

  lemma SweepEnds(cm: Map, i: nat)
    requires Partition(cm) && CoalescedBelow(cm, i) && Head(cm, i) && i + cm[i].nframes == |cm|
    ensures Coalesced(cm)
  {
    assert BlockOk(cm, i);
  }

  /** How far the clock hand moves from `from` to reach `f`, from 1 to a full turn. */
  function Gap(from: nat, f: nat, n: nat): nat
    requires from < n && f < n
  {
    if f > from then f - from else f + n - from
  }

  /** The frames the hand passes before it reaches `off` are not eligible. */
  ghost predicate Passed(cm: Map, from: nat, off: nat)
    requires from < |cm|
  {
    forall f :: 0 <= f < |cm| && Gap(from, f, |cm|) < off ==> !Eligible(cm, f)
  }

  /** Where the hand stands after moving `off` frames on from `from`. */
  function HandAt(from: nat, off: nat, n: nat): nat
    requires from < n && off <= n
  {
    if from + off < n then from + off else from + off - n
  }

  lemma Wrap(x: nat, n: nat)
    requires 0 < n && x < 2 * n
    ensures x % n == if x < n then x else x - n
  {
    if x >= n {
      assert x == 1 * n + (x - n);
    }
  }

  /** Moving from one head to the next skips no eligible frame and never jumps over the start. */
  lemma HandStep(cm: Map, from: nat, off: nat)
    requires ValidMap(cm) && Head(cm, from) && 0 < off < |cm|
    requires var at := HandAt(from, off, |cm|); Head(cm, at) && !Eligible(cm, at)
    requires Passed(cm, from, off)
    ensures var at := HandAt(from, off, |cm|);
      && off + cm[at].nframes <= |cm|
      && at + cm[at].nframes <= |cm|
      && HandAt(from, off + cm[at].nframes, |cm|) == HandAt(at, cm[at].nframes, |cm|)
      && Head(cm, HandAt(from, off + cm[at].nframes, |cm|))
      && Passed(cm, from, off + cm[at].nframes)
  {
    var n := |cm|;
    var at := HandAt(from, off, n);
    assert BlockOk(cm, at);
    assert at < from ==> at + cm[at].nframes <= from;
    assert at + cm[at].nframes <= n;
    forall f | 0 <= f < n && Gap(from, f, n) < off + cm[at].nframes
      ensures !Eligible(cm, f)
    {
      if Gap(from, f, n) >= off {
        assert at <= f < at + cm[at].nframes;
      }
    }
  }

  /** The state of the search after the hand has moved `off` frames from `from`. */
  ghost predicate Searching(cm: Map, from: nat, off: nat, at: nat, looped: bool) {
    && from < |cm| && 0 < off <= |cm| && at == HandAt(from, off, |cm|)
    && (off < |cm| ==> !looped && Head(cm, from))
    && (off == |cm| ==> looped || cm[from].nframes == 0 || cm[from].nframes == |cm|)
    && (Head(cm, from) ==> Head(cm, at) && Passed(cm, from, off))
  }

  /** How far the hand has come after one more move. */
  ghost function Moved(cm: Map, off: nat, at: nat): nat
    requires at < |cm|
  {
    if off < |cm| then off + cm[at].nframes else off
  }

  lemma SearchStarts(cm: Map, from: nat) returns (off: nat)
    requires ValidMap(cm) && from < |cm|
    ensures Searching(cm, from, off, (from + cm[from].nframes) % |cm|, false)
  {
    off := if cm[from].nframes == 0 then |cm| else cm[from].nframes;
    assert cm[from].nframes > 0 ==> Head(cm, from) && BlockOk(cm, from);
    Wrap(from + cm[from].nframes, |cm|);
    forall f | 0 <= f < |cm| && Gap(from, f, |cm|) < off && Head(cm, from) ensures !Eligible(cm, f) {
      assert from < f < from + cm[from].nframes;
    }
  }

  lemma SearchMoves(cm: Map, from: nat, off: nat, at: nat)
    requires ValidMap(cm) && Searching(cm, from, off, at, false) && !Eligible(cm, at)
    ensures var next := (at + cm[at].nframes) % |cm|;
      Searching(cm, from, Moved(cm, off, at), next, next == from)
    ensures Moved(cm, off, at) > off || at == from == (at + cm[at].nframes) % |cm|
  {
    if off < |cm| {
      HandStep(cm, from, off);
    }
    Wrap(at + cm[at].nframes, |cm|);
  }

  // ------------------------------------------------------------------
  // The table itself, updated in place

  /** The outcome of the masked section at the start of `get_n_frames`. */
  datatype Grant = Found(page: nat) | Victim(frame: nat) | Nothing

  /** What the first-fit walk stops at; the walk visits heads only. */
  predicate Candidate(cm: Map, h: nat, num: nat) {
    Head(cm, h) && !cm[h].occ && num <= cm[h].nframes
  }

  /** The table after the block at `page` was recorded with length 0. */
  function Emptied(cm: Map, page: nat): Map
    requires page < |cm|
  {
    cm[page := cm[page].(nframes := 0)]
  }

  /** A block of length 0 breaks the tiling of the frames. */
  lemma EmptiedBroken(cm: Map, page: nat)
    requires Partition(cm) && Head(cm, page)
    ensures !Partition(Emptied(cm, page))
  {
    if page > 0 {
      var h := HeadOf(cm, page - 1);
      assert Head(cm, h) && h + cm[h].nframes == page;
      assert Head(Emptied(cm, page), h);
    }
  }

  lemma BrokenInvalid(cm: Map)
    requires !Partition(cm)
    ensures !ValidMap(cm)
  {
  }

  /** If no head from `first` on is free, no frame is. */
  lemma NoneFree(cm: Map, first: nat)
    requires Partition(cm) && first <= |cm| && forall k :: 0 <= k < first ==> cm[k].occ
    requires forall h :: first <= h < |cm| ==> !Candidate(cm, h, 0)
    ensures forall k :: 0 <= k < |cm| ==> cm[k].occ
  {
    forall k | 0 <= k < |cm| ensures cm[k].occ {
      var h := HeadOf(cm, k);
      assert Head(cm, h) && BlockOk(cm, h);
      assert h < first || !Candidate(cm, h, 0);
    }
  }

  /** Where the first-fit walk for `num` frames stands after at most `n` hops from `i`. */
  function Walk(cm: Map, num: nat, i: nat, n: nat): nat
    decreases n
  {
    if n == 0 || i >= |cm| || (!cm[i].occ && cm[i].nframes >= num) then i
    else Walk(cm, num, i + cm[i].nframes, n - 1)
  }

  /** With a block of length 0 at the first free frame, the walk gets there and never leaves. */
  lemma {:induction false} WalkStuck(cm: Map, num: nat, i: nat, page: nat, n: nat)
    requires Partition(cm) && Head(cm, i) && i <= page && Head(cm, page) && !cm[page].occ && num > 0
    requires forall h :: i <= h < page && Head(cm, h) ==> cm[h].occ
    requires n >= page - i
    ensures Walk(Emptied(cm, page), num, i, n) == page
    decreases n
  {
    if i < page {
      var end := i + cm[i].nframes;
      assert BlockOk(cm, i);
      assert end <= page;
      WalkStuck(cm, num, end, page, n - 1);
    } else if n > 0 {
      WalkStuck(cm, num, i, page, n - 1);
    }
  }

  /** What a request for no frames leaves at the lowest free block stops every later search. */
  lemma ZeroRequestHangs(was: Map, first: nat, page: nat, num: nat, n: nat)
    requires Partition(was) && Head(was, first) && (forall k :: 0 <= k < first ==> was[k].occ)
    requires Candidate(was, page, 0) && (forall h :: 0 <= h < page ==> !Candidate(was, h, 0))
    requires num > 0 && n >= |was|
    ensures Walk(Emptied(was, page), num, first, n) == page < |was| && Emptied(was, page)[page].nframes == 0
  {
    forall h | first <= h < page && Head(was, h) ensures was[h].occ {
      assert !Candidate(was, h, 0);
    }
    WalkStuck(was, num, first, page, n);
  }

  class Table {
    const cm: array<Entry>
    const first: nat
    var prev: nat

    ghost predicate Valid()
      reads this, cm
    {
      && ValidMap(cm[..]) && first < cm.Length && prev < cm.Length
      && cm[first].nframes > 0 && (forall k :: 0 <= k < first ==> cm[k].occ)
    }

    /** `coremap_bootstrap`: the frames below `first` belong to the kernel for good. */
    constructor (npages: nat, first: nat)
      requires first < npages
      ensures Valid() && fresh(cm) && cm.Length == npages && this.first == first && prev == 0
      ensures forall k :: 0 <= k < npages ==>
        cm[k].occ == (k < first) && cm[k].fixed == (k < first) && cm[k].owner == None
      ensures cm[first].nframes == npages - first
    {
      cm := new Entry[npages](_ => Entry(false, false, 0, None));
      this.first, prev := first, 0;
      new;
      for i := 0 to first
        invariant prev == 0
        invariant forall k :: 0 <= k < npages ==>
          cm[k] == Entry(k < i, k < i, 0, None)
      {
        cm[i] := Entry(true, true, 0, None);
      }
      cm[0] := cm[0].(nframes := first);
      cm[first] := cm[first].(nframes := npages - first);
      assert forall h :: Head(cm[..], h) ==> h == 0 || h == first;
    }

    /** The first-fit walk over block heads from `first`. */
    method FirstFit(num: nat) returns (page: nat)
      requires Valid()
      ensures page <= cm.Length
      ensures page < cm.Length ==> first <= page && Candidate(cm[..], page, num)
      ensures forall h :: first <= h < page ==> !Candidate(cm[..], h, num)
    {
      page := first;
      while page < cm.Length && !(!cm[page].occ && cm[page].nframes >= num)
        invariant first <= page <= cm.Length
        invariant page < cm.Length ==> cm[page].nframes > 0
        invariant forall h :: first <= h < page ==> !Candidate(cm[..], h, num)
        decreases cm.Length - page
      {
        assert Head(cm[..], page);
        page := page + cm[page].nframes;
      }
    }

    /** The tail of `get_n_frames`: split the block at `page` and mark its first `num` frames. */
    method Take(page: nat, num: nat, owner: Option<Eid>)
      requires Valid() && Candidate(cm[..], page, num)
      requires owner != None ==> num == 1
      modifies cm
      ensures num > 0 ==> Valid() && Taken(old(cm[..]), page, num, owner, cm[..])
      ensures num == 0 ==> cm[..] == Emptied(old(cm[..]), page)
    {
      ghost var was := cm[..];
      var residual := cm[page].nframes - num;
      if residual > 0 && page + num < cm.Length {
        cm[page + num] := cm[page + num].(nframes := residual);
      }
      cm[page] := cm[page].(nframes := num);
      assert Head(was, page);
      for i := page to page + num
        invariant forall k :: 0 <= k < cm.Length ==>
          cm[k] == if k < i then Marked(was, page, num, owner, k) else Split(was, page, num, k)
      {
        cm[i] := Entry(true, true, cm[i].nframes, owner);
      }
      if num > 0 {
        TakenByMarking(was, page, num, owner, cm[..]);
        FirstStaysHead(was, first, cm[..]);
      }
    }

    /**
      The search in `get_victim`: the clock hand moves from head to head, once
      around. When it rests on a frame that no longer heads a block it gives up.
     */
    method FindVictim() returns (victim: int)
      requires Valid()
      ensures -1 <= victim < cm.Length
      ensures victim == -1 <==>
        cm[prev].nframes == 0 || forall f :: 0 <= f < cm.Length ==> !Eligible(cm[..], f)
      ensures victim >= 0 ==>
        && Eligible(cm[..], victim)
        && Passed(cm[..], prev, Gap(prev, victim, cm.Length))
    {
      ghost var m := cm[..];
      ghost var off := SearchStarts(m, prev);
      victim := (prev + cm[prev].nframes) % cm.Length;
      var looped := false;
      while !(cm[victim].occ && !cm[victim].fixed && cm[victim].owner != None)
        invariant 0 <= victim < cm.Length && Searching(m, prev, off, victim, looped)
        decreases cm.Length - off, if looped then 0 else 1
      {
        assert !Eligible(m, victim);
        if looped {
          return -1;
        }
        SearchMoves(m, prev, off, victim);
        off := Moved(m, off, victim);
        victim := (victim + cm[victim].nframes) % cm.Length;
        if victim == prev {
          looped := true;
        }
      }
      assert Eligible(cm[..], victim) && m[victim].nframes == 1;
      assert m[prev].nframes > 0;
    }

    /** `get_victim`: the frame found is pinned and becomes the new hand. */
    method GetVictim() returns (victim: int)
      requires Valid()
      modifies this`prev, cm
      ensures Valid() && -1 <= victim < cm.Length
      ensures victim == -1 <==>
        old(cm[prev].nframes) == 0 || forall f :: 0 <= f < cm.Length ==> !Eligible(old(cm[..]), f)
      ensures victim == -1 ==> cm[..] == old(cm[..]) && prev == old(prev)
      ensures victim >= 0 ==>
        && Eligible(old(cm[..]), victim)
        && Passed(old(cm[..]), old(prev), Gap(old(prev), victim, cm.Length))
        && cm[..] == old(cm[..])[victim := old(cm[..])[victim].(fixed := true)]
        && prev == victim
    {
      ghost var m := cm[..];
      victim := FindVictim();
      if victim >= 0 {
        prev := victim;
        cm[victim] := cm[victim].(fixed := true);
        RelabelValid(m, victim, cm[victim]);
        assert cm[..] == m[victim := cm[victim]];
      }
    }

    /**
      The masked section at the start of `get_n_frames`: the first block that fits, else a
      victim for a single frame, else nothing. A request for no frames at all breaks the
      table, exactly when some frame is free.
     */
    method GetFrames(num: nat, owner: Option<Eid>) returns (g: Grant)
      requires Valid() && (owner != None ==> num == 1)
      modifies this`prev, cm
      ensures num > 0 ==> Valid()
      ensures num > 0 ==> (g.Found? <==> exists h :: 0 <= h < cm.Length && Fits(old(cm[..]), h, num))
      ensures num > 0 && g.Found? ==> Fits(old(cm[..]), g.page, num) && Taken(old(cm[..]), g.page, num, owner, cm[..])
      ensures g.Found? ==> forall h :: 0 <= h < g.page ==> !Candidate(old(cm[..]), h, num)
      ensures g.Victim? ==> num == 1 && Eligible(old(cm[..]), g.frame) && prev == g.frame
      ensures g.Victim? ==> cm[..] == old(cm[..])[g.frame := old(cm[..])[g.frame].(fixed := true)]
      ensures g.Nothing? ==> cm[..] == old(cm[..]) && prev == old(prev)
      ensures g.Nothing? && num == 1 ==>
        old(cm[prev].nframes) == 0 || forall f :: 0 <= f < cm.Length ==> !Eligible(old(cm[..]), f)
      ensures num == 0 ==> (g.Found? <==> !Partition(cm[..])) && (g.Nothing? <==> Valid())
      ensures num == 0 && g.Found? ==> Candidate(old(cm[..]), g.page, 0) && cm[..] == Emptied(old(cm[..]), g.page)
      ensures num == 0 && g.Nothing? ==> forall k :: 0 <= k < cm.Length ==> cm[k].occ
    {
      ghost var was := cm[..];
      assert Partition(was);
      hide ValidMap, Taken, Passed, Partition;
      var page := FirstFit(num);
      assert cm[..] == was;
      if page < cm.Length {
        assert num > 0 ==> Fits(was, page, num);
        Take(page, num, owner);
        if num == 0 {
          EmptiedBroken(was, page);
          BrokenInvalid(cm[..]);
        }
        return Found(page);
      }
      forall h | 0 <= h < cm.Length && num > 0 ensures !Fits(was, h, num) {
        assert h < first || !Candidate(was, h, num);
      }
      if num == 0 {
        NoneFree(was, first);
      }
      if num != 1 {
        return Nothing;
      }
      var victim := GetVictim();
      g := if victim == -1 then Nothing else Victim(victim);
    }

    /** The inner loop of the sweep: fold the free blocks that follow the free block `i` into it. */
    method Absorb(i: nat) returns (next: nat)
      requires Partition(cm[..]) && Clean(cm[..]) && CoalescedBelow(cm[..], i)
      requires Head(cm[..], i) && !cm[i].occ
      modifies cm
      ensures Partition(cm[..]) && Clean(cm[..]) && CoalescedBelow(cm[..], i)
      ensures Head(cm[..], i) && next == i + cm[i].nframes <= cm.Length
      ensures next < cm.Length ==> cm[next].occ
      ensures next >= i + old(cm[i].nframes)
      ensures SameOccupied(old(cm[..]), cm[..])
    {
      next := i + cm[i].nframes;
      while next < cm.Length && !cm[next].occ
        invariant Partition(cm[..]) && Clean(cm[..]) && CoalescedBelow(cm[..], i)
        invariant Head(cm[..], i) && !cm[i].occ
        invariant i + old(cm[i].nframes) <= next == i + cm[i].nframes <= cm.Length
        invariant SameOccupied(old(cm[..]), cm[..])
        decreases cm.Length - next
      {
        ghost var was := cm[..];
        assert Head(was, next);
        var size := cm[next].nframes;
        cm[i] := cm[i].(nframes := cm[i].nframes + size);
        cm[next] := cm[next].(nframes := 0);
        next := next + size;
        MergeStep(was, i, cm[..]);
      }
    }

    /** The sweep at the end of `free_frame`: merge every run of free blocks into its first block. */
    method Coalesce()
      requires Partition(cm[..]) && Clean(cm[..]) && cm.Length > 0
      modifies cm
      ensures ValidMap(cm[..]) && SameOccupied(old(cm[..]), cm[..])
    {
      var n := cm.Length;
      var i, next := 0, cm[0].nframes;
      assert Head(cm[..], 0);
      while next < n
        invariant Partition(cm[..]) && Clean(cm[..]) && CoalescedBelow(cm[..], i)
        invariant Head(cm[..], i) && next == i + cm[i].nframes <= n
        invariant SameOccupied(old(cm[..]), cm[..])
        decreases n - next
      {
        if !cm[i].occ {
          next := Absorb(i);
          if next >= n { break; }
        }
        SweepStep(cm[..], i);
        i := next;
        next := next + cm[next].nframes;
      }
      SweepEnds(cm[..], i);
    }

    /**
      `free_frame`. When the frame is being written out its owner lets go of it
      but the frame stays claimed; otherwise the block is cleared and the whole
      table is swept from frame 0, merging runs of free blocks.
     */
    method Free(page: nat, swapping: bool)
      requires Valid() && page < cm.Length && cm[page].nframes > 0
      modifies cm
      ensures Valid() <==> page >= first || (old(cm[page].owner) != None && swapping)
      ensures if old(cm[page].owner) != None && swapping
              then cm[..] == old(cm[..])[page := old(cm[page]).(fixed := true, owner := None)]
              else Freed(old(cm[..]), page, cm[..])
    {
      ghost var was := cm[..];
      var size := cm[page].nframes;
      assert Head(was, page);
      if cm[page].owner != None && swapping {
        cm[page] := cm[page].(fixed := true, owner := None);
        RelabelValid(was, page, cm[page]);
        assert cm[..] == was[page := cm[page]];
        return;
      }
      for i := 0 to size
        invariant forall k :: 0 <= k < cm.Length ==>
          cm[k] == if page <= k < page + i then Entry(false, false, was[k].nframes, None) else was[k]
      {
        cm[page + i] := Entry(false, false, cm[page + i].nframes, None);
      }
      ClearedPartition(was, page, cm[..]);
      Coalesce();
      if page >= first {
        FirstStaysHead(was, first, cm[..]);
      } else {
        assert !cm[page].occ;
      }
    }
  }

  /**
    A request for no frames, then a search for any number of frames: if some frame was free, the
    search arrives at the block it left, of length 0, and stays there however long it runs.
   */
  method RequestNothing(t: Table) returns (g: Grant)
    requires t.Valid()
    modifies t`prev, t.cm
    ensures g.Found? <==> exists k :: 0 <= k < t.cm.Length && !old(t.cm[..])[k].occ
    ensures g.Found? ==> g.page < t.cm.Length && t.cm[g.page].nframes == 0
    ensures g.Found? ==>
      forall num: nat, n: nat :: num > 0 && n >= t.cm.Length ==> Walk(t.cm[..], num, t.first, n) == g.page
  {
    ghost var was := t.cm[..];
    g := t.GetFrames(0, None);
    hide ValidMap, Walk;
    if g.Found? {
      assert Partition(was) by { ValidTiles(was); }
      forall num: nat, n: nat | num > 0 && n >= t.cm.Length ensures Walk(t.cm[..], num, t.first, n) == g.page {
        ZeroRequestHangs(was, t.first, g.page, num, n);
      }
    }
  }

  lemma ValidTiles(cm: Map)
    requires ValidMap(cm)
    ensures Partition(cm)
  {
  }
}
