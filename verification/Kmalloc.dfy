/**
  kmalloc and kfree (kern/vm/kmalloc.c) on top of the heap invariant. The lists of pages are
  linked through the page descriptors, the free lists through words in memory. What
  alloc_kpages returns is an argument of the calls that would call it.
 */
module Kmalloc {
  import opened Common
  import opened Heap
  import opened PageLists
  import PageRefs

  /** No page is kept once all its blocks are free. */
  ghost predicate NotIdle(refs: map<nat, Ref>) {
    forall r :: r in refs ==> refs[r].kind < NSIZES && refs[r].nfree < BlockCount(refs[r].kind)
  }

  /** The page run at `p` of `n` pages contains the address `a`. */
  predicate Covers(p: Addr, n: nat, a: Addr) {
    p <= a < p + n * PAGE_SIZE
  }

  /** A page run that alloc_kpages may give out: it meets no page in use. */
  predicate Unused(refs: map<nat, Ref>, big: map<Addr, nat>, p: Addr, n: nat) {
    && InKseg0(p) && p % PAGE_SIZE == 0 && n > 0
    && (forall r :: r in refs ==> !Covers(p, n, refs[r].page))
    && (forall q :: q in big ==> !Covers(p, n, q) && !Covers(q, big[q], p))
  }

  /** Whole-page allocations keep clear of heap pages and of each other. */
  ghost predicate BigOk(refs: map<nat, Ref>, big: map<Addr, nat>) {
    && (forall q :: q in big ==> InKseg0(q) && q % PAGE_SIZE == 0 && big[q] > 0)
    && (forall q, r :: q in big && r in refs ==> !Covers(q, big[q], refs[r].page))
    && (forall q, q' :: q in big && q' in big && q != q' ==> !Covers(q, big[q], q'))
  }

  /** Every page has a descriptor that is taken, under a root that has a page of descriptors. */
  ghost predicate PoolOk(ws: seq<PageRefs.Word>, ps: seq<bool>, refs: map<nat, Ref>) {
    forall r :: r in refs ==> r < PageRefs.TOTAL_PAGEREFS && PageRefs.Marked(ws, r) && !PageRefs.Pageless(ps, r)
  }

  /** A descriptor that allocpageref hands out, or leaves marked, is nobody's. */
  lemma PoolTaken(ws: seq<PageRefs.Word>, ws': seq<PageRefs.Word>, ps: seq<bool>, ps': seq<bool>, refs: map<nat, Ref>,
                  d: nat)
    requires PoolOk(ws, ps, refs) && PageRefs.Taken(ws, ws', d) && (ps' == ps || PageRefs.Rooted(ps, ps', d))
    ensures d !in refs && PoolOk(ws', ps', refs)
  {
    forall r | r in refs ensures PageRefs.Marked(ws', r) && !PageRefs.Pageless(ps', r) {
      assert PageRefs.Marked(ws, r);
    }
  }

  lemma PoolMore(ws: seq<PageRefs.Word>, ps: seq<bool>, refs: map<nat, Ref>, d: nat, ref: Ref)
    requires PoolOk(ws, ps, refs) && d < PageRefs.TOTAL_PAGEREFS && PageRefs.Marked(ws, d) && !PageRefs.Pageless(ps, d)
    ensures PoolOk(ws, ps, refs[d := ref])
  {
  }

  lemma PoolCleared(ws: seq<PageRefs.Word>, ps: seq<bool>, refs: map<nat, Ref>, d: nat)
    requires PoolOk(ws, ps, refs) && d in refs && d / PageRefs.BITS < |ws| && |ws[d / PageRefs.BITS]| == PageRefs.BITS
    ensures PoolOk(PageRefs.Cleared(ws, d), ps, refs - {d})
  {
    forall r | r in refs && r != d ensures PageRefs.Marked(PageRefs.Cleared(ws, d), r) {
      assert PageRefs.Marked(ws, r);
      assert r / PageRefs.BITS != d / PageRefs.BITS || r % PageRefs.BITS != d % PageRefs.BITS;
    }
  }

  /** No descriptor is taken but for a page. */
  ghost predicate NoLeak(ws: seq<PageRefs.Word>, refs: map<nat, Ref>) {
    forall d {:trigger PageRefs.Marked(ws, d)} :: PageRefs.Marked(ws, d) ==> d in refs
  }

  lemma TakenNoLeak(ws: seq<PageRefs.Word>, ws': seq<PageRefs.Word>, refs: map<nat, Ref>, d: nat, ref: Ref)
    requires NoLeak(ws, refs) && PageRefs.Taken(ws, ws', d)
    ensures NoLeak(ws', refs[d := ref])
  {
    forall x: nat | PageRefs.Marked(ws', x) ensures x in refs[d := ref] {
      if x != d {
        assert x / PageRefs.BITS != d / PageRefs.BITS || x % PageRefs.BITS != d % PageRefs.BITS;
        assert PageRefs.Marked(ws, x);
      }
    }
  }

  lemma ClearedNoLeak(ws: seq<PageRefs.Word>, refs: map<nat, Ref>, d: nat)
    requires NoLeak(ws, refs) && d / PageRefs.BITS < |ws| && |ws[d / PageRefs.BITS]| == PageRefs.BITS
    ensures NoLeak(PageRefs.Cleared(ws, d), refs - {d})
  {
    forall x: nat | PageRefs.Marked(PageRefs.Cleared(ws, d), x) ensures x in refs - {d} {
      assert PageRefs.Marked(ws, x) && x != d;
    }
  }

  lemma AlikeNoLeak(ws: seq<PageRefs.Word>, refs: map<nat, Ref>, refs': map<nat, Ref>)
    requires NoLeak(ws, refs) && refs.Keys == refs'.Keys
    ensures NoLeak(ws, refs')
  {
  }

  ghost function Below(n: nat): (r: set<nat>)
    ensures |r| == n && forall x :: x in r <==> 0 <= x < n
  {
    if n == 0 then {} else Below(n - 1) + {n - 1}
  }

  /** There are no more pages than descriptors. */
  lemma FewPages(ws: seq<PageRefs.Word>, ps: seq<bool>, refs: map<nat, Ref>)
    requires PoolOk(ws, ps, refs)
    ensures |refs| <= PageRefs.TOTAL_PAGEREFS
  {
    Subset(refs.Keys, Below(PageRefs.TOTAL_PAGEREFS));
  }

  /** No word outside the page has changed. */
  ghost predicate SameOutside(mem: map<Addr, Addr>, mem': map<Addr, Addr>, page: Addr) {
    forall a :: a in mem && !Within(a, page) ==> a in mem' && mem'[a] == mem[a]
  }

  /** No word but the one at `w` has changed. */
  ghost predicate SameBut(mem: map<Addr, Addr>, mem': map<Addr, Addr>, w: Addr) {
    forall a :: a in mem && a != w ==> a in mem' && mem'[a] == mem[a]
  }

  /** The same pages, cut the same way. */
  ghost predicate Alike(refs: map<nat, Ref>, refs': map<nat, Ref>) {
    refs.Keys == refs'.Keys && forall r :: r in refs ==> refs[r].page == refs'[r].page && refs[r].kind == refs'[r].kind
  }

  lemma AlikeKeeps(refs: map<nat, Ref>, refs': map<nat, Ref>, bySize: seq<seq<nat>>, all: seq<nat>, big: map<Addr, nat>)
    requires Alike(refs, refs') && ListsOk(refs, bySize, all) && BigOk(refs, big)
    ensures ListsOk(refs', bySize, all) && BigOk(refs', big)
  {
    forall k | 0 <= k < NSIZES ensures SizeList(refs', bySize[k], k) {
      assert SizeList(refs, bySize[k], k);
    }
  }

  lemma FreshLists(refs: map<nat, Ref>, bySize: seq<seq<nat>>, all: seq<nat>, r: nat, ref: Ref)
    requires ListsOk(refs, bySize, all) && r !in refs && ref.kind < NSIZES
    ensures |bySize| == NSIZES && ListsOk(refs[r := ref], bySize[ref.kind := [r] + bySize[ref.kind]], [r] + all)
  {
    var refs', bySize' := refs[r := ref], bySize[ref.kind := [r] + bySize[ref.kind]];
    assert forall i :: 0 <= i < |all| ==> all[i] in all;
    forall k | 0 <= k < NSIZES ensures SizeList(refs', bySize'[k], k) {
      assert SizeList(refs, bySize[k], k);
      assert forall i :: 0 <= i < |bySize[k]| ==> bySize[k][i] in bySize[k];
    }
  }

  lemma FreshBig(refs: map<nat, Ref>, big: map<Addr, nat>, r: nat, ref: Ref)
    requires BigOk(refs, big) && r !in refs && Unused(refs, big, ref.page, 1)
    ensures BigOk(refs[r := ref], big)
  {
  }

  /** Blocks of kind `k` are the smallest that hold `sz` bytes. */
  predicate Fits(k: nat, sz: nat) {
    k < NSIZES && sz <= Size(k) && (k == 0 || Size(k - 1) < sz)
  }

  lemma OneFits(k: nat, k': nat, sz: nat)
    requires Fits(k, sz) && Fits(k', sz)
    ensures k == k'
  {
  }

  /** There is a free block of the smallest kind that holds `sz` bytes. */
  ghost predicate Room(refs: map<nat, Ref>, sz: nat) {
    exists r :: r in refs && Fits(refs[r].kind, sz) && refs[r].nfree > 0
  }

  /** The block at `ptr` is of the smallest kind that holds `sz` bytes, on the heap page `page`. */
  predicate Placed(refs: map<nat, Ref>, live: map<Addr, Block>, ptr: Addr, sz: nat, page: Addr) {
    && ptr in live && live[ptr].ref in refs
    && Fits(refs[live[ptr].ref].kind, sz) && refs[live[ptr].ref].page == page
  }

  /** No block of the page described by `r` is in use. */
  ghost predicate Unneeded(live: map<Addr, Block>, r: nat) {
    forall a :: a in live ==> live[a].ref != r
  }

  /** A block of the page of `r` was freed: the page goes back exactly when none of its blocks is left in use. */
  ghost predicate GaveBack(refs: map<nat, Ref>, refs': map<nat, Ref>, live: map<Addr, Block>, r: nat, page: Addr) {
    && r in refs
    && if Unneeded(live, r) then page == refs[r].page > 0 && refs' == refs - {r}
       else page == 0 && refs'.Keys == refs.Keys
  }

  /** A page is needed exactly while not all its blocks are free. */
  lemma NeededIff(mem: map<Addr, Addr>, refs: map<nat, Ref>, free: map<nat, seq<Addr>>, live: map<Addr, Block>, r: nat)
    requires HeapOk(mem, refs, free, live) && r in refs
    ensures RefOk(refs[r]) && (Unneeded(live, r) <==> refs[r].nfree == BlockCount(refs[r].kind))
  {
    HeapPage(mem, refs, free, live, r);
    assert PagesDiffer(refs);
    hide HeapOk, PageOk, OnPage, BlockCount, Size;
    PageFacts(mem, refs[r], free[r], live);
    AllFree(mem, refs[r], free[r], live);
    if refs[r].nfree < BlockCount(refs[r].kind) {
      var a := SomeInUse(mem, refs[r], free[r], live);
      OnItsPage(refs, live, r, a);
    } else {
      forall a | a in live ensures live[a].ref != r {
        assert LiveOk(refs, a, live[a]);
      }
    }
  }

  lemma OnItsPage(refs: map<nat, Ref>, live: map<Addr, Block>, r: nat, a: Addr)
    requires AllLive(refs, live) && PagesDiffer(refs) && r in refs && RefOk(refs[r]) && a in live
    requires OnPage(a, refs[r].page, Size(refs[r].kind))
    ensures live[a].ref == r
  {
    assert LiveOk(refs, a, live[a]);
    if live[a].ref != r {
      PagesApart(a, refs[r].page, refs[live[a].ref].page);
    }
  }

  /** blocktype */
  method BlockType(sz: nat) returns (k: nat)
    requires sz <= LARGEST_SUBPAGE_SIZE
    ensures Fits(k, sz)
  {
    k := 0;
    while k < NSIZES
      invariant k <= NSIZES && (k == 0 || Size(k - 1) < sz)
    {
      if sz <= Size(k) {
        return;
      }
      k := k + 1;
    }
    assert false;
  }

  /** What another thread does in one locked section, or is given by alloc_kpages, or writes to a block it holds. */
  datatype Section =
    | Take(sz: nat)
    | Fresh(sz: nat, page: Addr, gets: bool)
    | Return(ptr: Addr)
    | Run(page: Addr, num: nat)
    | Store(block: Addr, word: Addr, value: Addr)

  /** The section is possible, and leaves what `mine` holds to its holder. */
  predicate Allowed(refs: map<nat, Ref>, live: map<Addr, Block>, big: map<Addr, nat>, op: Section, mine: set<Addr>) {
    match op
    case Take(sz) => sz <= LARGEST_SUBPAGE_SIZE
    case Fresh(sz, p, _) => sz <= LARGEST_SUBPAGE_SIZE && Unused(refs, big, p, 1)
    case Return(ptr) => (ptr in live || ptr in big) && ptr !in mine
    case Run(p, n) => Unused(refs, big, p, n)
    case Store(a, w, _) => a in live && a !in mine && a <= w < a + live[a].sz
  }

  predicate AllGranted(ops: seq<Section>) {
    forall k :: 0 <= k < |ops| && ops[k].Fresh? ==> ops[k].gets
  }

  /** What `mine` holds is still held, and no word of its blocks has changed. */
  ghost predicate Kept(mem: map<Addr, Addr>, mem': map<Addr, Addr>, live: map<Addr, Block>, live': map<Addr, Block>,
                       big: map<Addr, nat>, big': map<Addr, nat>, mine: set<Addr>)
  {
    && (forall a :: a in mine && a in live ==> a in live' && live'[a] == live[a])
    && (forall a :: a in mine && a in big ==> a in big' && big'[a] == big[a])
    && (forall a, w :: a in mine && a in live && w in mem && a <= w < a + live[a].sz ==> w in mem' && mem'[w] == mem[w])
  }

  lemma KeptSelf(mem: map<Addr, Addr>, live: map<Addr, Block>, big: map<Addr, nat>, mine: set<Addr>)
    ensures Kept(mem, mem, live, live, big, big, mine)
  {
  }

  lemma KeptTrans(mem: map<Addr, Addr>, mem1: map<Addr, Addr>, mem2: map<Addr, Addr>,
                  live: map<Addr, Block>, live1: map<Addr, Block>, live2: map<Addr, Block>,
                  big: map<Addr, nat>, big1: map<Addr, nat>, big2: map<Addr, nat>, mine: set<Addr>)
    requires Kept(mem, mem1, live, live1, big, big1, mine) && Kept(mem1, mem2, live1, live2, big1, big2, mine)
    ensures Kept(mem, mem2, live, live2, big, big2, mine)
  {
  }

  lemma KeptMore(mem: map<Addr, Addr>, live: map<Addr, Block>, live': map<Addr, Block>, big: map<Addr, nat>,
                 ptr: Addr, mine: set<Addr>)
    requires ptr == 0 ==> live' == live
    requires ptr != 0 ==> ptr !in live && ptr in live' && live' == live[ptr := live'[ptr]]
    ensures Kept(mem, mem, live, live', big, big, mine)
  {
  }

  lemma KeptBig(mem: map<Addr, Addr>, live: map<Addr, Block>, big: map<Addr, nat>, p: Addr, n: nat, mine: set<Addr>)
    requires p !in big
    ensures Kept(mem, mem, live, live, big, big[p := n], mine)
  {
  }

  /** No block in use has a word on a page that is not the heap's. */
  lemma OffPage(mem: map<Addr, Addr>, refs: map<nat, Ref>, free: map<nat, seq<Addr>>, live: map<Addr, Block>,
                big: map<Addr, nat>, page: Addr, a: Addr, w: Addr)
    requires HeapOk(mem, refs, free, live) && Unused(refs, big, page, 1) && a in live && a <= w < a + live[a].sz
    ensures !Within(w, page)
  {
    hide HeapOk, Size, OnPage;
    LiveFits(mem, refs, free, live, a);
    NewPage(refs, big, page);
    WordElsewhere(a, w, live[a].sz, refs[live[a].ref], refs[live[a].ref].(page := page));
  }

  lemma KeptFresh(mem: map<Addr, Addr>, mem': map<Addr, Addr>, refs: map<nat, Ref>, free: map<nat, seq<Addr>>,
                  live: map<Addr, Block>, live': map<Addr, Block>, big: map<Addr, nat>, page: Addr, ptr: Addr,
                  mine: set<Addr>)
    requires HeapOk(mem, refs, free, live) && Unused(refs, big, page, 1) && SameOutside(mem, mem', page)
    requires ptr == 0 ==> live' == live
    requires ptr != 0 ==> ptr !in live && ptr in live' && live' == live[ptr := live'[ptr]]
    ensures Kept(mem, mem', live, live', big, big, mine)
  {
    hide HeapOk, Unused, Within;
    forall a, w | a in mine && a in live && w in mem && a <= w < a + live[a].sz
      ensures w in mem' && mem'[w] == mem[w]
    {
      OffPage(mem, refs, free, live, big, page, a, w);
    }
  }

  /** Another block shares no word with this one. */
  lemma OtherWord(mem: map<Addr, Addr>, refs: map<nat, Ref>, free: map<nat, seq<Addr>>, live: map<Addr, Block>,
                  a: Addr, b: Addr, w: Addr)
    requires HeapOk(mem, refs, free, live) && a in live && b in live && a != b && b <= w < b + live[b].sz
    ensures !(a <= w < a + live[a].sz)
  {
    hide HeapOk;
    if a < b {
      LiveDisjoint(mem, refs, free, live, a, b);
    } else {
      LiveDisjoint(mem, refs, free, live, b, a);
    }
  }

  /** Another block does not start inside this one. */
  lemma OtherStart(mem: map<Addr, Addr>, refs: map<nat, Ref>, free: map<nat, seq<Addr>>, live: map<Addr, Block>,
                   a: Addr, b: Addr)
    requires HeapOk(mem, refs, free, live) && a in live && b in live && a != b
    ensures !(a <= b < a + live[a].sz)
  {
    hide HeapOk;
    if a < b {
      LiveDisjoint(mem, refs, free, live, a, b);
    }
  }

  lemma KeptReturn(mem: map<Addr, Addr>, mem': map<Addr, Addr>, refs: map<nat, Ref>, free: map<nat, seq<Addr>>,
                   live: map<Addr, Block>, big: map<Addr, nat>, ptr: Addr, mine: set<Addr>)
    requires HeapOk(mem, refs, free, live) && ptr !in mine
    requires SameBut(mem, mem', ptr) && (ptr !in live ==> mem' == mem)
    ensures Kept(mem, mem', live, live - {ptr}, big, big - {ptr}, mine)
    ensures Kept(mem, mem', live, live - {ptr}, big, big, mine) && Kept(mem, mem', live, live, big, big - {ptr}, mine)
  {
    hide HeapOk;
    forall a, w | a in mine && a in live && w in mem && a <= w < a + live[a].sz
      ensures w in mem' && mem'[w] == mem[w]
    {
      if ptr in live && w == ptr {
        OtherStart(mem, refs, free, live, a, ptr);
      }
    }
  }

  lemma KeptWrite(mem: map<Addr, Addr>, refs: map<nat, Ref>, free: map<nat, seq<Addr>>, live: map<Addr, Block>,
                  big: map<Addr, nat>, b: Addr, w: Addr, v: Addr, mine: set<Addr>)
    requires HeapOk(mem, refs, free, live) && b in live && b !in mine && b <= w < b + live[b].sz
    ensures Kept(mem, mem[w := v], live, live, big, big, mine)
  {
    hide HeapOk;
    forall a, x | a in mine && a in live && x in mem && a <= x < a + live[a].sz
      ensures mem[w := v][x] == mem[x]
    {
      if x == w {
        OtherWord(mem, refs, free, live, a, b, w);
      }
    }
  }

  /** A page run that was held all along can become a heap page. */
  lemma Reserved(mem: map<Addr, Addr>, mem': map<Addr, Addr>, live: map<Addr, Block>, live': map<Addr, Block>,
                 big: map<Addr, nat>, big': map<Addr, nat>, refs: map<nat, Ref>, p: Addr, mine: set<Addr>)
    requires p !in big && BigOk(refs, big') && Kept(mem, mem', live, live', big[p := 1], big', mine + {p})
    ensures p in big' && BigOk(refs, big' - {p}) && Unused(refs, big' - {p}, p, 1)
    ensures Kept(mem, mem', live, live', big, big' - {p}, mine)
  {
    assert p in mine + {p};
    LessBig(refs, big', p);
    assert big'[p] == 1;
    assert forall q :: q in big' - {p} ==> !Covers(p, big'[p], q);
  }

  lemma StillKept(mem: map<Addr, Addr>, mem1: map<Addr, Addr>, mem2: map<Addr, Addr>, refs: map<nat, Ref>,
                  free: map<nat, seq<Addr>>, live: map<Addr, Block>, live1: map<Addr, Block>,
                  big: map<Addr, nat>, big1: map<Addr, nat>, page: Addr, mine: set<Addr>)
    requires Kept(mem, mem1, live, live1, big, big1, mine) && HeapOk(mem1, refs, free, live1)
    requires Unused(refs, big1, page, 1) && SameOutside(mem1, mem2, page)
    ensures Kept(mem, mem2, live, live1, big, big1, mine)
  {
    hide HeapOk, Unused, Kept;
    KeptFresh(mem1, mem2, refs, free, live1, live1, big1, page, 0, mine);
    KeptTrans(mem, mem1, mem2, live, live1, live1, big, big1, big1, mine);
  }

  class Kheap {
    /** The first word of every block that is or was free. */
    var mem: map<Addr, Addr>
    var refs: map<nat, Ref>
    /** The lists of the pages of one size and of all pages, through the descriptors. */
    var sizeBases: seq<Option<nat>>
    var allBase: Option<nat>
    var nextSame: map<nat, Option<nat>>
    var nextAll: map<nat, Option<nat>>
    const pool: PageRefs.Pool
    ghost var bySize: seq<seq<nat>>
    ghost var all: seq<nat>
    /** Free blocks by page. */
    ghost var free: map<nat, seq<Addr>>
    /** What clients hold: blocks in use and whole-page allocations. */
    var live: map<Addr, Block>
    var big: map<Addr, nat>

    ghost predicate Listed()
      reads `refs, `sizeBases, `allBase, `nextSame, `nextAll, `bySize, `all
    {
      ListsOk(refs, bySize, all) && LinksOk(sizeBases, nextSame, bySize, allBase, nextAll, all)
    }

    ghost predicate Pooled()
      reads this, pool, pool.words, pool.numinuse, pool.pages
    {
      pool.Valid() && PoolOk(pool.words[..], pool.pages[..], refs)
    }

    /** Every request for a page of descriptors was met, so descriptors are taken for pages and for nothing else. */
    ghost predicate Exact()
      reads this, pool, pool.words, pool.numinuse, pool.pages
    {
      pool.Sound() && NoLeak(pool.words[..], refs)
    }

    ghost predicate Valid()
      reads this, pool, pool.words, pool.numinuse, pool.pages
    {
      HeapOk(mem, refs, free, live) && Listed() && Pooled() && NotIdle(refs) && BigOk(refs, big)
    }

    constructor ()
      ensures Valid() && Exact() && live == map[] && big == map[]
      ensures fresh(pool) && fresh(pool.words) && fresh(pool.numinuse) && fresh(pool.pages)
    {
      mem, refs, all, free, live, big := map[], map[], [], map[], map[], map[];
      bySize := [[], [], [], [], [], [], [], []];
      sizeBases := [None, None, None, None, None, None, None, None];
      allBase, nextSame, nextAll := None, map[], map[];
      pool := new PageRefs.Pool();
      new;
      PageRefs.NoneMarked(pool.words[..]);
    }

    /** The code at the label doalloc: the first free block of the page is handed out. */
    method TakeFrom(r: nat, sz: nat) returns (ptr: Addr)
      requires HeapOk(mem, refs, free, live) && r in refs && RefOk(refs[r])
      requires sz <= Size(refs[r].kind) && refs[r].nfree > 0
      modifies `refs, `free, `live
      ensures r in refs && refs == old(refs)[r := refs[r]]
      ensures refs[r].page == old(refs)[r].page && refs[r].kind == old(refs)[r].kind
      ensures refs[r].nfree == old(refs)[r].nfree - 1 && ptr > 0
      ensures ptr !in old(live) && live == old(live)[ptr := Block(r, sz)]
      ensures HeapOk(mem, refs, free, live)
    {
      hide HeapOk, PageOk, Size, OnPage;
      var ref := refs[r];
      HeapPage(mem, refs, free, live, r);
      PageFacts(mem, ref, free[r], live);
      TakeHeap(mem, refs, free, live, r, ref, free[r], sz);
      ptr := ref.page + ref.off;
      var next := mem[ptr];
      ghost var taken := Taken(mem, ref);
      NextOnPage(mem, ref, free[r], live);
      if next != 0 {
        refs := refs[r := ref.(nfree := ref.nfree - 1, off := next - ref.page)];
      } else {
        refs := refs[r := ref.(nfree := ref.nfree - 1, off := INVALID_OFFSET)];
      }
      assert refs[r] == taken;
      free := free[r := free[r][1..]];
      live := live[ptr := Block(r, sz)];
    }

    /** The search in subpage_kmalloc: the first page of the size with a free block. */
    method Find(k: nat) returns (r: Option<nat>)
      requires Listed() && k < NSIZES
      ensures r.Some? ==> r.value in refs && refs[r.value].kind == k && refs[r.value].nfree > 0
      ensures r.None? ==> forall x :: x in refs && refs[x].kind == k ==> refs[x].nfree == 0
    {
      assert SizeList(refs, bySize[k], k) && Chain(sizeBases[k], nextSame, bySize[k]);
      r := sizeBases[k];
      ghost var i := 0;
      while r.Some?
        invariant i <= |bySize[k]| && r == Nth(bySize[k], i)
        invariant forall j :: 0 <= j < i ==> bySize[k][j] in refs && refs[bySize[k][j]].nfree == 0
        decreases |bySize[k]| - i
      {
        assert bySize[k][i] in bySize[k] && Linked(nextSame, bySize[k], i);
        if refs[r.value].nfree > 0 {
          return;
        }
        r, i := nextSame[r.value], i + 1;
      }
      forall x | x in refs && refs[x].kind == k ensures refs[x].nfree == 0 {
        assert x in bySize[k];
      }
    }

    /** subpage_kmalloc up to the search's failure, which is the result 0. */
    method SubpageKmalloc(sz: nat) returns (ptr: Addr)
      requires Valid() && sz <= LARGEST_SUBPAGE_SIZE
      modifies `refs, `free, `live
      ensures Valid() && (old(Exact()) ==> Exact())
      ensures ptr != 0 <==> old(Room(refs, sz))
      ensures ptr == 0 ==> live == old(live) && refs == old(refs)
      ensures ptr != 0 ==> ptr !in old(live) && ptr in live && live[ptr].sz == sz && live == old(live)[ptr := live[ptr]]
      ensures ptr != 0 ==> refs.Keys == old(refs).Keys && live[ptr].ref in refs && Fits(refs[live[ptr].ref].kind, sz)
    {
      hide HeapOk, ListsOk, LinksOk, BigOk, NoLeak, BlockCount, Size;
      var k := BlockType(sz);
      var r := Find(k);
      if r == None {
        forall x | x in refs && Fits(refs[x].kind, sz) ensures refs[x].nfree == 0 {
          OneFits(k, refs[x].kind, sz);
        }
        return 0;
      }
      ghost var was := refs;
      HeapRef(mem, refs, free, live, r.value);
      ptr := TakeFrom(r.value, sz);
      AlikeKeeps(was, refs, bySize, all, big);
      if NoLeak(pool.words[..], was) {
        AlikeNoLeak(pool.words[..], was, refs);
      }
    }

    /** The loop that threads the free list through a fresh page. */
    method LayFreeList(page: Addr, k: nat)
      requires k < NSIZES
      modifies `mem
      ensures Laid(mem, page, Size(k), BlockCount(k))
      ensures SameOutside(old(mem), mem, page)
    {
      var size, n := Size(k), BlockCount(k);
      assert n > 0 && At(page, size, 0) == page && Within(page, page);
      hide At, Size, BlockCount, Laid, Within;
      LaidFirst(mem, page, size);
      mem := mem[page := 0];
      for i := 1 to n
        invariant Laid(mem, page, size, i)
        invariant forall a :: a in old(mem) && !Within(a, page) ==> a in mem && mem[a] == old(mem)[a]
      {
        AtOnPage(page, k, i);
        LaidNext(mem, page, size, i);
        mem := mem[At(page, size, i) := At(page, size, i - 1)];
      }
    }

    /** A descriptor is put at the front of both its lists. */
    method PushPage(r: nat, k: nat, ghost ref: Ref)
      requires Listed() && r !in refs && k == ref.kind < NSIZES
      modifies `sizeBases, `allBase, `nextSame, `nextAll, `bySize, `all
      ensures ListsOk(refs[r := ref], bySize, all) && LinksOk(sizeBases, nextSame, bySize, allBase, nextAll, all)
    {
      hide ListsOk, LinksOk;
      FreshLists(refs, bySize, all, r, ref);
      OffLists(refs, bySize, all, r);
      LinksLength(sizeBases, nextSame, bySize, allBase, nextAll, all);
      PushLinks(sizeBases, nextSame, bySize, allBase, nextAll, all, r, k);
      nextSame := nextSame[r := sizeBases[k]];
      sizeBases, bySize := sizeBases[k := Some(r)], bySize[k := [r] + bySize[k]];
      nextAll := nextAll[r := allBase];
      allBase, all := Some(r), [r] + all;
    }

    /** A fresh page is cut up and put on both lists. */
    method InstallPage(page: Addr, k: nat, r: nat)
      requires HeapOk(mem, refs, free, live) && Listed() && BigOk(refs, big)
      requires k < NSIZES && r !in refs && Unused(refs, big, page, 1)
      modifies `mem, `refs, `free, `sizeBases, `allBase, `nextSame, `nextAll, `bySize, `all
      ensures HeapOk(mem, refs, free, live) && Listed() && BigOk(refs, big)
      ensures refs == old(refs)[r := FreshRef(page, k)] && SameOutside(old(mem), mem, page)
    {
      hide HeapOk, ListsOk, LinksOk, BigOk, Laid, Within, Size, BlockCount, FreshRef, FreshList;
      ghost var mem0 := mem;
      LayFreeList(page, k);
      var ref := FreshRef(page, k);
      assert Elsewhere(mem0, mem, live, live, page);
      hide Elsewhere;
      NewPage(refs, big, page);
      FreshHeap(mem0, mem, refs, free, live, r, page, k);
      FreshBig(refs, big, r, ref);
      PushPage(r, k, ref);
      refs := refs[r := ref];
      free := free[r := FreshList(page, Size(k), BlockCount(k))];
    }

    /** The first block of a fresh page, described by the fresh descriptor `r`. */
    method FirstBlock(sz: nat, page: Addr, r: nat) returns (ptr: Addr)
      requires Valid() && sz <= LARGEST_SUBPAGE_SIZE && Unused(refs, big, page, 1) && r !in refs
      requires r < PageRefs.TOTAL_PAGEREFS && PageRefs.Marked(pool.words[..], r)
      requires !PageRefs.Pageless(pool.pages[..], r)
      modifies `mem, `refs, `free, `live, `sizeBases, `allBase, `nextSame, `nextAll, `bySize, `all
      ensures Valid() && SameOutside(old(mem), mem, page) && refs.Keys == old(refs).Keys + {r}
      ensures ptr in live && live[ptr].ref == r && Fits(refs[r].kind, sz) && refs[r].page == page
      ensures ptr != 0 && ptr !in old(live) && ptr in live && live[ptr].sz == sz && live == old(live)[ptr := live[ptr]]
    {
      hide HeapOk, ListsOk, LinksOk, BigOk, Size, BlockCount, FreshRef, RefOk, PoolOk, PageRefs.Shape, SameOutside;
      var k := BlockType(sz);
      InstallPage(page, k, r);
      PoolMore(pool.words[..], pool.pages[..], old(refs), r, refs[r]);
      ghost var refs1 := refs;
      HeapRef(mem, refs, free, live, r);
      ptr := TakeFrom(r, sz);
      AlikeKeeps(refs1, refs, bySize, all, big);
      AlikePooled(pool.words[..], pool.pages[..], refs1, refs);
    }

    /**
      The rest of subpage_kmalloc, with a fresh page. It fails, and the page goes back, only
      when there is no descriptor: all are taken, or the page for them could not be had.
     */
    method SubpageFresh(sz: nat, page: Addr, gets: bool) returns (ptr: Addr)
      requires Valid() && sz <= LARGEST_SUBPAGE_SIZE && Unused(refs, big, page, 1)
      modifies `mem, `refs, `free, `live, `sizeBases, `allBase, `nextSame, `nextAll, `bySize, `all
      modifies pool.words, pool.numinuse, pool.pages
      ensures Valid() && (gets && old(Exact()) ==> Exact())
      ensures ptr == 0 ==> live == old(live) && refs == old(refs)
      ensures ptr == 0 && gets ==> forall i :: 0 <= i < pool.words.Length ==> PageRefs.Full(pool.words[i])
      ensures SameOutside(old(mem), mem, page)
      ensures ptr != 0 ==> ptr !in old(live) && ptr in live && live[ptr].sz == sz && live == old(live)[ptr := live[ptr]]
      ensures ptr != 0 ==> Placed(refs, live, ptr, sz, page)
    {
      hide HeapOk, ListsOk, LinksOk, BigOk, Size, BlockCount, FreshRef, RefOk, PoolOk, NoLeak, PageRefs.Shape;
      ghost var ws, ps := pool.words[..], pool.pages[..];
      var d := pool.Alloc(gets);
      if d == None {
        if pool.words[..] != ws {
          ghost var x :| PageRefs.Taken(ws, pool.words[..], x);
          PoolTaken(ws, pool.words[..], ps, pool.pages[..], refs, x);
        }
        return 0;
      }
      PoolTaken(ws, pool.words[..], ps, pool.pages[..], refs, d.value);
      ghost var refs0 := refs;
      ptr := FirstBlock(sz, page, d.value);
      if NoLeak(ws, refs0) {
        TakenNoLeak(ws, pool.words[..], refs0, d.value, refs[d.value]);
        AlikeNoLeak(pool.words[..], refs0[d.value := refs[d.value]], refs);
      }
    }

    /** The search in subpage_kfree: the heap page an address is on, if any. */
    method FindPage(ptr: Addr) returns (r: Option<nat>)
      requires Listed()
      ensures r.Some? ==> r.value in refs && Within(ptr, refs[r.value].page)
      ensures r.None? ==> forall x :: x in refs ==> !Within(ptr, refs[x].page)
    {
      r := allBase;
      ghost var i := 0;
      while r.Some?
        invariant i <= |all| && r == Nth(all, i)
        invariant forall j :: 0 <= j < i ==> all[j] in refs && !Within(ptr, refs[all[j]].page)
        decreases |all| - i
      {
        assert all[i] in all && Linked(nextAll, all, i);
        if Within(ptr, refs[r.value].page) {
          return;
        }
        r, i := nextAll[r.value], i + 1;
      }
      forall x | x in refs ensures !Within(ptr, refs[x].page) {
        assert x in all;
      }
    }

    /** remove_lists: the page is taken off the list of its size and off the list of all pages. */
    method RemoveLists(r: nat)
      requires r in refs && refs[r].kind < NSIZES && Listed()
      modifies `sizeBases, `allBase, `nextSame, `nextAll, `bySize, `all
      ensures ListsOk(refs - {r}, bySize, all) && LinksOk(sizeBases, nextSame, bySize, allBase, nextAll, all)
    {
      var k := refs[r].kind;
      assert SizeList(refs, bySize[k], k);
      hide Chain;
      var head, next;
      ghost var s, a;
      head, next, s := Unlink(sizeBases[k], nextSame, r, bySize[k]);
      OneSize(sizeBases, nextSame, bySize, k, head, next, s, refs, all);
      var base, links;
      base, links, a := Unlink(allBase, nextAll, r, all);
      FewerLists(refs, bySize, all, r, s, a);
      sizeBases, nextSame, bySize := sizeBases[k := head], next, bySize[k := s];
      allBase, nextAll, all := base, links, a;
    }

    /** remove_lists and freepageref; without `ok` an assertion of the latter has failed. */
    method Forget(r: nat) returns (ok: bool)
      requires r in refs && refs[r].kind < NSIZES && Listed() && Pooled()
      modifies `refs, `free, `sizeBases, `allBase, `nextSame, `nextAll, `bySize, `all, pool.words, pool.numinuse
      ensures (old(pool.Sound()) ==> ok) && (old(Exact()) ==> Exact())
      ensures ok ==> refs == old(refs) - {r} && free == old(free) - {r} && Listed() && Pooled()
    {
      hide ListsOk, LinksOk;
      RemoveLists(r);
      ghost var ws := pool.words[..];
      ok := pool.Free(r);
      PoolCleared(ws, pool.pages[..], refs, r);
      if NoLeak(ws, refs) {
        ClearedNoLeak(ws, refs, r);
      }
      refs := refs - {r};
      free := free - {r};
    }

    /** The block goes to the front of the free list of its page. */
    method PutBack(ptr: Addr, r: nat)
      requires Valid() && r in refs && Within(ptr, refs[r].page) && (ptr in live || ptr in big)
      modifies `mem, `refs, `free, `live
      ensures HeapOk(mem, refs, free, live) && Listed() && Pooled() && BigOk(refs, big) && (old(Exact()) ==> Exact())
      ensures ptr in old(live) && old(live)[ptr].ref == r && live == old(live) - {ptr}
      ensures refs == old(refs)[r := Returned(old(refs)[r], ptr)] && RefOk(refs[r])
      ensures refs[r].nfree <= BlockCount(refs[r].kind) && SameBut(old(mem), mem, ptr)
    {
      hide HeapOk, ListsOk, LinksOk, BigOk, PoolOk, NoLeak, PageRefs.Shape, Within, BlockCount;
      ItsPage(mem, refs, free, live, big, ptr, r);
      ReturnHeap(mem, refs, free, live, ptr, r);
      ghost var refs0 := refs;
      mem := mem[ptr := NextOf(refs[r])];
      refs := refs[r := Returned(refs[r], ptr)];
      free := free[r := [ptr] + free[r]];
      live := live - {ptr};
      AlikeKeeps(refs0, refs, bySize, all, big);
      AlikePooled(pool.words[..], pool.pages[..], refs0, refs);
      if NoLeak(pool.words[..], refs0) {
        AlikeNoLeak(pool.words[..], refs0, refs);
      }
      PageCount(mem, refs, free, live, r);
    }

    /**
      subpage_kfree; `page` is the page given back to free_kpages, or 0. The call can fail only
      in freepageref, and not while every root with descriptors taken has a page.
     */
    method SubpageKfree(ptr: Addr) returns (found: bool, page: Addr, ok: bool)
      requires Valid() && (ptr in live || ptr in big)
      modifies `mem, `refs, `free, `live, `sizeBases, `allBase, `nextSame, `nextAll, `bySize, `all
      modifies pool.words, pool.numinuse
      ensures (old(pool.Sound()) ==> ok) && (old(Exact()) ==> Exact())
      ensures ok ==> Valid() && found == (ptr in old(live)) && live == old(live) - {ptr}
      ensures SameBut(old(mem), mem, ptr) && (!found ==> mem == old(mem))
      ensures ok && !found ==> page == 0 && refs == old(refs)
      ensures ok && found ==> GaveBack(old(refs), refs, live, old(live)[ptr].ref, page)
    {
      hide HeapOk, ListsOk, LinksOk, BigOk, PoolOk, NotIdle, PageRefs.Shape, Within, BlockCount, Unneeded;
      var f := FindPage(ptr);
      ok := true;
      if f == None {
        OnNoPage(mem, refs, free, live, ptr);
        found, page := false, 0;
        return;
      }
      var r := f.value;
      page, found := 0, true;
      PutBack(ptr, r);
      StillBusy(old(refs), refs, r);
      NeededIff(mem, refs, free, live, r);
      if refs[r].nfree == BlockCount(refs[r].kind) {
        page := refs[r].page;
        ReleaseHeap(mem, refs, free, live, r);
        FewerBig(refs, big, r);
        assert old(refs)[r := refs[r]] - {r} == old(refs) - {r};
        ok := Forget(r);
      }
    }

    /** kfree: a subpage pointer goes to the heap, any other one back to the page allocator. */
    method Kfree(ptr: Addr) returns (page: Addr, ok: bool)
      requires Valid() && (ptr == 0 || ptr in live || ptr in big)
      modifies this, pool.words, pool.numinuse
      ensures (old(pool.Sound()) ==> ok) && (old(Exact()) ==> Exact())
      ensures ok ==> Valid() && SameBut(old(mem), mem, ptr) && (ptr !in old(live) ==> mem == old(mem))
      ensures ptr == 0 ==> ok && live == old(live) && big == old(big) && page == 0
      ensures ok && ptr in old(live) ==> live == old(live) - {ptr} && big == old(big)
      ensures ok && ptr in old(live) ==> GaveBack(old(refs), refs, live, old(live)[ptr].ref, page)
      ensures ok && ptr !in old(live) ==> refs == old(refs)
      ensures ok && ptr in old(big) ==> big == old(big) - {ptr} && live == old(live) && page == ptr
    {
      hide HeapOk, ListsOk, LinksOk, BigOk, PoolOk, NotIdle;
      ZeroNotIn(mem, refs, free, live, big, ptr);
      if ptr == 0 {
        return 0, true;
      }
      var found;
      found, page, ok := SubpageKfree(ptr);
      if ok && !found {
        page := ptr;
        LessBig(refs, big, ptr);
        big := big - {ptr};
      }
    }

    /** A client may write any word of a block it holds. */
    method ClientWrite(a: Addr, w: Addr, v: Addr)
      requires Valid() && a in live && a <= w < a + live[a].sz
      modifies `mem
      ensures Valid() && mem == old(mem)[w := v]
    {
      WriteHeap(mem, refs, free, live, a, w, v);
      mem := mem[w := v];
    }

    /** One locked section of another thread, or a page run that alloc_kpages gives it. */
    method OtherSection(op: Section, mine: set<Addr>) returns (ok: bool)
      requires Valid() && Allowed(refs, live, big, op, mine)
      modifies this, pool.words, pool.numinuse, pool.pages
      ensures ok ==> Valid() && Kept(old(mem), mem, old(live), live, old(big), big, mine)
      ensures old(Exact()) && (op.Fresh? ==> op.gets) ==> ok && Exact()
    {
      hide HeapOk, ListsOk, LinksOk, BigOk, PoolOk, NotIdle, NoLeak, PageRefs.Shape, Kept, SameOutside, SameBut, Unused;
      ok := true;
      ghost var mem0, refs0, free0, live0, big0 := mem, refs, free, live, big;
      match op {
        case Take(sz) =>
          var ptr := SubpageKmalloc(sz);
          KeptMore(mem, live0, live, big, ptr, mine);
        case Fresh(sz, page, gets) =>
          var ptr := SubpageFresh(sz, page, gets);
          KeptFresh(mem0, mem, refs0, free0, live0, live, big, page, ptr, mine);
        case Return(ptr) =>
          var page;
          page, ok := Kfree(ptr);
          if ok {
            KeptReturn(mem0, mem, refs0, free0, live0, big0, ptr, mine);
            ZeroNotIn(mem0, refs0, free0, live0, big0, ptr);
          }
        case Run(p, n) =>
          MoreBig(refs, big, p, n);
          KeptBig(mem, live, big, p, n, mine);
          big := big[p := n];
        case Store(a, w, v) =>
          KeptWrite(mem, refs, free, live, big, a, w, v, mine);
          ClientWrite(a, w, v);
      }
    }

    /** The lock is free: other threads run, leaving alone what `mine` holds. A section that cannot run does not. */
    method Others(ops: seq<Section>, mine: set<Addr>) returns (ok: bool)
      requires Valid()
      modifies this, pool.words, pool.numinuse, pool.pages
      ensures ok ==> Valid() && Kept(old(mem), mem, old(live), live, old(big), big, mine)
      ensures old(Exact()) && AllGranted(ops) ==> ok && Exact()
      ensures ops == [] ==> ok && live == old(live) && big == old(big) && refs == old(refs) && mem == old(mem)
    {
      hide HeapOk, ListsOk, LinksOk, BigOk, PoolOk, NotIdle, NoLeak, PageRefs.Shape, Kept, Allowed;
      ok := true;
      KeptSelf(mem, live, big, mine);
      for k := 0 to |ops|
        invariant ok && Valid() && Kept(old(mem), mem, old(live), live, old(big), big, mine)
        invariant old(Exact()) && AllGranted(ops) ==> Exact()
        invariant ops == [] ==> live == old(live) && big == old(big) && refs == old(refs) && mem == old(mem)
      {
        if Allowed(refs, live, big, ops[k], mine) {
          ghost var mem1, live1, big1 := mem, live, big;
          ok := OtherSection(ops[k], mine);
          if !ok {
            return;
          }
          KeptTrans(old(mem), mem1, mem, old(live), live1, live, old(big), big1, big, mine);
        }
      }
    }

    /**
      subpage_kmalloc. Between the search and the rest the lock is dropped, and other threads run
      `ops`; `before` is what clients hold when the lock is taken again. The page `granted` is the
      caller's meanwhile.
     */
    method SmallKmalloc(sz: nat, granted: Addr, gets: bool, ops: seq<Section>, mine: set<Addr>)
      returns (ptr: Addr, ok: bool, ghost before: map<Addr, Block>)
      requires Valid() && sz < LARGEST_SUBPAGE_SIZE
      requires granted != 0 ==> Unused(refs, big, granted, 1)
      modifies this, pool.words, pool.numinuse, pool.pages
      ensures old(Exact()) && gets && AllGranted(ops) ==> ok && Exact()
      ensures ok ==> Valid() && Kept(old(mem), mem, old(live), before, old(big), big, mine)
      ensures ok && ptr == 0 ==> live == before
      ensures ok && ptr == 0 && granted != 0 && gets ==>
        forall i :: 0 <= i < pool.words.Length ==> PageRefs.Full(pool.words[i])
      ensures ok && ptr != 0 ==>
        ptr !in before && ptr in live && live[ptr].sz == sz && live == before[ptr := live[ptr]]
      ensures ops == [] ==> ok && before == old(live) && big == old(big)
      ensures old(Room(refs, sz)) ==> ok && ptr != 0 && before == old(live) && big == old(big) && mem == old(mem)
      ensures old(Room(refs, sz)) ==>
        refs.Keys == old(refs).Keys && pool.words[..] == old(pool.words[..]) && pool.pages[..] == old(pool.pages[..])
      ensures !old(Room(refs, sz)) && granted == 0 ==> ok && ptr == 0 && before == old(live) && big == old(big)
      ensures !old(Room(refs, sz)) && ok && ptr != 0 ==> Placed(refs, live, ptr, sz, granted)
    {
      hide HeapOk, ListsOk, LinksOk, BigOk, PoolOk, NotIdle, NoLeak, PageRefs.Shape, Kept, SameOutside, Unused;
      hide Room, Fits, Placed, Listed;
      ok, before := true, live;
      KeptSelf(mem, live, big, mine);
      ptr := SubpageKmalloc(sz);
      if ptr != 0 || granted == 0 {
        return;
      }
      ghost var big0 := big;
      MoreBig(refs, big, granted, 1);
      big := big[granted := 1];
      ok := Others(ops, mine + {granted});
      if !ok {
        return;
      }
      before := live;
      ghost var mem1 := mem;
      Reserved(old(mem), mem, old(live), live, big0, big, refs, granted, mine);
      ghost var refs1, free1 := refs, free;
      big := big - {granted};
      ptr := SubpageFresh(sz, granted, gets);
      StillKept(old(mem), mem1, mem, refs1, free1, old(live), before, big0, big, granted, mine);
      assert ops == [] ==> big0[granted := 1] - {granted} == big0;
    }

    /**
      kmalloc. `granted` is what alloc_kpages returns if it is called, 0 when out of memory;
      `gets` says whether it gives a page for descriptors if it is asked for one; `ops` is what
      other threads do while the lock is dropped, which never touches what `mine` holds.
     */
    method Kmalloc(sz: nat, granted: Addr, gets: bool, ops: seq<Section>, mine: set<Addr>)
      returns (ptr: Addr, ok: bool, ghost before: map<Addr, Block>)
      requires Valid() && sz < WORD
      requires sz < LARGEST_SUBPAGE_SIZE && granted != 0 ==> Unused(refs, big, granted, 1)
      requires sz >= LARGEST_SUBPAGE_SIZE && granted != 0 && Pages(sz) > 0 ==> Unused(refs, big, granted, Pages(sz))
      modifies this, pool.words, pool.numinuse, pool.pages
      ensures old(Exact()) && gets && AllGranted(ops) ==> ok && Exact()
      ensures ok ==> Valid() && Kept(old(mem), mem, old(live), before, old(big), big, mine)
      ensures ok && ptr == 0 ==> live == before
      ensures ok && ptr == 0 && granted != 0 ==>
        && sz < LARGEST_SUBPAGE_SIZE
        && (!gets || forall i :: 0 <= i < pool.words.Length ==> PageRefs.Full(pool.words[i]))
      ensures ptr != 0 && sz >= LARGEST_SUBPAGE_SIZE && Pages(sz) > 0 ==>
        ok && live == old(live) && big == old(big)[ptr := Pages(sz)] && ptr !in old(big)
      ensures ptr != 0 && sz >= LARGEST_SUBPAGE_SIZE && Pages(sz) == 0 ==> ok && live == old(live) && big == old(big)
      ensures ok && ptr != 0 && sz < LARGEST_SUBPAGE_SIZE ==>
        ptr !in before && ptr in live && live[ptr].sz == sz && live == before[ptr := live[ptr]]
      ensures ops == [] && sz < LARGEST_SUBPAGE_SIZE ==> ok && before == old(live) && big == old(big)
      ensures sz >= LARGEST_SUBPAGE_SIZE ==> ptr == granted
      ensures sz < LARGEST_SUBPAGE_SIZE && old(Room(refs, sz)) ==>
        && ok && ptr != 0 && before == old(live) && big == old(big) && mem == old(mem)
        && refs.Keys == old(refs).Keys
        && pool.words[..] == old(pool.words[..]) && pool.pages[..] == old(pool.pages[..])
      ensures sz < LARGEST_SUBPAGE_SIZE && !old(Room(refs, sz)) && granted == 0 ==>
        ok && ptr == 0 && before == old(live) && big == old(big)
      ensures sz < LARGEST_SUBPAGE_SIZE && !old(Room(refs, sz)) && ok && ptr != 0 ==>
        Placed(refs, live, ptr, sz, granted)
    {
      hide HeapOk, ListsOk, LinksOk, PoolOk, NotIdle, NoLeak, PageRefs.Shape, Kept, BigOk, Unused, Room, Fits, Placed;
      if sz >= LARGEST_SUBPAGE_SIZE {
        ok, before := true, live;
        KeptSelf(mem, live, big, mine);
        if granted != 0 && Pages(sz) > 0 {
          hide Pages;
          MoreBig(refs, big, granted, Pages(sz));
          KeptBig(mem, live, big, granted, Pages(sz), mine);
          big := big[granted := Pages(sz)];
        }
        ptr := granted;
        return;
      }
      ptr, ok, before := SmallKmalloc(sz, granted, gets, ops, mine);
    }

    /** checksubpage: the walk ends and every check passes. */
    method CheckSubpage(r: nat) returns (ok: bool)
      requires HeapOk(mem, refs, free, live) && r in refs
      ensures ok
    {
      hide HeapOk, Size;
      HeapPage(mem, refs, free, live, r);
      var ref := refs[r];
      if ref.off == INVALID_OFFSET {
        FirstFree(mem, ref, free[r], live);
        return ref.nfree == 0;
      }
      ghost var fl := free[r];
      FirstFree(mem, ref, fl, live);
      var size := Size(ref.kind);
      ok := ref.kind < NSIZES && MIPS_KSEG0 <= ref.page < MIPS_KSEG1 && ref.off < PAGE_SIZE && ref.off % size == 0;
      var f, nfree := ref.page + ref.off, 0;
      while f != 0
        invariant ok && nfree <= |fl| && f == if nfree < |fl| then fl[nfree] else 0
        decreases |fl| - nfree
      {
        StepFree(mem, ref, fl, live, nfree);
        ok := ok && Within(f, ref.page) && (f - ref.page) % size == 0 && mem[f] != f;
        f := mem[f];
        nfree := nfree + 1;
      }
      ok := ok && nfree == ref.nfree;
    }

    /** The walk over the pages of one size. */
    method CheckSize(k: nat, sc0: nat) returns (ok: bool, sc: nat)
      requires HeapOk(mem, refs, free, live) && Listed() && k < NSIZES && sc0 + |bySize[k]| <= PageRefs.TOTAL_PAGEREFS
      ensures ok && sc == sc0 + |bySize[k]|
    {
      hide HeapOk;
      assert SizeList(refs, bySize[k], k) && Chain(sizeBases[k], nextSame, bySize[k]);
      ok, sc := true, sc0;
      var p := sizeBases[k];
      while p.Some?
        invariant ok && sc0 <= sc <= sc0 + |bySize[k]| && p == Nth(bySize[k], sc - sc0)
        decreases sc0 + |bySize[k]| - sc
      {
        assert bySize[k][sc - sc0] in bySize[k] && Linked(nextSame, bySize[k], sc - sc0);
        ok := CheckSubpage(p.value);
        ok := ok && sc < PageRefs.TOTAL_PAGEREFS;
        sc, p := sc + 1, nextSame[p.value];
      }
    }

    /** The walk over all pages. */
    method CheckAll() returns (ok: bool, ac: nat)
      requires HeapOk(mem, refs, free, live) && Listed() && |all| <= PageRefs.TOTAL_PAGEREFS
      ensures ok && ac == |all|
    {
      hide HeapOk;
      ok, ac := true, 0;
      var p := allBase;
      while p.Some?
        invariant ok && ac <= |all| && p == Nth(all, ac)
        decreases |all| - ac
      {
        assert all[ac] in all && Linked(nextAll, all, ac);
        ok := CheckSubpage(p.value);
        ok := ok && ac < PageRefs.TOTAL_PAGEREFS;
        ac, p := ac + 1, nextAll[p.value];
      }
    }

    /** checksubpages: every page passes, and both sets of lists count the same pages, not too many. */
    method CheckSubpages() returns (ok: bool, sc: nat, ac: nat)
      requires Valid()
      ensures ok && sc == ac == |refs|
    {
      assert Listed() && NotIdle(refs);
      FewPages(pool.words[..], pool.pages[..], refs);
      SameCount(refs, bySize, all);
      hide HeapOk, NotIdle, PoolOk, BigOk, LinksOk, ListsOk, PageRefs.Shape;
      LinksLength(sizeBases, nextSame, bySize, allBase, nextAll, all);
      ok, sc := true, 0;
      for k := 0 to NSIZES
        invariant ok && sc == |Joined(bySize, k)|
      {
        JoinedGrows(bySize, k + 1, NSIZES);
        ok, sc := CheckSize(k, sc);
      }
      ok, ac := CheckAll();
      ok := ok && sc == ac;
    }
  }

  /** The page a block came back to is the only one that can have no block in use. */
  lemma StillBusy(refs: map<nat, Ref>, refs': map<nat, Ref>, r: nat)
    requires NotIdle(refs) && r in refs && r in refs' && refs' == refs[r := refs'[r]] && RefOk(refs'[r])
    requires refs'[r].nfree <= BlockCount(refs'[r].kind)
    ensures NotIdle(refs' - {r}) && (refs'[r].nfree < BlockCount(refs'[r].kind) ==> NotIdle(refs'))
  {
  }

  lemma AlikePooled(ws: seq<PageRefs.Word>, ps: seq<bool>, refs: map<nat, Ref>, refs': map<nat, Ref>)
    requires PoolOk(ws, ps, refs) && refs.Keys == refs'.Keys
    ensures PoolOk(ws, ps, refs')
  {
  }

  lemma OffLists(refs: map<nat, Ref>, bySize: seq<seq<nat>>, all: seq<nat>, r: nat)
    requires ListsOk(refs, bySize, all) && r !in refs
    ensures |bySize| == NSIZES && r !in all && forall k :: 0 <= k < NSIZES ==> r !in bySize[k]
  {
    forall k | 0 <= k < NSIZES ensures r !in bySize[k] {
      assert SizeList(refs, bySize[k], k);
    }
  }

  lemma LinksLength(sizeBases: seq<Option<nat>>, nextSame: map<nat, Option<nat>>, bySize: seq<seq<nat>>,
                    allBase: Option<nat>, nextAll: map<nat, Option<nat>>, all: seq<nat>)
    requires LinksOk(sizeBases, nextSame, bySize, allBase, nextAll, all)
    ensures |sizeBases| == |bySize| == NSIZES
  {
  }

  lemma {:induction false} JoinedGrows(bySize: seq<seq<nat>>, k: nat, n: nat)
    requires k <= n <= |bySize|
    ensures |Joined(bySize, k)| <= |Joined(bySize, n)|
  {
    if k < n {
      JoinedGrows(bySize, k, n - 1);
    }
  }

  /** The whole pages a large request is rounded up to, in 32-bit arithmetic. */
  function Pages(sz: nat): nat {
    (sz + PAGE_SIZE - 1) % WORD / PAGE_SIZE
  }

  /** The pages cover the request exactly when the rounding does not wrap; otherwise there are none. */
  lemma PagesCover(sz: nat)
    requires LARGEST_SUBPAGE_SIZE <= sz < WORD
    ensures Pages(sz) * PAGE_SIZE >= sz <==> sz <= WORD - PAGE_SIZE
    ensures sz > WORD - PAGE_SIZE ==> Pages(sz) == 0
  {
  }

  lemma MoreBig(refs: map<nat, Ref>, big: map<Addr, nat>, p: Addr, n: nat)
    requires BigOk(refs, big) && Unused(refs, big, p, n)
    ensures p !in big && BigOk(refs, big[p := n])
  {
    assert Covers(p, n, p);
  }

  lemma NextOnPage(mem: map<Addr, Addr>, ref: Ref, fl: seq<Addr>, live: map<Addr, Block>)
    requires PageOk(mem, ref, fl, live) && fl != []
    ensures fl[0] in mem && (mem[fl[0]] != 0 ==> Within(mem[fl[0]], ref.page) && |fl| > 1)
  {
    assert Link(mem, fl, 0);
    assert |fl| > 1 ==> OnPage(fl[1], ref.page, Size(ref.kind));
  }

  lemma HeapRef(mem: map<Addr, Addr>, refs: map<nat, Ref>, free: map<nat, seq<Addr>>, live: map<Addr, Block>, r: nat)
    requires HeapOk(mem, refs, free, live) && r in refs
    ensures RefOk(refs[r])
  {
    HeapPage(mem, refs, free, live, r);
  }

  lemma LaidFirst(mem: map<Addr, Addr>, page: Addr, size: nat)
    ensures Laid(mem[page := 0], page, size, 1)
  {
  }

  lemma LaidNext(mem: map<Addr, Addr>, page: Addr, size: nat, i: nat)
    requires Laid(mem, page, size, i) && i > 0 && size > 0
    ensures Laid(mem[At(page, size, i) := At(page, size, i - 1)], page, size, i + 1)
  {
    hide At;
    var mem' := mem[At(page, size, i) := At(page, size, i - 1)];
    forall j: nat | j < i + 1 ensures LaidAt(mem', page, size, j) {
      if j < i {
        assert LaidAt(mem, page, size, j);
        AtDiffers(page, size, j, i);
      }
    }
  }

  lemma NewPage(refs: map<nat, Ref>, big: map<Addr, nat>, page: Addr)
    requires Unused(refs, big, page, 1)
    ensures forall r :: r in refs ==> refs[r].page != page
  {
    forall r | r in refs ensures refs[r].page != page {
      assert !Covers(page, 1, refs[r].page);
    }
  }

  lemma FewerLists(refs: map<nat, Ref>, bySize: seq<seq<nat>>, all: seq<nat>, r: nat, s: seq<nat>, a: seq<nat>)
    requires ListsOk(refs, bySize, all) && r in refs && refs[r].kind < NSIZES
    requires Heap.NoDup(s) && forall x :: x in s <==> x in bySize[refs[r].kind] && x != r
    requires Heap.NoDup(a) && forall x :: x in a <==> x in all && x != r
    ensures ListsOk(refs - {r}, bySize[refs[r].kind := s], a)
  {
    var bySize' := bySize[refs[r].kind := s];
    forall k | 0 <= k < NSIZES ensures SizeList(refs - {r}, bySize'[k], k) {
      assert SizeList(refs, bySize[k], k);
    }
  }

  lemma FewerBig(refs: map<nat, Ref>, big: map<Addr, nat>, r: nat)
    requires BigOk(refs, big)
    ensures BigOk(refs - {r}, big)
  {
  }

  lemma LessBig(refs: map<nat, Ref>, big: map<Addr, nat>, p: Addr)
    requires BigOk(refs, big)
    ensures BigOk(refs, big - {p})
  {
  }

  lemma LiveAt(mem: map<Addr, Addr>, refs: map<nat, Ref>, free: map<nat, seq<Addr>>, live: map<Addr, Block>, a: Addr)
    requires HeapOk(mem, refs, free, live) && a in live
    ensures live[a].ref in refs && RefOk(refs[live[a].ref]) && Within(a, refs[live[a].ref].page) && a > 0
  {
    assert LiveOk(refs, a, live[a]);
  }

  /** A whole-page allocation is on no heap page. */
  lemma BigApart(refs: map<nat, Ref>, big: map<Addr, nat>, q: Addr, r: nat)
    requires BigOk(refs, big) && q in big && r in refs && RefOk(refs[r])
    ensures q > 0 && !Within(q, refs[r].page)
  {
    assert !Covers(q, big[q], refs[r].page) && big[q] > 0;
  }

  lemma OnNoPage(mem: map<Addr, Addr>, refs: map<nat, Ref>, free: map<nat, seq<Addr>>, live: map<Addr, Block>,
                 ptr: Addr)
    requires HeapOk(mem, refs, free, live) && forall x :: x in refs ==> !Within(ptr, refs[x].page)
    ensures ptr !in live && live - {ptr} == live
  {
    hide HeapOk, Within;
    if ptr in live {
      LiveAt(mem, refs, free, live, ptr);
    }
  }

  /** A pointer handed out that lies on a heap page is a block of that page. */
  lemma ItsPage(mem: map<Addr, Addr>, refs: map<nat, Ref>, free: map<nat, seq<Addr>>, live: map<Addr, Block>,
                big: map<Addr, nat>, ptr: Addr, r: nat)
    requires HeapOk(mem, refs, free, live) && BigOk(refs, big) && (ptr in live || ptr in big)
    requires r in refs && Within(ptr, refs[r].page)
    ensures ptr in live && live[ptr].ref == r && refs[r].page <= ptr && RefOk(refs[r]) && r in free
  {
    assert PagesDiffer(refs) && refs.Keys == free.Keys;
    HeapRef(mem, refs, free, live, r);
    hide HeapOk, BigOk;
    if ptr in big {
      BigApart(refs, big, ptr, r);
    } else {
      LiveAt(mem, refs, free, live, ptr);
      if live[ptr].ref != r {
        PagesApart(ptr, refs[r].page, refs[live[ptr].ref].page);
      }
    }
  }

  lemma PageCount(mem: map<Addr, Addr>, refs: map<nat, Ref>, free: map<nat, seq<Addr>>, live: map<Addr, Block>, r: nat)
    requires HeapOk(mem, refs, free, live) && r in refs
    ensures RefOk(refs[r]) && refs[r].nfree <= BlockCount(refs[r].kind)
  {
    HeapPage(mem, refs, free, live, r);
    AllFree(mem, refs[r], free[r], live);
  }

  lemma ZeroNotIn(mem: map<Addr, Addr>, refs: map<nat, Ref>, free: map<nat, seq<Addr>>, live: map<Addr, Block>,
                  big: map<Addr, nat>, a: Addr)
    requires HeapOk(mem, refs, free, live) && BigOk(refs, big)
    ensures a in live || a in big ==> a > 0
    ensures !(a in live && a in big)
  {
    hide HeapOk, Within;
    if a in live {
      LiveAt(mem, refs, free, live, a);
      hide BigOk;
      if a in big {
        BigApart(refs, big, a, live[a].ref);
      }
    }
  }

  lemma FirstFree(mem: map<Addr, Addr>, ref: Ref, fl: seq<Addr>, live: map<Addr, Block>)
    requires PageOk(mem, ref, fl, live)
    ensures RefOk(ref) && ref.nfree == |fl|
    ensures ref.off == INVALID_OFFSET ==> fl == []
    ensures ref.off != INVALID_OFFSET ==>
      fl != [] && fl[0] == ref.page + ref.off && ref.off < PAGE_SIZE && ref.off % Size(ref.kind) == 0
  {
    assert fl != [] ==> OnPage(fl[0], ref.page, Size(ref.kind));
  }

  lemma StepFree(mem: map<Addr, Addr>, ref: Ref, fl: seq<Addr>, live: map<Addr, Block>, i: nat)
    requires PageOk(mem, ref, fl, live) && i < |fl|
    ensures OnPage(fl[i], ref.page, Size(ref.kind)) && fl[i] in mem && fl[i] > 0
    ensures mem[fl[i]] == (if i + 1 < |fl| then fl[i + 1] else 0) && mem[fl[i]] != fl[i]
  {
    assert Link(mem, fl, i) && OnPage(fl[i], ref.page, Size(ref.kind));
  }

  lemma FreeBlock(mem: map<Addr, Addr>, ref: Ref, fl: seq<Addr>, live: map<Addr, Block>, w: Addr)
    requires PageOk(mem, ref, fl, live) && w in fl
    ensures RefOk(ref) && OnPage(w, ref.page, Size(ref.kind)) && Within(w, ref.page) && w !in live
  {
    var i :| 0 <= i < |fl| && fl[i] == w;
    assert OnPage(fl[i], ref.page, Size(ref.kind));
  }

  lemma HeapDiffers(mem: map<Addr, Addr>, refs: map<nat, Ref>, free: map<nat, seq<Addr>>, live: map<Addr, Block>)
    requires HeapOk(mem, refs, free, live)
    ensures PagesDiffer(refs)
  {
  }

  /** A word of a block on one page is not on another page. */
  lemma WordElsewhere(a: Addr, w: Addr, sz: nat, ref: Ref, other: Ref)
    requires RefOk(ref) && RefOk(other) && ref.page != other.page
    requires Within(a, ref.page) && a <= w < a + sz && a + sz <= ref.page + PAGE_SIZE
    ensures !Within(w, other.page)
  {
    assert Within(w, ref.page);
    PagesApart(w, ref.page, other.page);
  }

  /** No word of a block in use is the head of a free block. */
  lemma WriteMisses(mem: map<Addr, Addr>, refs: map<nat, Ref>, free: map<nat, seq<Addr>>, live: map<Addr, Block>,
                    a: Addr, w: Addr, r: nat)
    requires HeapOk(mem, refs, free, live) && a in live && a <= w < a + live[a].sz && r in refs && r in free
    ensures w !in free[r]
  {
    hide HeapOk, PageOk, Size, OnPage, Within, RefOk;
    HeapDiffers(mem, refs, free, live);
    LiveFits(mem, refs, free, live, a);
    HeapPage(mem, refs, free, live, r);
    var ref, r0 := refs[r], live[a].ref;
    if w in free[r] {
      FreeBlock(mem, ref, free[r], live, w);
      if r != r0 {
        WordElsewhere(a, w, live[a].sz, refs[r0], ref);
      } else if a < w {
        BlocksApart(a, w, ref.page, Size(ref.kind));
      }
    }
  }

  lemma LiveFits(mem: map<Addr, Addr>, refs: map<nat, Ref>, free: map<nat, seq<Addr>>, live: map<Addr, Block>, a: Addr)
    requires HeapOk(mem, refs, free, live) && a in live
    ensures live[a].ref in refs && RefOk(refs[live[a].ref])
    ensures OnPage(a, refs[live[a].ref].page, Size(refs[live[a].ref].kind)) && Within(a, refs[live[a].ref].page)
    ensures live[a].sz <= Size(refs[live[a].ref].kind) && a + live[a].sz <= refs[live[a].ref].page + PAGE_SIZE
  {
    assert LiveOk(refs, a, live[a]);
    BlockInPage(a, refs[live[a].ref].page, Size(refs[live[a].ref].kind));
  }

  lemma WriteHeap(mem: map<Addr, Addr>, refs: map<nat, Ref>, free: map<nat, seq<Addr>>, live: map<Addr, Block>,
                  a: Addr, w: Addr, v: Addr)
    requires HeapOk(mem, refs, free, live) && a in live && a <= w < a + live[a].sz
    ensures HeapOk(mem[w := v], refs, free, live)
  {
    hide AllLive, LiveOk, PagesDiffer, Size;
    var mem' := mem[w := v];
    forall r | r in refs ensures PageOk(mem', refs[r], free[r], live) {
      WriteMisses(mem, refs, free, live, a, w, r);
      assert PageOk(mem, refs[r], free[r], live);
      forall i | 0 <= i < |free[r]| ensures Link(mem', free[r], i) {
        assert Link(mem, free[r], i) && free[r][i] in free[r];
      }
    }
  }

  /** A block in use and a whole-page allocation have no byte in common. */
  lemma BigAndSmall(mem: map<Addr, Addr>, refs: map<nat, Ref>, free: map<nat, seq<Addr>>, live: map<Addr, Block>,
                    big: map<Addr, nat>, a: Addr, q: Addr)
    requires HeapOk(mem, refs, free, live) && BigOk(refs, big) && a in live && q in big
    ensures a + live[a].sz <= q || q + big[q] * PAGE_SIZE <= a
  {
    LiveFits(mem, refs, free, live, a);
    hide HeapOk, Size;
    assert !Covers(q, big[q], refs[live[a].ref].page) && q % PAGE_SIZE == 0;
    hide BigOk;
    WholePages(refs[live[a].ref].page, q);
  }

  lemma WholePages(p: Addr, q: Addr)
    requires p % PAGE_SIZE == 0 && q % PAGE_SIZE == 0
    ensures p < q ==> p + PAGE_SIZE <= q
  {
  }
}
