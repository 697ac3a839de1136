/**
  The subpage heap (kern/vm/kmalloc.c): pages cut into blocks of one size, with the free
  list of a page threaded through its free blocks. This module holds the invariant that
  the file's own checker looks for, and what follows from it.
 */
module Heap {
  import opened Common
  import opened Digits

  const NSIZES := 8
  const LARGEST_SUBPAGE_SIZE := 2048
  const INVALID_OFFSET := 0xffff

  /** The direct-mapped, cached segment that kernel memory lies in. */
  const MIPS_KSEG0 := 0x8000_0000
  const MIPS_KSEG1 := 0xa000_0000

  type Addr = nat

  predicate InKseg0(a: Addr) {
    MIPS_KSEG0 <= a < MIPS_KSEG1
  }

  /** The block sizes 16, 32, ..., 2048. */
  function Size(k: nat): (size: nat)
    requires k < NSIZES
    ensures 16 <= size <= LARGEST_SUBPAGE_SIZE && PAGE_SIZE % size == 0
    ensures k > 0 ==> size == 2 * Size(k - 1)
  {
    match k
    case 0 => 16
    case 1 => 32
    case 2 => 64
    case 3 => 128
    case 4 => 256
    case 5 => 512
    case 6 => 1024
    case _ => 2048
  }

  /** A page descriptor: page address, block type, offset of the first free block, number of free blocks. */
  datatype Ref = Ref(page: Addr, kind: nat, off: nat, nfree: nat)

  /** A block handed out: the descriptor of its page, and the size the client asked for. */
  datatype Block = Block(ref: nat, sz: nat)

  predicate NoDup<T(==)>(s: seq<T>) {
    forall i, j :: 0 <= i < j < |s| ==> s[i] != s[j]
  }

  predicate Within(a: Addr, page: Addr) {
    page <= a < page + PAGE_SIZE
  }

  /** `a` is the address of a block of the page. */
  predicate OnPage(a: Addr, page: Addr, size: nat)
    requires size > 0
  {
    Within(a, page) && (a - page) % size == 0
  }

  /** The word at the start of a free block points at the next one, or is null at the end. */
  predicate Link(mem: map<Addr, Addr>, fl: seq<Addr>, i: nat)
    requires i < |fl|
  {
    fl[i] in mem && mem[fl[i]] == if i + 1 < |fl| then fl[i + 1] else 0
  }

  /** The free list of a page as it lies in memory is `fl`: the checks of checksubpage. */
  ghost predicate ListOk(mem: map<Addr, Addr>, ref: Ref, fl: seq<Addr>)
    requires ref.kind < NSIZES
  {
    && |fl| == ref.nfree && NoDup(fl)
    && (forall i :: 0 <= i < |fl| ==> OnPage(fl[i], ref.page, Size(ref.kind)))
    && ref.off == (if fl == [] then INVALID_OFFSET else fl[0] - ref.page)
    && (forall i :: 0 <= i < |fl| ==> Link(mem, fl, i))
  }

  predicate RefOk(ref: Ref) {
    ref.kind < NSIZES && ref.page % PAGE_SIZE == 0 && InKseg0(ref.page)
  }

  /** Every block of the page is either free or handed out. */
  ghost predicate PageOk(mem: map<Addr, Addr>, ref: Ref, fl: seq<Addr>, live: map<Addr, Block>) {
    && RefOk(ref) && ListOk(mem, ref, fl)
    && (forall a :: OnPage(a, ref.page, Size(ref.kind)) ==> (a in fl <==> a !in live))
  }

  ghost predicate HeapOk(mem: map<Addr, Addr>, refs: map<nat, Ref>, free: map<nat, seq<Addr>>, live: map<Addr, Block>) {
    AllPages(mem, refs, free, live) && PagesDiffer(refs) && AllLive(refs, live)
  }

  ghost predicate AllPages(mem: map<Addr, Addr>, refs: map<nat, Ref>, free: map<nat, seq<Addr>>,
                           live: map<Addr, Block>)
  {
    free.Keys == refs.Keys && forall r :: r in refs ==> PageOk(mem, refs[r], free[r], live)
  }

  ghost predicate PagesDiffer(refs: map<nat, Ref>) {
    forall r, r' :: r in refs && r' in refs && r != r' ==> refs[r].page != refs[r'].page
  }

  ghost predicate AllLive(refs: map<nat, Ref>, live: map<Addr, Block>) {
    forall a :: a in live ==> LiveOk(refs, a, live[a])
  }

  predicate LiveOk(refs: map<nat, Ref>, a: Addr, b: Block) {
    && b.ref in refs && RefOk(refs[b.ref])
    && OnPage(a, refs[b.ref].page, Size(refs[b.ref].kind)) && b.sz <= Size(refs[b.ref].kind)
  }

  // ------------------------------------------------------------------
  // Addresses

  lemma BlocksApart(a: Addr, b: Addr, page: Addr, size: nat)
    requires size > 0 && OnPage(a, page, size) && OnPage(b, page, size) && a < b
    ensures a + size <= b
  {
    DivMod(a - page, size);
    DivMod(b - page, size);
    var i, j := (a - page) / size, (b - page) / size;
    if j <= i {
      MulMono(size, j, i);
    } else {
      MulMono(size, i + 1, j);
      DistributeOne(size, i);
    }
  }

  lemma BlockInPage(a: Addr, page: Addr, size: nat)
    requires size > 0 && PAGE_SIZE % size == 0 && OnPage(a, page, size)
    ensures a + size <= page + PAGE_SIZE
  {
    DivMod(a - page, size);
    DivMod(PAGE_SIZE, size);
    var i, n := (a - page) / size, PAGE_SIZE / size;
    if n <= i {
      MulMono(size, n, i);
    } else {
      MulMono(size, i + 1, n);
      DistributeOne(size, i);
    }
  }

  lemma PagesApart(a: Addr, p: Addr, q: Addr)
    requires p % PAGE_SIZE == 0 && q % PAGE_SIZE == 0 && p != q && Within(a, p)
    ensures !Within(a, q)
  {
  }

  // ------------------------------------------------------------------
  // What the invariant is for

  /** Blocks in use do not overlap, and each is as large as was asked for. */
  lemma LiveDisjoint(mem: map<Addr, Addr>, refs: map<nat, Ref>, free: map<nat, seq<Addr>>, live: map<Addr, Block>,
                     a: Addr, b: Addr)
    requires HeapOk(mem, refs, free, live) && a in live && b in live && a < b
    ensures a + live[a].sz <= b
  {
    var r, r' := live[a].ref, live[b].ref;
    assert LiveOk(refs, a, live[a]) && LiveOk(refs, b, live[b]);
    if r == r' {
      BlocksApart(a, b, refs[r].page, Size(refs[r].kind));
    } else {
      BlockInPage(a, refs[r].page, Size(refs[r].kind));
      PagesApart(b, refs[r'].page, refs[r].page);
    }
  }

  // ------------------------------------------------------------------
  // How the operations change a page, and nothing else

  /** A page untouched by an operation stays in order. */
  lemma PageFrame(mem: map<Addr, Addr>, mem': map<Addr, Addr>, ref: Ref, fl: seq<Addr>, live: map<Addr, Block>,
                  live': map<Addr, Block>)
    requires PageOk(mem, ref, fl, live)
    requires forall a :: Within(a, ref.page) && a in mem ==> a in mem' && mem'[a] == mem[a]
    requires forall a :: Within(a, ref.page) ==> (a in live <==> a in live')
    ensures PageOk(mem', ref, fl, live')
  {
    forall i | 0 <= i < |fl| ensures Link(mem', fl, i) {
      assert Link(mem, fl, i) && OnPage(fl[i], ref.page, Size(ref.kind));
    }
  }

  function Taken(mem: map<Addr, Addr>, ref: Ref): (ref': Ref)
    requires ref.off + ref.page in mem && ref.nfree > 0
    ensures ref'.page == ref.page && ref'.kind == ref.kind && ref'.nfree == ref.nfree - 1
  {
    var next := mem[ref.page + ref.off];
    ref.(nfree := ref.nfree - 1, off := if next != 0 && next >= ref.page then next - ref.page else INVALID_OFFSET)
  }

  /** Handing out the first free block of a page. */
  lemma TakePage(mem: map<Addr, Addr>, ref: Ref, fl: seq<Addr>, live: map<Addr, Block>, b: Block)
    requires PageOk(mem, ref, fl, live) && fl != []
    ensures fl[0] == ref.page + ref.off && fl[0] in mem && ref.nfree > 0
    ensures PageOk(mem, Taken(mem, ref), fl[1..], live[fl[0] := b])
  {
    assert Link(mem, fl, 0);
    var a, ref', fl', live' := fl[0], Taken(mem, ref), fl[1..], live[fl[0] := b];
    assert forall i :: 0 <= i < |fl'| ==> fl'[i] == fl[i + 1];
    assert |fl| > 1 ==> mem[fl[0]] == fl[1] && OnPage(fl[1], ref.page, Size(ref.kind));
    assert a !in fl';
    forall i | 0 <= i < |fl'| ensures Link(mem, fl', i) {
      assert Link(mem, fl, i + 1);
    }
    assert ListOk(mem, ref', fl');
    forall x | OnPage(x, ref.page, Size(ref.kind)) ensures x in fl' <==> x !in live' {
      if x in fl && x != a {
        var i :| 0 <= i < |fl| && fl[i] == x;
        assert fl'[i - 1] == x;
      }
    }
  }

  function Returned(ref: Ref, a: Addr): Ref
    requires ref.page <= a
  {
    ref.(nfree := ref.nfree + 1, off := a - ref.page)
  }

  /** Putting a block back at the head of the free list. */
  lemma ReturnPage(mem: map<Addr, Addr>, ref: Ref, fl: seq<Addr>, live: map<Addr, Block>, a: Addr)
    requires PageOk(mem, ref, fl, live) && a in live && OnPage(a, ref.page, Size(ref.kind))
    ensures PageOk(mem[a := NextOf(ref)], Returned(ref, a), [a] + fl, live - {a})
  {
    var next := NextOf(ref);
    var mem', fl' := mem[a := next], [a] + fl;
    assert a !in fl;
    assert forall i :: 0 < i < |fl'| ==> fl'[i] == fl[i - 1];
    assert fl != [] ==> OnPage(fl[0], ref.page, Size(ref.kind)) && next == fl[0];
    forall i | 0 <= i < |fl'| ensures Link(mem', fl', i) {
      if i > 0 {
        assert Link(mem, fl, i - 1) && fl[i - 1] != a;
      }
    }
    assert ListOk(mem', Returned(ref, a), fl');
  }

  // ------------------------------------------------------------------
  // A page with no block in use

  function BlockCount(k: nat): nat
    requires k < NSIZES
  {
    PAGE_SIZE / Size(k)
  }

  ghost function Blocks(page: Addr, size: nat, n: nat): set<Addr> {
    if n == 0 then {} else Blocks(page, size, n - 1) + {page + (n - 1) * size}
  }

  lemma {:induction false} BlocksBelow(page: Addr, size: nat, n: nat, a: Addr)
    requires a in Blocks(page, size, n) && size > 0
    ensures a < page + n * size
  {
    DistributeOne(size, n - 1);
    if a != page + (n - 1) * size {
      BlocksBelow(page, size, n - 1, a);
    }
  }

  lemma {:induction false} CountBlocks(page: Addr, size: nat, n: nat)
    requires size > 0
    ensures |Blocks(page, size, n)| == n
  {
    if n > 0 {
      CountBlocks(page, size, n - 1);
      var last := page + (n - 1) * size;
      if last in Blocks(page, size, n - 1) {
        BlocksBelow(page, size, n - 1, last);
      }
    }
  }

  lemma {:induction false} InBlocks(page: Addr, size: nat, n: nat, j: nat)
    requires j < n
    ensures page + j * size in Blocks(page, size, n)
  {
    if j < n - 1 {
      InBlocks(page, size, n - 1, j);
    }
  }

  lemma OnPageInBlocks(a: Addr, page: Addr, k: nat)
    requires k < NSIZES && OnPage(a, page, Size(k))
    ensures a in Blocks(page, Size(k), BlockCount(k))
  {
    var size, n := Size(k), BlockCount(k);
    DivMod(a - page, size);
    DivMod(PAGE_SIZE, size);
    var j := (a - page) / size;
    if j >= n {
      MulMono(size, n, j);
    }
    InBlocks(page, size, n, j);
  }

  ghost function Members(s: seq<Addr>): set<Addr> {
    set x | x in s
  }

  lemma {:induction false} CountMembers(s: seq<Addr>)
    requires NoDup(s)
    ensures |Members(s)| == |s|
  {
    if s != [] {
      var n := |s| - 1;
      CountMembers(s[..n]);
      assert s == s[..n] + [s[n]];
      assert Members(s) == Members(s[..n]) + {s[n]};
      assert forall i :: 0 <= i < n ==> s[..n][i] != s[n];
    }
  }

  lemma Subset(a: set<Addr>, b: set<Addr>)
    requires a <= b
    ensures |a| <= |b| && (|a| == |b| ==> a == b)
  {
    assert b == a + (b - a);
    assert |b| == |a| + |b - a|;
  }

  /** There are never more free blocks than blocks, and when there are as many, nothing on the page is in use. */
  lemma AllFree(mem: map<Addr, Addr>, ref: Ref, fl: seq<Addr>, live: map<Addr, Block>)
    requires PageOk(mem, ref, fl, live)
    ensures ref.nfree <= BlockCount(ref.kind)
    ensures ref.nfree == BlockCount(ref.kind) ==> forall a :: OnPage(a, ref.page, Size(ref.kind)) ==> a !in live
  {
    var n := BlockCount(ref.kind);
    var s, all := Members(fl), Blocks(ref.page, Size(ref.kind), n);
    CountMembers(fl);
    CountBlocks(ref.page, Size(ref.kind), n);
    forall a | OnPage(a, ref.page, Size(ref.kind)) ensures a in all {
      OnPageInBlocks(a, ref.page, ref.kind);
    }
    Subset(s, all);
  }

  // ------------------------------------------------------------------
  // The whole heap

  /** An address on one page is on no other. */
  lemma OtherPage(p: Addr, q: Addr)
    requires p % PAGE_SIZE == 0 && q % PAGE_SIZE == 0 && p != q
    ensures forall a :: Within(a, p) ==> !Within(a, q)
  {
  }

  /** Outside the page nothing is different. */
  ghost predicate Elsewhere(mem: map<Addr, Addr>, mem': map<Addr, Addr>, live: map<Addr, Block>,
                            live': map<Addr, Block>, page: Addr)
  {
    && (forall a :: a in mem && !Within(a, page) ==> a in mem' && mem'[a] == mem[a])
    && (forall a :: !Within(a, page) ==> (a in live <==> a in live'))
  }

  lemma OtherPageOk(mem: map<Addr, Addr>, mem': map<Addr, Addr>, live: map<Addr, Block>, live': map<Addr, Block>,
                    page: Addr, ref: Ref, fl: seq<Addr>)
    requires PageOk(mem, ref, fl, live) && Elsewhere(mem, mem', live, live', page)
    requires page % PAGE_SIZE == 0 && page != ref.page
    ensures PageOk(mem', ref, fl, live')
  {
    OtherPage(ref.page, page);
    hide Within, ListOk;
    PageFrame(mem, mem', ref, fl, live, live');
  }

  lemma LiveOkStill(refs: map<nat, Ref>, r: nat, ref: Ref, a: Addr, b: Block)
    requires r in refs && ref.page == refs[r].page && ref.kind == refs[r].kind && LiveOk(refs, a, b)
    ensures LiveOk(refs[r := ref], a, b)
  {
  }

  /** A change to one page, described by the page lemmas above, leaves the heap in order. */
  lemma OnePage(mem: map<Addr, Addr>, mem': map<Addr, Addr>, refs: map<nat, Ref>, free: map<nat, seq<Addr>>,
                live: map<Addr, Block>, live': map<Addr, Block>, r: nat, ref: Ref, fl: seq<Addr>)
    requires HeapOk(mem, refs, free, live) && r in refs && ref.page == refs[r].page && ref.kind == refs[r].kind
    requires PageOk(mem', ref, fl, live') && Elsewhere(mem, mem', live, live', ref.page)
    requires AllLive(refs, live')
    ensures HeapOk(mem', refs[r := ref], free[r := fl], live')
  {
    hide PageOk, AllLive, Elsewhere;
    SameLive(refs, r, ref, live');
    HeapPage(mem, refs, free, live, r);
    PageFacts(mem, refs[r], free[r], live);
    OtherPages(mem, mem', refs, free, live, live', r, ref, fl);
    hide AllPages, RefOk;
  }

  lemma OtherPages(mem: map<Addr, Addr>, mem': map<Addr, Addr>, refs: map<nat, Ref>, free: map<nat, seq<Addr>>,
                   live: map<Addr, Block>, live': map<Addr, Block>, r: nat, ref: Ref, fl: seq<Addr>)
    requires AllPages(mem, refs, free, live) && PagesDiffer(refs) && r in refs && ref.page == refs[r].page && RefOk(ref)
    requires PageOk(mem', ref, fl, live') && Elsewhere(mem, mem', live, live', ref.page)
    ensures AllPages(mem', refs[r := ref], free[r := fl], live')
  {
    hide PageOk, Elsewhere;
    forall r' | r' in refs && r' != r ensures PageOk(mem', refs[r'], free[r'], live') {
      OtherPageOk(mem, mem', live, live', ref.page, refs[r'], free[r']);
    }
  }

  lemma SameLive(refs: map<nat, Ref>, r: nat, ref: Ref, live: map<Addr, Block>)
    requires AllLive(refs, live) && r in refs && ref.page == refs[r].page && ref.kind == refs[r].kind
    ensures AllLive(refs[r := ref], live)
  {
    hide LiveOk;
    forall a | a in live ensures LiveOk(refs[r := ref], a, live[a]) {
      LiveOkStill(refs, r, ref, a, live[a]);
    }
  }

  lemma PageFacts(mem: map<Addr, Addr>, ref: Ref, fl: seq<Addr>, live: map<Addr, Block>)
    requires PageOk(mem, ref, fl, live)
    ensures RefOk(ref) && |fl| == ref.nfree && (fl != [] ==> OnPage(fl[0], ref.page, Size(ref.kind)) && fl[0] !in live)
  {
    if fl != [] {
      assert OnPage(fl[0], ref.page, Size(ref.kind)) && fl[0] in fl;
    }
  }

  /** The first free block of the page can be handed out, and the heap is in order afterwards. */
  ghost predicate CanHandOut(mem: map<Addr, Addr>, refs: map<nat, Ref>, free: map<nat, seq<Addr>>,
                             live: map<Addr, Block>, r: nat, ref: Ref, fl: seq<Addr>, sz: nat)
  {
    && fl != [] && fl[0] == ref.page + ref.off && fl[0] in mem && ref.nfree > 0 && fl[0] !in live
    && HeapOk(mem, refs[r := Taken(mem, ref)], free[r := fl[1..]], live[fl[0] := Block(r, sz)])
  }

  lemma TakeHeap(mem: map<Addr, Addr>, refs: map<nat, Ref>, free: map<nat, seq<Addr>>, live: map<Addr, Block>,
                 r: nat, ref: Ref, fl: seq<Addr>, sz: nat)
    requires HeapOk(mem, refs, free, live) && r in refs && r in free && ref == refs[r] && fl == free[r] && fl != []
    requires RefOk(ref) && sz <= Size(ref.kind)
    ensures CanHandOut(mem, refs, free, live, r, ref, fl, sz)
  {
    hide HeapOk, PageOk, Taken, Size;
    var live' := live[fl[0] := Block(r, sz)];
    HeapPage(mem, refs, free, live, r);
    PageFacts(mem, ref, fl, live);
    TakePage(mem, ref, fl, live, Block(r, sz));
    TakeElsewhere(mem, live, fl[0], Block(r, sz), ref);
    MoreLive(refs, live, fl[0], Block(r, sz));
    hide OnPage, Within, Elsewhere, RefOk, AllLive;
    OnePage(mem, mem, refs, free, live, live', r, Taken(mem, ref), fl[1..]);
  }

  lemma HeapPage(mem: map<Addr, Addr>, refs: map<nat, Ref>, free: map<nat, seq<Addr>>, live: map<Addr, Block>, r: nat)
    requires HeapOk(mem, refs, free, live) && r in refs
    ensures r in free && PageOk(mem, refs[r], free[r], live) && AllLive(refs, live)
  {
  }

  lemma MoreLive(refs: map<nat, Ref>, live: map<Addr, Block>, a: Addr, b: Block)
    requires AllLive(refs, live) && LiveOk(refs, a, b)
    ensures AllLive(refs, live[a := b])
  {
  }

  lemma FewerLive(refs: map<nat, Ref>, live: map<Addr, Block>, a: Addr)
    requires AllLive(refs, live)
    ensures AllLive(refs, live - {a})
  {
  }

  lemma TakeElsewhere(mem: map<Addr, Addr>, live: map<Addr, Block>, a: Addr, b: Block, ref: Ref)
    requires RefOk(ref) && OnPage(a, ref.page, Size(ref.kind))
    ensures Elsewhere(mem, mem, live, live[a := b], ref.page)
  {
  }

  lemma ReturnElsewhere(mem: map<Addr, Addr>, live: map<Addr, Block>, a: Addr, next: Addr, ref: Ref)
    requires RefOk(ref) && OnPage(a, ref.page, Size(ref.kind))
    ensures Elsewhere(mem, mem[a := next], live, live - {a}, ref.page)
  {
  }

  function NextOf(ref: Ref): Addr {
    if ref.off == INVALID_OFFSET then 0 else ref.page + ref.off
  }

  lemma ReturnHeap(mem: map<Addr, Addr>, refs: map<nat, Ref>, free: map<nat, seq<Addr>>, live: map<Addr, Block>,
                   a: Addr, r: nat)
    requires HeapOk(mem, refs, free, live) && a in live && r == live[a].ref && r in refs && refs[r].page <= a
    ensures HeapOk(mem[a := NextOf(refs[r])], refs[r := Returned(refs[r], a)], free[r := [a] + free[r]], live - {a})
  {
    var ref, mem' := refs[r], mem[a := NextOf(refs[r])];
    assert LiveOk(refs, a, live[a]);
    hide PageOk, Size, OnPage;
    ReturnPage(mem, ref, free[r], live, a);
    ReturnElsewhere(mem, live, a, NextOf(ref), ref);
    FewerLive(refs, live, a);
    hide AllLive, LiveOk, HeapOk, Within, Elsewhere;
    OnePage(mem, mem', refs, free, live, live - {a}, r, Returned(ref, a), [a] + free[r]);
  }

  /** Giving back a page all of whose blocks are free. */
  lemma ReleaseHeap(mem: map<Addr, Addr>, refs: map<nat, Ref>, free: map<nat, seq<Addr>>, live: map<Addr, Block>,
                    r: nat)
    requires HeapOk(mem, refs, free, live) && r in refs
    requires refs[r].kind < NSIZES && refs[r].nfree == BlockCount(refs[r].kind)
    ensures HeapOk(mem, refs - {r}, free - {r}, live)
  {
    hide PageOk, AllLive, BlockCount, Size;
    HeapPage(mem, refs, free, live, r);
    PageFacts(mem, refs[r], free[r], live);
    AllFree(mem, refs[r], free[r], live);
    ReleaseLive(refs, live, r);
  }

  lemma ReleaseLive(refs: map<nat, Ref>, live: map<Addr, Block>, r: nat)
    requires AllLive(refs, live) && r in refs && RefOk(refs[r])
    requires forall a :: OnPage(a, refs[r].page, Size(refs[r].kind)) ==> a !in live
    ensures AllLive(refs - {r}, live)
  {
    hide OnPage, Size;
    forall a | a in live ensures LiveOk(refs - {r}, a, live[a]) {
      assert LiveOk(refs, a, live[a]);
    }
  }

  // ------------------------------------------------------------------
  // A fresh page

  /** The address of block `j`. */
  function At(page: Addr, size: nat, j: nat): Addr {
    MulMono(size, 0, j);
    page + j * size
  }

  /** The links laid down in a fresh page: every block points at the one before it. */
  ghost predicate Laid(mem: map<Addr, Addr>, page: Addr, size: nat, n: nat) {
    forall j: nat :: j < n ==> LaidAt(mem, page, size, j)
  }

  predicate LaidAt(mem: map<Addr, Addr>, page: Addr, size: nat, j: nat) {
    At(page, size, j) in mem && mem[At(page, size, j)] == if j == 0 then 0 else At(page, size, j - 1)
  }

  /** The free list of a fresh page: the blocks from the last to the first. */
  ghost function FreshList(page: Addr, size: nat, n: nat): (fl: seq<Addr>)
    ensures |fl| == n && forall i :: 0 <= i < n ==> fl[i] == At(page, size, n - 1 - i)
  {
    if n == 0 then [] else [At(page, size, n - 1)] + FreshList(page, size, n - 1)
  }

  lemma AtDiffers(page: Addr, size: nat, i: nat, j: nat)
    requires i < j && size > 0
    ensures At(page, size, i) < At(page, size, j)
  {
    MulMono(size, i + 1, j);
    DistributeOne(size, i);
  }

  /** Block `j` of `n` starts at a multiple of the size and ends in the page. */
  lemma BlockOffset(size: nat, n: nat, j: nat)
    requires size > 0 && size * n <= PAGE_SIZE && j < n
    ensures 0 <= j * size && j * size + size <= PAGE_SIZE && j * size % size == 0
  {
    MulMono(size, j + 1, n);
    DistributeOne(size, j);
    MulMono(size, 0, j);
    DivModUnique(j * size, size, j, 0);
  }

  lemma AtOnPage(page: Addr, k: nat, j: nat)
    requires k < NSIZES && j < BlockCount(k)
    ensures OnPage(At(page, Size(k), j), page, Size(k))
  {
    var size, n := Size(k), BlockCount(k);
    DivMod(PAGE_SIZE, size);
    hide Size, BlockCount;
    BlockOffset(size, n, j);
  }

  lemma OnPageAt(a: Addr, page: Addr, k: nat) returns (j: nat)
    requires k < NSIZES && OnPage(a, page, Size(k))
    ensures j < BlockCount(k) && a == At(page, Size(k), j)
  {
    var size, n := Size(k), BlockCount(k);
    DivMod(a - page, size);
    DivMod(PAGE_SIZE, size);
    j := (a - page) / size;
    if j >= n {
      MulMono(size, n, j);
    }
  }

  lemma {:induction false} BlockIndex(page: Addr, size: nat, n: nat, a: Addr) returns (j: nat)
    requires a in Blocks(page, size, n)
    ensures j < n && a == At(page, size, j)
  {
    if a == page + (n - 1) * size {
      j := n - 1;
    } else {
      j := BlockIndex(page, size, n - 1, a);
    }
  }

  /** With fewer free blocks than blocks, some block of the page is in use. */
  lemma SomeInUse(mem: map<Addr, Addr>, ref: Ref, fl: seq<Addr>, live: map<Addr, Block>) returns (a: Addr)
    requires PageOk(mem, ref, fl, live) && ref.nfree < BlockCount(ref.kind)
    ensures a in live && OnPage(a, ref.page, Size(ref.kind))
  {
    var n := BlockCount(ref.kind);
    var s, all := Members(fl), Blocks(ref.page, Size(ref.kind), n);
    CountMembers(fl);
    CountBlocks(ref.page, Size(ref.kind), n);
    if all <= s {
      Subset(all, s);
    }
    a :| a in all && a !in s;
    var j := BlockIndex(ref.page, Size(ref.kind), n, a);
    AtOnPage(ref.page, ref.kind, j);
  }

  function FreshRef(page: Addr, k: nat): (ref: Ref)
    requires k < NSIZES
    ensures ref.page == page && ref.kind == k && ref.nfree == BlockCount(k) > 0
  {
    Ref(page, k, At(0, Size(k), BlockCount(k) - 1), BlockCount(k))
  }

  lemma FreshPage(mem: map<Addr, Addr>, page: Addr, k: nat, live: map<Addr, Block>)
    requires k < NSIZES && Laid(mem, page, Size(k), BlockCount(k)) && page % PAGE_SIZE == 0 && InKseg0(page)
    requires forall a :: Within(a, page) ==> a !in live
    ensures PageOk(mem, FreshRef(page, k), FreshList(page, Size(k), BlockCount(k)), live)
  {
    hide Size, BlockCount, At, FreshList, Laid, ListOk, OnPage, FreshRef;
    FreshListOk(mem, page, k);
    forall a | OnPage(a, page, Size(k)) ensures a in FreshList(page, Size(k), BlockCount(k)) && a !in live {
      FreshHas(page, k, a);
    }
  }

  lemma FreshHas(page: Addr, k: nat, a: Addr)
    requires k < NSIZES && OnPage(a, page, Size(k))
    ensures a in FreshList(page, Size(k), BlockCount(k)) && Within(a, page)
  {
    hide Size, BlockCount, At, FreshList;
    var n := BlockCount(k);
    var j := OnPageAt(a, page, k);
    assert FreshList(page, Size(k), n)[n - 1 - j] == a;
  }

  lemma FreshListOk(mem: map<Addr, Addr>, page: Addr, k: nat)
    requires k < NSIZES && Laid(mem, page, Size(k), BlockCount(k))
    ensures ListOk(mem, FreshRef(page, k), FreshList(page, Size(k), BlockCount(k)))
  {
    var size, n := Size(k), BlockCount(k);
    var fl := FreshList(page, size, n);
    assert n > 0 && FreshRef(page, k).off == At(page, size, n - 1) - page;
    FreshLinks(mem, page, size, n);
    hide Size, BlockCount, At, FreshList, Laid, OnPage, Link;
    forall i | 0 <= i < n ensures OnPage(fl[i], page, size) {
      AtOnPage(page, k, n - 1 - i);
    }
    forall i, j | 0 <= i < j < n ensures fl[i] != fl[j] {
      AtDiffers(page, size, n - 1 - j, n - 1 - i);
    }
  }

  lemma FreshLinks(mem: map<Addr, Addr>, page: Addr, size: nat, n: nat)
    requires Laid(mem, page, size, n)
    ensures forall i :: 0 <= i < n ==> Link(mem, FreshList(page, size, n), i)
  {
    hide At, FreshList;
    var fl := FreshList(page, size, n);
    forall i | 0 <= i < n ensures Link(mem, fl, i) {
      var j: nat := n - 1 - i;
      assert LaidAt(mem, page, size, j) && fl[i] == At(page, size, j);
      assert i + 1 < n ==> fl[i + 1] == At(page, size, j - 1);
    }
  }

  lemma FreshHeap(mem: map<Addr, Addr>, mem': map<Addr, Addr>, refs: map<nat, Ref>, free: map<nat, seq<Addr>>,
                  live: map<Addr, Block>, r: nat, page: Addr, k: nat)
    requires HeapOk(mem, refs, free, live) && r !in refs && k < NSIZES && page % PAGE_SIZE == 0 && InKseg0(page)
    requires forall r' :: r' in refs ==> refs[r'].page != page
    requires Laid(mem', page, Size(k), BlockCount(k)) && Elsewhere(mem, mem', live, live, page)
    ensures HeapOk(mem', refs[r := FreshRef(page, k)], free[r := FreshList(page, Size(k), BlockCount(k))], live)
  {
    var ref, fl := FreshRef(page, k), FreshList(page, Size(k), BlockCount(k));
    hide PageOk, Size, BlockCount, FreshList, Laid, Elsewhere, AllLive;
    NoneLive(mem, refs, free, live, page);
    FreshPage(mem', page, k, live);
    MoreRefs(refs, live, r, ref);
    MorePages(mem, mem', refs, free, live, r, ref, fl);
  }

  lemma MorePages(mem: map<Addr, Addr>, mem': map<Addr, Addr>, refs: map<nat, Ref>, free: map<nat, seq<Addr>>,
                  live: map<Addr, Block>, r: nat, ref: Ref, fl: seq<Addr>)
    requires AllPages(mem, refs, free, live) && PageOk(mem', ref, fl, live) && RefOk(ref)
    requires Elsewhere(mem, mem', live, live, ref.page) && forall r' :: r' in refs ==> refs[r'].page != ref.page
    ensures AllPages(mem', refs[r := ref], free[r := fl], live)
  {
    hide PageOk, Elsewhere;
    forall r' | r' in refs ensures PageOk(mem', refs[r'], free[r'], live) {
      OtherPageOk(mem, mem', live, live, ref.page, refs[r'], free[r']);
    }
  }

  lemma NoneLive(mem: map<Addr, Addr>, refs: map<nat, Ref>, free: map<nat, seq<Addr>>, live: map<Addr, Block>,
                 page: Addr)
    requires HeapOk(mem, refs, free, live) && page % PAGE_SIZE == 0
    requires forall r' :: r' in refs ==> refs[r'].page != page
    ensures forall a :: Within(a, page) ==> a !in live
  {
    hide PageOk, Size;
    forall a | Within(a, page) ensures a !in live {
      if a in live {
        assert LiveOk(refs, a, live[a]);
        PagesApart(a, page, refs[live[a].ref].page);
      }
    }
  }

  lemma MoreRefs(refs: map<nat, Ref>, live: map<Addr, Block>, r: nat, ref: Ref)
    requires AllLive(refs, live) && r !in refs
    ensures AllLive(refs[r := ref], live)
  {
    forall a | a in live ensures LiveOk(refs[r := ref], a, live[a]) {
      assert LiveOk(refs, a, live[a]);
    }
  }

  // ------------------------------------------------------------------
  // The two kinds of page lists

  /** Every descriptor is once on the list of all pages and once on the list of its size. */
  ghost predicate ListsOk(refs: map<nat, Ref>, bySize: seq<seq<nat>>, all: seq<nat>) {
    && |bySize| == NSIZES && NoDup(all) && (forall r :: r in all <==> r in refs)
    && (forall k :: 0 <= k < NSIZES ==> SizeList(refs, bySize[k], k))
  }

  ghost predicate SizeList(refs: map<nat, Ref>, s: seq<nat>, k: nat) {
    NoDup(s) && forall r :: r in s <==> r in refs && refs[r].kind == k
  }

  /** The first `k` size lists one after the other. */
  ghost function Joined(bySize: seq<seq<nat>>, k: nat): seq<nat>
    requires k <= |bySize|
  {
    if k == 0 then [] else Joined(bySize, k - 1) + bySize[k - 1]
  }

  lemma {:induction false} JoinedOk(refs: map<nat, Ref>, bySize: seq<seq<nat>>, all: seq<nat>, k: nat)
    requires ListsOk(refs, bySize, all) && k <= NSIZES
    ensures NoDup(Joined(bySize, k)) && forall r :: r in Joined(bySize, k) <==> r in refs && refs[r].kind < k
  {
    if k > 0 {
      JoinedOk(refs, bySize, all, k - 1);
      assert SizeList(refs, bySize[k - 1], k - 1);
      var s, t := Joined(bySize, k - 1), bySize[k - 1];
      assert forall i :: 0 <= i < |s| ==> s[i] in s;
      assert forall i :: 0 <= i < |t| ==> t[i] in t;
    }
  }

  /** What checksubpages counts: both sets of lists hold the same number of pages. */
  lemma SameCount(refs: map<nat, Ref>, bySize: seq<seq<nat>>, all: seq<nat>)
    requires ListsOk(refs, bySize, all) && forall r :: r in refs ==> refs[r].kind < NSIZES
    ensures |Joined(bySize, NSIZES)| == |all| == |refs|
  {
    JoinedOk(refs, bySize, all, NSIZES);
    CountMembers(Joined(bySize, NSIZES));
    CountMembers(all);
    assert Members(all) == refs.Keys && Members(Joined(bySize, NSIZES)) == refs.Keys;
  }
}
