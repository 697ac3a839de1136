/**
  The pool of page descriptors (allocpageref and freepageref in kern/vm/kmalloc.c): sixteen
  roots of eight bitmap words, with a count of the bits set under each root. A word is the
  sequence of its bits.
 */
module PageRefs {
  import opened Common

  const NUM_PAGEREFPAGES := 16
  const INUSE_WORDS := 8
  const BITS := 32
  const NPAGEREFS_PER_PAGE := 256

  type Word = seq<bool>

  function CountBits(w: Word): (n: nat)
    ensures n <= |w| && (n == |w| <==> forall j :: 0 <= j < |w| ==> w[j])
  {
    if w == [] then 0 else
      var n := |w| - 1;
      assert (forall j :: 0 <= j < |w| ==> w[j]) <==> w[n] && forall j :: 0 <= j < n ==> w[..n][j];
      CountBits(w[..n]) + if w[n] then 1 else 0
  }

  lemma {:induction false} CountBitsUpdate(w: Word, j: nat, b: bool)
    requires j < |w| && w[j] != b
    ensures CountBits(w[j := b]) == if b then CountBits(w) + 1 else CountBits(w) - 1
  {
    var n := |w| - 1;
    if j < n {
      assert w[j := b][..n] == w[..n][j := b];
      CountBitsUpdate(w[..n], j, b);
    } else {
      assert w[j := b][..n] == w[..n];
    }
  }

  /** The bits set in the words from `lo` up to `hi`. */
  function CountWords(ws: seq<Word>, lo: nat, hi: nat): nat
    requires lo <= hi <= |ws|
  {
    if lo == hi then 0 else CountWords(ws, lo, hi - 1) + CountBits(ws[hi - 1])
  }

  lemma {:induction false} CountWordsUpdate(ws: seq<Word>, lo: nat, hi: nat, i: nat, w: Word)
    requires lo <= hi <= |ws| && i < |ws|
    ensures CountWords(ws[i := w], lo, hi) + (if lo <= i < hi then CountBits(ws[i]) else 0) ==
            CountWords(ws, lo, hi) + (if lo <= i < hi then CountBits(w) else 0)
  {
    if lo < hi {
      CountWordsUpdate(ws, lo, hi - 1, i, w);
    }
  }

  /** Full counts mean full words. */
  lemma {:induction false} FullCount(ws: seq<Word>, lo: nat, hi: nat)
    requires lo <= hi <= |ws| && forall i :: lo <= i < hi ==> |ws[i]| == BITS
    ensures CountWords(ws, lo, hi) <= (hi - lo) * BITS
    ensures CountWords(ws, lo, hi) == (hi - lo) * BITS ==> forall i :: lo <= i < hi ==> Full(ws[i])
  {
    if lo < hi {
      FullCount(ws, lo, hi - 1);
    }
  }

  predicate Full(w: Word) {
    forall j :: 0 <= j < |w| ==> w[j]
  }

  const NONE: Word := [
    false, false, false, false, false, false, false, false, false, false, false, false, false, false, false, false,
    false, false, false, false, false, false, false, false, false, false, false, false, false, false, false, false]

  lemma {:induction false} NoBits(w: Word)
    requires forall j :: 0 <= j < |w| ==> !w[j]
    ensures CountBits(w) == 0
  {
    if w != [] {
      NoBits(w[..|w| - 1]);
    }
  }

  lemma {:induction false} NoneCounted(ws: seq<Word>, lo: nat, hi: nat)
    requires lo <= hi <= |ws| && forall i :: 0 <= i < |ws| ==> ws[i] == NONE
    ensures CountWords(ws, lo, hi) == 0
  {
    if lo < hi {
      NoBits(NONE);
      NoneCounted(ws, lo, hi - 1);
    }
  }

  function RootCount(ws: seq<Word>, r: nat): nat
    requires |ws| == NUM_PAGEREFPAGES * INUSE_WORDS && r < NUM_PAGEREFPAGES
  {
    CountWords(ws, r * INUSE_WORDS, (r + 1) * INUSE_WORDS)
  }

  /** Descriptor `d` is bit `d % 32` of word `d / 32`. */
  predicate InUse(ws: seq<Word>, d: nat)
    requires d / BITS < |ws| && |ws[d / BITS]| == BITS
  {
    ws[d / BITS][d % BITS]
  }

  ghost predicate Shape(ws: seq<Word>, counts: seq<nat>) {
    && |ws| == NUM_PAGEREFPAGES * INUSE_WORDS && |counts| == NUM_PAGEREFPAGES
    && (forall i :: 0 <= i < |ws| ==> |ws[i]| == BITS)
    && (forall r :: 0 <= r < NUM_PAGEREFPAGES ==> counts[r] == RootCount(ws, r))
  }

  /** Setting or clearing one bit, with its root's count. */
  lemma Flip(ws: seq<Word>, counts: seq<nat>, i: nat, j: nat, b: bool)
    requires Shape(ws, counts) && i < |ws| && j < BITS && ws[i][j] != b
    ensures b || counts[i / INUSE_WORDS] > 0
    ensures var r := i / INUSE_WORDS;
      Shape(ws[i := ws[i][j := b]], counts[r := if b then counts[r] + 1 else counts[r] - 1])
  {
    var w, r := ws[i][j := b], i / INUSE_WORDS;
    CountBitsUpdate(ws[i], j, b);
    forall q | 0 <= q < NUM_PAGEREFPAGES
      ensures RootCount(ws[i := w], q) == RootCount(ws, q) + if q != r then 0 else if b then 1 else -1
    {
      CountWordsUpdate(ws, q * INUSE_WORDS, (q + 1) * INUSE_WORDS, i, w);
    }
  }

  /** Descriptors are numbered through the roots. */
  const TOTAL_PAGEREFS: nat := NUM_PAGEREFPAGES * NPAGEREFS_PER_PAGE

  /** The bit of descriptor `d` is set. */
  predicate Marked(ws: seq<Word>, d: nat) {
    d / BITS < |ws| && |ws[d / BITS]| == BITS && InUse(ws, d)
  }

  class Pool {
    const words: array<Word>
    const numinuse: array<nat>
    /** Whether a root has its page of descriptors. */
    const pages: array<bool>

    ghost predicate Valid()
      reads this, words, numinuse, pages
    {
      Shape(words[..], numinuse[..]) && pages.Length == NUM_PAGEREFPAGES
    }

    /** What freepageref takes for granted: no descriptor is taken under a root without a page. */
    ghost predicate Sound()
      reads this, numinuse, pages
    {
      forall r :: 0 <= r < pages.Length && r < numinuse.Length ==> pages[r] || numinuse[r] == 0
    }

    /** The static array starts as all zeros. */
    constructor ()
      ensures Valid() && Sound() && fresh(words) && fresh(numinuse) && fresh(pages)
      ensures forall i :: 0 <= i < words.Length ==> words[i] == NONE
      ensures forall r :: 0 <= r < NUM_PAGEREFPAGES ==> !pages[r]
    {
      words := new Word[NUM_PAGEREFPAGES * INUSE_WORDS](_ => NONE);
      numinuse := new nat[NUM_PAGEREFPAGES](_ => 0);
      pages := new bool[NUM_PAGEREFPAGES](_ => false);
      new;
      forall r | 0 <= r < NUM_PAGEREFPAGES ensures RootCount(words[..], r) == 0 {
        NoneCounted(words[..], r * INUSE_WORDS, (r + 1) * INUSE_WORDS);
      }
    }

    /**
      allocpageref: the lowest free descriptor, or none when all are in use. `gets` says whether
      alloc_kpages would give a page for the descriptors of a root; without it the descriptor
      stays marked although none is returned.
     */
    method Alloc(gets: bool) returns (d: Option<nat>)
      requires Valid()
      modifies words, numinuse, pages
      ensures Valid() && (gets && old(Sound()) ==> Sound())
      ensures d.Some? ==> Taken(old(words[..]), words[..], d.value) && Rooted(old(pages[..]), pages[..], d.value)
      ensures d.Some? ==> gets || !Pageless(old(pages[..]), d.value)
      ensures d == None ==> pages[..] == old(pages[..])
      ensures d == None ==>
        || (words[..] == old(words[..]) && forall i :: 0 <= i < words.Length ==> Full(words[i]))
        || (!gets && exists x :: Taken(old(words[..]), words[..], x) && Pageless(old(pages[..]), x))
    {
      ghost var ws, ns, ps := words[..], numinuse[..], pages[..];
      var r := 0;
      while r < NUM_PAGEREFPAGES
        invariant r <= NUM_PAGEREFPAGES && Valid() && words[..] == ws && numinuse[..] == ns && pages[..] == ps
        invariant forall i :: 0 <= i < r * INUSE_WORDS ==> Full(ws[i])
      {
        if numinuse[r] < NPAGEREFS_PER_PAGE {
          var i := r * INUSE_WORDS;
          while i < (r + 1) * INUSE_WORDS
            invariant r * INUSE_WORDS <= i <= (r + 1) * INUSE_WORDS
            invariant Valid() && words[..] == ws && numinuse[..] == ns && pages[..] == ps
            invariant forall k :: 0 <= k < i ==> Full(ws[k])
          {
            if !Full(words[i]) {
              var x := TakeBit(r, i);
              d := EnsurePage(r, x, gets);
              return;
            }
            i := i + 1;
          }
        } else {
          FullCount(ws, r * INUSE_WORDS, (r + 1) * INUSE_WORDS);
        }
        r := r + 1;
      }
      d := None;
    }

    /** allocpagerefpage, when the root has no page yet. */
    method EnsurePage(r: nat, x: nat, gets: bool) returns (d: Option<nat>)
      requires r < pages.Length == NUM_PAGEREFPAGES && x / NPAGEREFS_PER_PAGE == r
      modifies pages
      ensures d.Some? <==> old(pages[r]) || gets
      ensures d.Some? ==> d.value == x && Rooted(old(pages[..]), pages[..], x)
      ensures d == None ==> pages[..] == old(pages[..]) && Pageless(pages[..], x)
    {
      if !pages[r] && gets {
        pages[r] := true;
      }
      d := if pages[r] then Some(x) else None;
    }

    /** The bit loop: the first clear bit of a word that has one. */
    method TakeBit(r: nat, i: nat) returns (d: nat)
      requires Valid() && i < words.Length && r == i / INUSE_WORDS && !Full(words[i])
      requires forall k :: 0 <= k < i ==> Full(words[k])
      modifies words, numinuse
      ensures Valid() && Taken(old(words[..]), words[..], d) && d / NPAGEREFS_PER_PAGE == r
      ensures forall q :: 0 <= q < NUM_PAGEREFPAGES && q != r ==> numinuse[q] == old(numinuse[q])
    {
      ghost var ws, ns := words[..], numinuse[..];
      var j := 0;
      while words[i][j]
        invariant j < BITS && forall k :: 0 <= k < j ==> words[i][k]
        invariant words[..] == ws && numinuse[..] == ns
        decreases BITS - j
      {
        assert j + 1 < BITS by { NotFull(words[i], j); }
        j := j + 1;
      }
      Flip(ws, ns, i, j, true);
      words[i] := words[i][j := true];
      numinuse[r] := numinuse[r] + 1;
      assert words[..] == ws[i := ws[i][j := true]];
      assert numinuse[..] == ns[r := ns[r] + 1];
      d := i * BITS + j;
    }

    /**
      freepageref, which looks for the root the descriptor is under. It fails exactly when
      it passes a root that has descriptors taken but no page.
     */
    method Free(d: nat) returns (ok: bool)
      requires Valid() && Marked(words[..], d) && !Pageless(pages[..], d)
      modifies words, numinuse
      ensures Valid() && (old(Sound()) ==> ok && Sound())
      ensures ok <==> forall r :: 0 <= r < d / NPAGEREFS_PER_PAGE ==> pages[r] || old(numinuse[r]) == 0
      ensures words[..] == if ok then Cleared(old(words[..]), d) else old(words[..])
    {
      ghost var ws, ns := words[..], numinuse[..];
      var r := 0;
      while r < d / NPAGEREFS_PER_PAGE
        invariant r <= d / NPAGEREFS_PER_PAGE && words[..] == ws && numinuse[..] == ns
        invariant forall q :: 0 <= q < r ==> pages[q] || ns[q] == 0
      {
        if !pages[r] && numinuse[r] != 0 {
          return false;
        }
        r := r + 1;
      }
      var i, j := d / BITS, d % BITS;
      Flip(ws, ns, i, j, false);
      words[i] := words[i][j := false];
      numinuse[r] := numinuse[r] - 1;
      assert words[..] == ws[i := ws[i][j := false]];
      assert numinuse[..] == ns[r := ns[r] - 1];
      ok := true;
    }
  }

  /** The root of descriptor `d` has no page. */
  predicate Pageless(ps: seq<bool>, d: nat) {
    d / NPAGEREFS_PER_PAGE < |ps| && !ps[d / NPAGEREFS_PER_PAGE]
  }

  /** The root of descriptor `d` has a page now; the other roots are as before. */
  predicate Rooted(ps: seq<bool>, ps': seq<bool>, d: nat) {
    d / NPAGEREFS_PER_PAGE < |ps| && ps' == ps[d / NPAGEREFS_PER_PAGE := true]
  }

  lemma NotFull(w: Word, j: nat)
    requires |w| == BITS && j < BITS && !Full(w) && forall k :: 0 <= k <= j ==> w[k]
    ensures j + 1 < BITS
  {
  }

  /** `ws'` is `ws` with the free descriptor `d` taken, and no lower one was free. */
  ghost predicate Taken(ws: seq<Word>, ws': seq<Word>, d: nat) {
    && d / BITS < |ws| && |ws[d / BITS]| == BITS && !InUse(ws, d)
    && ws' == ws[d / BITS := ws[d / BITS][d % BITS := true]]
    && (forall i :: 0 <= i < d / BITS ==> Full(ws[i]))
    && (forall j :: 0 <= j < d % BITS ==> ws[d / BITS][j])
  }

  function Cleared(ws: seq<Word>, d: nat): seq<Word>
    requires d / BITS < |ws| && |ws[d / BITS]| == BITS
  {
    ws[d / BITS := ws[d / BITS][d % BITS := false]]
  }

  /** Freeing the descriptor just taken restores the bitmap. */
  lemma TakeThenClear(ws: seq<Word>, ws': seq<Word>, d: nat)
    requires Taken(ws, ws', d)
    ensures |ws'[d / BITS]| == BITS && Cleared(ws', d) == ws
  {
    var i, j := d / BITS, d % BITS;
    assert ws[i][j := true][j := false] == ws[i];
  }

  lemma NoneMarked(ws: seq<Word>)
    requires forall i :: 0 <= i < |ws| ==> ws[i] == NONE
    ensures forall d :: !Marked(ws, d)
  {
  }

  /** The descriptors in use are those below `n`. */
  ghost predicate FirstTaken(ws: seq<Word>, n: nat) {
    forall d {:trigger Marked(ws, d)} :: 0 <= d < TOTAL_PAGEREFS ==> (Marked(ws, d) <==> d < n)
  }

  lemma NoneTaken(ws: seq<Word>)
    requires forall i :: 0 <= i < |ws| ==> ws[i] == NONE
    ensures FirstTaken(ws, 0)
  {
  }

  lemma BelowTaken(ws: seq<Word>, ws': seq<Word>, counts: seq<nat>, d: nat, x: nat)
    requires Shape(ws, counts) && Taken(ws, ws', d) && x < d
    ensures Marked(ws, x)
  {
    assert x / BITS < d / BITS || (x / BITS == d / BITS && x % BITS < d % BITS);
    if x / BITS < d / BITS {
      assert Full(ws[x / BITS]);
    }
  }

  /** Descriptors are handed out in order. */
  lemma TakenInOrder(ws: seq<Word>, ws': seq<Word>, counts: seq<nat>, d: nat, n: nat)
    requires Shape(ws, counts) && FirstTaken(ws, n) && Taken(ws, ws', d) && n < TOTAL_PAGEREFS
    ensures d == n && FirstTaken(ws', n + 1)
  {
    assert !Marked(ws, d);
    if n < d {
      BelowTaken(ws, ws', counts, d, n);
    }
    forall x: nat | x < TOTAL_PAGEREFS ensures Marked(ws', x) <==> x < n + 1 {
      assert Marked(ws, x) <==> x < n;
      assert x / BITS == d / BITS && x % BITS == d % BITS ==> x == d;
    }
  }

  lemma NotAllFull(ws: seq<Word>, counts: seq<nat>, n: nat)
    requires Shape(ws, counts) && FirstTaken(ws, n) && n < TOTAL_PAGEREFS
    ensures exists i :: 0 <= i < |ws| && !Full(ws[i])
  {
    assert !Marked(ws, n);
    assert !Full(ws[n / BITS]);
  }

  lemma FirstRootFull(ws: seq<Word>, counts: seq<nat>)
    requires Shape(ws, counts) && FirstTaken(ws, NPAGEREFS_PER_PAGE + 1)
    ensures counts[0] > 0
  {
    assert Marked(ws, 0);
    if counts[0] == 0 {
      Flip(ws, counts, 0, 0, false);
    }
  }

  /**
    A use of the pool that ends in a failed assertion: 256 requests that cannot get a page for
    the first root leave it full and without a page; a descriptor of the second root is then
    handed out, and giving it back fails.
   */
  method FreeFails() returns (ok: bool)
    ensures !ok
  {
    var p := new Pool();
    NoneTaken(p.words[..]);
    for n := 0 to NPAGEREFS_PER_PAGE
      invariant fresh(p.words) && fresh(p.numinuse) && fresh(p.pages)
      invariant p.Valid() && FirstTaken(p.words[..], n) && forall r :: 0 <= r < NUM_PAGEREFPAGES ==> !p.pages[r]
    {
      ghost var ws, ns := p.words[..], p.numinuse[..];
      NotAllFull(ws, ns, n);
      var d := p.Alloc(false);
      if d.Some? {
        TakenInOrder(ws, p.words[..], ns, d.value, n);
        assert false;
      }
      ghost var x :| Taken(ws, p.words[..], x);
      TakenInOrder(ws, p.words[..], ns, x, n);
    }
    ghost var ws, ns := p.words[..], p.numinuse[..];
    NotAllFull(ws, ns, NPAGEREFS_PER_PAGE);
    var d := p.Alloc(true);
    TakenInOrder(ws, p.words[..], ns, d.value, NPAGEREFS_PER_PAGE);
    FirstRootFull(p.words[..], p.numinuse[..]);
    assert Marked(p.words[..], NPAGEREFS_PER_PAGE);
    ok := p.Free(d.value);
  }
}
