/**
  Loading a program on demand, page by page (load_page in kern/vm/addrspace.c), against
  loading whole segments at once (load_segment and load_elf in kern/syscall/loadelf.c).
 */
module LoadPage {
  import opened Common

  /** The user half of the address space ends here (MIPS_KSEG0). */
  const USERSPACETOP := 0x8000_0000

  /** A program header of the executable; its fields are unsigned ints. */
  datatype Segment = Segment(vaddr: nat, memsz: nat, offset: nat, filesz: nat)

  type Memory = map<nat, int>

  /** Frames are handed out zeroed, so what has not been written reads as zero. */
  function Byte(mem: Memory, a: nat): int {
    if a in mem then mem[a] else 0
  }

  predicate Contains(s: Segment, a: nat) {
    s.vaddr <= a < s.vaddr + s.memsz
  }

  function PageOf(a: nat): nat {
    a - a % PAGE_SIZE
  }

  function Min(x: nat, y: nat): nat {
    if x <= y then x else y
  }

  function Max(x: nat, y: nat): nat {
    if x >= y then x else y
  }

  /** How many bytes of the segment come from the file. */
  function FilePart(s: Segment): nat {
    Min(s.memsz, s.filesz)
  }

  /** The segment lies in user space, and what it takes from a file of length `len` is there. */
  predicate Proper(len: nat, s: Segment) {
    && s.vaddr + s.memsz <= USERSPACETOP && s.offset < WORD && s.filesz < WORD
    && (FilePart(s) == 0 || s.offset + FilePart(s) <= len)
  }

  ghost predicate AllProper(len: nat, segs: seq<Segment>) {
    forall i :: 0 <= i < |segs| ==> Proper(len, segs[i])
  }

  /** Moreover no page belongs to two segments. */
  ghost predicate Sane(len: nat, segs: seq<Segment>) {
    && AllProper(len, segs)
    && (forall i, j, a, b :: 0 <= i < j < |segs| && Contains(segs[i], a) && Contains(segs[j], b) ==>
          PageOf(a) != PageOf(b))
  }

  /** The byte a segment specifies: from the file first, zero after that. */
  function SegmentByte(file: seq<int>, s: Segment, a: nat): int
    requires Proper(|file|, s)
  {
    if s.vaddr <= a < s.vaddr + FilePart(s) then file[s.offset + (a - s.vaddr)] else 0
  }

  /** The byte the program specifies. */
  ghost function Image(file: seq<int>, segs: seq<Segment>, a: nat): int
    requires AllProper(|file|, segs)
  {
    if segs == [] then 0
    else if Contains(segs[|segs| - 1], a) then SegmentByte(file, segs[|segs| - 1], a)
    else Image(file, segs[..|segs| - 1], a)
  }

  /** `n` bytes can be read from the file at `offset`. */
  predicate Readable(len: nat, offset: nat, n: nat) {
    n == 0 || offset + n <= len
  }

  /** Copying `n` bytes of the file from `offset` to `vaddr`. */
  function Copied(mem: Memory, file: seq<int>, offset: nat, vaddr: nat, n: nat): Memory
    requires Readable(|file|, offset, n)
  {
    if n == 0 then mem else Copied(mem, file, offset, vaddr, n - 1)[vaddr + n - 1 := file[offset + n - 1]]
  }

  /** load_segment: file bytes up to the memory size; it fails on a file that is too short. */
  method LoadSegment(mem: Memory, file: seq<int>, offset: nat, vaddr: nat, memsize: nat, filesize: nat)
    returns (ok: bool, mem': Memory)
    ensures ok <==> Readable(|file|, offset, Min(filesize, memsize))
    ensures ok ==> mem' == Copied(mem, file, offset, vaddr, Min(filesize, memsize))
  {
    var n := filesize;
    if n > memsize {
      n := memsize;
    }
    mem' := mem;
    var i := 0;
    while i < n && offset + i < |file|
      invariant i <= n && Readable(|file|, offset, i) && mem' == Copied(mem, file, offset, vaddr, i)
    {
      mem' := mem'[vaddr + i := file[offset + i]];
      i := i + 1;
    }
    ok := i == n;
  }

  // ------------------------------------------------------------------
  // One page

  /** The first address of the page of `va` that lies in the segment, and the end of what does. */
  function Lo(s: Segment, va: nat): nat {
    Max(PageOf(va), s.vaddr)
  }

  function Hi(s: Segment, va: nat): nat {
    Min(PageOf(va) + PAGE_SIZE, s.vaddr + s.memsz)
  }

  /** Where in the file an address of the segment is, as an unsigned int. */
  function OffsetOf(s: Segment, a: nat): nat
    requires s.vaddr <= a
  {
    (s.offset + (a - s.vaddr)) % WORD
  }

  /** Where in the file the page starts and where the segment ends. */
  function FirstOffset(s: Segment, va: nat): nat
    requires Contains(s, va)
  {
    OffsetOf(s, Lo(s, va))
  }

  function FileEnd(s: Segment): nat {
    (s.offset + s.filesz) % WORD
  }

  /** How many bytes of the file the page gets. */
  function ReadLength(s: Segment, va: nat): nat
    requires Contains(s, va)
  {
    LoHi(s, va);
    if FirstOffset(s, va) >= FileEnd(s) then 0
    else Min(FileEnd(s) - FirstOffset(s, va), Hi(s, va) - Lo(s, va))
  }

  lemma LoHi(s: Segment, va: nat)
    requires Contains(s, va)
    ensures Lo(s, va) <= va < Hi(s, va)
  {
  }

  predicate LoadOk(len: nat, s: Segment, va: nat)
    requires Contains(s, va)
  {
    Readable(len, FirstOffset(s, va), ReadLength(s, va))
  }

  /** What the page of `va` gets from its segment; nothing when the file is too short. */
  function PageLoaded(mem: Memory, file: seq<int>, s: Segment, va: nat): Memory
    requires Contains(s, va)
  {
    if !LoadOk(|file|, s, va) then mem
    else Copied(mem, file, FirstOffset(s, va), Lo(s, va), ReadLength(s, va))
  }

  /** The first segment, from `i` on, that an address lies in. */
  function SegmentOf(segs: seq<Segment>, va: nat, i: nat): (k: nat)
    requires exists j :: i <= j < |segs| && Contains(segs[j], va)
    ensures i <= k < |segs| && Contains(segs[k], va) && forall j :: i <= j < k ==> !Contains(segs[j], va)
    decreases |segs| - i
  {
    if i < |segs| && Contains(segs[i], va) then i else SegmentOf(segs, va, i + 1)
  }

  /** load_page: find the segment, clip to the page, to the segment and to the file, and read. */
  method Load(mem: Memory, file: seq<int>, segs: seq<Segment>, va: nat)
    returns (ok: bool, mem': Memory)
    requires AllProper(|file|, segs) && exists i :: 0 <= i < |segs| && Contains(segs[i], va)
    ensures ok <==> LoadOk(|file|, segs[SegmentOf(segs, va, 0)], va)
    ensures ok ==> mem' == PageLoaded(mem, file, segs[SegmentOf(segs, va, 0)], va)
  {
    var i := 0;
    while i < |segs| && !Contains(segs[i], va)
      invariant i <= |segs| && forall j :: 0 <= j < i ==> !Contains(segs[j], va)
    {
      i := i + 1;
    }
    assert i == SegmentOf(segs, va, 0);
    var s := segs[i];
    assert Proper(|file|, s);
    hide PageOf, Copied, OffsetOf, FileEnd, LoadOk, PageLoaded, Proper, Hi, SegmentOf;
    ClipFacts(|file|, s, va);
    var vaddr := PageOf(va);
    if vaddr < s.vaddr {
      vaddr := s.vaddr;
    }
    var msize := PAGE_SIZE - vaddr % PAGE_SIZE;
    if s.vaddr + s.memsz < vaddr + msize {
      msize := s.vaddr + s.memsz - vaddr;
    }
    var first, fileEnd := OffsetOf(s, vaddr), FileEnd(s);
    if first >= fileEnd {
      ReadsNothing(mem, file, s, va);
      return true, mem;
    }
    var fsize := if msize > fileEnd - first then fileEnd - first else msize;
    ClipsRight(mem, file, s, va, msize, fsize);
    ok, mem' := LoadSegment(mem, file, first, vaddr, msize, fsize);
  }

  /** The clipping to the page and to the segment; no sum of it wraps. */
  lemma ClipFacts(len: nat, s: Segment, va: nat)
    requires Proper(len, s) && Contains(s, va)
    ensures var lo := Lo(s, va); var m := PAGE_SIZE - lo % PAGE_SIZE;
      && s.vaddr <= lo && lo + m < WORD
      && Hi(s, va) - lo == if s.vaddr + s.memsz < lo + m then s.vaddr + s.memsz - lo else m
  {
    PageBounds(va, s.vaddr);
    LoHi(s, va);
    hide PageOf;
  }

  lemma ReadsNothing(mem: Memory, file: seq<int>, s: Segment, va: nat)
    requires Contains(s, va) && FirstOffset(s, va) >= FileEnd(s)
    ensures LoadOk(|file|, s, va) && PageLoaded(mem, file, s, va) == mem
  {
  }

  lemma ClipsRight(mem: Memory, file: seq<int>, s: Segment, va: nat, msize: nat, fsize: nat)
    requires Contains(s, va) && msize == Hi(s, va) - Lo(s, va) && FirstOffset(s, va) < FileEnd(s)
    requires fsize == if msize > FileEnd(s) - FirstOffset(s, va) then FileEnd(s) - FirstOffset(s, va) else msize
    ensures Min(fsize, msize) == ReadLength(s, va)
    ensures LoadOk(|file|, s, va) <==> Readable(|file|, FirstOffset(s, va), Min(fsize, msize))
    ensures LoadOk(|file|, s, va) ==>
      PageLoaded(mem, file, s, va) == Copied(mem, file, FirstOffset(s, va), Lo(s, va), Min(fsize, msize))
  {
  }

  lemma PageBounds(va: nat, start: nat)
    requires start <= va
    ensures PageOf(va) <= va < PageOf(va) + PAGE_SIZE
    ensures Max(PageOf(va), start) - Max(PageOf(va), start) % PAGE_SIZE == PageOf(va)
  {
  }

  // ------------------------------------------------------------------
  // What ends up in memory

  lemma {:induction false} CopiedByte(mem: Memory, file: seq<int>, offset: nat, vaddr: nat, n: nat, a: nat)
    requires Readable(|file|, offset, n)
    ensures Byte(Copied(mem, file, offset, vaddr, n), a) ==
            if vaddr <= a < vaddr + n then file[offset + (a - vaddr)] else Byte(mem, a)
  {
    if n > 0 {
      CopiedByte(mem, file, offset, vaddr, n - 1, a);
    }
  }

  lemma SamePage(a: nat, b: nat)
    ensures PageOf(a) == PageOf(b) <==> PageOf(b) <= a < PageOf(b) + PAGE_SIZE
  {
  }

  /** The address gets its byte from the file when the page of `va` is loaded. */
  predicate Read(len: nat, s: Segment, va: nat, a: nat)
    requires Contains(s, va)
  {
    LoadOk(len, s, va) && Lo(s, va) <= a < Lo(s, va) + ReadLength(s, va)
  }

  /** One load copies from where the code reads in the file and touches nothing else. */
  lemma PageLoadedByte(mem: Memory, file: seq<int>, s: Segment, va: nat, a: nat)
    requires Contains(s, va)
    ensures Read(|file|, s, va, a) ==> PageOf(a) == PageOf(va)
    ensures Byte(PageLoaded(mem, file, s, va), a) ==
            if Read(|file|, s, va, a) then file[FirstOffset(s, va) + (a - Lo(s, va))] else Byte(mem, a)
  {
    SamePage(a, va);
    LoHi(s, va);
    hide PageOf;
    if LoadOk(|file|, s, va) {
      CopiedByte(mem, file, FirstOffset(s, va), Lo(s, va), ReadLength(s, va), a);
    }
  }

  // ------------------------------------------------------------------
  // When a page gets what the segment specifies

  /**
    The offsets do not wrap, as far as it matters: if the end of the file part is an unsigned
    int, so is the offset of the page; if it is not, the page lies past the file part.
   */
  predicate Fits(s: Segment, va: nat)
    requires Contains(s, va)
  {
    if s.offset + s.filesz < WORD then s.offset + (Lo(s, va) - s.vaddr) < WORD
    else s.filesz <= Lo(s, va) - s.vaddr
  }

  /** The load succeeds and a fresh frame then holds the bytes the segment specifies. */
  ghost predicate GivesSegment(file: seq<int>, s: Segment, va: nat)
    requires Proper(|file|, s) && Contains(s, va)
  {
    && LoadOk(|file|, s, va)
    && forall a :: PageOf(a) == PageOf(va) ==> Byte(PageLoaded(map[], file, s, va), a) == SegmentByte(file, s, a)
  }

  /** Without wrapping, the page is read from its own place in the file, and up to its end. */
  lemma FitsReads(len: nat, s: Segment, va: nat, a: nat)
    requires Proper(len, s) && Contains(s, va) && Fits(s, va)
    ensures LoadOk(len, s, va)
    ensures Read(len, s, va, a) <==> PageOf(a) == PageOf(va) && s.vaddr <= a < s.vaddr + FilePart(s)
    ensures Read(len, s, va, a) ==> FirstOffset(s, va) + (a - Lo(s, va)) == s.offset + (a - s.vaddr)
  {
    hide PageOf, OffsetOf, FileEnd;
    SamePage(a, va);
    PageBounds(va, s.vaddr);
    LoHi(s, va);
    FitsLength(len, s, va);
    hide ReadLength;
  }

  lemma FitsLength(len: nat, s: Segment, va: nat)
    requires Proper(len, s) && Contains(s, va) && Fits(s, va)
    ensures var skip := Lo(s, va) - s.vaddr;
      && 0 <= skip && Lo(s, va) <= Hi(s, va)
      && ReadLength(s, va) == (if s.filesz <= skip then 0 else Min(s.filesz - skip, Hi(s, va) - Lo(s, va)))
      && (ReadLength(s, va) > 0 ==> FirstOffset(s, va) == s.offset + skip)
  {
    PageBounds(va, s.vaddr);
    LoHi(s, va);
    hide PageOf;
  }

  lemma FitsGives(file: seq<int>, s: Segment, va: nat)
    requires Proper(|file|, s) && Contains(s, va) && Fits(s, va)
    ensures GivesSegment(file, s, va)
  {
    hide PageOf, LoadOk, Read, PageLoaded, FirstOffset, Lo;
    FitsReads(|file|, s, va, va);
    forall a | PageOf(a) == PageOf(va) ensures Byte(PageLoaded(map[], file, s, va), a) == SegmentByte(file, s, a) {
      FitsReads(|file|, s, va, a);
      PageLoadedByte(map[], file, s, va, a);
    }
  }

  /** A file of zeros with a single one. */
  function OneAt(len: nat, k: nat): (f: seq<int>)
    ensures |f| == len && forall i :: 0 <= i < len ==> f[i] == if i == k then 1 else 0
  {
    seq(len, i => if i == k then 1 else 0)
  }

  /** The place in the file that tells a wrapped load from a right one. */
  function Telling(s: Segment, va: nat): nat
    requires Contains(s, va) && !Fits(s, va)
  {
    var first := s.offset + (Lo(s, va) - s.vaddr);
    if s.offset + s.filesz < WORD then first - WORD else first
  }

  /** With wrapping, some file makes the first byte of the page wrong, or cannot be loaded. */
  lemma WrapsWrong(len: nat, s: Segment, va: nat)
    requires Proper(len, s) && Contains(s, va) && !Fits(s, va)
    ensures var file := OneAt(len, Telling(s, va)); var lo := Lo(s, va);
      && PageOf(lo) == PageOf(va)
      && (LoadOk(len, s, va) ==> Byte(PageLoaded(map[], file, s, va), lo) != SegmentByte(file, s, lo))
  {
    var lo := Lo(s, va);
    SamePage(lo, va);
    PageBounds(va, s.vaddr);
    LoHi(s, va);
    PageLoadedByte(map[], OneAt(len, Telling(s, va)), s, va, lo);
    hide PageOf, PageLoaded;
  }

  /** A page gets the segment's bytes from every file exactly when its offsets do not wrap. */
  lemma LoadGivesIff(len: nat, s: Segment, va: nat)
    requires Proper(len, s) && Contains(s, va)
    ensures Fits(s, va) <==> forall file: seq<int> :: |file| == len ==> GivesSegment(file, s, va)
  {
    hide Fits, LoadOk, PageLoaded, SegmentByte;
    if Fits(s, va) {
      forall file: seq<int> | |file| == len ensures GivesSegment(file, s, va) {
        FitsGives(file, s, va);
      }
    } else {
      WrapsWrong(len, s, va);
      assert !GivesSegment(OneAt(len, Telling(s, va)), s, va);
    }
  }

  // ------------------------------------------------------------------
  // The image of the program

  /** On a page of a segment the program's image is the segment's. */
  lemma {:induction false} ImageOnPage(file: seq<int>, segs: seq<Segment>, i: nat, va: nat, a: nat)
    requires Sane(|file|, segs) && i < |segs| && Contains(segs[i], va) && PageOf(a) == PageOf(va)
    ensures Image(file, segs, a) == SegmentByte(file, segs[i], a)
  {
    var n := |segs| - 1;
    if i == n {
      forall j | 0 <= j < n ensures !Contains(segs[j], a) {
      }
      NoImage(file, segs[..n], a);
    } else {
      assert !Contains(segs[n], a);
      ImageOnPage(file, segs[..n], i, va, a);
    }
  }

  lemma {:induction false} NoImage(file: seq<int>, segs: seq<Segment>, a: nat)
    requires AllProper(|file|, segs) && forall i :: 0 <= i < |segs| ==> !Contains(segs[i], a)
    ensures Image(file, segs, a) == 0
  {
    if segs != [] {
      NoImage(file, segs[..|segs| - 1], a);
    }
  }

  // ------------------------------------------------------------------
  // Eager and demand loading

  /** Loading every segment whole, as load_elf does without paging. */
  ghost function Eager(file: seq<int>, segs: seq<Segment>): Memory
    requires AllProper(|file|, segs)
  {
    if segs == [] then map[] else
      var s := segs[|segs| - 1];
      Copied(Eager(file, segs[..|segs| - 1]), file, s.offset, s.vaddr, FilePart(s))
  }

  lemma {:induction false} EagerByte(file: seq<int>, segs: seq<Segment>, a: nat)
    requires Sane(|file|, segs)
    ensures Byte(Eager(file, segs), a) == Image(file, segs, a)
  {
    if segs != [] {
      var n := |segs| - 1;
      var s, m := segs[n], Eager(file, segs[..n]);
      EagerByte(file, segs[..n], a);
      CopiedByte(m, file, s.offset, s.vaddr, FilePart(s), a);
      if Contains(s, a) {
        assert Contains(segs[n], a) && PageOf(a) <= a;
        forall j | 0 <= j < n ensures !Contains(segs[j], a) {
        }
        NoImage(file, segs[..n], a);
      }
    }
  }

  /** A fault on an address inside a segment. */
  ghost predicate Faults(segs: seq<Segment>, vas: seq<nat>, which: seq<nat>) {
    |vas| == |which| && forall k :: 0 <= k < |vas| ==> which[k] < |segs| && Contains(segs[which[k]], vas[k])
  }

  /** Memory after the faults of a run, in their order. */
  ghost function Demand(file: seq<int>, segs: seq<Segment>, vas: seq<nat>, which: seq<nat>): Memory
    requires Faults(segs, vas, which)
  {
    if vas == [] then map[] else
      var n := |vas| - 1;
      PageLoaded(Demand(file, segs, vas[..n], which[..n]), file, segs[which[n]], vas[n])
  }

  ghost predicate Touched(vas: seq<nat>, a: nat) {
    exists k :: 0 <= k < |vas| && PageOf(vas[k]) == PageOf(a)
  }

  /** What one load leaves of the page in a fresh frame. */
  function PageByte(file: seq<int>, s: Segment, va: nat, a: nat): int
    requires Contains(s, va)
  {
    Byte(PageLoaded(map[], file, s, va), a)
  }

  /** Faults on the same page read the same part of the file. */
  lemma SameRead(len: nat, segs: seq<Segment>, i: nat, j: nat, va: nat, vb: nat)
    requires Sane(len, segs) && i < |segs| && j < |segs| && Contains(segs[i], va) && Contains(segs[j], vb)
    requires PageOf(va) == PageOf(vb)
    ensures i == j && Lo(segs[i], va) == Lo(segs[i], vb) && Hi(segs[i], va) == Hi(segs[i], vb)
  {
  }

  /** Loading a page again changes nothing. */
  lemma LoadAgain(m: Memory, file: seq<int>, segs: seq<Segment>, i: nat, j: nat, va: nat, vb: nat, a: nat)
    requires Sane(|file|, segs) && i < |segs| && j < |segs| && Contains(segs[i], va) && Contains(segs[j], vb)
    requires PageOf(va) == PageOf(vb)
    ensures PageByte(file, segs[j], vb, a) == PageByte(file, segs[i], va, a)
    ensures Byte(m, a) == PageByte(file, segs[i], va, a) ==> Byte(PageLoaded(m, file, segs[j], vb), a) == Byte(m, a)
  {
    SameRead(|file|, segs, i, j, va, vb);
    hide Sane, PageOf, Lo, Hi;
    PageLoadedByte(map[], file, segs[i], va, a);
    PageLoadedByte(map[], file, segs[j], vb, a);
    PageLoadedByte(m, file, segs[j], vb, a);
    hide PageLoaded;
  }

  /** `b` is what the touched page holds at `a`: what one load of it leaves, or zero if it was not touched. */
  ghost predicate HeldAt(file: seq<int>, segs: seq<Segment>, vas: seq<nat>, which: seq<nat>, a: nat, b: int)
    requires Faults(segs, vas, which)
  {
    && (!Touched(vas, a) ==> b == 0)
    && (forall k :: 0 <= k < |vas| && PageOf(vas[k]) == PageOf(a) ==> b == PageByte(file, segs[which[k]], vas[k], a))
  }

  lemma HeldNext(file: seq<int>, segs: seq<Segment>, vas: seq<nat>, which: seq<nat>, a: nat, m: Memory)
    requires Sane(|file|, segs) && Faults(segs, vas, which) && vas != []
    requires HeldAt(file, segs, vas[..|vas| - 1], which[..|vas| - 1], a, Byte(m, a))
    ensures HeldAt(file, segs, vas, which, a, Byte(PageLoaded(m, file, segs[which[|vas| - 1]], vas[|vas| - 1]), a))
  {
    hide Sane, PageOf, PageLoaded, Contains, Read;
    var n := |vas| - 1;
    var s, b := segs[which[n]], Byte(m, a);
    TouchedAppend(vas, a);
    PageLoadedByte(m, file, s, vas[n], a);
    if PageOf(vas[n]) != PageOf(a) {
      assert forall k :: 0 <= k < n ==> vas[..n][k] == vas[k] && which[..n][k] == which[k];
    } else if Touched(vas[..n], a) {
      var j :| 0 <= j < n && PageOf(vas[..n][j]) == PageOf(a);
      forall k | 0 <= k < |vas| && PageOf(vas[k]) == PageOf(a) ensures b == PageByte(file, segs[which[k]], vas[k], a) {
        LoadAgain(m, file, segs, which[j], which[k], vas[j], vas[k], a);
      }
      LoadAgain(m, file, segs, which[j], which[n], vas[j], vas[n], a);
    } else {
      PageLoadedByte(map[], file, s, vas[n], a);
      forall k | 0 <= k < n ensures PageOf(vas[k]) != PageOf(a) {
        assert vas[..n][k] == vas[k];
      }
    }
  }

  /** After any sequence of faults a touched page holds what one load of it leaves, and the others zeros. */
  lemma {:induction false} DemandByte(file: seq<int>, segs: seq<Segment>, vas: seq<nat>, which: seq<nat>, a: nat)
    requires Sane(|file|, segs) && Faults(segs, vas, which)
    ensures HeldAt(file, segs, vas, which, a, Byte(Demand(file, segs, vas, which), a))
    decreases |vas|
  {
    if vas != [] {
      hide Sane, PageOf, PageLoaded, Contains, HeldAt;
      var n := |vas| - 1;
      DemandByte(file, segs, vas[..n], which[..n], a);
      HeldNext(file, segs, vas, which, a, Demand(file, segs, vas[..n], which[..n]));
    }
  }

  lemma TouchedAppend(vas: seq<nat>, a: nat)
    requires vas != []
    ensures Touched(vas, a) <==> Touched(vas[..|vas| - 1], a) || PageOf(vas[|vas| - 1]) == PageOf(a)
  {
    var n := |vas| - 1;
    if Touched(vas[..n], a) {
      var k :| 0 <= k < n && PageOf(vas[..n][k]) == PageOf(a);
      assert PageOf(vas[k]) == PageOf(a);
    }
    if Touched(vas, a) && PageOf(vas[n]) != PageOf(a) {
      var k :| 0 <= k < |vas| && PageOf(vas[k]) == PageOf(a);
      assert PageOf(vas[..n][k]) == PageOf(a);
    }
  }

  /** Every load of the run succeeds, and touched pages read as if everything had been loaded at once. */
  ghost predicate LikeEager(file: seq<int>, segs: seq<Segment>, vas: seq<nat>, which: seq<nat>)
    requires Sane(|file|, segs) && Faults(segs, vas, which)
  {
    && (forall k :: 0 <= k < |vas| ==> LoadOk(|file|, segs[which[k]], vas[k]))
    && (forall a :: Touched(vas, a) ==> Byte(Demand(file, segs, vas, which), a) == Byte(Eager(file, segs), a))
  }

  ghost predicate AllFit(segs: seq<Segment>, vas: seq<nat>, which: seq<nat>)
    requires Faults(segs, vas, which)
  {
    forall k :: 0 <= k < |vas| ==> Fits(segs[which[k]], vas[k])
  }

  /** On one page demand and eager loading agree exactly as far as the load gives the segment's bytes. */
  lemma AgreeOnPage(file: seq<int>, segs: seq<Segment>, vas: seq<nat>, which: seq<nat>, k: nat, a: nat)
    requires Sane(|file|, segs) && Faults(segs, vas, which) && k < |vas| && PageOf(a) == PageOf(vas[k])
    ensures Byte(Demand(file, segs, vas, which), a) == PageByte(file, segs[which[k]], vas[k], a)
    ensures Byte(Eager(file, segs), a) == SegmentByte(file, segs[which[k]], a)
  {
    DemandByte(file, segs, vas, which, a);
    EagerByte(file, segs, a);
    ImageOnPage(file, segs, which[k], vas[k], a);
  }

  lemma FitLikeEager(file: seq<int>, segs: seq<Segment>, vas: seq<nat>, which: seq<nat>)
    requires Sane(|file|, segs) && Faults(segs, vas, which) && AllFit(segs, vas, which)
    ensures LikeEager(file, segs, vas, which)
  {
    hide PageOf, Fits, LoadOk, PageLoaded, SegmentByte, Contains, Proper;
    forall k | 0 <= k < |vas| ensures LoadOk(|file|, segs[which[k]], vas[k]) {
      FitsGives(file, segs[which[k]], vas[k]);
    }
    forall a | Touched(vas, a) ensures Byte(Demand(file, segs, vas, which), a) == Byte(Eager(file, segs), a) {
      var k :| 0 <= k < |vas| && PageOf(vas[k]) == PageOf(a);
      FitsGives(file, segs[which[k]], vas[k]);
      AgreeOnPage(file, segs, vas, which, k, a);
    }
  }

  lemma WrapUnlikeEager(len: nat, segs: seq<Segment>, vas: seq<nat>, which: seq<nat>, k: nat)
    requires Sane(len, segs) && Faults(segs, vas, which) && k < |vas| && !Fits(segs[which[k]], vas[k])
    ensures !LikeEager(OneAt(len, Telling(segs[which[k]], vas[k])), segs, vas, which)
  {
    var s, va := segs[which[k]], vas[k];
    var file, lo := OneAt(len, Telling(s, va)), Lo(s, va);
    WrapsWrong(len, s, va);
    AgreeOnPage(file, segs, vas, which, k, lo);
    hide PageOf, LoadOk, PageLoaded, SegmentByte, Contains, Proper, Lo, OneAt, Telling;
    assert Touched(vas, lo);
  }

  /**
    In whatever order pages are faulted in, every file of the given length reads as if everything
    had been loaded at once, exactly when no offset of a page faulted in wraps.
   */
  lemma DemandIsEager(len: nat, segs: seq<Segment>, vas: seq<nat>, which: seq<nat>)
    requires Sane(len, segs) && Faults(segs, vas, which)
    ensures AllFit(segs, vas, which) <==> forall file: seq<int> :: |file| == len ==> LikeEager(file, segs, vas, which)
  {
    hide Sane, Fits, LikeEager;
    if AllFit(segs, vas, which) {
      forall file: seq<int> | |file| == len ensures LikeEager(file, segs, vas, which) {
        FitLikeEager(file, segs, vas, which);
      }
    } else {
      var k :| 0 <= k < |vas| && !Fits(segs[which[k]], vas[k]);
      WrapUnlikeEager(len, segs, vas, which, k);
    }
  }

  /** Segments whose file part and extent stay below 2^32 never wrap. */
  lemma SmallOffsetsFit(segs: seq<Segment>, vas: seq<nat>, which: seq<nat>)
    requires Faults(segs, vas, which)
    requires forall i :: 0 <= i < |segs| ==> segs[i].offset + Max(segs[i].memsz, segs[i].filesz) < WORD
    ensures AllFit(segs, vas, which)
  {
    forall k | 0 <= k < |vas| ensures Fits(segs[which[k]], vas[k]) {
      LoHi(segs[which[k]], vas[k]);
    }
  }

  /** A page past the end of a short file part, whose offset wraps to the start of the file. */
  lemma WrapExample(file: seq<int>)
    requires |file| == 0xF000_0001 && file[0] != 0
    ensures var s := Segment(0, 0x7000_0000, 0xF000_0000, 1); var va := 0x1000_0000;
      && Sane(|file|, [s]) && Contains(s, va) && LoadOk(|file|, s, va)
      && Byte(Demand(file, [s], [va], [0]), va) == file[0] && Byte(Eager(file, [s]), va) == 0
  {
    var s := Segment(0, 0x7000_0000, 0xF000_0000, 1);
    var va := 0x1000_0000;
    PageLoadedByte(map[], file, s, va, va);
    AgreeOnPage(file, [s], [va], [0], 0, va);
  }
}
