/** What a fork copies: exactly when it is right, and a run from boot where it is wrong. */
module PagingFork {
  import opened Common
  import opened Coremap
  import opened Paging
  import opened PagingInvariant
  import opened PagingStable
  import opened PagingProcs
  import opened PagingRuns
  import Tlb

  // ------------------------------------------------------------------
  // Copies whose source was evicted under them

  /** This step copies to page `e` of a child although the parent's page has left memory. */
  ghost predicate Overtakes(s: State, l: Label, e: Eid) {
    && l.LDuplicate? && CanDuplicate(s)
    && e == Eid(At(s).want.child, At(s).want.page)
    && s.pte[Eid(s.cur, At(s).want.page)].swp
  }

  ghost predicate WasOvertaken(ss: seq<State>, ls: seq<Label>, i: nat, e: Eid)
    requires i <= |ls| < |ss|
  {
    exists j :: 0 <= j < i && Overtakes(ss[j], ls[j], e)
  }

  lemma SpoiledFetching(s: State, l: Label)
    requires Enabled(s, l) && (Evicting(l) || Fetching(l))
    ensures Next(s, l).spoiled == s.spoiled
  {
    hide Taken, Fits, Eligible, Tlb.InvalidateFirst;
  }

  lemma SpoiledOther(s: State, l: Label)
    requires Enabled(s, l) && !Evicting(l) && !Fetching(l) && !l.LDuplicate?
    ensures Next(s, l).spoiled == s.spoiled
  {
    hide Taken, Freed, Fits, HasSpace, Initial, Tlb.Fill, Tlb.FillsFree, Tlb.FirstStop, Tlb.Hit, Tlb.Maps;
  }

  lemma SpoiledStep(s: State, l: Label, e: Eid)
    requires Enabled(s, l)
    ensures e in Next(s, l).spoiled <==> e in s.spoiled || Overtakes(s, l, e)
  {
    if Evicting(l) || Fetching(l) {
      SpoiledFetching(s, l);
    } else if !l.LDuplicate? {
      SpoiledOther(s, l);
    }
  }

  /** The pages recorded as spoiled are those whose source had been evicted when they were copied. */
  lemma {:induction false} SpoiledHistory(ss: seq<State>, ls: seq<Label>, i: nat, e: Eid)
    requires Run(ss, ls) && Init(ss[0]) && i < |ss|
    ensures e in ss[i].spoiled <==> WasOvertaken(ss, ls, i, e)
    decreases i
  {
    hide Enabled, Next, Overtakes;
    if i > 0 {
      SpoiledHistory(ss, ls, i - 1, e);
      SpoiledStep(ss[i - 1], ls[i - 1], e);
      if WasOvertaken(ss, ls, i - 1, e) {
        var j :| 0 <= j < i - 1 && Overtakes(ss[j], ls[j], e);
      }
    }
  }

  // ------------------------------------------------------------------
  // The child at its start

  /** While a fork runs, the pages of the child are those of the parent copied so far. */
  lemma CopiesSoFar(s: State, v: nat)
    requires ForkOk(s) && s.cur in s.pc && At(s).Forking? && Eid(At(s).offspring, v) in s.pte
    ensures Eid(s.cur, v) in s.pte
    ensures Eid(At(s).offspring, v) !in s.spoiled ==>
      Content(s, Eid(At(s).offspring, v)) == Content(s, Eid(s.cur, v))
  {
    assert Child(At(s)) == At(s).offspring && Copying(s.pc[s.cur]);
  }

  lemma ForkedView(s: State, v: nat)
    requires Inv(s) && CanForked(s)
    ensures var c := At(s).offspring; var s' := Forked(s);
      && (Eid(c, v) in View(s') <==> Eid(s.cur, v) in View(s'))
      && (Eid(c, v) in View(s') && Eid(c, v) !in s.spoiled ==> View(s')[Eid(c, v)] == View(s')[Eid(s.cur, v)])
  {
    hide Core, ThreadsOk, SlotsOk, TlbOk, ContentsOk, StatsOk, ForkOk;
    var s' := Forked(s);
    var c := At(s).offspring;
    ForkedKeeps(s);
    if Eid(c, v) in s.pte {
      CopiesSoFar(s, v);
    }
    assert !InLoad(s', Eid(c, v)) && !InLoad(s', Eid(s.cur, v));
  }

  /**
    In every run: when the child of a fork starts it has the pages its parent
    has, and a page of it holds what the parent's holds unless the parent's page
    had been evicted by the time it was copied.
   */
  lemma ForkExact(ss: seq<State>, ls: seq<Label>, i: nat, v: nat)
    requires Run(ss, ls) && Init(ss[0]) && i < |ls| && ls[i] == LForked
    ensures var parent := Eid(ss[i].cur, v); var child := Eid(At(ss[i]).offspring, v); var now := View(ss[i + 1]);
      && (child in now <==> parent in now)
      && (child in now && !WasOvertaken(ss, ls, i, child) ==> now[child] == now[parent])
  {
    hide Inv, Init, View;
    RunInvariant(ss, ls, i);
    SpoiledHistory(ss, ls, i, Eid(At(ss[i]).offspring, v));
    ForkedView(ss[i], v);
  }

  // ------------------------------------------------------------------
  // One copy

  /** The page a fork is copying, and what it should find there. */
  ghost predicate CopyFaithful(s: State, junk: Page)
    requires CanDuplicate(s)
  {
    Copied(s, junk) == Content(s, Eid(s.cur, At(s).want.page))
  }

  /** A page other than `p`. */
  function Unlike(p: Page): (q: Page)
    ensures q != p
  {
    if p == ZERO_PAGE then
      var q: seq<int> := seq(PAGE_SIZE, _ => 1);
      assert q[0] != ZERO_PAGE[0];
      q
    else ZERO_PAGE
  }

  /** Nothing else depends on the slot of a page that is being copied. */
  lemma SlotFreeToChange(s: State, q: Page)
    requires Inv(s) && CanDuplicate(s) && s.pte[Eid(s.cur, At(s).want.page)].swp
    ensures var k := s.pte[Eid(s.cur, At(s).want.page)].frame;
      k < |s.disk| && Inv(s.(disk := s.disk[k := q]))
  {
    var src := Eid(s.cur, At(s).want.page);
    var k := s.pte[src].frame;
    assert EntriesOk(s);
    assert Refers(s, ByEntry(src), k);
    var s' := s.(disk := s.disk[k := q]);
    Mine(s);
    ChangedShape(s, s');
    hide Core;
    ChangedContents(s, s', src);
    ChangedCopies(s, s', src);
    hide ThreadsOk, ContentsOk, TlbOk, ForkOk;
    SlotsQuiet(s, s');
    StatsQuiet(s, s');
  }

  lemma ChangedShape(s: State, s': State)
    requires Core(s) && ThreadsOk(s) && TlbOk(s) && s' == s.(disk := s'.disk) && |s'.disk| == |s.disk|
    ensures Core(s') && ThreadsOk(s') && TlbOk(s')
  {
    assert TlbOk(s');
    hide TlbOk;
    assert Core(s');
    hide Core;
    forall t | t in s.pc ensures PcOk(s', t) {
      assert PcOk(s, t);
      PcSame(s, s', t);
    }
    hide PcOk;
    assert forall t, f :: HoldsFrame(s', t, f) <==> HoldsFrame(s, t, f);
  }

  /** No eviction is filling the slot that the entry names. */
  lemma ChangedContents(s: State, s': State, src: Eid)
    requires ContentsOk(s) && SlotsOk(s) && src in s.pte && Refers(s, ByEntry(src), s.pte[src].frame)
    requires s' == s.(disk := s'.disk) && |s'.disk| == |s.disk|
    requires forall k :: 0 <= k < |s.disk| && k != s.pte[src].frame ==> s'.disk[k] == s.disk[k]
    ensures ContentsOk(s')
  {
    forall t | t in s'.pc ensures ContentOk(s', t) {
      assert ContentOk(s, t);
      if s.pc[t].Written? {
        assert Refers(s, ByThread(t), s.pc[t].slot);
      }
    }
  }

  /** The pages copied so far do not come from the slot. */
  lemma ChangedCopies(s: State, s': State, src: Eid)
    requires ThreadsOk(s) && ForkOk(s) && SlotsOk(s) && CanDuplicate(s)
    requires src == Eid(s.cur, At(s).want.page) && Refers(s, ByEntry(src), s.pte[src].frame)
    requires s' == s.(disk := s'.disk) && |s'.disk| == |s.disk|
    requires forall k :: 0 <= k < |s.disk| && k != s.pte[src].frame ==> s'.disk[k] == s.disk[k]
    ensures ForkOk(s')
  {
    Mine(s);
    ChildrenUnborn(s);
    var c := Child(At(s));
    forall t, v | t in s'.pc && Copying(s'.pc[t]) && Eid(Child(s'.pc[t]), v) in s'.pte
      ensures Eid(t, v) in s'.pte
      ensures Eid(Child(s'.pc[t]), v) !in s'.spoiled ==> Content(s', Eid(Child(s'.pc[t]), v)) == Content(s', Eid(t, v))
    {
      assert t == s.cur && v != src.vpn;
      OtherSlot(s, s', src, Eid(c, v));
      OtherSlot(s, s', src, Eid(t, v));
    }
  }

  lemma OtherSlot(s: State, s': State, src: Eid, e: Eid)
    requires SlotsOk(s) && src in s.pte && e in s.pte && Refers(s, ByEntry(src), s.pte[src].frame)
    requires s' == s.(disk := s'.disk) && |s'.disk| == |s.disk| && e.vpn != src.vpn && !Consumed(s, e)
    requires forall k :: 0 <= k < |s.disk| && k != s.pte[src].frame ==> s'.disk[k] == s.disk[k]
    ensures Content(s', e) == Content(s, e)
  {
    if s.pte[e].swp && s.pte[e].frame == s.pte[src].frame {
      assert Refers(s, ByEntry(e), s.pte[src].frame);
    }
  }

  /**
    Exactly when a fork copies a page right: if the page is still in memory the
    copy is right whatever the swap file holds; if it was evicted while the frame
    for the copy was found, some contents of the swap file that the invariant
    allows make the copy wrong.
   */
  lemma CopyFaithfulIff(s: State, junk: Page)
    requires Inv(s) && CanDuplicate(s)
    ensures Resident(s, Eid(s.cur, At(s).want.page)) <==>
      forall d: seq<Page> :: |d| == |s.disk| && Inv(s.(disk := d)) ==> CopyFaithful(s.(disk := d), junk)
  {
    hide Core, ThreadsOk, SlotsOk, TlbOk, ContentsOk, StatsOk, ForkOk, CopyFaithful;
    var src := Eid(s.cur, At(s).want.page);
    if !s.pte[src].swp {
      forall d: seq<Page> | |d| == |s.disk| ensures CopyFaithful(s.(disk := d), junk) {
        ResidentFaithful(s, junk, d);
      }
    } else {
      Mine(s);
      EvictedUnfaithful(s, junk);
    }
  }

  lemma ResidentFaithful(s: State, junk: Page, d: seq<Page>)
    requires Core(s) && CanDuplicate(s) && !s.pte[Eid(s.cur, At(s).want.page)].swp
    ensures CopyFaithful(s.(disk := d), junk)
  {
    assert EntriesOk(s);
  }

  lemma EvictedUnfaithful(s: State, junk: Page)
    requires Inv(s) && CanDuplicate(s) && PcOk(s, s.cur) && s.pte[Eid(s.cur, At(s).want.page)].swp
    ensures exists d: seq<Page> :: |d| == |s.disk| && Inv(s.(disk := d)) && !CopyFaithful(s.(disk := d), junk)
  {
    hide Inv;
    var src := Eid(s.cur, At(s).want.page);
    var wrong := Unlike(Copied(s, junk));
    SlotFreeToChange(s, wrong);
    var s' := s.(disk := s.disk[s.pte[src].frame := wrong]);
    assert Copied(s', junk) == Copied(s, junk) && Content(s', src) == wrong;
    assert |s'.disk| == |s.disk| && Inv(s') && !CopyFaithful(s', junk);
  }

  // ------------------------------------------------------------------
  // A run from boot in which the child gets a frame of the kernel

  const KERNEL_FRAME := Entry(true, true, 1, None)
  const SEATED := [KERNEL_FRAME, Entry(true, true, 1, Some(Eid(1, 7)))]

  /** A machine with the kernel's frame, one free frame, and a swap file of one page. */
  ghost predicate Boot(s: State, m: Page) {
    && Init(s) && |s.disk| == 1 && s.cur == 0 && s.pc == map[0 := Running] && s.rr == 0
    && s.cm == [KERNEL_FRAME, Entry(false, false, 1, None)] && |s.mem| == 2 && s.mem[0] == m
  }

  /** Process 1 runs with contents `c` in its only page, number 7, in frame 1. */
  ghost predicate Owning(s: State, m: Page, c: Page) {
    && s.cm == [KERNEL_FRAME, Entry(true, false, 1, Some(Eid(1, 7)))] && s.mem == [m, c]
    && s.pte == map[Eid(1, 7) := Pte(1, false, false)] && s.refs == [0] && |s.disk| == 1
    && s.cur == 1 && s.pc == map[0 := Running, 1 := Running] && s.user == {1} && 1 in s.image
    && s.swapLock == None
  }

  /** Process 1 has chosen its own page as the victim for the copy, and written it to slot 0. */
  ghost predicate Emptied(s: State, m: Page, c: Page) {
    && s.cm == SEATED && s.mem == [m, c]
    && s.pte == map[Eid(1, 7) := Pte(1, false, true)] && s.refs == [1] && s.disk == [c]
    && s.cur == 1 && s.pc == map[0 := Running, 1 := Written(Copy(2, 7), 1, 0), 2 := Embryo] && s.user == {1, 2}
  }

  /** The step `l` continues the run. */
  lemma Extend(ss: seq<State>, ls: seq<Label>, l: Label) returns (ss': seq<State>, ls': seq<Label>)
    requires Run(ss, ls) && Enabled(ss[|ss| - 1], l)
    ensures Run(ss', ls') && |ss'| > 0 && ss'[0] == ss[0] && ss'[|ss'| - 1] == Next(ss[|ss| - 1], l)
  {
    hide Enabled, Next;
    ss' := ss + [Next(ss[|ss| - 1], l)];
    ls' := ls + [l];
  }

  /** Process 1 has frame 1 for its first page and has yet to clear it. */
  ghost predicate Seated(s: State, m: Page) {
    && s.cm == SEATED && |s.mem| == 2 && s.mem[0] == m
    && s.pte == map[] && s.refs == [0] && |s.disk| == 1 && s.tlb == Tlb.EMPTY && s.rr == 0
    && s.cur == 1 && s.pc == map[0 := Running, 1 := Zeroing(Fresh(7), 1)] && s.user == {1}
    && s.image == s.image[1 := map[]] && s.swapLock == None
  }

  /** Process 1 faults on a page it never touched. */
  ghost predicate Untouched(s: State, m: Page) {
    && s.cm == [KERNEL_FRAME, Entry(false, false, 1, None)] && |s.mem| == 2 && s.mem[0] == m
    && s.pte == map[] && s.refs == [0] && |s.disk| == 1 && s.tlb == Tlb.EMPTY && s.rr == 0
    && s.cur == 1 && s.pc == map[0 := Running, 1 := Faulting(7)] && s.user == {1}
    && s.image == s.image[1 := map[]] && s.swapLock == None
  }

  lemma FirstFault(s: State, m: Page)
    requires Boot(s, m)
    ensures
      && Enabled(s, LSpawn(1, map[]))
      && var s1 := Next(s, LSpawn(1, map[]));
         && Enabled(s1, LSwitch(1))
         && var s2 := Next(s1, LSwitch(1));
            && Enabled(s2, LFault(7))
            && Untouched(Next(s2, LFault(7)), m)
  {
    hide ValidMap;
  }

  lemma FirstFrame(s: State, m: Page)
    requires Untouched(s, m)
    ensures
      && Enabled(s, LLookup)
      && var s1 := Next(s, LLookup);
         && Enabled(s1, LGrab(1, SEATED))
         && Seated(Next(s1, LGrab(1, SEATED)), m)
  {
    assert forall h :: Head(SEATED, h) <==> h == 0 || h == 1;
  }

  /** Process 1 has its page and has yet to write the TLB. */
  ghost predicate Placed(s: State, m: Page) {
    && s.cm == SEATED && |s.mem| == 2 && s.mem[0] == m
    && s.pte == map[Eid(1, 7) := Pte(1, false, false)] && s.refs == [0] && |s.disk| == 1
    && |s.tlb| == Tlb.NUM_TLB && s.rr == 0
    && s.cur == 1 && s.pc == map[0 := Running, 1 := Mapping(7, 1)] && s.user == {1} && 1 in s.image
    && s.swapLock == None
  }

  lemma FirstPage(s: State, m: Page)
    requires Seated(s, m)
    ensures
      && Enabled(s, LZero)
      && var s1 := Next(s, LZero);
         && Enabled(s1, LInstall)
         && Placed(Next(s1, LInstall), m)
  {
  }

  /** The fault has ended and the page can be reached. */
  ghost predicate Reachable(s: State, m: Page) {
    && s.cm == [KERNEL_FRAME, Entry(true, false, 1, Some(Eid(1, 7)))] && |s.mem| == 2 && s.mem[0] == m
    && s.pte == map[Eid(1, 7) := Pte(1, false, false)] && s.refs == [0] && |s.disk| == 1 && Tlb.Maps(s.tlb, 7, 1)
    && s.cur == 1 && s.pc == map[0 := Running, 1 := Running] && s.user == {1} && 1 in s.image
    && s.swapLock == None
  }

  lemma FirstFill(s: State, m: Page)
    requires Placed(s, m)
    ensures Enabled(s, LFill(true)) && Reachable(Next(s, LFill(true)), m)
  {
    assert Fill(s, true).cm == [KERNEL_FRAME, Entry(true, false, 1, Some(Eid(1, 7)))];
  }

  /** Process 1 stores to its page. */
  lemma FirstStore(s: State, m: Page, c: Page)
    requires Reachable(s, m)
    ensures Enabled(s, LWrite(7, 1, c)) && Owning(Next(s, LWrite(7, 1, c)), m, c)
  {
  }

  /** Process 1 is forking process 2 and needs a frame for the copy of its page. */
  ghost predicate Wanting(s: State, m: Page, c: Page) {
    && s.cm == [KERNEL_FRAME, Entry(true, false, 1, Some(Eid(1, 7)))] && s.mem == [m, c]
    && s.pte == map[Eid(1, 7) := Pte(1, false, false)] && s.refs == [0] && |s.disk| == 1
    && s.cur == 1 && s.pc == map[0 := Running, 1 := Seeking(Copy(2, 7)), 2 := Embryo] && s.user == {1, 2}
    && s.swapLock == Some(1)
  }

  /** Process 1 has started to fork process 2. */
  ghost predicate Starting(s: State, m: Page, c: Page) {
    && s.cm == [KERNEL_FRAME, Entry(true, false, 1, Some(Eid(1, 7)))] && s.mem == [m, c]
    && s.pte == map[Eid(1, 7) := Pte(1, false, false)] && s.refs == [0] && |s.disk| == 1
    && s.cur == 1 && s.pc == map[0 := Running, 1 := Forking(2), 2 := Embryo] && s.user == {1, 2}
    && s.swapLock == Some(1)
  }

  lemma ForkBegins(s: State, m: Page, c: Page)
    requires Owning(s, m, c)
    ensures Enabled(s, LFork(2)) && Starting(Next(s, LFork(2)), m, c)
  {
  }

  lemma CopyBegins(s: State, m: Page, c: Page)
    requires Starting(s, m, c)
    ensures Enabled(s, LShare(7)) && Wanting(Next(s, LShare(7)), m, c)
  {
  }

  /** Process 1 has pinned and marked its own page as the victim. */
  ghost predicate Chosen(s: State, m: Page, c: Page) {
    && s.cm == SEATED && s.mem == [m, c] && s.pte == map[Eid(1, 7) := Pte(1, false, true)]
    && s.refs == [0] && |s.disk| == 1
    && s.cur == 1 && s.pc == map[0 := Running, 1 := Claimed(Copy(2, 7), 1), 2 := Embryo] && s.user == {1, 2}
    && s.swapLock == Some(1)
  }

  /** The only frame for the copy is the one that holds the page to be copied. */
  lemma VictimIsSource(s: State, m: Page, c: Page)
    requires Wanting(s, m, c)
    ensures Enabled(s, LClaim(1)) && Chosen(Next(s, LClaim(1)), m, c)
  {
    assert s.cm[1 := s.cm[1].(fixed := true)] == SEATED;
  }

  lemma SourceLeaves(s: State, m: Page, c: Page)
    requires Chosen(s, m, c)
    ensures
      && Enabled(s, LReserve(0))
      && var s1 := Next(s, LReserve(0));
         && Enabled(s1, LStore)
         && Emptied(Next(s1, LStore), m, c)
  {
  }

  /** Frame 1 is to become page 7 of process 2; page 7 of process 1 is in slot 0. */
  ghost predicate Cleared(s: State, m: Page, c: Page) {
    && s.cm == [KERNEL_FRAME, Entry(true, true, 1, Some(Eid(2, 7)))] && s.mem == [m, ZERO_PAGE]
    && s.pte == map[Eid(1, 7) := Pte(0, true, false)] && s.disk == [c]
    && s.cur == 1 && s.pc == map[0 := Running, 1 := Granted(Copy(2, 7), 1), 2 := Embryo]
  }

  lemma FramePasses(s: State, m: Page, c: Page)
    requires Emptied(s, m, c)
    ensures
      && Enabled(s, LCommit)
      && var s1 := Next(s, LCommit);
         && Enabled(s1, LZero)
         && Cleared(Next(s1, LZero), m, c)
  {
  }

  /** Both processes run; the parent has `c` in its page and the child has `m` in the same page. */
  ghost predicate Differing(s: State, m: Page, c: Page) {
    && s.pc == map[0 := Running, 1 := Running, 2 := Running] && View(s).Keys == {Eid(1, 7), Eid(2, 7)}
    && View(s)[Eid(1, 7)] == c && View(s)[Eid(2, 7)] == m
  }

  /** The copy has been made from frame 0, the number of the slot. */
  ghost predicate Misread(s: State, m: Page, c: Page) {
    && s.mem == [m, m] && s.disk == [c]
    && s.pte == map[Eid(1, 7) := Pte(0, true, false), Eid(2, 7) := Pte(1, false, false)]
    && s.cur == 1 && s.pc == map[0 := Running, 1 := Forking(2), 2 := Embryo]
  }

  lemma WrongCopy(s: State, m: Page, c: Page, junk: Page)
    requires Cleared(s, m, c)
    ensures Enabled(s, LDuplicate(junk)) && Misread(Next(s, LDuplicate(junk)), m, c)
  {
  }

  lemma ForkEnds(s: State, m: Page, c: Page)
    requires Misread(s, m, c)
    ensures Enabled(s, LForked) && Differing(Next(s, LForked), m, c)
  {
    var s' := Forked(s);
    assert View(s').Keys == {Eid(1, 7), Eid(2, 7)};
  }

  /** From boot to a process with one page in memory. */
  lemma OwningReached(s: State, m: Page, c: Page) returns (ss: seq<State>, ls: seq<Label>)
    requires Boot(s, m)
    ensures Run(ss, ls) && |ss| > 0 && ss[0] == s && Owning(ss[|ss| - 1], m, c)
  {
    hide Run, Init, Boot, Untouched, Seated, Placed, Reachable, Owning, Enabled, Next;
    FirstFault(s, m);
    ss, ls := [s], [];
    assert Run(ss, ls) by { SingleState(s); }
    ss, ls := Extend(ss, ls, LSpawn(1, map[]));
    ss, ls := Extend(ss, ls, LSwitch(1));
    ss, ls := Extend(ss, ls, LFault(7));
    FirstFrame(ss[|ss| - 1], m);
    ss, ls := Extend(ss, ls, LLookup);
    ss, ls := Extend(ss, ls, LGrab(1, SEATED));
    FirstPage(ss[|ss| - 1], m);
    ss, ls := Extend(ss, ls, LZero);
    ss, ls := Extend(ss, ls, LInstall);
    FirstFill(ss[|ss| - 1], m);
    ss, ls := Extend(ss, ls, LFill(true));
    FirstStore(ss[|ss| - 1], m, c);
    ss, ls := Extend(ss, ls, LWrite(7, 1, c));
  }

  /**
    A run from boot, for any contents `c` that the parent stores and any contents
    `m` of the first frame of memory, after which the child has `m` where the
    parent has `c`.
   */
  lemma ForkCopiesWrongPage(s: State, m: Page, c: Page, junk: Page) returns (ss: seq<State>, ls: seq<Label>)
    requires Boot(s, m)
    ensures Run(ss, ls) && Init(ss[0]) && ss[0] == s
    ensures Differing(ss[|ss| - 1], m, c)
  {
    hide Run, Init, Boot, Owning, Starting, Wanting, Chosen, Emptied, Cleared, Misread, Differing, Enabled, Next;
    Booted(s, m);
    ss, ls := OwningReached(s, m, c);
    ForkBegins(ss[|ss| - 1], m, c);
    ss, ls := Extend(ss, ls, LFork(2));
    CopyBegins(ss[|ss| - 1], m, c);
    ss, ls := Extend(ss, ls, LShare(7));
    VictimIsSource(ss[|ss| - 1], m, c);
    ss, ls := Extend(ss, ls, LClaim(1));
    SourceLeaves(ss[|ss| - 1], m, c);
    ss, ls := Extend(ss, ls, LReserve(0));
    ss, ls := Extend(ss, ls, LStore);
    FramePasses(ss[|ss| - 1], m, c);
    ss, ls := Extend(ss, ls, LCommit);
    ss, ls := Extend(ss, ls, LZero);
    WrongCopy(ss[|ss| - 1], m, c, junk);
    ss, ls := Extend(ss, ls, LDuplicate(junk));
    ForkEnds(ss[|ss| - 1], m, c);
    ss, ls := Extend(ss, ls, LForked);
  }

  lemma Booted(s: State, m: Page)
    requires Boot(s, m)
    ensures Init(s)
  {
  }

  lemma SingleState(s: State)
    ensures Run([s], [])
  {
  }

  /** Such a machine exists. */
  lemma BootExists(m: Page) returns (s: State)
    ensures Boot(s, m)
  {
    s := State(1, [KERNEL_FRAME, Entry(false, false, 1, None)], [m, ZERO_PAGE], map[], [0], [ZERO_PAGE], None,
      Tlb.EMPTY, 0, 0, map[0 := Running], {}, map[], {}, {}, Stats(0, 0, 0, 0, 0, 0, 0, 0));
    assert forall h :: Head(s.cm, h) <==> h == 0 || h == 1;
  }
}
