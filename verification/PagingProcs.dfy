/** Creating, copying and destroying address spaces, and kernel allocations, keep the invariant. */
module PagingProcs {
  import opened Common
  import opened Coremap
  import opened Paging
  import opened PagingInvariant
  import opened PagingStable
  import opened PagingEvict
  import Swap

  // ------------------------------------------------------------------
  // The reference counts fit in a byte

  lemma {:induction false} AtMostOnePerTable(refs: set<Ref>, tables: set<Tid>)
    requires forall r :: r in refs ==> r.ByEntry? && r.e.pt in tables
    requires forall r, q :: r in refs && q in refs && r.e.pt == q.e.pt ==> r == q
    ensures |refs| <= |tables|
    decreases |refs|
  {
    if refs != {} {
      var r :| r in refs;
      AtMostOnePerTable(refs - {r}, tables - {r.e.pt});
    }
  }

  /** No page table refers twice to a slot, so a count never exceeds the number of processes. */
  lemma RefBound(s: State, k: nat)
    requires Core(s) && SlotsOk(s) && k < |s.refs|
    ensures s.refs[k] <= MAX_PROC < Swap.REF_LIMIT
  {
    var r := RefSet(s, k);
    if t :| Refers(s, ByThread(t), k) {
      assert r == {ByThread(t)};
    } else {
      forall x | x in r ensures x.ByEntry? && x.e.pt in s.user {
        match x {
          case ByThread(_) => assert false;
          case ByEntry(e) => assert Names(s, e, k);
        }
      }
      forall x, y | x in r && y in r && x.e.pt == y.e.pt ensures x == y {
        assert Refers(s, ByEntry(x.e), k) && Refers(s, ByEntry(y.e), k);
      }
      AtMostOnePerTable(r, s.user);
    }
  }

  // ------------------------------------------------------------------
  // Starting and ending a process

  /** A new process changes nothing for the threads that exist. */
  lemma PcNewborn(s: State, s': State, t: Tid, child: Tid)
    requires t in s.pc && t in s'.pc && t != child && s'.pc[t] == s.pc[t] && PcOk(s, t)
    requires child !in s.pc && child !in s.user && s'.user == s.user + {child}
    requires forall u :: u in s.pc && u != s.cur ==> u in s'.pc && s'.pc[u] == s.pc[u]
    requires s.cur in s.pc && s.pc[s.cur] != Embryo && s.pc[s.cur] != Exited
    requires s'.cm == s.cm && s'.pte == s.pte && s'.kernel == s.kernel && |s'.refs| == |s.refs| && s'.first == s.first
    ensures PcOk(s', t)
  {
    assert HasSpace(s, t) ==> HasSpace(s', t);
  }

  lemma SpawnThreads(s: State, child: Tid, program: map<nat, Page>)
    requires Core(s) && ThreadsOk(s) && CanSpawn(s, child)
    ensures ThreadsOk(Spawn(s, child, program))
  {
    var s' := Spawn(s, child, program);
    assert child !in s.user;
    assert PcOk(s', child);
    hide Core, PcOk;
    forall t | t in s.pc ensures PcOk(s', t) {
      PcNewborn(s, s', t, child);
    }
    assert forall t, f :: HoldsFrame(s', t, f) ==> HoldsFrame(s, t, f);
  }

  lemma SpawnRest(s: State, child: Tid, program: map<nat, Page>)
    requires Core(s) && TlbOk(s) && CanSpawn(s, child)
    ensures var s' := Spawn(s, child, program); Core(s') && TlbOk(s')
  {
    assert child !in s.user;
  }

  lemma SpawnSame(s: State, child: Tid, program: map<nat, Page>)
    requires Core(s) && ContentsOk(s) && CanSpawn(s, child)
    ensures var s' := Spawn(s, child, program); ContentsOk(s') && SameContents(s, s')
  {
    var s' := Spawn(s, child, program);
    assert child !in s.user && forall e :: e in s.pte ==> e.pt != child;
    hide Core;
    forall t | t in s'.pc ensures ContentOk(s', t) {
      if t != child {
        assert ContentOk(s, t);
        ContentStable(s, s', t);
      }
    }
  }

  lemma SpawnKeeps(s: State, child: Tid, program: map<nat, Page>)
    requires Inv(s) && CanSpawn(s, child)
    ensures Inv(Spawn(s, child, program)) && SameContents(s, Spawn(s, child, program))
  {
    hide Core, ThreadsOk, SlotsOk, TlbOk, ContentsOk, StatsOk, ForkOk, SameContents;
    var s' := Spawn(s, child, program);
    SpawnThreads(s, child, program);
    SpawnRest(s, child, program);
    SpawnSame(s, child, program);
    SlotsQuiet(s, s');
    StatsQuiet(s, s');
    ForkQuiet(s, s');
  }

  lemma ExitKeeps(s: State)
    requires Inv(s) && CanExit(s)
    ensures Inv(Exit(s)) && SameContents(s, Exit(s))
  {
    hide Core, ThreadsOk, SlotsOk, TlbOk, ContentsOk, StatsOk, ForkOk, SameContents;
    var s' := Exit(s);
    CoreLocal(s, s');
    ThreadsLocal(s, s');
    SlotsQuiet(s, s');
    TlbQuiet(s, s');
    ContentsQuiet(s, s');
    StatsQuiet(s, s');
    SameLocal(s, s');
    ForkQuiet(s, s');
  }

  /** A fault that fails before it has a page, or a kernel request that fails. */
  lemma FailEarlyKeeps(s: State, left: Page)
    requires Inv(s) && CanFail(s) && !At(s).Loading?
    ensures Inv(Fail(s, left)) && SameContents(s, Fail(s, left))
    ensures Fail(s, left).stats == s.stats && (At(Fail(s, left)) == Exited || At(s).want == Kernel(ToRunning))
  {
    hide Core, ThreadsOk, SlotsOk, TlbOk, ContentsOk, StatsOk, ForkOk, SameContents;
    var s' := Fail(s, left);
    FailEarlyPlaces(s, left);
    ContentsQuiet(s, s');
    StatsQuiet(s, s');
    SameLocal(s, s');
    ForkQuiet(s, s');
  }

  lemma FailEarlyPlaces(s: State, left: Page)
    requires Core(s) && ThreadsOk(s) && SlotsOk(s) && s.cur in s.pc && TlbOk(s) && CanFail(s) && !At(s).Loading?
    ensures var s' := Fail(s, left); s'.cur in s'.pc && Core(s') && ThreadsOk(s') && SlotsOk(s') && TlbOk(s')
  {
    hide Core, ThreadsOk, SlotsOk, TlbOk;
    var s' := Fail(s, left);
    CoreLocal(s, s');
    ThreadsLocal(s, s');
    SlotsQuiet(s, s');
    TlbQuiet(s, s');
  }

  lemma FailOthers(s: State, left: Page)
    requires ThreadsOk(s) && ContentsOk(s) && CanFail(s) && At(s).Loading?
    ensures ContentsOk(Fail(s, left))
  {
    var s' := Fail(s, left);
    Mine(s);
    hide ThreadsOk;
    forall t | t in s'.pc ensures ContentOk(s', t) {
      if t != s.cur {
        assert ContentOk(s, t);
        assert HasFrame(s.pc[t]) ==> HoldsFrame(s, t, s.pc[t].frame);
        ContentStable(s, s', t);
      }
    }
  }

  lemma FailContents(s: State, left: Page)
    requires Core(s) && ThreadsOk(s) && CanFail(s) && At(s).Loading?
    ensures var x := Eid(s.cur, At(s).vpn);
      OnlyContent(s, Fail(s, left), x) && x in s.pte && Content(Fail(s, left), x) == left
  {
    var s' := Fail(s, left);
    Mine(s);
    hide ThreadsOk;
    forall e | e in s.pte && e != Eid(s.cur, At(s).vpn) ensures Content(s', e) == Content(s, e) {
      assert InFetch(s, e) ==> !HoldsFrame(s, e.pt, At(s).frame);
    }
  }

  /** A fault that fails while its page is loaded spoils that page only. */
  lemma FailLateKeeps(s: State, left: Page)
    requires Inv(s) && CanFail(s) && At(s).Loading?
    ensures var s' := Fail(s, left); var x := Eid(s.cur, At(s).vpn);
      && Inv(s') && OnlyContent(s, s', x) && x in s.pte && Content(s', x) == left
      && s'.stats == s.stats && At(s') == Exited
  {
    hide Core, ThreadsOk, SlotsOk, TlbOk, ContentsOk, StatsOk, ForkOk, OnlyContent, Content;
    var s' := Fail(s, left);
    Mine(s);
    CoreLocal(s, s');
    ThreadsLocal(s, s');
    FailOthers(s, left);
    FailContents(s, left);
    SlotsQuiet(s, s');
    TlbQuiet(s, s');
    StatsQuiet(s, s');
    ChildrenUnborn(s);
    ForkElsewhere(s, s', Eid(s.cur, At(s).vpn));
  }

  // ------------------------------------------------------------------
  // Fork

  lemma ForkThreads(s: State, child: Tid)
    requires Core(s) && ThreadsOk(s) && CanFork(s, child)
    ensures ThreadsOk(Fork(s, child))
  {
    hide PcOk;
    var s' := Fork(s, child);
    assert child !in s.user;
    hide Core;
    ForkPair(s, child);
    forall t | t in s.pc && t != s.cur ensures PcOk(s', t) {
      PcNewborn(s, s', t, child);
    }
    assert forall t, f :: HoldsFrame(s', t, f) ==> HoldsFrame(s, t, f);
  }

  lemma ForkPair(s: State, child: Tid)
    requires s.cur in s.pc && CanFork(s, child)
    ensures PcOk(Fork(s, child), s.cur) && PcOk(Fork(s, child), child)
  {
  }

  lemma ForkRest(s: State, child: Tid)
    requires Core(s) && TlbOk(s) && CanFork(s, child)
    ensures Core(Fork(s, child)) && TlbOk(Fork(s, child))
  {
    assert child !in s.user;
  }

  lemma ForkSame(s: State, child: Tid)
    requires Core(s) && ContentsOk(s) && CanFork(s, child)
    ensures ContentsOk(Fork(s, child)) && SameContents(s, Fork(s, child))
    ensures forall e :: e in s.pte ==> e.pt != child
  {
    var s' := Fork(s, child);
    assert child !in s.user && forall e :: e in s.pte ==> e.pt != child;
    hide Core;
    assert SameContents(s, s');
    hide SameContents;
    forall t | t in s'.pc ensures ContentOk(s', t) {
      if t != child && t != s.cur {
        assert ContentOk(s, t);
        ContentStable(s, s', t);
      }
    }
  }

  lemma ForkCopies(s: State, child: Tid)
    requires s.cur in s.pc && ThreadsOk(s) && ForkOk(s) && CanFork(s, child)
    requires SameContents(s, Fork(s, child)) && forall e :: e in s.pte ==> e.pt != child
    ensures ForkOk(Fork(s, child))
  {
    ChildrenUnborn(s);
  }

  lemma ForkKeeps(s: State, child: Tid)
    requires Inv(s) && CanFork(s, child)
    ensures Inv(Fork(s, child)) && SameContents(s, Fork(s, child))
  {
    hide Core, ThreadsOk, SlotsOk, TlbOk, ContentsOk, StatsOk, ForkOk, SameContents;
    var s' := Fork(s, child);
    ForkThreads(s, child);
    ForkRest(s, child);
    ForkSame(s, child);
    ForkCopies(s, child);
    SlotsQuiet(s, s');
    StatsQuiet(s, s');
  }

  // ------------------------------------------------------------------
  // Copying one page

  lemma ShareCore(s: State, vpn: nat)
    requires Core(s) && ThreadsOk(s) && CanShare(s, vpn) && s.pte[Eid(s.cur, vpn)].swp
    ensures Core(Share(s, vpn)) && ThreadsOk(Share(s, vpn))
  {
    hide Core, ThreadsOk;
    Mine(s);
    ShareEntries(s, vpn);
    ShareThreads(s, vpn);
  }

  lemma ShareEntries(s: State, vpn: nat)
    requires Core(s) && CanShare(s, vpn) && s.pte[Eid(s.cur, vpn)].swp && PcOk(s, s.cur)
    ensures Core(Share(s, vpn))
  {
  }

  lemma ShareThreads(s: State, vpn: nat)
    requires s.cur in s.pc && ThreadsOk(s) && CanShare(s, vpn) && s.pte[Eid(s.cur, vpn)].swp
    ensures ThreadsOk(Share(s, vpn))
  {
    hide ThreadsOk;
    var s' := Share(s, vpn);
    var x := Eid(At(s).offspring, vpn);
    Mine(s);
    forall t | t in s.pc && t != s.cur ensures Apart(s, s', t, x) {
      Theirs(s, t);
    }
    ThreadsStable(s, s', x);
  }

  lemma ShareRefs(s: State, vpn: nat)
    requires CanShare(s, vpn) && s.pte[Eid(s.cur, vpn)].swp && PcOk(s, s.cur)
    ensures var k := s.pte[Eid(s.cur, vpn)].frame; var x := ByEntry(Eid(At(s).offspring, vpn));
      && !Refers(s, x, k) && Refers(s, ByEntry(Eid(s.cur, vpn)), k)
      && forall r, j :: Refers(Share(s, vpn), r, j) <==> Refers(s, r, j) || (r == x && j == k)
  {
  }

  lemma ShareSlots(s: State, vpn: nat)
    requires Core(s) && SlotsOk(s) && CanShare(s, vpn) && s.pte[Eid(s.cur, vpn)].swp && PcOk(s, s.cur)
    ensures SlotsOk(Share(s, vpn))
  {
    hide Core, SlotsOk, PcOk, Refers;
    var k := s.pte[Eid(s.cur, vpn)].frame;
    RefBound(s, k);
    ShareRefs(s, vpn);
    assert (s.refs[k] + 1) % Swap.REF_LIMIT == s.refs[k] + 1;
    SlotsGain(s, Share(s, vpn), k, ByEntry(Eid(At(s).offspring, vpn)));
  }

  /** The shared slot shows the child what the parent sees. */
  lemma ShareContents(s: State, vpn: nat)
    requires s.cur in s.pc && ContentsOk(s) && ForkOk(s) && ThreadsOk(s)
    requires CanShare(s, vpn) && s.pte[Eid(s.cur, vpn)].swp
    ensures var s' := Share(s, vpn); var x := Eid(At(s).offspring, vpn);
      && ContentsOk(s') && ForkOk(s') && OnlyContent(s, s', x)
      && Content(s', x) == Content(s, Eid(s.cur, vpn))
  {
    Mine(s);
    ChildrenUnborn(s);
    hide ThreadsOk;
    ContentsQuiet(s, Share(s, vpn));
  }

  lemma ShareKeeps(s: State, vpn: nat)
    requires Inv(s) && CanShare(s, vpn)
    ensures var s' := Share(s, vpn); var x := Eid(At(s).offspring, vpn);
      && Inv(s')
      && (if s.pte[Eid(s.cur, vpn)].swp
          then OnlyContent(s, s', x) && x in s'.pte && Content(s', x) == Content(s, Eid(s.cur, vpn))
          else SameContents(s, s'))
  {
    hide Core, ThreadsOk, SlotsOk, TlbOk, ContentsOk, StatsOk, ForkOk, SameContents, OnlyContent, PcOk;
    var s' := Share(s, vpn);
    Mine(s);
    if s.pte[Eid(s.cur, vpn)].swp {
      ShareCore(s, vpn);
      ShareSlots(s, vpn);
      ShareContents(s, vpn);
      TlbQuiet(s, s');
      StatsQuiet(s, s');
    } else {
      ShareSeeks(s, vpn);
    }
  }

  lemma ShareSeeks(s: State, vpn: nat)
    requires Inv(s) && CanShare(s, vpn) && !s.pte[Eid(s.cur, vpn)].swp
    ensures Inv(Share(s, vpn)) && SameContents(s, Share(s, vpn))
  {
    hide Core, ThreadsOk, SlotsOk, TlbOk, ContentsOk, StatsOk, ForkOk, SameContents;
    Mine(s);
    StatsQuiet(s, Share(s, vpn));
    LocalKeeps(s, Share(s, vpn), Seeking(Copy(At(s).offspring, vpn)));
  }

  // ------------------------------------------------------------------
  // Copying a page that was in memory when its turn came

  lemma DuplicateCore(s: State, junk: Page)
    requires Core(s) && CanDuplicate(s) && PcOk(s, s.cur)
    ensures Core(Duplicate(s, junk))
  {
    hide Shape, EntriesOk, UnpinnedOk;
    SizesAgree(s);
    ShapeRelabel(s, Duplicate(s, junk), At(s).frame);
    DuplicateEntries(s, junk);
  }

  lemma DuplicateEntries(s: State, junk: Page)
    requires EntriesOk(s) && UnpinnedOk(s) && CanDuplicate(s) && PcOk(s, s.cur)
    ensures EntriesOk(Duplicate(s, junk)) && UnpinnedOk(Duplicate(s, junk))
  {
  }

  lemma DuplicateThreads(s: State, junk: Page)
    requires ThreadsOk(s) && CanDuplicate(s)
    ensures ThreadsOk(Duplicate(s, junk))
  {
    hide ThreadsOk;
    var s' := Duplicate(s, junk);
    var x := Eid(At(s).want.child, At(s).want.page);
    Mine(s);
    forall t | t in s.pc && t != s.cur
      ensures Apart(s, s', t, x)
      ensures HasFrame(s.pc[t]) ==> FrameKept(s, s', t)
    {
      Theirs(s, t);
      assert !HoldsFrame(s, t, At(s).frame);
    }
    ThreadsStable(s, s', x);
  }

  lemma DuplicateSlots(s: State, junk: Page)
    requires SlotsOk(s) && CanDuplicate(s) && PcOk(s, s.cur)
    ensures SlotsOk(Duplicate(s, junk))
  {
    hide SlotsOk;
    SlotsStable(s, Duplicate(s, junk));
  }

  lemma DuplicateContents(s: State, junk: Page)
    requires Core(s) && ThreadsOk(s) && CanDuplicate(s)
    ensures var s' := Duplicate(s, junk); var x := Eid(At(s).want.child, At(s).want.page);
      && OnlyContent(s, s', x) && x !in s.pte && x in s'.pte
      && Content(s', x) == Copied(s, junk)
  {
    hide Core, ThreadsOk;
    var s' := Duplicate(s, junk);
    Mine(s);
    var m := s.(mem := s'.mem);
    ReservedUnseen(s, At(s).frame, Copied(s, junk));
    forall e | e in s.pte ensures Content(s', e) == Content(s, e) {
      assert Content(m, e) == Content(s, e);
    }
  }

  lemma DuplicateOthers(s: State, junk: Page)
    requires Core(s) && ThreadsOk(s) && ContentsOk(s) && CanDuplicate(s)
    ensures ContentsOk(Duplicate(s, junk))
  {
    hide Core, ThreadsOk, SameContents;
    var s' := Duplicate(s, junk);
    Mine(s);
    var m := s.(mem := s'.mem);
    ReservedUnseen(s, At(s).frame, Copied(s, junk));
    hide PcOk;
    forall t | t in s'.pc && t != s.cur ensures ContentOk(s', t) {
      assert ContentOk(s, t) && ContentOk(m, t);
      assert !HoldsFrame(s, t, At(s).frame);
      ContentStable(m, s', t);
    }
  }

  lemma DuplicateCopies(s: State, junk: Page)
    requires Core(s) && ThreadsOk(s) && ForkOk(s) && CanDuplicate(s)
    requires var x := Eid(At(s).want.child, At(s).want.page); var s' := Duplicate(s, junk);
      OnlyContent(s, s', x) && x in s'.pte && Content(s', x) == Copied(s, junk)
    ensures ForkOk(Duplicate(s, junk))
  {
    Mine(s);
    ChildrenUnborn(s);
    var p := s.pte[Eid(s.cur, At(s).want.page)];
    assert !p.swp ==> p.frame < |s.mem|;
    hide Core, ThreadsOk;
  }

  lemma DuplicateKeeps(s: State, junk: Page)
    requires Inv(s) && CanDuplicate(s)
    ensures var s' := Duplicate(s, junk); var x := Eid(At(s).want.child, At(s).want.page);
      && Inv(s') && OnlyContent(s, s', x) && x !in s.pte && x in s'.pte
      && Content(s', x) == Copied(s, junk)
  {
    hide Core, ThreadsOk, SlotsOk, TlbOk, ContentsOk, StatsOk, ForkOk, OnlyContent, PcOk;
    var s' := Duplicate(s, junk);
    Mine(s);
    DuplicateCore(s, junk);
    DuplicateThreads(s, junk);
    DuplicateSlots(s, junk);
    DuplicateContents(s, junk);
    DuplicateOthers(s, junk);
    DuplicateCopies(s, junk);
    assert TlbOk(s') by { DuplicateTlb(s, junk); }
    StatsQuiet(s, s');
  }

  lemma DuplicateTlb(s: State, junk: Page)
    requires s.cur in s.pc && TlbOk(s) && CanDuplicate(s) && PcOk(s, s.cur)
    ensures TlbOk(Duplicate(s, junk))
  {
    TlbQuiet(s, Duplicate(s, junk));
  }

  // ------------------------------------------------------------------
  // The child starts to run

  lemma ForkedThreads(s: State)
    requires ThreadsOk(s) && CanForked(s)
    ensures ThreadsOk(Forked(s))
  {
    var s' := Forked(s);
    Mine(s);
    forall t | t in s'.pc ensures PcOk(s', t) {
      if t != s.cur && t != At(s).offspring {
        assert PcOk(s, t);
        ForkedOther(s, t);
      }
    }
    assert forall t, f :: HoldsFrame(s', t, f) ==> HoldsFrame(s, t, f);
  }

  lemma ForkedOther(s: State, t: Tid)
    requires t in s.pc && t != s.cur && CanForked(s) && t != At(s).offspring && PcOk(s, t) && PcOk(s, s.cur)
    requires s.swapLock == Some(s.cur) && (NeedsLock(s.pc[t]) ==> s.swapLock == Some(t))
    ensures PcOk(Forked(s), t)
  {
    assert HasSpace(s, t) ==> HasSpace(Forked(s), t);
  }

  lemma ForkedRest(s: State)
    requires Core(s) && TlbOk(s) && CanForked(s) && PcOk(s, s.cur)
    ensures Core(Forked(s)) && TlbOk(Forked(s))
  {
  }

  lemma ForkedSame(s: State)
    requires s.cur in s.pc && ContentsOk(s) && CanForked(s) && PcOk(s, s.cur)
    ensures ContentsOk(Forked(s)) && SameContents(s, Forked(s))
  {
    var s' := Forked(s);
    forall t | t in s'.pc ensures ContentOk(s', t) {
      assert ContentOk(s, t);
    }
  }

  lemma ForkedCopies(s: State)
    requires s.cur in s.pc && ThreadsOk(s) && CanForked(s)
    ensures ForkOk(Forked(s))
  {
    Mine(s);
    ChildrenUnborn(s);
  }

  lemma ForkedKeeps(s: State)
    requires Inv(s) && CanForked(s)
    ensures Inv(Forked(s)) && SameContents(s, Forked(s))
  {
    hide Core, ThreadsOk, SlotsOk, TlbOk, ContentsOk, StatsOk, ForkOk, SameContents, PcOk;
    var s' := Forked(s);
    Mine(s);
    ForkedThreads(s);
    ForkedRest(s);
    ForkedSame(s);
    ForkedCopies(s);
    assert IsEmbryo(s, At(s).offspring) by { ChildrenUnborn(s); }
    SlotsQuiet(s, s');
    StatsQuiet(s, s');
  }

  // ------------------------------------------------------------------
  // Destroying an address space

  lemma DestroyKeeps(s: State, prey: Tid)
    requires Inv(s) && CanDestroy(s, prey)
    ensures Inv(Destroy(s, prey)) && SameContents(s, Destroy(s, prey))
  {
    hide Core, ThreadsOk, SlotsOk, TlbOk, ContentsOk, StatsOk, ForkOk, SameContents;
    var s' := Destroy(s, prey);
    CoreLocal(s, s');
    ThreadsLocal(s, s');
    SlotsQuiet(s, s');
    TlbQuiet(s, s');
    ContentsQuiet(s, s');
    StatsQuiet(s, s');
    SameLocal(s, s');
    ForkQuiet(s, s');
  }

  /** The coremap after one entry has been released: only the frame of the entry is affected. */
  ghost predicate ReleasedAt(s: State, vpn: nat, post: Map)
    requires CanRelease(s, vpn, post)
  {
    var p := s.pte[Eid(At(s).prey, vpn)];
    && |post| == |s.cm|
    && (forall k :: 0 <= k < |s.cm| && s.cm[k].occ && (p.swp || k != p.frame) ==> post[k] == s.cm[k])
    && (forall k :: 0 <= k < |s.cm| && (p.swp || k != p.frame) ==> SameUse(post[k], s.cm[k]))
    && (!p.swp ==> post[p.frame].owner == None)
    && (!p.swp && p.swapping ==> post[p.frame] == s.cm[p.frame].(fixed := true, owner := None))
  }

  lemma ReleaseFrame(s: State, vpn: nat, post: Map)
    requires Core(s) && CanRelease(s, vpn, post)
    ensures ValidMap(post) && ReleasedAt(s, vpn, post)
  {
    var p := s.pte[Eid(At(s).prey, vpn)];
    if !p.swp {
      assert s.cm[p.frame].nframes == 1;
      if p.swapping {
        RelabelValid(s.cm, p.frame, s.cm[p.frame].(fixed := true, owner := None));
      }
    }
  }

  lemma ReleaseCore(s: State, vpn: nat, post: Map)
    requires Core(s) && CanRelease(s, vpn, post)
    ensures Core(Release(s, vpn, post))
  {
    ReleaseFrame(s, vpn, post);
    var s' := Release(s, vpn, post);
    forall h | h in s'.kernel ensures Head(s'.cm, h) && s'.cm[h].occ && s'.cm[h].owner == None {
      assert Head(s.cm, h);
    }
  }

  lemma EntriesOf(s: State)
    requires Core(s)
    ensures s.cur in s.pc && EntriesOk(s)
  {
  }

  lemma ReleaseThreads(s: State, vpn: nat, post: Map)
    requires Core(s) && ThreadsOk(s) && CanRelease(s, vpn, post)
    ensures ThreadsOk(Release(s, vpn, post))
  {
    hide Core, ThreadsOk;
    EntriesOf(s);
    var s' := Release(s, vpn, post);
    var x := Eid(At(s).prey, vpn);
    ReleaseFrame(s, vpn, post);
    Mine(s);
    forall t | t in s.pc && t != s.cur
      ensures Apart(s, s', t, x)
      ensures HasFrame(s.pc[t]) ==> FrameKept(s, s', t)
    {
      Theirs(s, t);
    }
    ThreadsStable(s, s', x);
  }

  lemma ReleaseRefs(s: State, vpn: nat, post: Map)
    requires CanRelease(s, vpn, post) && PcOk(s, s.cur)
    ensures var e := Eid(At(s).prey, vpn); var k := s.pte[e].frame;
      && (s.pte[e].swp ==> Refers(s, ByEntry(e), k))
      && forall r, j :: Refers(Release(s, vpn, post), r, j) <==>
                        Refers(s, r, j) && !(s.pte[e].swp && r == ByEntry(e) && j == k)
  {
  }

  lemma ReleaseSlots(s: State, vpn: nat, post: Map)
    requires SlotsOk(s) && CanRelease(s, vpn, post) && PcOk(s, s.cur)
    ensures SlotsOk(Release(s, vpn, post))
  {
    hide SlotsOk;
    ReleaseRefs(s, vpn, post);
    hide Refers;
    var e := Eid(At(s).prey, vpn);
    if s.pte[e].swp {
      SlotsLose(s, Release(s, vpn, post), s.pte[e].frame, ByEntry(e));
    } else {
      SlotsStable(s, Release(s, vpn, post));
    }
  }

  lemma ReleaseRest(s: State, vpn: nat, post: Map)
    requires s.cur in s.pc && TlbOk(s) && ContentsOk(s) && CanRelease(s, vpn, post) && PcOk(s, s.cur)
    requires ReleasedAt(s, vpn, post)
    ensures var s' := Release(s, vpn, post);
      TlbOk(s') && ContentsOk(s') && OnlyContent(s, s', Eid(At(s).prey, vpn))
  {
    TlbQuiet(s, Release(s, vpn, post));
    hide TlbOk;
    ContentsQuiet(s, Release(s, vpn, post));
  }

  lemma ReleaseKeeps(s: State, vpn: nat, post: Map)
    requires Inv(s) && CanRelease(s, vpn, post)
    ensures var s' := Release(s, vpn, post); var x := Eid(At(s).prey, vpn);
      Inv(s') && OnlyContent(s, s', x) && x in s.pte && x !in s'.pte
  {
    hide Core, ThreadsOk, SlotsOk, TlbOk, ContentsOk, StatsOk, ForkOk, OnlyContent, PcOk, ReleasedAt;
    var s' := Release(s, vpn, post);
    Mine(s);
    ReleaseFrame(s, vpn, post);
    ReleaseCore(s, vpn, post);
    ReleaseThreads(s, vpn, post);
    ReleaseSlots(s, vpn, post);
    ReleaseRest(s, vpn, post);
    StatsQuiet(s, s');
    assert ForkOk(s') by { ReleaseCopies(s, vpn, post); }
  }

  lemma ReleaseCopies(s: State, vpn: nat, post: Map)
    requires s.cur in s.pc && ThreadsOk(s) && ForkOk(s) && CanRelease(s, vpn, post)
    requires OnlyContent(s, Release(s, vpn, post), Eid(At(s).prey, vpn))
    ensures ForkOk(Release(s, vpn, post))
  {
    Mine(s);
    ChildrenUnborn(s);
    hide ThreadsOk;
    ForkElsewhere(s, Release(s, vpn, post), Eid(At(s).prey, vpn));
  }

  lemma DestroyedCore(s: State)
    requires Core(s) && CanDestroyed(s)
    ensures Core(Destroyed(s))
  {
  }

  lemma DestroyedThreads(s: State)
    requires Core(s) && ThreadsOk(s) && CanDestroyed(s)
    ensures Core(Destroyed(s)) && ThreadsOk(Destroyed(s))
  {
    hide Core;
    var s' := Destroyed(s);
    Mine(s);
    DestroyedCore(s);
    forall t | t in s'.pc ensures PcOk(s', t) {
      if t != s.cur {
        DestroyedOther(s, t);
      }
    }
    assert forall t, f :: HoldsFrame(s', t, f) ==> HoldsFrame(s, t, f);
  }

  lemma DestroyedOther(s: State, t: Tid)
    requires t in s.pc && t != s.cur && CanDestroyed(s) && PcOk(s, t) && PcOk(s, s.cur)
    requires s.swapLock == Some(s.cur) && (NeedsLock(s.pc[t]) ==> s.swapLock == Some(t))
    ensures PcOk(Destroyed(s), t)
  {
    assert HasSpace(s, t) ==> HasSpace(Destroyed(s), t);
  }

  lemma DestroyedKeeps(s: State)
    requires Inv(s) && CanDestroyed(s)
    ensures Inv(Destroyed(s)) && SameContents(s, Destroyed(s))
  {
    hide Core, ThreadsOk, SlotsOk, TlbOk, ContentsOk, StatsOk, ForkOk;
    var s' := Destroyed(s);
    DestroyedThreads(s);
    SlotsQuiet(s, s');
    TlbQuiet(s, s');
    assert ContentsOk(s') by { DestroyedContents(s); }
    StatsQuiet(s, s');
    ForkQuiet(s, s');
  }

  lemma DestroyedContents(s: State)
    requires s.cur in s.pc && ContentsOk(s) && CanDestroyed(s)
    ensures ContentsOk(Destroyed(s))
  {
    forall t | t in s.pc && t != s.cur ensures ContentOk(Destroyed(s), t) {
      assert ContentOk(s, t);
    }
  }

  // ------------------------------------------------------------------
  // Kernel allocations

  lemma AskKeeps(s: State)
    requires Inv(s) && CanAsk(s)
    ensures Inv(Ask(s)) && SameContents(s, Ask(s))
  {
    hide Core, SlotsOk, ThreadsOk, ContentsOk, StatsOk, ForkOk, TlbOk, SameContents;
    Mine(s);
    StatsQuiet(s, Ask(s));
    LocalKeeps(s, Ask(s), At(Ask(s)));
  }

  lemma TakeCore(s: State, page: nat, num: nat, post: Map)
    requires Core(s) && CanTake(s, page, num, post)
    ensures Core(Take(s, page, post))
    ensures page !in s.kernel && forall k :: 0 <= k < |s.cm| && s.cm[k].occ ==> post[k] == s.cm[k]
  {
    var s' := Take(s, page, post);
    assert Head(s.cm, page);
    assert forall k :: page <= k < page + num ==> !s.cm[k].occ;
    assert forall k :: 0 <= k < |s.cm| && s.cm[k].occ ==> post[k] == s.cm[k];
    forall h | h in s'.kernel ensures Head(s'.cm, h) && s'.cm[h].occ && s'.cm[h].owner == None {
      assert h in s.kernel ==> Head(s.cm, h);
    }
  }

  lemma TakeThreads(s: State, page: nat, num: nat, post: Map)
    requires Core(s) && ThreadsOk(s) && CanTake(s, page, num, post)
    ensures ThreadsOk(Take(s, page, post))
  {
    TakeCore(s, page, num, post);
    hide Core, ThreadsOk;
    HoldersHeld(s);
    Mine(s);
    ThreadsStable(s, Take(s, page, post), Eid(s.cur, 0));
  }

  lemma TakeContents(s: State, page: nat, num: nat, post: Map)
    requires Core(s) && ThreadsOk(s) && ContentsOk(s) && CanTake(s, page, num, post)
    ensures ContentsOk(Take(s, page, post))
  {
    TakeCore(s, page, num, post);
    hide Core, ThreadsOk, ContentsOk;
    HoldersHeld(s);
    ContentsQuiet(s, Take(s, page, post));
  }

  lemma TakeKeeps(s: State, page: nat, num: nat, post: Map)
    requires Inv(s) && CanTake(s, page, num, post)
    ensures Inv(Take(s, page, post)) && SameContents(s, Take(s, page, post))
  {
    hide Core, ThreadsOk, SlotsOk, TlbOk, ContentsOk, StatsOk, ForkOk;
    var s' := Take(s, page, post);
    TakeCore(s, page, num, post);
    TakeThreads(s, page, num, post);
    TakeContents(s, page, num, post);
    SlotsQuiet(s, s');
    TlbQuiet(s, s');
    StatsQuiet(s, s');
    ForkQuiet(s, s');
  }

  /** Returning a kernel block touches no frame that a page or a thread depends on. */
  lemma GiveCore(s: State, page: nat, post: Map)
    requires Core(s) && CanGive(s, page, post)
    ensures Core(Give(s, page, post))
    ensures forall k :: 0 <= k < |s.cm| && s.cm[k].occ && Head(s.cm, k) && k != page ==> post[k] == s.cm[k]
  {
    var s' := Give(s, page, post);
    assert Head(s.cm, page);
    forall k | 0 <= k < |s.cm| && s.cm[k].occ && Head(s.cm, k) && k != page ensures post[k] == s.cm[k] {
      assert !(page < k < page + s.cm[page].nframes);
    }
    forall h | h in s'.kernel ensures Head(s'.cm, h) && s'.cm[h].occ && s'.cm[h].owner == None {
      assert Head(s.cm, h);
    }
  }

  lemma GiveThreads(s: State, page: nat, post: Map)
    requires Core(s) && ThreadsOk(s) && CanGive(s, page, post)
    ensures ThreadsOk(Give(s, page, post))
  {
    GiveCore(s, page, post);
    hide Core, ThreadsOk;
    HoldersHeld(s);
    Mine(s);
    ThreadsStable(s, Give(s, page, post), Eid(s.cur, 0));
  }

  lemma GiveContents(s: State, page: nat, post: Map)
    requires Core(s) && ThreadsOk(s) && ContentsOk(s) && CanGive(s, page, post)
    ensures ContentsOk(Give(s, page, post))
  {
    GiveCore(s, page, post);
    hide Core, ThreadsOk, ContentsOk;
    HoldersHeld(s);
    ContentsQuiet(s, Give(s, page, post));
  }

  lemma GiveKeeps(s: State, page: nat, post: Map)
    requires Inv(s) && CanGive(s, page, post)
    ensures Inv(Give(s, page, post)) && SameContents(s, Give(s, page, post))
  {
    hide Core, ThreadsOk, SlotsOk, TlbOk, ContentsOk, StatsOk, ForkOk;
    var s' := Give(s, page, post);
    GiveCore(s, page, post);
    GiveThreads(s, page, post);
    GiveContents(s, page, post);
    SlotsQuiet(s, s');
    TlbQuiet(s, s');
    StatsQuiet(s, s');
    ForkQuiet(s, s');
  }
}
