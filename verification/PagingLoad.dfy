/** What becomes of a frame once a thread has it: the remaining steps of a fault keep the invariant. */
module PagingLoad {
  import opened Common
  import opened Coremap
  import opened Paging
  import opened PagingInvariant
  import opened PagingStable
  import opened PagingEvict
  import Tlb

  // ------------------------------------------------------------------
  // A page touched for the first time

  lemma InstallCore(s: State)
    requires Core(s) && CanInstall(s) && PcOk(s, s.cur)
    ensures Core(Install(s))
  {
  }

  lemma InstallThreads(s: State)
    requires ThreadsOk(s) && s.cur in s.pc && CanInstall(s)
    ensures ThreadsOk(Install(s))
  {
    hide ThreadsOk;
    var s' := Install(s);
    var x := Eid(s.cur, At(s).want.page);
    Mine(s);
    ChildrenUnborn(s);
    forall t | t in s.pc && t != s.cur
      ensures Apart(s, s', t, x)
    {
    }
    ThreadsStable(s, s', x);
  }

  lemma InstallSlots(s: State)
    requires SlotsOk(s) && CanInstall(s) && PcOk(s, s.cur)
    ensures SlotsOk(Install(s))
  {
    hide SlotsOk;
    SlotsStable(s, Install(s));
  }

  lemma InstallRest(s: State)
    requires CanInstall(s) && TlbOk(s) && StatsOk(s) && PcOk(s, s.cur)
    ensures TlbOk(Install(s)) && StatsOk(Install(s))
  {
    var s' := Install(s);
    if At(s').Mapping? {
      StatsOpen(s, s');
    } else {
      StatsQuiet(s, s');
    }
  }

  lemma InstallContents(s: State)
    requires s.cur in s.pc && ContentsOk(s) && CanInstall(s) && PcOk(s, s.cur)
    ensures var s' := Install(s); var x := Eid(s.cur, At(s).want.page);
      && ContentsOk(s') && OnlyContent(s, s', x) && x !in s.pte && x in s'.pte
      && Content(s', x) == ZERO_PAGE
  {
    assert ContentOk(s, s.cur);
    ContentsQuiet(s, Install(s));
  }

  lemma InstallKeeps(s: State)
    requires Inv(s) && CanInstall(s)
    ensures var s' := Install(s); var x := Eid(s.cur, At(s).want.page);
      && Inv(s') && OnlyContent(s, s', x) && x !in s.pte && x in s'.pte
      && Content(s', x) == ZERO_PAGE
  {
    hide Core, ThreadsOk, SlotsOk, TlbOk, ContentsOk, StatsOk, ForkOk, OnlyContent, PcOk;
    var s' := Install(s);
    Mine(s);
    InstallCore(s);
    InstallThreads(s);
    InstallSlots(s);
    InstallRest(s);
    InstallContents(s);
    ChildrenUnborn(s);
    ForkElsewhere(s, s', Eid(s.cur, At(s).want.page));
  }

  // ------------------------------------------------------------------
  // A page read back from its slot

  lemma FetchThreads(s: State)
    requires Core(s) && ThreadsOk(s) && CanFetch(s)
    ensures Core(Fetch(s)) && ThreadsOk(Fetch(s))
  {
    assert EntriesOk(s);
    hide Core, ThreadsOk;
    Mine(s);
    CoreLocal(s, Fetch(s));
    ThreadsLocal(s, Fetch(s));
  }

  lemma FetchSlots(s: State)
    requires s.cur in s.pc && SlotsOk(s) && CanFetch(s) && PcOk(s, s.cur)
    ensures SlotsOk(Fetch(s)) && SameContents(s, Fetch(s))
  {
    hide SlotsOk;
    var e := Eid(s.cur, At(s).want.page);
    SlotsLose(s, Fetch(s), s.pte[e].frame, ByEntry(e));
  }

  lemma FetchKeeps(s: State)
    requires Inv(s) && CanFetch(s)
    ensures Inv(Fetch(s)) && SameContents(s, Fetch(s))
  {
    hide Core, ThreadsOk, SlotsOk, TlbOk, ContentsOk, StatsOk, ForkOk, SameContents, PcOk;
    var s' := Fetch(s);
    Mine(s);
    FetchThreads(s);
    FetchSlots(s);
    TlbQuiet(s, s');
    ContentsQuiet(s, s');
    StatsQuiet(s, s');
    ForkQuiet(s, s');
  }

  lemma ArriveThreads(s: State)
    requires Core(s) && ThreadsOk(s) && CanArrive(s)
    ensures Core(Arrive(s)) && ThreadsOk(Arrive(s))
  {
    hide Core, ThreadsOk;
    Mine(s);
    CoreLocal(s, Arrive(s));
    ThreadsLocal(s, Arrive(s));
  }

  lemma ArriveOthers(s: State)
    requires Core(s) && ThreadsOk(s) && ContentsOk(s) && CanArrive(s)
    ensures ContentsOk(Arrive(s))
  {
    var s' := Arrive(s);
    var m := s.(mem := s'.mem);
    ReservedUnseen(s, At(s).frame, s.disk[At(s).slot]);
    hide Core, ThreadsOk, SameContents;
    forall t | t in s'.pc && t != s.cur ensures ContentOk(s', t) {
      assert ContentOk(s, t) && ContentOk(m, t);
      ContentStable(m, s', t);
    }
  }

  /** The frame shows what the slot held, so the page is the same before and after. */
  lemma ArriveSame(s: State)
    requires Core(s) && ThreadsOk(s) && CanArrive(s)
    ensures SameContents(s, Arrive(s))
  {
    var s' := Arrive(s);
    Mine(s);
    var m := s.(mem := s'.mem);
    ReservedUnseen(s, At(s).frame, s.disk[At(s).slot]);
    hide Core, ThreadsOk;
    forall e | e in s.pte ensures Content(s', e) == Content(s, e) {
      assert Content(m, e) == Content(s, e);
    }
  }

  lemma ArriveKeeps(s: State)
    requires Inv(s) && CanArrive(s)
    ensures Inv(Arrive(s)) && SameContents(s, Arrive(s))
  {
    hide Core, ThreadsOk, SlotsOk, TlbOk, ContentsOk, StatsOk, ForkOk, SameContents;
    var s' := Arrive(s);
    ArriveThreads(s);
    ArriveOthers(s);
    ArriveSame(s);
    SlotsQuiet(s, s');
    TlbQuiet(s, s');
    StatsQuiet(s, s');
    ForkQuiet(s, s');
  }

  lemma ReviveCore(s: State)
    requires Core(s) && CanRevive(s) && PcOk(s, s.cur)
    ensures Core(Revive(s))
  {
  }

  lemma ReviveThreads(s: State)
    requires ThreadsOk(s) && s.cur in s.pc && CanRevive(s)
    ensures ThreadsOk(Revive(s))
  {
    hide ThreadsOk;
    var s' := Revive(s);
    var x := Eid(s.cur, At(s).vpn);
    Mine(s);
    ChildrenUnborn(s);
    forall t | t in s.pc && t != s.cur ensures Apart(s, s', t, x) {
    }
    ThreadsStable(s, s', x);
  }

  lemma ReviveSlots(s: State)
    requires SlotsOk(s) && CanRevive(s) && PcOk(s, s.cur)
    ensures SlotsOk(Revive(s)) && SameContents(s, Revive(s))
  {
    hide SlotsOk;
    SlotsStable(s, Revive(s));
  }

  lemma ReviveRest(s: State)
    requires CanRevive(s) && TlbOk(s) && StatsOk(s) && PcOk(s, s.cur)
    ensures TlbOk(Revive(s)) && StatsOk(Revive(s))
  {
    StatsOpen(s, Revive(s));
  }

  lemma ReviveKeeps(s: State)
    requires Inv(s) && CanRevive(s)
    ensures Inv(Revive(s)) && SameContents(s, Revive(s))
  {
    hide Core, ThreadsOk, SlotsOk, TlbOk, ContentsOk, StatsOk, ForkOk, SameContents, PcOk;
    var s' := Revive(s);
    Mine(s);
    ReviveCore(s);
    ReviveThreads(s);
    ReviveSlots(s);
    ReviveRest(s);
    ContentsQuiet(s, s');
    ForkQuiet(s, s');
  }

  // ------------------------------------------------------------------
  // A frame for the kernel

  lemma HandOverCore(s: State)
    requires Core(s) && CanHandOver(s) && PcOk(s, s.cur)
    ensures Core(HandOver(s))
  {
  }

  lemma HandOverThreads(s: State)
    requires Core(s) && ThreadsOk(s) && CanHandOver(s)
    ensures Core(HandOver(s)) && ThreadsOk(HandOver(s))
  {
    hide Core, ThreadsOk;
    var s' := HandOver(s);
    Mine(s);
    HandOverCore(s);
    forall t | t in s.pc && t != s.cur && HasFrame(s.pc[t]) ensures FrameKept(s, s', t) {
      assert !HoldsFrame(s, t, At(s).frame);
    }
    ThreadsStable(s, s', Eid(s.cur, 0));
  }

  /** The page whose fault needed the frame still has no entry, so no translation. */
  lemma HandOverTlb(s: State)
    requires Core(s) && ThreadsOk(s) && TlbOk(s) && CanHandOver(s)
    ensures TlbOk(HandOver(s))
  {
    Mine(s);
    hide ThreadsOk;
  }

  lemma HandOverKeeps(s: State)
    requires Inv(s) && CanHandOver(s)
    ensures Inv(HandOver(s)) && SameContents(s, HandOver(s))
  {
    hide Core, ThreadsOk, SlotsOk, TlbOk, ContentsOk, StatsOk, ForkOk;
    var s' := HandOver(s);
    HandOverThreads(s);
    SlotsQuiet(s, s');
    HandOverTlb(s);
    ContentsQuiet(s, s');
    StatsQuiet(s, s');
    ForkQuiet(s, s');
  }

  // ------------------------------------------------------------------
  // The fault taken while the page is being loaded

  lemma NestedFaultStats(s: State)
    requires CanNestedFault(s) && StatsOk(s)
    ensures StatsOk(NestedFault(s))
  {
    StatsOpen(s, NestedFault(s));
  }

  lemma NestedFaultKeeps(s: State)
    requires Inv(s) && CanNestedFault(s)
    ensures Inv(NestedFault(s)) && SameContents(s, NestedFault(s))
  {
    hide Core, ThreadsOk, SlotsOk, TlbOk, ContentsOk, StatsOk, ForkOk, SameContents;
    Mine(s);
    MyContent(s);
    NestedFaultStats(s);
    LocalKeeps(s, NestedFault(s), LoadMapping(At(s).vpn, At(s).frame));
  }

  /** Writing the translation of a pinned page keeps the TLB in agreement with the page table. */
  lemma FillTlb(s: State, v: nat, f: nat)
    requires Core(s) && TlbOk(s) && Late(At(s)) && Pinned(s, s.cur, v, f) && At(s).vpn == v
    ensures var s' := Filled(s, v, f);
      TlbAgrees(s') && Tlb.Distinct(s'.tlb) && Tlb.NoGapBefore(s'.tlb, v) && |s'.tlb| == |s.tlb| && s'.rr < |s.tlb|
  {
    Tlb.FillDistinct(s.tlb, v, f, s.rr);
  }

  lemma NestedFillCore(s: State)
    requires Core(s) && TlbOk(s) && CanNestedFill(s) && PcOk(s, s.cur)
    ensures Core(NestedFill(s)) && TlbOk(NestedFill(s))
  {
    FillTlb(s, At(s).vpn, At(s).frame);
  }

  lemma NestedFillQuiet(s: State)
    requires s.cur in s.pc && ThreadsOk(s) && ContentsOk(s) && CanNestedFill(s) && At(s) != Exited
    ensures ThreadsOk(NestedFill(s)) && ContentsOk(NestedFill(s))
  {
    hide ThreadsOk, ContentsOk;
    var s' := NestedFill(s);
    Mine(s);
    MyContent(s);
    ThreadsLocal(s, s');
    ContentsQuiet(s, s');
  }

  lemma NestedFillKeeps(s: State)
    requires Inv(s) && CanNestedFill(s)
    ensures Inv(NestedFill(s)) && SameContents(s, NestedFill(s))
  {
    hide Core, ThreadsOk, SlotsOk, TlbOk, ContentsOk, StatsOk, ForkOk, PcOk, ContentOk;
    var s' := NestedFill(s);
    Mine(s);
    StatsClose(s, s', At(s).vpn, At(s).frame);
    NestedFillCore(s);
    NestedFillQuiet(s);
    SlotsQuiet(s, s');
    ForkQuiet(s, s');
  }

  // ------------------------------------------------------------------
  // Copying the file part of the page

  lemma LoadOthers(s: State)
    requires s.cur in s.pc && ThreadsOk(s) && ContentsOk(s) && CanLoad(s)
    ensures ContentsOk(Load(s))
  {
    var s' := Load(s);
    Mine(s);
    hide ThreadsOk, PcOk;
    forall t | t in s'.pc ensures ContentOk(s', t) {
      assert ContentOk(s, t);
      if t != s.cur {
        assert !HoldsFrame(s, t, At(s).frame);
        ContentStable(s, s', t);
      }
    }
  }

  lemma LoadContents(s: State)
    requires Core(s) && ThreadsOk(s) && CanLoad(s)
    ensures OnlyContent(s, Load(s), Eid(s.cur, At(s).vpn))
  {
    var s' := Load(s);
    Mine(s);
    hide ThreadsOk;
    forall e | e in s.pte && e != Eid(s.cur, At(s).vpn) ensures Content(s', e) == Content(s, e) {
      assert InFetch(s, e) ==> !HoldsFrame(s, e.pt, At(s).frame);
    }
  }

  lemma LoadKeeps(s: State)
    requires Inv(s) && CanLoad(s)
    ensures Inv(Load(s)) && OnlyContent(s, Load(s), Eid(s.cur, At(s).vpn))
  {
    hide Core, ThreadsOk, SlotsOk, TlbOk, ContentsOk, StatsOk, ForkOk, OnlyContent;
    var s' := Load(s);
    Mine(s);
    CoreLocal(s, s');
    ThreadsLocal(s, s');
    LoadOthers(s);
    LoadContents(s);
    SlotsQuiet(s, s');
    TlbQuiet(s, s');
    StatsQuiet(s, s');
    ChildrenUnborn(s);
    ForkElsewhere(s, s', Eid(s.cur, At(s).vpn));
  }

  lemma LoadedStats(s: State)
    requires CanLoaded(s) && StatsOk(s)
    ensures StatsOk(Loaded(s))
  {
    StatsOpen(s, Loaded(s));
  }

  lemma LoadedKeeps(s: State)
    requires Inv(s) && CanLoaded(s)
    ensures Inv(Loaded(s)) && SameContents(s, Loaded(s))
    ensures var x := Eid(s.cur, At(s).vpn);
      x in s.pte && Content(Loaded(s), x) == Initial(s, s.cur, At(s).vpn)
  {
    hide Core, ThreadsOk, SlotsOk, TlbOk, ContentsOk, StatsOk, ForkOk, SameContents;
    Mine(s);
    MyContent(s);
    LoadedStats(s);
    LocalKeeps(s, Loaded(s), Mapping(At(s).vpn, At(s).frame));
  }

  // ------------------------------------------------------------------
  // The end of a fault

  lemma FillCore(s: State, unpin: bool)
    requires Core(s) && TlbOk(s) && CanFill(s) && PcOk(s, s.cur)
    ensures Core(Fill(s, unpin)) && TlbOk(Fill(s, unpin))
  {
    var f := At(s).frame;
    FillTlb(s, At(s).vpn, f);
    RelabelValid(s.cm, f, s.cm[f].(fixed := false));
    assert forall h :: Head(s.cm, h) ==> Head(Fill(s, unpin).cm, h);
  }

  lemma FillThreads(s: State, unpin: bool)
    requires ThreadsOk(s) && CanFill(s)
    ensures ThreadsOk(Fill(s, unpin))
  {
    hide ThreadsOk;
    var s' := Fill(s, unpin);
    Mine(s);
    forall t | t in s.pc && t != s.cur && HasFrame(s.pc[t]) ensures FrameKept(s, s', t) {
      assert !HoldsFrame(s, t, At(s).frame);
    }
    ThreadsStable(s, s', Eid(s.cur, 0));
  }

  lemma FillSame(s: State, unpin: bool)
    requires s.cur in s.pc && ContentsOk(s) && ThreadsOk(s) && CanFill(s)
    ensures ContentsOk(Fill(s, unpin)) && SameContents(s, Fill(s, unpin))
  {
    hide ContentsOk, ThreadsOk;
    ContentsQuiet(s, Fill(s, unpin));
    SameLocal(s, Fill(s, unpin));
  }

  lemma FillKeeps(s: State, unpin: bool)
    requires Inv(s) && CanFill(s)
    ensures Inv(Fill(s, unpin)) && SameContents(s, Fill(s, unpin))
  {
    hide Core, ThreadsOk, SlotsOk, TlbOk, ContentsOk, StatsOk, ForkOk, PcOk, SameContents;
    var s' := Fill(s, unpin);
    Mine(s);
    StatsClose(s, s', At(s).vpn, At(s).frame);
    FillCore(s, unpin);
    FillThreads(s, unpin);
    FillSame(s, unpin);
    SlotsQuiet(s, s');
    ForkQuiet(s, s');
  }
}
