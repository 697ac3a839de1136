/** The steps of running threads and of page faults keep the invariant. */
module PagingFaults {
  import opened Common
  import opened Coremap
  import opened Paging
  import opened PagingInvariant
  import opened PagingStable
  import Tlb

  // ------------------------------------------------------------------
  // Switching and writing

  lemma SwitchKeeps(s: State, t: Tid)
    requires Inv(s) && CanSwitch(s, t)
    ensures Inv(Switch(s, t)) && SameContents(s, Switch(s, t))
  {
    hide Core, SlotsOk, ThreadsOk, TlbOk, ContentsOk, StatsOk, ForkOk;
    var s' := Switch(s, t);
    SwitchCore(s, t);
    SwitchThreads(s, t);
    SwitchContents(s, t);
    SlotsQuiet(s, s');
    StatsQuiet(s, s');
    ForkQuiet(s, s');
  }

  lemma SwitchCore(s: State, t: Tid)
    requires Core(s) && TlbOk(s) && CanSwitch(s, t)
    ensures Core(Switch(s, t)) && TlbOk(Switch(s, t))
  {
  }

  lemma SwitchThreads(s: State, t: Tid)
    requires ThreadsOk(s)
    ensures ThreadsOk(Switch(s, t))
  {
    hide PcOk;
    var s' := Switch(s, t);
    forall u | u in s'.pc ensures PcOk(s', u) {
      PcSame(s, s', u);
    }
    assert forall u, f :: HoldsFrame(s', u, f) ==> HoldsFrame(s, u, f);
  }

  lemma SwitchContents(s: State, t: Tid)
    requires ContentsOk(s)
    ensures ContentsOk(Switch(s, t))
  {
    var s' := Switch(s, t);
    forall u | u in s'.pc ensures ContentOk(s', u) {
      assert ContentOk(s, u);
    }
  }

  /** The frame a running thread can reach belongs to its page alone, and no thread works on it. */
  lemma WriteTarget(s: State, vpn: nat, frame: nat)
    requires Core(s) && ThreadsOk(s) && TlbOk(s) && CanWrite(s, vpn, frame)
    ensures var x := Eid(s.cur, vpn); x in s.pte && s.pte[x] == Pte(frame, false, false)
    ensures s.cm[frame].owner == Some(Eid(s.cur, vpn))
    ensures forall t :: !HoldsFrame(s, t, frame)
  {
    var i :| 0 <= i < |s.tlb| && s.tlb[i] == Tlb.Entry(vpn, frame);
    forall t | t in s.pc ensures !HoldsFrame(s, t, frame) {
      assert PcOk(s, t);
    }
  }

  lemma WriteContents(s: State, vpn: nat, frame: nat, content: Page)
    requires Core(s) && ThreadsOk(s) && TlbOk(s) && ContentsOk(s) && CanWrite(s, vpn, frame)
    ensures var s' := Write(s, frame, content);
      ContentsOk(s') && OnlyContent(s, s', Eid(s.cur, vpn)) && Content(s', Eid(s.cur, vpn)) == content
  {
    hide Core, TlbOk, ThreadsOk;
    WriteTarget(s, vpn, frame);
    WriteOthers(s, frame, content);
    WriteOne(s, vpn, frame, content);
  }

  lemma WriteOthers(s: State, frame: nat, content: Page)
    requires ContentsOk(s) && frame < |s.mem| && forall t :: !HoldsFrame(s, t, frame)
    ensures ContentsOk(Write(s, frame, content))
  {
    var s' := Write(s, frame, content);
    forall t | t in s'.pc ensures ContentOk(s', t) {
      assert ContentOk(s, t) && !HoldsFrame(s, t, frame);
      ContentStable(s, s', t);
    }
  }

  lemma WriteOne(s: State, vpn: nat, frame: nat, content: Page)
    requires Core(s) && frame < |s.mem| && (forall t :: !HoldsFrame(s, t, frame))
    requires var x := Eid(s.cur, vpn); x in s.pte && s.pte[x] == Pte(frame, false, false)
    ensures var s' := Write(s, frame, content);
      OnlyContent(s, s', Eid(s.cur, vpn)) && Content(s', Eid(s.cur, vpn)) == content
  {
    assert EntriesOk(s);
    hide Core;
    var s' := Write(s, frame, content);
    forall e | e in s.pte && e != Eid(s.cur, vpn) ensures Content(s', e) == Content(s, e) {
      assert InFetch(s, e) ==> !HoldsFrame(s, e.pt, frame);
    }
  }

  lemma WriteKeeps(s: State, vpn: nat, frame: nat, content: Page)
    requires Inv(s) && CanWrite(s, vpn, frame)
    ensures var s' := Write(s, frame, content);
      && Inv(s') && OnlyContent(s, s', Eid(s.cur, vpn))
      && Eid(s.cur, vpn) in s.pte && Content(s', Eid(s.cur, vpn)) == content
  {
    hide Core, SlotsOk, ThreadsOk, ContentsOk, StatsOk, ForkOk, OnlyContent;
    var s' := Write(s, frame, content);
    WriteTarget(s, vpn, frame);
    WriteContents(s, vpn, frame, content);
    CoreLocal(s, s');
    Mine(s);
    ThreadsLocal(s, s');
    SlotsQuiet(s, s');
    StatsQuiet(s, s');
    ChildrenUnborn(s);
    ForkElsewhere(s, s', Eid(s.cur, vpn));
  }

  // ------------------------------------------------------------------
  // Entering the fault handler

  lemma FaultKeeps(s: State, vpn: nat)
    requires Inv(s) && CanFault(s, vpn)
    ensures Inv(Fault(s, vpn)) && SameContents(s, Fault(s, vpn))
  {
    hide Core, SlotsOk, ThreadsOk, ContentsOk, StatsOk, ForkOk, TlbOk, SameContents;
    StatsQuiet(s, Fault(s, vpn));
    LocalKeeps(s, Fault(s, vpn), Faulting(vpn));
  }

  lemma LookupCore(s: State)
    requires Core(s) && CanLookup(s)
    ensures Core(Lookup(s))
  {
    var e := Eid(s.cur, At(s).vpn);
    if e in s.pte && !s.pte[e].swp {
      var f := s.pte[e].frame;
      RelabelValid(s.cm, f, s.cm[f].(fixed := true));
      assert forall h :: Head(s.cm, h) ==> Head(Lookup(s).cm, h);
    }
  }

  /** A page in memory that is not being written out is in nobody's hands. */
  lemma PinThreads(s: State, s': State, e: Eid)
    requires Core(s) && ThreadsOk(s) && s.cur in s.pc && At(s).Faulting? && e.pt == s.cur
    requires e in s.pte && !s.pte[e].swp && !s.pte[e].swapping
    requires var f := s.pte[e].frame;
      s' == Goto(s, Mapping(e.vpn, f)).(cm := s.cm[f := s.cm[f].(fixed := true)], stats := s'.stats)
    ensures ThreadsOk(s')
  {
    var f := s.pte[e].frame;
    assert s.cm[f].nframes == 1 && s.cm[f].occ && f >= s.first && f !in s.kernel;
    assert s.cm[f].owner == Some(e);
    hide Core, ThreadsOk;
    Mine(s);
    forall t | t in s.pc && t != s.cur
      ensures HasFrame(s.pc[t]) ==> FrameKept(s, s', t)
      ensures !HoldsFrame(s, t, f)
    {
      Theirs(s, t);
    }
    ThreadsStable(s, s', e);
  }

  lemma LookupThreads(s: State)
    requires Core(s) && ThreadsOk(s) && CanLookup(s)
    ensures ThreadsOk(Lookup(s))
  {
    hide Core, ThreadsOk;
    var e := Eid(s.cur, At(s).vpn);
    Mine(s);
    if Resident(s, e) {
      PinThreads(s, Lookup(s), e);
    } else {
      ThreadsLocal(s, Lookup(s));
    }
  }

  lemma LookupRest(s: State)
    requires Core(s) && TlbOk(s) && StatsOk(s) && CanLookup(s)
    ensures TlbOk(Lookup(s)) && StatsOk(Lookup(s))
  {
    var s' := Lookup(s);
    if At(s').Mapping? {
      assert Pending(s') == Pending(s) + {s.cur};
    } else {
      assert Pending(s') == Pending(s);
    }
  }

  lemma LookupKeeps(s: State)
    requires Inv(s) && CanLookup(s)
    ensures Inv(Lookup(s)) && SameContents(s, Lookup(s))
  {
    hide Core, SlotsOk, ThreadsOk, ContentsOk, StatsOk, ForkOk, TlbOk;
    var s' := Lookup(s);
    LookupCore(s);
    LookupThreads(s);
    LookupRest(s);
    SlotsQuiet(s, s');
    ContentsQuiet(s, s');
    ForkQuiet(s, s');
  }
}
