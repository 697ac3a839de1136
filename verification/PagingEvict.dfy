/** The steps by which a frame changes hands keep the invariant and every page's contents. */
module PagingEvict {
  import opened Common
  import opened Coremap
  import opened Paging
  import opened PagingInvariant
  import opened PagingStable
  import Tlb

  // ------------------------------------------------------------------
  // A free frame

  lemma GrabCore(s: State, page: nat, post: Map)
    requires Core(s) && CanGrab(s, page, post)
    ensures Core(Grab(s, page, post))
  {
    hide Taken, ValidMap;
    var s' := Grab(s, page, post);
    GrabGiven(s, page, post);
    assert forall h :: Head(s.cm, h) && s.cm[h].occ ==> Head(s'.cm, h);
  }

  /** One free frame has been given to `owner`; occupied frames are as before and free ones without owner. */
  ghost predicate GivenOne(cm: Map, page: nat, owner: Option<Eid>, post: Map) {
    && |post| == |cm| && page < |cm| && !cm[page].occ && post[page] == Entry(true, true, 1, owner)
    && (forall k :: 0 <= k < |cm| && cm[k].occ ==> post[k] == cm[k])
    && (forall k :: 0 <= k < |cm| && !cm[k].occ ==> cm[k].owner == None && (k == page || post[k].owner == None))
  }

  lemma GrabGiven(s: State, page: nat, post: Map)
    requires Core(s) && CanGrab(s, page, post)
    ensures ValidMap(post) && GivenOne(s.cm, page, Target(s.cur, At(s).want), post)
    ensures page >= s.first && page !in s.kernel
  {
    hide EntriesOk, UnpinnedOk;
    assert Head(s.cm, page);
  }

  lemma GrabThreads(s: State, page: nat, post: Map)
    requires Core(s) && ThreadsOk(s) && CanGrab(s, page, post)
    ensures ThreadsOk(Grab(s, page, post))
  {
    hide Core, ThreadsOk, Taken;
    var s' := Grab(s, page, post);
    GrabGiven(s, page, post);
    hide ValidMap;
    Mine(s);
    HoldersHeld(s);
    assert AllApart(s, s', Eid(s.cur, 0));
    ThreadsStable(s, s', Eid(s.cur, 0));
  }

  lemma GrabKeeps(s: State, page: nat, post: Map)
    requires Inv(s) && CanGrab(s, page, post)
    ensures Inv(Grab(s, page, post)) && SameContents(s, Grab(s, page, post))
  {
    hide Core, ThreadsOk, SlotsOk, TlbOk, ContentsOk, StatsOk, ForkOk, SameContents;
    var s' := Grab(s, page, post);
    GrabCore(s, page, post);
    GrabThreads(s, page, post);
    GrabContents(s, page, post);
    TlbQuiet(s, s');
    SlotsQuiet(s, s');
    StatsQuiet(s, s');
    ForkQuiet(s, s');
  }

  lemma GrabContents(s: State, page: nat, post: Map)
    requires Core(s) && ThreadsOk(s) && CanGrab(s, page, post) && ContentsOk(s)
    ensures var s' := Grab(s, page, post); ContentsOk(s') && SameContents(s, s')
  {
    hide Core, ThreadsOk, Taken, ValidMap, ContentsOk, SameContents;
    CurBorn(s);
    GrabGiven(s, page, post);
    HoldersHeld(s);
    ContentsQuiet(s, Grab(s, page, post));
    SameLocal(s, Grab(s, page, post));
  }

  // ------------------------------------------------------------------
  // Claiming a victim

  lemma ClaimCore(s: State, f: nat)
    requires Core(s) && CanClaim(s, f)
    ensures Core(Claim(s, f))
  {
    RelabelValid(s.cm, f, s.cm[f].(fixed := true));
    assert forall h :: Head(s.cm, h) ==> Head(Claim(s, f).cm, h);
  }

  lemma ClaimThreads(s: State, f: nat)
    requires Core(s) && ThreadsOk(s) && CanClaim(s, f)
    ensures ThreadsOk(Claim(s, f))
  {
    hide Core, ThreadsOk, PcOk;
    var s' := Claim(s, f);
    var x := s.cm[f].owner.value;
    VictimPage(s, f);
    Mine(s);
    forall t | t in s.pc && t != s.cur
      ensures Apart(s, s', t, x) && (HasFrame(s.pc[t]) ==> FrameKept(s, s', t))
      ensures !HoldsFrame(s, t, f)
    {
      Theirs(s, t);
      ClaimApart(s, f, t);
    }
    ClaimMine(s, f);
    hide Apart, FrameKept;
    ThreadsStable(s, s', x);
  }

  lemma VictimPage(s: State, f: nat)
    requires Core(s) && CanClaim(s, f)
    ensures s.pte[s.cm[f].owner.value] == Pte(f, false, false)
    ensures s.cm[f].nframes == 1 && f >= s.first && f !in s.kernel
  {
  }

  lemma ClaimApart(s: State, f: nat, t: Tid)
    requires CanClaim(s, f) && t in s.pc && t != s.cur && PcOk(s, t) && (HasFrame(s.pc[t]) ==> Held(s, s.pc[t].frame))
    requires s.pte[s.cm[f].owner.value] == Pte(f, false, false)
    ensures Apart(s, Claim(s, f), t, s.cm[f].owner.value)
    ensures (HasFrame(s.pc[t]) ==> FrameKept(s, Claim(s, f), t)) && !HoldsFrame(s, t, f)
  {
  }

  lemma ClaimMine(s: State, f: nat)
    requires CanClaim(s, f) && PcOk(s, s.cur) && s.pte[s.cm[f].owner.value] == Pte(f, false, false)
    requires s.cm[f].nframes == 1 && f >= s.first && f !in s.kernel
    ensures PcOk(Claim(s, f), s.cur)
  {
  }

  lemma ClaimSlots(s: State, f: nat)
    requires Core(s) && CanClaim(s, f) && SlotsOk(s)
    ensures SlotsOk(Claim(s, f)) && SameContents(s, Claim(s, f))
  {
    SlotsStable(s, Claim(s, f));
  }

  lemma ClaimTlb(s: State, f: nat)
    requires Core(s) && CanClaim(s, f) && TlbOk(s)
    ensures TlbOk(Claim(s, f))
  {
  }

  lemma ClaimKeeps(s: State, f: nat)
    requires Inv(s) && CanClaim(s, f)
    ensures Inv(Claim(s, f)) && SameContents(s, Claim(s, f))
  {
    hide Core, ThreadsOk, SlotsOk, TlbOk, ContentsOk, StatsOk, ForkOk, SameContents;
    var s' := Claim(s, f);
    ClaimCore(s, f);
    ClaimThreads(s, f);
    ClaimSlots(s, f);
    ClaimTlb(s, f);
    ContentsQuiet(s, s');
    StatsQuiet(s, s');
    ForkQuiet(s, s');
  }

  // ------------------------------------------------------------------
  // Writing the page out

  lemma ReserveThreads(s: State, slot: nat)
    requires Core(s) && ThreadsOk(s) && CanReserve(s, slot)
    ensures Core(Reserve(s, slot)) && ThreadsOk(Reserve(s, slot))
  {
    hide Core, ThreadsOk;
    Mine(s);
    CoreLocal(s, Reserve(s, slot));
    ThreadsLocal(s, Reserve(s, slot));
  }

  lemma ReserveSlots(s: State, slot: nat)
    requires s.cur in s.pc && SlotsOk(s) && CanReserve(s, slot)
    ensures SlotsOk(Reserve(s, slot)) && SameContents(s, Reserve(s, slot))
  {
    hide SlotsOk;
    SlotsGain(s, Reserve(s, slot), slot, ByThread(s.cur));
  }

  lemma ReserveKeeps(s: State, slot: nat)
    requires Inv(s) && CanReserve(s, slot)
    ensures Inv(Reserve(s, slot)) && SameContents(s, Reserve(s, slot))
  {
    hide Core, ThreadsOk, SlotsOk, TlbOk, ContentsOk, StatsOk, ForkOk, SameContents;
    var s' := Reserve(s, slot);
    ReserveThreads(s, slot);
    ReserveSlots(s, slot);
    TlbQuiet(s, s');
    ContentsQuiet(s, s');
    StatsQuiet(s, s');
    ForkQuiet(s, s');
  }

  lemma StoreThreads(s: State)
    requires Core(s) && ThreadsOk(s) && CanStore(s)
    ensures Core(Store(s)) && ThreadsOk(Store(s))
  {
    hide Core, ThreadsOk;
    Mine(s);
    CoreLocal(s, Store(s));
    ThreadsLocal(s, Store(s));
  }

  /** The slot being written belongs to nobody else, so no other page changes. */
  lemma StoreContents(s: State)
    requires Core(s) && ThreadsOk(s) && SlotsOk(s) && ContentsOk(s) && CanStore(s)
    ensures ContentsOk(Store(s)) && SameContents(s, Store(s))
  {
    var s' := Store(s);
    var k := At(s).slot;
    assert PcOk(s, s.cur) && Refers(s, ByThread(s.cur), k);
    assert k < |s.refs| == |s.disk| && At(s).frame < |s.mem| == |s.cm|;
    hide Core, PcOk, ThreadsOk;
    forall e | e in s.pte ensures Content(s', e) == Content(s, e) {
      assert s.pte[e].swp && s.pte[e].frame == k && !InFetch(s, e) ==> Refers(s, ByEntry(e), k);
    }
    forall t | t in s'.pc ensures ContentOk(s', t) {
      assert ContentOk(s, t);
      if t != s.cur {
        if s.pc[t].Written? {
          assert Refers(s, ByThread(t), s.pc[t].slot);
          assert s.pc[t].slot != k;
        }
        ContentStable(s, s', t);
      }
    }
  }

  lemma StoreKeeps(s: State)
    requires Inv(s) && CanStore(s)
    ensures Inv(Store(s)) && SameContents(s, Store(s))
  {
    hide Core, ThreadsOk, SlotsOk, TlbOk, ContentsOk, StatsOk, ForkOk, SameContents;
    var s' := Store(s);
    StoreThreads(s);
    StoreContents(s);
    SlotsQuiet(s, s');
    TlbQuiet(s, s');
    StatsQuiet(s, s');
    ForkQuiet(s, s');
  }

  // ------------------------------------------------------------------
  // The frame changes hands

  lemma CommitCore(s: State)
    requires Core(s) && CanCommit(s) && PcOk(s, s.cur)
    ensures Core(Commit(s))
  {
    hide Shape, EntriesOk, UnpinnedOk;
    CommitShape(s);
    SizesAgree(s);
    CommitEntries(s);
  }

  lemma CommitShape(s: State)
    requires Shape(s) && CanCommit(s) && PcOk(s, s.cur)
    ensures Shape(Commit(s))
  {
    hide Shape;
    SizesAgree(s);
    ShapeRelabel(s, Commit(s), At(s).frame);
  }

  lemma CommitEntries(s: State)
    requires |s.refs| == |s.disk| && EntriesOk(s) && UnpinnedOk(s) && CanCommit(s) && PcOk(s, s.cur)
    requires s.user <= s.pc.Keys
    ensures EntriesOk(Commit(s)) && UnpinnedOk(Commit(s))
  {
  }

  lemma CommitThreads(s: State)
    requires Core(s) && ThreadsOk(s) && CanCommit(s)
    ensures ThreadsOk(Commit(s))
  {
    hide Core, ThreadsOk;
    var s' := Commit(s);
    var f := At(s).frame;
    Mine(s);
    var x := if s.cm[f].owner == None then Eid(s.cur, 0) else s.cm[f].owner.value;
    forall t | t in s.pc && t != s.cur
      ensures s.pte == s'.pte || Apart(s, s', t, x)
      ensures HasFrame(s.pc[t]) ==> FrameKept(s, s', t)
    {
      Theirs(s, t);
      assert !HoldsFrame(s, t, f);
      CommitApart(s, t, x);
    }
    CommitMine(s);
    hide Apart, FrameKept, PcOk;
    ThreadsStable(s, s', x);
  }

  lemma CommitApart(s: State, t: Tid, x: Eid)
    requires CanCommit(s) && t in s.pc && t != s.cur && PcOk(s, t) && PcOk(s, s.cur) && !HoldsFrame(s, t, At(s).frame)
    requires x == if s.cm[At(s).frame].owner == None then Eid(s.cur, 0) else s.cm[At(s).frame].owner.value
    ensures s.pte == Commit(s).pte || Apart(s, Commit(s), t, x)
    ensures HasFrame(s.pc[t]) ==> FrameKept(s, Commit(s), t)
  {
  }

  lemma CommitMine(s: State)
    requires CanCommit(s) && PcOk(s, s.cur)
    ensures PcOk(Commit(s), s.cur)
  {
  }

  lemma NotConsumed(s: State, e: Eid)
    requires ThreadsOk(s) && e in s.pte && !s.pte[e].swp
    ensures !Consumed(s, e) && !InFetch(s, e)
  {
    if e.pt in s.pc {
      assert PcOk(s, e.pt);
    }
  }

  lemma CommitSlots(s: State)
    requires Core(s) && ThreadsOk(s) && SlotsOk(s) && CanCommit(s)
    ensures SlotsOk(Commit(s))
  {
    hide Core, ThreadsOk, SlotsOk;
    var s' := Commit(s);
    var Written(want, f, k) := At(s);
    Mine(s);
    if s.cm[f].owner == None {
      SlotsQuiet(s, s');
    } else {
      var e := s.cm[f].owner.value;
      NotConsumed(s, e);
      SlotsPass(s, s', k, s.cur, e);
    }
  }

  /** The translation of the page that leaves is the one slot that is emptied. */
  lemma CommitTlb(s: State)
    requires Core(s) && TlbOk(s) && CanCommit(s) && PcOk(s, s.cur)
    ensures TlbOk(Commit(s))
  {
    var f := At(s).frame;
    if HasSpace(s, s.cur) && s.cm[f].owner != None {
      Tlb.InvalidateComplete(s.tlb, f);
    }
  }

  lemma CommitContents(s: State)
    requires Core(s) && ThreadsOk(s) && ContentsOk(s) && CanCommit(s)
    ensures ContentsOk(Commit(s))
  {
    assert ContentOk(s, s.cur);
    Mine(s);
    hide Core, ThreadsOk;
    assert forall t :: t in s.pc && t != s.cur && s.pc[t].Written? ==> !HoldsFrame(s, t, At(s).frame);
    ContentsQuiet(s, Commit(s));
  }

  /** The page that leaves is found in its slot with the contents it had in the frame. */
  lemma CommitSame(s: State)
    requires Core(s) && ThreadsOk(s) && ContentsOk(s) && CanCommit(s)
    ensures SameContents(s, Commit(s))
  {
    hide ThreadsOk, ContentsOk;
    var f := At(s).frame;
    MyContent(s);
    Mine(s);
    if s.cm[f].owner != None {
      NotConsumed(s, s.cm[f].owner.value);
    }
    CommitMoves(s);
  }

  lemma CommitMoves(s: State)
    requires Core(s) && CanCommit(s) && ContentOk(s, s.cur) && PcOk(s, s.cur)
    requires s.cm[At(s).frame].owner != None ==>
      !Consumed(s, s.cm[At(s).frame].owner.value) && !InFetch(s, s.cm[At(s).frame].owner.value)
    ensures SameContents(s, Commit(s))
  {
  }

  lemma CommitKeeps(s: State)
    requires Inv(s) && CanCommit(s)
    ensures Inv(Commit(s)) && SameContents(s, Commit(s))
  {
    hide Core, ThreadsOk, SlotsOk, TlbOk, ContentsOk, StatsOk, ForkOk, SameContents, PcOk;
    var s' := Commit(s);
    Mine(s);
    CommitCore(s);
    CommitThreads(s);
    CommitSlots(s);
    CommitTlb(s);
    CommitContents(s);
    CommitSame(s);
    StatsQuiet(s, s');
    ForkQuiet(s, s');
  }

  // ------------------------------------------------------------------
  // The slot of a page that was destroyed meanwhile

  lemma DropThreads(s: State)
    requires Core(s) && ThreadsOk(s) && CanDrop(s)
    ensures Core(Drop(s)) && ThreadsOk(Drop(s))
  {
    hide Core, ThreadsOk;
    Mine(s);
    CoreLocal(s, Drop(s));
    ThreadsLocal(s, Drop(s));
  }

  lemma DropSlots(s: State)
    requires s.cur in s.pc && SlotsOk(s) && CanDrop(s)
    ensures SlotsOk(Drop(s)) && SameContents(s, Drop(s))
  {
    hide SlotsOk;
    SlotsLose(s, Drop(s), At(s).slot, ByThread(s.cur));
  }

  lemma DropKeeps(s: State)
    requires Inv(s) && CanDrop(s)
    ensures Inv(Drop(s)) && SameContents(s, Drop(s))
  {
    hide Core, ThreadsOk, SlotsOk, TlbOk, ContentsOk, StatsOk, ForkOk, SameContents;
    var s' := Drop(s);
    DropThreads(s);
    DropSlots(s);
    TlbQuiet(s, s');
    ContentsQuiet(s, s');
    StatsQuiet(s, s');
    ForkQuiet(s, s');
  }

  // ------------------------------------------------------------------
  // Clearing the frame

  lemma ZeroThreads(s: State)
    requires Core(s) && ThreadsOk(s) && CanZero(s)
    ensures Core(Zero(s)) && ThreadsOk(Zero(s))
  {
    hide Core, ThreadsOk;
    Mine(s);
    CoreLocal(s, Zero(s));
    ThreadsLocal(s, Zero(s));
  }

  /** No page lives in a frame that is set aside, so clearing it is invisible. */
  lemma ReservedUnseen(s: State, f: nat, c: Page)
    requires Core(s) && ThreadsOk(s) && s.cur in s.pc && HasFrame(At(s)) && At(s).frame == f < |s.mem|
    requires At(s).Zeroing? || At(s).Granted? || At(s).Reading?
    ensures var s' := s.(mem := s.mem[f := c]);
      SameContents(s, s') && forall t :: t in s.pc && t != s.cur && ContentOk(s, t) ==> ContentOk(s', t)
  {
    hide ThreadsOk;
    var s' := s.(mem := s.mem[f := c]);
    Mine(s);
    forall e | e in s.pte ensures Content(s', e) == Content(s, e) {
      if InFetch(s, e) {
        assert !HoldsFrame(s, e.pt, f) || e.pt == s.cur;
      }
    }
    hide Core, PcOk;
    forall t | t in s.pc && t != s.cur && ContentOk(s, t) ensures ContentOk(s', t) {
      assert !HoldsFrame(s, t, f);
      ContentStable(s, s', t);
    }
  }

  lemma ZeroContents(s: State)
    requires Core(s) && ThreadsOk(s) && ContentsOk(s) && CanZero(s)
    ensures ContentsOk(Zero(s)) && SameContents(s, Zero(s))
  {
    hide Core, ThreadsOk;
    var s' := Zero(s);
    var m := s.(mem := s.mem[At(s).frame := ZERO_PAGE]);
    ReservedUnseen(s, At(s).frame, ZERO_PAGE);
    forall t | t in s'.pc ensures ContentOk(s', t) {
      if t != s.cur {
        assert ContentOk(s, t) && ContentOk(m, t);
        ContentStable(m, s', t);
      }
    }
    forall e | e in s.pte ensures Content(s', e) == Content(s, e) {
      assert Content(m, e) == Content(s, e);
    }
  }

  lemma ZeroKeeps(s: State)
    requires Inv(s) && CanZero(s)
    ensures Inv(Zero(s)) && SameContents(s, Zero(s))
  {
    hide Core, ThreadsOk, SlotsOk, TlbOk, ContentsOk, StatsOk, ForkOk, SameContents;
    var s' := Zero(s);
    ZeroThreads(s);
    ZeroContents(s);
    SlotsQuiet(s, s');
    TlbQuiet(s, s');
    StatsQuiet(s, s');
    ForkQuiet(s, s');
  }
}
