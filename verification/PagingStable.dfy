/**
  How far a step reaches: facts about threads, slots and contents that survive
  a step which does not touch them.
 */
module PagingStable {
  import opened Common
  import opened Coremap
  import opened Paging
  import opened PagingInvariant
  import Tlb

  /** Threads other than the running one keep their place. */
  ghost predicate OthersStay(s: State, s': State) {
    && s.pc.Keys == s'.pc.Keys && s.user == s'.user && s.first == s'.first
    && |s'.cm| == |s.cm| && |s'.refs| == |s.refs| && |s'.mem| == |s.mem| && |s'.disk| == |s.disk|
    && (forall t :: t in s.pc && t != s.cur ==> s'.pc[t] == s.pc[t])
  }

  /** Page table entries other than `x` are untouched. */
  ghost predicate OnlyEntry(s: State, s': State, x: Eid) {
    forall e :: e != x ==> (e in s.pte <==> e in s'.pte) && (e in s.pte ==> s'.pte[e] == s.pte[e])
  }

  /** The frame that thread `t` holds is as before, or its page was destroyed while it is emptied. */
  ghost predicate FrameKept(s: State, s': State, t: Tid)
    requires t in s.pc && HasFrame(s.pc[t])
  {
    var f := s.pc[t].frame;
    f < |s.cm| == |s'.cm| ==>
      && (f !in s.kernel ==> f !in s'.kernel)
      && (s'.cm[f] == s.cm[f] || (Evicts(s.pc[t]) && s'.cm[f] == s.cm[f].(owner := None)))
  }

  /** Entry `x` is none of the entries that thread `t` is working on. */
  ghost predicate Apart(s: State, s': State, t: Tid, x: Eid)
    requires t in s.pc
  {
    && (x.pt == t && HasSpace(s, t) ==> x in s.pte && x in s'.pte && !s.pte[x].swp)
    && (Copying(s.pc[t]) && x.pt == Child(s.pc[t]) ==> x in s.pte)
    && (HasFrame(s.pc[t]) && x in s.pte && !s.pte[x].swp && s.pte[x].frame == s.pc[t].frame ==>
          Evicts(s.pc[t]) && s.pc[t].frame < |s'.cm| && s'.cm[s.pc[t].frame].owner == None)
  }

  /** What a waiting thread relies on survives a step that leaves its frame and entries alone. */
  lemma PcStable(s: State, s': State, t: Tid, x: Eid)
    requires t in s.pc && t in s'.pc && t != s.cur && PcOk(s, t)
    requires OthersStay(s, s') && OnlyEntry(s, s', x)
    requires s.pte == s'.pte || Apart(s, s', t, x)
    requires HasFrame(s.pc[t]) ==> FrameKept(s, s', t)
    requires s.cur in s.pc && s.pc[s.cur] != Embryo && s.pc[s.cur] != Exited
    ensures PcOk(s', t)
  {
    assert HasSpace(s, t) ==> HasSpace(s', t);
  }

  /** What a thread relies on is told by its place, the entries, the coremap and the slots. */
  lemma PcSame(s: State, s': State, t: Tid)
    requires t in s.pc && PcOk(s, t) && s'.pc == s.pc && s'.pte == s.pte && s'.cm == s.cm
    requires s'.refs == s.refs && s'.user == s.user && s'.kernel == s.kernel && s'.first == s.first
    ensures PcOk(s', t)
  {
  }

  ghost predicate AllApart(s: State, s': State, x: Eid) {
    forall t :: t in s.pc && t != s.cur ==>
      && (s.pte == s'.pte || Apart(s, s', t, x))
      && (HasFrame(s.pc[t]) ==> FrameKept(s, s', t))
  }

  /** One thread moves; the others are apart from what it changed. */
  lemma ThreadsStable(s: State, s': State, x: Eid)
    requires s.cur in s.pc && s.pc[s.cur] != Embryo && s.pc[s.cur] != Exited
    requires ThreadsOk(s) && OthersStay(s, s') && OnlyEntry(s, s', x) && AllApart(s, s', x)
    requires PcOk(s', s.cur)
    requires NeedsLock(s'.pc[s.cur]) ==> s'.swapLock == Some(s.cur)
    requires forall t :: t in s.pc && t != s.cur && NeedsLock(s.pc[t]) ==> s'.swapLock == s.swapLock
    requires HasFrame(s'.pc[s.cur]) ==>
      forall t :: t != s.cur ==> !HoldsFrame(s, t, s'.pc[s.cur].frame)
    ensures ThreadsOk(s')
  {
    forall t | t in s'.pc ensures PcOk(s', t) {
      if t != s.cur {
        PcStable(s, s', t, x);
      }
    }
    forall t, u, f | HoldsFrame(s', t, f) && HoldsFrame(s', u, f) ensures t == u {
      assert t != s.cur ==> HoldsFrame(s, t, f);
      assert u != s.cur ==> HoldsFrame(s, u, f);
    }
  }

  /** One occupied frame that is not the kernel's is relabelled; its block stays as it is. */
  lemma ShapeRelabel(s: State, s': State, f: nat)
    requires Shape(s) && OthersStay(s, s') && s'.cur == s.cur && s'.pc[s.cur] != Embryo
    requires f < |s.cm| && s.cm[f].occ && f !in s.kernel && f >= s.first
    requires s'.cm[f].occ && s'.cm[f].nframes == s.cm[f].nframes && (s'.cm[f].owner != None ==> s'.cm[f].nframes == 1)
    requires s'.cm == s.cm[f := s'.cm[f]] && s'.kernel == s.kernel && |s'.tlb| == |s.tlb| && s'.rr < Tlb.NUM_TLB
    ensures Shape(s')
  {
    RelabelValid(s.cm, f, s'.cm[f]);
    hide ValidMap;
    assert forall h :: Head(s.cm, h) ==> Head(s'.cm, h);
  }

  lemma SizesAgree(s: State)
    requires Shape(s)
    ensures |s.mem| == |s.cm| && |s.refs| == |s.disk| && |s.tlb| == Tlb.NUM_TLB && s.rr < Tlb.NUM_TLB
    ensures s.cur in s.pc && At(s) != Embryo && s.user <= s.pc.Keys
  {
  }

  lemma CoreLocal(s: State, s': State)
    requires Core(s) && OthersStay(s, s') && s'.cur == s.cur
    requires s'.cm == s.cm && s'.pte == s.pte && s'.kernel == s.kernel
    requires s'.tlb == s.tlb && s'.rr == s.rr && s'.pc[s.cur] != Embryo
    ensures Core(s')
  {
  }

  /** What the running thread relies on. */
  lemma Mine(s: State)
    requires ThreadsOk(s) && s.cur in s.pc
    ensures PcOk(s, s.cur)
    ensures NeedsLock(At(s)) ==> s.swapLock == Some(s.cur)
    ensures HasFrame(At(s)) ==> forall t :: t != s.cur ==> !HoldsFrame(s, t, At(s).frame)
  {
    assert HasFrame(At(s)) ==> HoldsFrame(s, s.cur, At(s).frame);
  }

  lemma Theirs(s: State, t: Tid)
    requires ThreadsOk(s) && t in s.pc
    ensures PcOk(s, t)
    ensures HasFrame(s.pc[t]) ==> Held(s, s.pc[t].frame)
    ensures NeedsLock(s.pc[t]) ==> s.swapLock == Some(t)
  {
  }

  /** A thread moves on without touching frames or entries. */
  lemma ThreadsLocal(s: State, s': State)
    requires s.cur in s.pc && s.pc[s.cur] != Embryo && s.pc[s.cur] != Exited
    requires ThreadsOk(s) && OthersStay(s, s')
    requires s'.cm == s.cm && s'.pte == s.pte && s'.kernel == s.kernel
    requires PcOk(s', s.cur)
    requires NeedsLock(s'.pc[s.cur]) ==> s'.swapLock == Some(s.cur)
    requires s'.swapLock == s.swapLock || s.swapLock == None || s.swapLock == Some(s.cur)
    requires HasFrame(s'.pc[s.cur]) ==> HoldsFrame(s, s.cur, s'.pc[s.cur].frame)
    ensures ThreadsOk(s')
  {
    hide PcOk, NeedsLock, HasFrame;
    forall t | t in s.pc && t != s.cur ensures PcOk(s', t) {
      assert PcOk(s, t);
      PcLocal(s, s', t);
    }
    forall t, u, f | HoldsFrame(s', t, f) && HoldsFrame(s', u, f) ensures t == u {
      assert HoldsFrame(s, t, f) && HoldsFrame(s, u, f);
    }
  }

  lemma PcLocal(s: State, s': State, t: Tid)
    requires t in s.pc && t in s'.pc && t != s.cur && PcOk(s, t)
    requires OthersStay(s, s') && s'.cm == s.cm && s'.pte == s.pte && s'.kernel == s.kernel
    requires s.cur in s.pc && s.pc[s.cur] != Embryo && s.pc[s.cur] != Exited
    ensures PcOk(s', t)
  {
    assert HasSpace(s, t) ==> HasSpace(s', t);
  }

  // ------------------------------------------------------------------

  /** Slots are referred to as before. */
  lemma SlotsStable(s: State, s': State)
    requires SlotsOk(s) && s'.refs == s.refs
    requires forall r, k :: Refers(s', r, k) <==> Refers(s, r, k)
    ensures SlotsOk(s')
  {
    hide Refers, RefSet;
    forall k | 0 <= k < |s'.refs| ensures s'.refs[k] == |RefSet(s', k)| {
      assert RefSet(s', k) == RefSet(s, k);
    }
  }

  /** The slot a thread holds, or the entry whose reference it has consumed, is what matters of a `Pc`. */
  predicate SameHold(p: Pc, q: Pc) {
    && HasSlot(p) == HasSlot(q) && (HasSlot(p) ==> p.slot == q.slot)
    && (p.Reading? || p.Fetched?) == (q.Reading? || q.Fetched?)
    && (p.Reading? || p.Fetched? ==> p.vpn == q.vpn)
  }

  /** Steps that leave the entries alone and move no reference. */
  lemma SlotsQuiet(s: State, s': State)
    requires SlotsOk(s) && s'.refs == s.refs && s'.pte == s.pte
    requires s.pc.Keys <= s'.pc.Keys
    requires forall t :: t in s.pc ==> SameHold(s.pc[t], s'.pc[t])
    requires forall t :: t in s'.pc && t !in s.pc ==> s'.pc[t].Running? || s'.pc[t].Embryo?
    ensures SlotsOk(s')
  {
    forall r, k ensures Refers(s', r, k) <==> Refers(s, r, k) {
    }
    SlotsStable(s, s');
  }

  /** A new reference to slot `k`: the count goes up by one. */
  lemma SlotsGain(s: State, s': State, k: nat, n: Ref)
    requires SlotsOk(s) && k < |s.refs| && !Refers(s, n, k)
    requires s'.refs == s.refs[k := s.refs[k] + 1]
    requires forall r, j :: Refers(s', r, j) <==> Refers(s, r, j) || (r == n && j == k)
    requires n.ByThread? ==> s.refs[k] == 0
    requires n.ByEntry? ==> exists d :: Refers(s, ByEntry(d), k) && d.vpn == n.e.vpn
    ensures SlotsOk(s')
  {
    hide Refers, RefSet;
    forall j | 0 <= j < |s'.refs| ensures s'.refs[j] == |RefSet(s', j)| {
      assert RefSet(s', j) == if j == k then RefSet(s, j) + {n} else RefSet(s, j);
    }
    if n.ByThread? {
      forall r ensures !Refers(s, r, k) {
        assert RefSet(s, k) == {} && r !in RefSet(s, k);
      }
    } else {
      var d :| Refers(s, ByEntry(d), k) && d.vpn == n.e.vpn;
      assert forall t :: !Refers(s, ByThread(t), k);
    }
    assert Unshared(s');
  }

  /** A reference to slot `k` is given up: the count goes down by one. */
  lemma SlotsLose(s: State, s': State, k: nat, o: Ref)
    requires SlotsOk(s) && k < |s.refs| && Refers(s, o, k) && s.refs[k] > 0
    requires s'.refs == s.refs[k := s.refs[k] - 1]
    requires forall r, j :: Refers(s', r, j) <==> Refers(s, r, j) && !(r == o && j == k)
    ensures SlotsOk(s')
  {
    hide Refers, RefSet;
    forall j | 0 <= j < |s'.refs| ensures s'.refs[j] == |RefSet(s', j)| {
      assert RefSet(s', j) == if j == k then RefSet(s, j) - {o} else RefSet(s, j);
    }
  }

  /** The slot an eviction has filled passes to the entry of the page it holds. */
  lemma SlotsPass(s: State, s': State, k: nat, t: Tid, e: Eid)
    requires SlotsOk(s) && k < |s.refs| && Refers(s, ByThread(t), k) && s'.refs == s.refs
    requires forall r, j :: Refers(s', r, j) <==>
      (Refers(s, r, j) && r != ByThread(t)) || (r == ByEntry(e) && j == k)
    ensures SlotsOk(s')
  {
    assert forall j :: j != k ==> !Refers(s, ByThread(t), j);
    hide Refers, RefSet;
    assert Counted(s') by {
      hide Unshared;
      SlotsPassCount(s, s', k, t, e);
    }
  }

  lemma SlotsPassCount(s: State, s': State, k: nat, t: Tid, e: Eid)
    requires SlotsOk(s) && k < |s.refs| && Refers(s, ByThread(t), k) && s'.refs == s.refs
    requires forall j :: j != k ==> !Refers(s, ByThread(t), j)
    requires forall r, j :: Refers(s', r, j) <==>
      (Refers(s, r, j) && r != ByThread(t)) || (r == ByEntry(e) && j == k)
    ensures Counted(s')
  {
    hide Refers, RefSet;
    forall j | 0 <= j < |s'.refs| ensures s'.refs[j] == |RefSet(s', j)| {
      if j == k {
        assert RefSet(s, k) == {ByThread(t)};
        assert RefSet(s', k) == {ByEntry(e)};
      } else {
        assert RefSet(s', j) == RefSet(s, j);
      }
    }
  }

  // ------------------------------------------------------------------

  /** The contents a thread knows of survive a step that leaves its frame and slot alone. */
  lemma ContentStable(s: State, s': State, t: Tid)
    requires t in s.pc && t in s'.pc && s'.pc[t] == s.pc[t] && ContentOk(s, t)
    requires |s.cm| == |s'.cm|
    requires HasFrame(s.pc[t]) ==> Mem(s', s.pc[t].frame) == Mem(s, s.pc[t].frame)
    requires s.pc[t].Written? ==> Disk(s', s.pc[t].slot) == Disk(s, s.pc[t].slot)
    requires s.pc[t].Written? && s.pc[t].frame < |s.cm| ==>
      s'.cm[s.pc[t].frame].owner == None || s'.cm[s.pc[t].frame].owner == s.cm[s.pc[t].frame].owner
    requires s.pc[t].Loading? ==> Initial(s', t, s.pc[t].vpn) == Initial(s, t, s.pc[t].vpn)
    ensures ContentOk(s', t)
  {
  }

  /** The counters balance as before when no fault starts or ends its TLB phase. */
  lemma StatsQuiet(s: State, s': State)
    requires StatsOk(s) && s'.stats == s.stats
    requires forall t :: t in s'.pc && (s'.pc[t].Mapping? || s'.pc[t].LoadMapping?) <==>
                         t in s.pc && (s.pc[t].Mapping? || s.pc[t].LoadMapping?)
    ensures StatsOk(s')
  {
    assert Pending(s') == Pending(s);
  }

  /** Copies made by an unfinished fork stay faithful. */
  lemma ForkStable(s: State, s': State)
    requires ForkOk(s) && s.spoiled <= s'.spoiled
    requires forall t :: t in s'.pc && Copying(s'.pc[t]) ==>
      t in s.pc && Copying(s.pc[t]) && Child(s'.pc[t]) == Child(s.pc[t])
    requires forall t, v :: t in s'.pc && Copying(s'.pc[t]) && Eid(Child(s'.pc[t]), v) in s'.pte ==>
      && Eid(Child(s'.pc[t]), v) in s.pte
      && Content(s', Eid(Child(s'.pc[t]), v)) == Content(s, Eid(Child(s'.pc[t]), v))
    requires forall t, v :: t in s'.pc && Copying(s'.pc[t]) && Eid(t, v) in s.pte ==>
      Eid(t, v) in s'.pte && Content(s', Eid(t, v)) == Content(s, Eid(t, v))
    ensures ForkOk(s')
  {
  }

  /** The same pages exist and hold the same contents. */
  ghost predicate SameContents(s: State, s': State) {
    && s'.pte.Keys == s.pte.Keys
    && (forall e :: e in s.pte ==> Content(s', e) == Content(s, e))
  }

  /** A step that keeps all contents and starts no fork keeps the copies faithful. */
  lemma ForkQuiet(s: State, s': State)
    requires ForkOk(s) && s.spoiled == s'.spoiled && SameContents(s, s')
    requires forall t :: t in s'.pc && Copying(s'.pc[t]) ==>
      t in s.pc && Copying(s.pc[t]) && Child(s'.pc[t]) == Child(s.pc[t])
    ensures ForkOk(s')
  {
    ForkStable(s, s');
  }

  /** Steps that write no frame and no slot. */
  lemma ContentsQuiet(s: State, s': State)
    requires s.cur in s.pc && s.cur in s'.pc && ContentsOk(s) && OthersStay(s, s')
    requires s'.mem == s.mem && s'.disk == s.disk && s'.image == s.image
    requires forall t :: t in s.pc && t != s.cur && s.pc[t].Written? && s.pc[t].frame < |s.cm| ==>
      s'.cm[s.pc[t].frame].owner == None || s'.cm[s.pc[t].frame].owner == s.cm[s.pc[t].frame].owner
    requires ContentOk(s', s.cur)
    ensures ContentsOk(s')
  {
    forall t | t in s'.pc ensures ContentOk(s', t) {
      if t != s.cur {
        assert ContentOk(s, t);
        ContentStable(s, s', t);
      }
    }
  }

  /** Every frame some thread works on is occupied, pinned, and not the kernel's. */
  lemma HoldersHeld(s: State)
    requires ThreadsOk(s)
    ensures forall t :: t in s.pc && HasFrame(s.pc[t]) ==> Held(s, s.pc[t].frame)
  {
    forall t | t in s.pc && HasFrame(s.pc[t]) ensures Held(s, s.pc[t].frame) {
      assert PcOk(s, t);
    }
  }

  /** The thread is between finding a frame for a page and writing the TLB. */
  predicate Late(pc: Pc) {
    pc.Loading? || pc.LoadMapping? || pc.Mapping?
  }

  /** Translations stay right when the resident pages of the running thread stay as they are. */
  lemma TlbQuiet(s: State, s': State)
    requires s.cur in s.pc && s'.cur == s.cur && s.cur in s'.pc && TlbOk(s) && s'.tlb == s.tlb
    requires HasSpace(s', s.cur) ==> HasSpace(s, s.cur)
    requires forall v :: Eid(s.cur, v) in s.pte && !s.pte[Eid(s.cur, v)].swp ==>
      Eid(s.cur, v) in s'.pte && s'.pte[Eid(s.cur, v)] == s.pte[Eid(s.cur, v)]
    requires Evicts(At(s)) ==> Evicts(At(s')) && At(s').frame == At(s).frame
    requires At(s').Faulting? ==> At(s).Faulting? && At(s').vpn == At(s).vpn
    requires Late(At(s')) ==> Late(At(s)) && At(s').vpn == At(s).vpn
    ensures TlbOk(s')
  {
  }

  /** Only the contents of page `x` may have changed, appeared or disappeared. */
  ghost predicate OnlyContent(s: State, s': State, x: Eid) {
    && (forall e :: e != x ==> (e in s.pte <==> e in s'.pte))
    && (forall e :: e in s.pte && e != x ==> Content(s', e) == Content(s, e))
  }

  /** The child of an unfinished fork does not run yet. */
  lemma ChildrenUnborn(s: State)
    requires ThreadsOk(s)
    ensures forall t :: t in s.pc && Copying(s.pc[t]) ==>
      IsEmbryo(s, Child(s.pc[t])) && HasSpace(s, t) && s.swapLock == Some(t)
  {
    forall t | t in s.pc && Copying(s.pc[t])
      ensures IsEmbryo(s, Child(s.pc[t])) && HasSpace(s, t) && s.swapLock == Some(t)
    {
      assert PcOk(s, t);
    }
  }

  /** A page of a process that is neither forking nor being forked concerns no copy. */
  lemma ForkElsewhere(s: State, s': State, x: Eid)
    requires ForkOk(s) && s.spoiled == s'.spoiled && OnlyContent(s, s', x)
    requires forall t :: t in s'.pc && Copying(s'.pc[t]) ==>
      && t in s.pc && Copying(s.pc[t]) && Child(s'.pc[t]) == Child(s.pc[t])
      && x.pt != t && x.pt != Child(s.pc[t])
    ensures ForkOk(s')
  {
    ForkStable(s, s');
  }

  /** A fault has found its frame and has yet to write the TLB. */
  lemma StatsOpen(s: State, s': State)
    requires s.cur in s.pc && s.cur in s'.pc && OthersStay(s, s') && StatsOk(s)
    requires !At(s).Mapping? && !At(s).LoadMapping?
    requires s'.pc[s.cur].Mapping? || s'.pc[s.cur].LoadMapping?
    requires s'.stats.faults == s.stats.faults && s'.stats.free == s.stats.free
    requires s'.stats.replace == s.stats.replace && s'.stats.disk == s'.stats.elf + s'.stats.swap
    requires s'.stats.reloads + s'.stats.zeroed + s'.stats.disk ==
             s.stats.reloads + s.stats.zeroed + s.stats.disk + 1
    ensures StatsOk(s')
  {
    assert Pending(s') == Pending(s) + {s.cur};
  }

  /** A fault has written the TLB. */
  lemma StatsClose(s: State, s': State, v: nat, f: nat)
    requires s.cur in s.pc && s.cur in s'.pc && OthersStay(s, s') && StatsOk(s)
    requires At(s).Mapping? || At(s).LoadMapping?
    requires !s'.pc[s.cur].Mapping? && !s'.pc[s.cur].LoadMapping?
    requires s.rr < |s.tlb| && s'.stats == Filled(s, v, f).stats
    ensures StatsOk(s')
  {
    assert Pending(s') == Pending(s) - {s.cur} && s.cur in Pending(s);
  }

  lemma MyContent(s: State)
    requires s.cur in s.pc && ContentsOk(s)
    ensures ContentOk(s, s.cur)
  {
  }

  lemma TlbLocal(s: State, s': State, next: Pc)
    requires s.cur in s.pc && TlbOk(s) && At(s) != Exited && At(s) != Embryo
    requires s' == Goto(s, next).(stats := s'.stats) && next != Embryo && next != Exited
    requires !Evicts(At(s))
    requires next.Faulting? ==> !Tlb.Hit(s.tlb, next.vpn)
    requires Late(next) ==> Late(At(s)) && next.vpn == At(s).vpn
    ensures TlbOk(s')
  {
  }

  /** A thread moves on and only counters change. */
  lemma LocalKeeps(s: State, s': State, next: Pc)
    requires Inv(s) && At(s) != Exited && s' == Goto(s, next).(stats := s'.stats)
    requires next != Embryo && next != Exited && PcOk(s', s.cur) && ContentOk(s', s.cur)
    requires NeedsLock(next) ==> s.swapLock == Some(s.cur)
    requires HasFrame(next) ==> HoldsFrame(s, s.cur, next.frame)
    requires SameHold(At(s), next) && !Evicts(At(s)) && !next.Fetched? && !At(s).Fetched?
    requires next.Faulting? ==> !Tlb.Hit(s.tlb, next.vpn)
    requires Late(next) ==> Late(At(s)) && next.vpn == At(s).vpn
    requires Copying(next) ==> Copying(At(s)) && Child(next) == Child(At(s))
    requires StatsOk(s')
    ensures Inv(s') && SameContents(s, s')
  {
    hide Core, ThreadsOk, SlotsOk, TlbOk, ContentsOk, StatsOk, ForkOk, PcOk, ContentOk, SameContents;
    CurBorn(s);
    TlbLocal(s, s', next);
    CoreLocal(s, s');
    ThreadsLocal(s, s');
    SlotsQuiet(s, s');
    ContentsQuiet(s, s');
    assert SameContents(s, s') by { SameLocal(s, s'); }
    ForkQuiet(s, s');
  }

  lemma CurBorn(s: State)
    requires Core(s)
    ensures s.cur in s.pc && At(s) != Embryo
  {
  }

  lemma SameLocal(s: State, s': State)
    requires s.cur in s.pc && OthersStay(s, s') && s'.pte == s.pte && s'.mem == s.mem && s'.disk == s.disk
    requires SameHold(At(s), s'.pc[s.cur]) && At(s).Fetched? == s'.pc[s.cur].Fetched?
    requires At(s).Fetched? ==> s'.pc[s.cur].frame == At(s).frame
    ensures SameContents(s, s')
  {
  }
}
