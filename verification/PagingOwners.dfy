/** Frames that carry an owner and pages that are in memory are in one-to-one correspondence. */
module PagingOwners {
  import opened Common
  import opened Coremap
  import opened Paging
  import opened PagingInvariant
  import opened PagingStable
  import opened PagingProcs
  import opened PagingRuns

  /** The page is in memory, in this frame. */
  predicate Home(s: State, f: nat, e: Eid) {
    e in s.pte && !s.pte[e].swp && s.pte[e].frame == f
  }

  /** Thread `t` holds the frame for an entry that will name it later. */
  predicate InFlight(s: State, t: Tid, f: nat, e: Eid) {
    && HoldsFrame(s, t, f)
    && var pc := s.pc[t];
       || (pc.Dropping? && Target(t, pc.want) == Some(e))
       || (pc.Zeroing? && Target(t, pc.want) == Some(e))
       || (pc.Granted? && Target(t, pc.want) == Some(e))
       || (pc.Reading? && Eid(t, pc.vpn) == e)
       || (pc.Fetched? && Eid(t, pc.vpn) == e)
  }

  ghost predicate Accounted(s: State, f: nat, e: Eid) {
    Home(s, f, e) || exists t :: InFlight(s, t, f, e)
  }

  /** Every frame with an owner holds the owner's page or is on its way to it. */
  ghost predicate OwnedOk(s: State) {
    forall f :: 0 <= f < |s.cm| && s.cm[f].owner != None ==> Accounted(s, f, s.cm[f].owner.value)
  }

  /** Owners and homes are as before and no frame in flight was lost. */
  lemma OwnedSame(s: State, s': State)
    requires OwnedOk(s) && |s'.cm| == |s.cm|
    requires forall f :: 0 <= f < |s.cm| ==> s'.cm[f].owner == None || s'.cm[f].owner == s.cm[f].owner
    requires forall f: nat, e :: f < |s.cm| && s'.cm[f].owner == Some(e) && Home(s, f, e) ==> Home(s', f, e)
    requires forall t, f, e :: InFlight(s, t, f, e) ==> InFlight(s', t, f, e) || Home(s', f, e)
    ensures OwnedOk(s')
  {
    forall f | 0 <= f < |s'.cm| && s'.cm[f].owner != None ensures Accounted(s', f, s'.cm[f].owner.value) {
      var e := s'.cm[f].owner.value;
      assert Accounted(s, f, e);
      if !Home(s, f, e) {
        var t :| InFlight(s, t, f, e);
      }
    }
  }

  /** One frame gets a new owner, which the running thread works for. */
  lemma OwnedNew(s: State, s': State, g: nat)
    requires OwnedOk(s) && |s'.cm| == |s.cm|
    requires forall f :: 0 <= f < |s.cm| && f != g ==> s'.cm[f].owner == s.cm[f].owner
    requires forall f: nat, e :: f < |s.cm| && f != g && Home(s, f, e) ==> Home(s', f, e)
    requires forall t, f, e :: f != g && InFlight(s, t, f, e) ==> InFlight(s', t, f, e)
    requires g < |s.cm| && s'.cm[g].owner != None ==> InFlight(s', s.cur, g, s'.cm[g].owner.value)
    ensures OwnedOk(s')
  {
    forall f | 0 <= f < |s'.cm| && s'.cm[f].owner != None ensures Accounted(s', f, s'.cm[f].owner.value) {
      var e := s'.cm[f].owner.value;
      if f != g {
        assert Accounted(s, f, e);
        if !Home(s, f, e) {
          var t :| InFlight(s, t, f, e);
          assert InFlight(s', t, f, e);
        }
      }
    }
  }

  lemma GrabOwned(s: State, page: nat, post: Map)
    requires OwnedOk(s) && CanGrab(s, page, post)
    ensures OwnedOk(Grab(s, page, post))
  {
    OwnedNew(s, Grab(s, page, post), page);
  }

  lemma CommitOwned(s: State)
    requires OwnedOk(s) && Core(s) && ThreadsOk(s) && CanCommit(s)
    ensures OwnedOk(Commit(s))
  {
    hide ThreadsOk, Core;
    Mine(s);
    OwnedNew(s, Commit(s), At(s).frame);
  }

  lemma TakeOwned(s: State, page: nat, num: nat, post: Map)
    requires OwnedOk(s) && CanTake(s, page, num, post)
    ensures OwnedOk(Take(s, page, post))
  {
    var s' := Take(s, page, post);
    assert forall f :: 0 <= f < |s.cm| && !(page <= f < page + num) ==> SameUse(post[f], s.cm[f]);
    OwnedSame(s, s');
  }

  lemma GiveOwned(s: State, page: nat, post: Map)
    requires OwnedOk(s) && CanGive(s, page, post)
    ensures OwnedOk(Give(s, page, post))
  {
    var s' := Give(s, page, post);
    forall f | 0 <= f < |s.cm| ensures post[f].owner == None || post[f].owner == s.cm[f].owner {
      if !(page <= f < page + s.cm[page].nframes) {
        assert SameUse(post[f], s.cm[f]);
      }
    }
    OwnedSame(s, s');
  }

  lemma ReleaseOwned(s: State, vpn: nat, post: Map)
    requires OwnedOk(s) && Core(s) && CanRelease(s, vpn, post)
    ensures OwnedOk(Release(s, vpn, post))
  {
    ReleaseFrame(s, vpn, post);
    var p := s.pte[Eid(At(s).prey, vpn)];
    forall f | 0 <= f < |s.cm| ensures post[f].owner == None || post[f].owner == s.cm[f].owner {
      if p.swp || f != p.frame {
        assert SameUse(post[f], s.cm[f]);
      }
    }
    hide Core;
    OwnedSame(s, Release(s, vpn, post));
  }

  lemma InstallOwned(s: State)
    requires OwnedOk(s) && ThreadsOk(s) && CanInstall(s)
    ensures OwnedOk(Install(s))
  {
    Mine(s);
    hide ThreadsOk;
    OwnedSame(s, Install(s));
  }

  lemma ReviveOwned(s: State)
    requires OwnedOk(s) && ThreadsOk(s) && CanRevive(s)
    ensures OwnedOk(Revive(s))
  {
    Mine(s);
    hide ThreadsOk;
    OwnedSame(s, Revive(s));
  }

  lemma DuplicateOwned(s: State, junk: Page)
    requires OwnedOk(s) && ThreadsOk(s) && CanDuplicate(s)
    ensures OwnedOk(Duplicate(s, junk))
  {
    Mine(s);
    hide ThreadsOk;
    OwnedSame(s, Duplicate(s, junk));
  }

  /** Steps that hand no frame over, by what they belong to. */
  predicate Scheduling(l: Label) {
    l.LSwitch? || l.LWrite? || l.LFault? || l.LLookup?
  }

  predicate Asking(l: Label) {
    l.LAsk? || l.LSpawn? || l.LExit? || l.LFail?
  }

  predicate Swapping(l: Label) {
    l.LClaim? || l.LReserve? || l.LStore? || l.LDrop?
  }

  predicate Moving(l: Label) {
    l.LZero? || l.LFetch? || l.LArrive? || l.LHandOver?
  }

  predicate LoadSteps(l: Label) {
    l.LNestedFault? || l.LNestedFill? || l.LLoad? || l.LLoaded? || l.LFill?
  }

  predicate Begins(l: Label) {
    l.LFork? || l.LShare? || l.LDestroy?
  }

  predicate Ends(l: Label) {
    l.LForked? || l.LDestroyed?
  }

  lemma SchedulingOwned(s: State, l: Label)
    requires OwnedOk(s) && Enabled(s, l) && Scheduling(l)
    ensures OwnedOk(Next(s, l))
  {
    OwnedSame(s, Next(s, l));
  }

  lemma AskingOwned(s: State, l: Label)
    requires OwnedOk(s) && Enabled(s, l) && Asking(l)
    ensures OwnedOk(Next(s, l))
  {
    OwnedSame(s, Next(s, l));
  }

  lemma SwappingOwned(s: State, l: Label)
    requires OwnedOk(s) && Enabled(s, l) && Swapping(l)
    ensures OwnedOk(Next(s, l))
  {
    OwnedSame(s, Next(s, l));
  }

  lemma MovingOwned(s: State, l: Label)
    requires OwnedOk(s) && Enabled(s, l) && Moving(l)
    ensures OwnedOk(Next(s, l))
  {
    OwnedSame(s, Next(s, l));
  }

  lemma LoadsOwned(s: State, l: Label)
    requires OwnedOk(s) && Enabled(s, l) && LoadSteps(l)
    ensures OwnedOk(Next(s, l))
  {
    OwnedSame(s, Next(s, l));
  }

  lemma BeginsOwned(s: State, l: Label)
    requires OwnedOk(s) && Enabled(s, l) && Begins(l)
    ensures OwnedOk(Next(s, l))
  {
    OwnedSame(s, Next(s, l));
  }

  lemma ForkedOwned(s: State)
    requires OwnedOk(s) && CanForked(s) && PcOk(s, s.cur)
    ensures OwnedOk(Forked(s))
  {
    OwnedSame(s, Forked(s));
  }

  lemma DestroyedOwned(s: State)
    requires OwnedOk(s) && CanDestroyed(s) && PcOk(s, s.cur)
    ensures OwnedOk(Destroyed(s))
  {
    OwnedSame(s, Destroyed(s));
  }

  lemma EndsOwned(s: State, l: Label)
    requires OwnedOk(s) && ThreadsOk(s) && Enabled(s, l) && Ends(l) && s.cur in s.pc
    ensures OwnedOk(Next(s, l))
  {
    hide ThreadsOk, OwnedOk, PcOk;
    Mine(s);
    if l.LForked? {
      ForkedOwned(s);
    } else {
      DestroyedOwned(s);
    }
  }

  predicate Hands(l: Label) {
    l.LGrab? || l.LCommit? || l.LTake? || l.LGive? || l.LRelease? || l.LInstall? || l.LRevive? || l.LDuplicate?
  }

  lemma HandsOwned(s: State, l: Label)
    requires OwnedOk(s) && Core(s) && ThreadsOk(s) && Enabled(s, l) && Hands(l)
    ensures OwnedOk(Next(s, l))
  {
    hide Core, ThreadsOk, OwnedOk;
    match l {
      case LGrab(p, post) => GrabOwned(s, p, post);
      case LCommit => CommitOwned(s);
      case LTake(p, n, post) => TakeOwned(s, p, n, post);
      case LGive(p, post) => GiveOwned(s, p, post);
      case LRelease(v, post) => ReleaseOwned(s, v, post);
      case LInstall => InstallOwned(s);
      case LRevive => ReviveOwned(s);
      case LDuplicate(junk) => DuplicateOwned(s, junk);
    }
  }

  lemma StepOwned(s: State, l: Label)
    requires OwnedOk(s) && Inv(s) && Enabled(s, l)
    ensures OwnedOk(Next(s, l))
  {
    hide Core, ThreadsOk, SlotsOk, TlbOk, ContentsOk, StatsOk, ForkOk, OwnedOk, Enabled, Next;
    CurBorn(s);
    if Hands(l) {
      HandsOwned(s, l);
    } else if Scheduling(l) {
      SchedulingOwned(s, l);
    } else if Asking(l) {
      AskingOwned(s, l);
    } else if Swapping(l) {
      SwappingOwned(s, l);
    } else if Moving(l) {
      MovingOwned(s, l);
    } else if LoadSteps(l) {
      LoadsOwned(s, l);
    } else if Begins(l) {
      BeginsOwned(s, l);
    } else {
      EndsOwned(s, l);
    }
  }

  // ------------------------------------------------------------------
  // The correspondence, over every run

  lemma {:induction false} RunOwned(ss: seq<State>, ls: seq<Label>, i: nat)
    requires Run(ss, ls) && Init(ss[0]) && i < |ss|
    ensures OwnedOk(ss[i])
    decreases i
  {
    hide Inv, Enabled, Next;
    if i > 0 {
      RunOwned(ss, ls, i - 1);
      RunInvariant(ss, ls, i - 1);
      StepOwned(ss[i - 1], ls[i - 1]);
    }
  }

  /**
    In every state of every run: a page in memory names a frame that names it
    back, no two pages share a frame, a frame with an owner holds the owner's
    page unless some thread is still bringing the page there, and a frame that
    may be evicted holds a page that is in memory and not being written out.
   */
  lemma FramesMatchPages(ss: seq<State>, ls: seq<Label>, i: nat)
    requires Run(ss, ls) && Init(ss[0]) && i < |ss|
    ensures var s := ss[i];
      && (forall e :: Resident(s, e) ==> s.pte[e].frame < |s.cm| && s.cm[s.pte[e].frame].owner == Some(e))
      && (forall e, d :: Resident(s, e) && Resident(s, d) && s.pte[e].frame == s.pte[d].frame ==> e == d)
      && (forall f :: 0 <= f < |s.cm| && s.cm[f].owner != None ==> Accounted(s, f, s.cm[f].owner.value))
      && (forall f: nat :: Eligible(s.cm, f) ==>
            var e := s.cm[f].owner.value; e in s.pte && s.pte[e] == Pte(f, false, false))
  {
    RunInvariant(ss, ls, i);
    RunOwned(ss, ls, i);
    hide Run, Init, ThreadsOk, SlotsOk, TlbOk, ContentsOk, StatsOk, ForkOk, Enabled, Next;
  }
}
