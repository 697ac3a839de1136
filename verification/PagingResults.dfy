/** What the invariant means to the parts of the kernel that rely on paging. */
module PagingResults {
  import opened Common
  import opened Paging
  import opened PagingInvariant
  import opened PagingStable
  import opened PagingEvict
  import opened PagingFaults
  import opened PagingProcs
  import opened PagingRuns
  import Tlb
  import Swap

  // ------------------------------------------------------------------
  // Reading memory

  /** A load through the TLB yields what the flat memory holds for the page. */
  lemma ReadSees(ss: seq<State>, ls: seq<Label>, i: nat, vpn: nat, frame: nat)
    requires Run(ss, ls) && Init(ss[0]) && i < |ss|
    requires CanWrite(ss[i], vpn, frame)
    ensures var e := Eid(ss[i].cur, vpn);
      e in Flat(ss, ls, i) && Flat(ss, ls, i)[e] == ss[i].mem[frame]
  {
    RunInvariant(ss, ls, i);
    RunTransparent(ss, ls, i);
    var s := ss[i];
    hide Run, Init, Flat, Core, ThreadsOk, SlotsOk, TlbOk, ContentsOk, StatsOk, ForkOk;
    WriteTarget(s, vpn, frame);
  }

  // ------------------------------------------------------------------
  // The TLB

  /**
    While a process runs, every translation is the one its page table gives,
    page and frame determine each other, and invalidating a frame by its first
    match removes every translation to it.
   */
  lemma TlbIsExact(ss: seq<State>, ls: seq<Label>, i: nat, f: nat)
    requires Run(ss, ls) && Init(ss[0]) && i < |ss| && HasSpace(ss[i], ss[i].cur) && f != 0
    ensures var s := ss[i];
      && Tlb.Distinct(s.tlb)
      && (forall v, g :: Tlb.Maps(s.tlb, v, g) ==>
            Resident(s, Eid(s.cur, v)) && s.pte[Eid(s.cur, v)].frame == g)
      && (forall v :: !Tlb.Maps(Tlb.InvalidateFirst(s.tlb, f), v, f))
      && (forall v, g :: g != f && Tlb.Maps(s.tlb, v, g) ==> Tlb.Maps(Tlb.InvalidateFirst(s.tlb, f), v, g))
  {
    RunInvariant(ss, ls, i);
    var s := ss[i];
    hide Run, Init, Core, ThreadsOk, SlotsOk, ContentsOk, StatsOk, ForkOk;
    Tlb.InvalidateComplete(s.tlb, f);
    var r := Tlb.InvalidateFirst(s.tlb, f);
    forall v, g | g != f && Tlb.Maps(s.tlb, v, g) ensures Tlb.Maps(r, v, g) {
      var j :| 0 <= j < |s.tlb| && s.tlb[j] == Tlb.Entry(v, g);
      assert r[j] == Tlb.Entry(v, g);
    }
  }

  /** A process in user mode cannot reach a page that is being written out. */
  lemma NoWriteToVictim(s: State, vpn: nat, frame: nat, t: Tid)
    requires Inv(s) && CanWrite(s, vpn, frame) && t in s.pc && Evicts(s.pc[t])
    ensures s.pc[t].frame != frame
  {
    hide Core, SlotsOk, ContentsOk, StatsOk, ForkOk;
    WriteTarget(s, vpn, frame);
    assert !HoldsFrame(s, t, frame);
  }

  // ------------------------------------------------------------------
  // Swap slots

  /** A slot that `swap_set` may take is named by no page and held by no eviction. */
  lemma FreeSlotUnused(ss: seq<State>, ls: seq<Label>, i: nat, k: nat)
    requires Run(ss, ls) && Init(ss[0]) && i < |ss| && k < |ss[i].refs|
    ensures ss[i].refs[k] == 0 <==> forall r :: !Refers(ss[i], r, k)
    ensures ss[i].refs[k] <= MAX_PROC < Swap.REF_LIMIT
  {
    RunInvariant(ss, ls, i);
    var s := ss[i];
    hide Run, Init, Core, ThreadsOk, ContentsOk, StatsOk, ForkOk, TlbOk;
    RefBound(s, k);
    var r := RefSet(s, k);
    if s.refs[k] == 0 {
      assert r == {};
      assert forall x :: x !in r;
    } else {
      assert r != {};
      var x :| x in r;
    }
  }

  /** The child of a fork shares a slot with its parent, never with another page of its own table. */
  lemma SlotOncePerTable(s: State, e: Eid, d: Eid, k: nat)
    requires SlotsOk(s) && Names(s, e, k) && Names(s, d, k) && e.pt == d.pt
    ensures e == d
  {
    assert Refers(s, ByEntry(e), k) && Refers(s, ByEntry(d), k);
  }

  /** A slot in the hands of an eviction has one reference. */
  lemma HeldSlotCount(s: State)
    requires SlotsOk(s) && s.cur in s.pc && HasSlot(At(s)) && At(s).slot < |s.refs|
    ensures s.refs[At(s).slot] == 1
  {
    assert Refers(s, ByThread(s.cur), At(s).slot);
    assert RefSet(s, At(s).slot) == {ByThread(s.cur)};
  }

  /**
    A page destroyed while its frame was being written out: the frame passes to
    the one thread that claimed it and the slot is free again.
   */
  lemma FreedWhileEvicted(s: State)
    requires Inv(s) && CanCommit(s) && s.cm[At(s).frame].owner == None && LockFree(s)
    ensures var s1 := Commit(s); var f := At(s).frame; var k := At(s).slot;
      && CanDrop(s1)
      && var s2 := Drop(s1);
         && s2.refs[k] == 0
         && s2.cm[f].owner == Target(s.cur, At(s).want)
         && At(s2) == Zeroing(At(s).want, f)
         && (forall t :: t != s.cur ==> !HoldsFrame(s2, t, f))
  {
    hide Core, ThreadsOk, SlotsOk, TlbOk, ContentsOk, StatsOk, ForkOk;
    Mine(s);
    CommitKeeps(s);
    HeldSlotCount(Commit(s));
    forall t | t != s.cur ensures !HoldsFrame(Drop(Commit(s)), t, At(s).frame) {
      assert !HoldsFrame(s, t, At(s).frame);
    }
  }

  // ------------------------------------------------------------------
  // Statistics

  /** With no fault between its lookup and its TLB write, the printed identities hold. */
  lemma StatsBalance(ss: seq<State>, ls: seq<Label>, i: nat)
    requires Run(ss, ls) && Init(ss[0]) && i < |ss|
    requires forall t :: t in ss[i].pc ==> !ss[i].pc[t].Mapping? && !ss[i].pc[t].LoadMapping?
    ensures var n := ss[i].stats;
      && n.faults == n.free + n.replace
      && n.faults == n.reloads + n.zeroed + n.disk
      && n.disk == n.elf + n.swap
  {
    RunInvariant(ss, ls, i);
    hide Run, Init, Core, ThreadsOk, SlotsOk, ContentsOk, TlbOk, ForkOk;
    assert Pending(ss[i]) == {};
  }
}
