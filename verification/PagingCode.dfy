/**
  The imperative pieces carry out the steps of the protocol: whatever the frame table, the
  swap file and the TLB registers do from a state of the invariant is a step the
  transition system allows, and leaves them as that step says.
 */
module PagingCode {
  import opened Common
  import opened Coremap
  import opened Paging
  import opened PagingInvariant
  import opened PagingProcs
  import Tlb
  import Swap

  /** get_n_frames for one page: first fit grabs, otherwise get_victim claims. */
  method SeekFrame(t: Table, owner: Option<Eid>, ghost s: State) returns (g: Grant)
    requires t.Valid() && t.cm[..] == s.cm && Core(s) && At(s).Seeking? && owner == Target(s.cur, At(s).want)
    modifies t`prev, t.cm
    ensures t.Valid()
    ensures g.Found? ==> Enabled(s, LGrab(g.page, t.cm[..])) && t.cm[..] == Next(s, LGrab(g.page, t.cm[..])).cm
    ensures g.Victim? ==> Enabled(s, LClaim(g.frame)) && t.cm[..] == Next(s, LClaim(g.frame)).cm
    ensures g.Nothing? ==> t.cm[..] == s.cm
  {
    g := t.GetFrames(1, owner);
  }

  /** get_n_frames for a kernel block. */
  method TakeBlock(t: Table, num: nat, ghost s: State) returns (g: Grant)
    requires t.Valid() && t.cm[..] == s.cm && s.cur in s.pc && num > 1
    requires At(s) == Running || At(s).Faulting? || At(s).Forking?
    modifies t`prev, t.cm
    ensures t.Valid() && !g.Victim?
    ensures g.Found? ==>
      Enabled(s, LTake(g.page, num, t.cm[..])) && t.cm[..] == Next(s, LTake(g.page, num, t.cm[..])).cm
    ensures g.Nothing? ==> t.cm[..] == s.cm
  {
    g := t.GetFrames(num, None);
  }

  /** free_frame of a kernel block. */
  method FreeBlock(t: Table, page: nat, ghost s: State)
    requires t.Valid() && t.cm[..] == s.cm && Core(s) && page in s.kernel
    requires t.first == s.first
    requires At(s) == Running || At(s).Destroying?
    modifies t.cm
    ensures t.Valid() && Enabled(s, LGive(page, t.cm[..])) && t.cm[..] == Next(s, LGive(page, t.cm[..])).cm
  {
    assert Head(s.cm, page);
    t.Free(page, false);
  }

  /** free_frame of a user page, also while the page is being written out. */
  method FreePage(t: Table, frame: nat, swapping: bool, vpn: nat, ghost s: State)
    requires t.Valid() && t.cm[..] == s.cm && Core(s) && At(s).Destroying?
    requires Resident(s, Eid(At(s).prey, vpn)) && s.pte[Eid(At(s).prey, vpn)] == Pte(frame, false, swapping)
    requires t.first == s.first
    modifies t.cm
    ensures t.Valid() && Enabled(s, LRelease(vpn, t.cm[..])) && t.cm[..] == Next(s, LRelease(vpn, t.cm[..])).cm
  {
    assert s.cm[frame].owner == Some(Eid(At(s).prey, vpn)) && s.cm[frame].nframes == 1;
    t.Free(frame, swapping);
  }

  /** `s2` is reached from `s` by the two steps. */
  ghost predicate TwoSteps(s: State, first: Label, second: Label, s2: State) {
    Enabled(s, first) && Enabled(Next(s, first), second) && s2 == Next(Next(s, first), second)
  }

  /** swap_set of a victim: the slot is reserved, then written. */
  method WriteOut(f: Swap.File, content: Page, ghost s: State) returns (slot: nat, ghost s2: State)
    requires f.Valid() && f.refs[..] == s.refs && f.disk[..] == s.disk
    requires s.cur in s.pc && At(s).Claimed? && LockFree(s) && At(s).frame < |s.mem| && content == s.mem[At(s).frame]
    modifies f.refs, f.disk
    ensures f.Valid()
    ensures slot < Swap.SWAP_MAX ==>
      TwoSteps(s, LReserve(slot), LStore, s2) && f.refs[..] == s2.refs && f.disk[..] == s2.disk
  {
    slot := f.Set(content);
    s2 := if slot < Swap.SWAP_MAX then Store(Reserve(s, slot)) else s;
  }

  /** swap_get of a swapped page: the reference is dropped, then the slot read. */
  method ReadIn(f: Swap.File, slot: nat, ghost s: State) returns (content: Page, ghost s2: State)
    requires f.Valid() && f.refs[..] == s.refs && f.disk[..] == s.disk && CanFetch(s)
    requires slot == s.pte[Eid(s.cur, At(s).want.page)].frame && At(s).frame < |s.mem|
    modifies f.refs
    ensures f.Valid() && TwoSteps(s, LFetch, LArrive, s2) && f.refs[..] == s2.refs && f.disk[..] == s2.disk
    ensures |s2.mem| == |s.mem| && s2.mem[At(s).frame] == content
  {
    content := f.Get(slot);
    s2 := Arrive(Fetch(s));
  }

  /** swap_inc_ref for a swapped page of a forking process: the byte does not wrap. */
  method ShareSlot(f: Swap.File, slot: nat, vpn: nat, ghost s: State)
    requires f.Valid() && f.refs[..] == s.refs && f.disk[..] == s.disk && Inv(s) && CanShare(s, vpn)
    requires s.pte[Eid(s.cur, vpn)].swp && slot == s.pte[Eid(s.cur, vpn)].frame
    modifies f.refs
    ensures f.Valid() && Enabled(s, LShare(vpn)) && f.refs[..] == Next(s, LShare(vpn)).refs
    ensures f.refs[slot] == old(f.refs[slot]) + 1
  {
    hide Core, ThreadsOk, SlotsOk, TlbOk, ContentsOk, StatsOk, ForkOk;
    RefBound(s, slot);
    f.IncRef(slot);
  }

  /** The invalidation when an eviction commits. */
  method InvalidateVictim(r: Tlb.Registers, frame: nat, ghost s: State)
    requires r.Valid() && r.slots[..] == s.tlb && CanCommit(s) && s.cm[At(s).frame].owner != None
    requires frame == s.pte[s.cm[At(s).frame].owner.value].frame
    modifies r.slots
    ensures r.Valid() && Enabled(s, LCommit) && r.slots[..] == Next(s, LCommit).tlb
  {
    r.Invalidate(frame);
  }

  /** The TLB write at the end of vm_fault, with the counter it picks. */
  method FillTlb(r: Tlb.Registers, vpn: nat, frame: nat, ghost unpin: bool, ghost s: State) returns (free: bool)
    requires r.Valid() && r.slots[..] == s.tlb && r.next == s.rr && CanFill(s) && At(s) == Mapping(vpn, frame)
    modifies r.slots, r`next
    ensures r.Valid() && Enabled(s, LFill(unpin))
    ensures var s' := Next(s, LFill(unpin));
      && r.slots[..] == s'.tlb && r.next == s'.rr
      && s'.stats.free == s.stats.free + (if free then 1 else 0)
      && s'.stats.replace == s.stats.replace + (if free then 0 else 1)
  {
    free := r.Install(vpn, frame);
  }

  /** as_activate when a process is switched to. */
  method FlushTlb(r: Tlb.Registers, ghost t: Tid, ghost s: State)
    requires r.Valid() && CanSwitch(s, t) && HasSpace(s, t)
    modifies r.slots
    ensures r.Valid() && Enabled(s, LSwitch(t)) && r.slots[..] == Next(s, LSwitch(t)).tlb
  {
    r.Flush();
  }
}
