/**
  Demand paging on one processor as a transition system. A step is one section
  that the kernel runs with interrupts masked, one section under a spinlock, or
  one visible effect of a section that runs under `swap_lock`; a context switch
  may fall between any two steps. Every step is taken by the thread `cur`.
 */
module Paging {
  import opened Common
  import opened Coremap
  import Tlb
  import Swap

  /** The size of the process table. */
  const MAX_PROC: nat := 100

  /** A valid page table entry; `frame` is a swap slot when `swp` is set. */
  datatype Pte = Pte(frame: nat, swp: bool, swapping: bool)

  /** What a thread is asking a frame for. */
  datatype Want =
    | Fresh(page: nat)
    | SwapIn(page: nat)
    | Copy(child: Tid, page: nat)
    | Kernel(back: Back)

  /** Where a thread goes on when the kernel's own request for a frame is met. */
  datatype Back = ToRunning | ToFault(vpn: nat) | ToFork(offspring: Tid)

  /** How far a thread has come in the paging code. */
  datatype Pc =
    | Running
    | Faulting(vpn: nat)
    | Seeking(want: Want)
    | Claimed(want: Want, frame: nat)
    | Writing(want: Want, frame: nat, slot: nat)
    | Written(want: Want, frame: nat, slot: nat)
    | Dropping(want: Want, frame: nat, slot: nat)
    | Zeroing(want: Want, frame: nat)
    | Granted(want: Want, frame: nat)
    | Reading(vpn: nat, frame: nat, slot: nat)
    | Fetched(vpn: nat, frame: nat)
    | Loading(vpn: nat, frame: nat, done: bool)
    | LoadMapping(vpn: nat, frame: nat)
    | Mapping(vpn: nat, frame: nat)
    | Forking(offspring: Tid)
    | Destroying(prey: Tid)
    | Embryo
    | Exited

  /** The counters of kern/vm/vm_stats.c that enter the printed identities. */
  datatype Stats = Stats(faults: nat, free: nat, replace: nat, reloads: nat,
                         zeroed: nat, disk: nat, elf: nat, swap: nat)

  /** `first` is the first frame that the frame table hands out; those below are the kernel's for good. */
  datatype State = State(
    first: nat,
    cm: Map,
    mem: seq<Page>,
    pte: map<Eid, Pte>,
    refs: seq<nat>,
    disk: seq<Page>,
    swapLock: Option<Tid>,
    tlb: Tlb.Tlb,
    rr: nat,
    cur: Tid,
    pc: map<Tid, Pc>,
    user: set<Tid>,
    image: map<Tid, map<nat, Page>>,
    kernel: set<nat>,
    spoiled: set<Eid>,
    stats: Stats)

  // ------------------------------------------------------------------
  // Reading a state

  function At(s: State): Pc
    requires s.cur in s.pc
  {
    s.pc[s.cur]
  }

  function Goto(s: State, next: Pc): State {
    s.(pc := s.pc[s.cur := next])
  }

  /** The page table entry a frame is wanted for. */
  function Target(t: Tid, want: Want): Option<Eid> {
    match want
    case Fresh(v) => Some(Eid(t, v))
    case SwapIn(v) => Some(Eid(t, v))
    case Copy(c, v) => Some(Eid(c, v))
    case Kernel(_) => None
  }

  /** The thread runs with an address space of its own. */
  predicate HasSpace(s: State, t: Tid) {
    t in s.user && t in s.pc && s.pc[t] != Exited && s.pc[t] != Embryo
  }

  predicate Resident(s: State, e: Eid) {
    e in s.pte && !s.pte[e].swp
  }

  /** What a page holds the first time it is touched: file contents, or zeros for the stack. */
  function Initial(s: State, t: Tid, vpn: nat): Page {
    if t in s.image && vpn in s.image[t] then s.image[t][vpn] else ZERO_PAGE
  }

  predicate LockFree(s: State) {
    s.swapLock == None || s.swapLock == Some(s.cur)
  }

  /** The request is made inside `pt_copy`, which holds `swap_lock` throughout. */
  predicate InCopy(want: Want) {
    want.Copy? || (want.Kernel? && want.back.ToFork?)
  }

  /** `lock_release`, unless the caller of the section already held the lock. */
  function Unlock(s: State, want: Want): Option<Tid> {
    if InCopy(want) then s.swapLock else None
  }

  // ------------------------------------------------------------------
  // Scheduling and user accesses

  /** `thread_switch`: a thread with an address space flushes the TLB as it resumes. */
  predicate CanSwitch(s: State, t: Tid) {
    t in s.pc && s.pc[t] != Embryo
  }

  function Switch(s: State, t: Tid): State {
    s.(cur := t, tlb := if HasSpace(s, t) then Tlb.EMPTY else s.tlb)
  }

  /** A store through a valid translation. */
  predicate CanWrite(s: State, vpn: nat, frame: nat) {
    && HasSpace(s, s.cur) && At(s) == Running
    && Tlb.Maps(s.tlb, vpn, frame) && frame < |s.mem|
  }

  function Write(s: State, frame: nat, content: Page): State
    requires frame < |s.mem|
  {
    s.(mem := s.mem[frame := content])
  }

  // ------------------------------------------------------------------
  // Page faults

  predicate CanFault(s: State, vpn: nat) {
    HasSpace(s, s.cur) && At(s) == Running && !Tlb.Hit(s.tlb, vpn)
  }

  function Fault(s: State, vpn: nat): State {
    Goto(s, Faulting(vpn))
  }

  /** `pt_get_frame_from_page`: a page that is being written out makes the thread wait. */
  predicate CanLookup(s: State) {
    && s.cur in s.pc && At(s).Faulting?
    && var e := Eid(s.cur, At(s).vpn);
       e in s.pte ==> !s.pte[e].swapping && (!s.pte[e].swp ==> s.pte[e].frame < |s.cm|)
  }

  function Lookup(s: State): State
    requires CanLookup(s)
  {
    var v := At(s).vpn;
    var e := Eid(s.cur, v);
    if e !in s.pte then Goto(s, Seeking(Fresh(v)))
    else if s.pte[e].swp then Goto(s, Seeking(SwapIn(v)))
    else
      var f := s.pte[e].frame;
      Goto(s, Mapping(v, f)).(cm := s.cm[f := s.cm[f].(fixed := true)],
                              stats := s.stats.(reloads := s.stats.reloads + 1))
  }

  // ------------------------------------------------------------------
  // get_n_frames: a free frame, or the eviction of a victim

  ghost predicate CanGrab(s: State, page: nat, post: Map) {
    && s.cur in s.pc && At(s).Seeking?
    && Fits(s.cm, page, 1) && Taken(s.cm, page, 1, Target(s.cur, At(s).want), post)
  }

  function Grab(s: State, page: nat, post: Map): State
    requires s.cur in s.pc && At(s).Seeking?
  {
    Goto(s, Zeroing(At(s).want, page)).(cm := post)
  }

  /** `get_victim`: pin the frame and mark its page as being written out. */
  ghost predicate CanClaim(s: State, f: nat) {
    && s.cur in s.pc && At(s).Seeking?
    && (forall h :: 0 <= h < |s.cm| ==> !Fits(s.cm, h, 1))
    && Eligible(s.cm, f) && s.cm[f].owner.value in s.pte
  }

  function Claim(s: State, f: nat): State
    requires s.cur in s.pc && At(s).Seeking?
    requires Eligible(s.cm, f) && s.cm[f].owner.value in s.pte
  {
    var e := s.cm[f].owner.value;
    Goto(s, Claimed(At(s).want, f)).(
      cm := s.cm[f := s.cm[f].(fixed := true)],
      pte := s.pte[e := s.pte[e].(swapping := true)])
  }

  /** `swap_set`, first half: take the lock and reserve an unreferenced slot. */
  predicate CanReserve(s: State, slot: nat) {
    && s.cur in s.pc && At(s).Claimed? && LockFree(s)
    && slot < |s.refs| && s.refs[slot] == 0
  }

  function Reserve(s: State, slot: nat): State
    requires CanReserve(s, slot)
  {
    Goto(s, Writing(At(s).want, At(s).frame, slot)).(
      swapLock := Some(s.cur), refs := s.refs[slot := 1])
  }

  /** `swap_set`, second half: the frame has reached the disk. */
  predicate CanStore(s: State) {
    && s.cur in s.pc && At(s).Writing?
    && At(s).slot < |s.disk| && At(s).frame < |s.mem|
  }

  function Store(s: State): State
    requires CanStore(s)
  {
    Goto(s, Written(At(s).want, At(s).frame, At(s).slot)).(
      swapLock := Unlock(s, At(s).want),
      disk := s.disk[At(s).slot := s.mem[At(s).frame]])
  }

  /**
    The masked section after `swap_set`. The frame changes hands; when its
    owner has meanwhile been destroyed the slot is no longer wanted.
   */
  predicate CanCommit(s: State) {
    && s.cur in s.pc && At(s).Written? && At(s).frame < |s.cm|
    && (s.cm[At(s).frame].owner != None ==> s.cm[At(s).frame].owner.value in s.pte)
  }

  function Commit(s: State): State
    requires CanCommit(s)
  {
    var Written(want, f, slot) := At(s);
    var passed := s.cm[f := s.cm[f].(owner := Target(s.cur, want))];
    if s.cm[f].owner == None then
      Goto(s, Dropping(want, f, slot)).(cm := passed)
    else
      var e := s.cm[f].owner.value;
      Goto(s, Zeroing(want, f)).(
        cm := passed,
        tlb := Tlb.InvalidateFirst(s.tlb, s.pte[e].frame),
        pte := s.pte[e := Pte(slot, true, false)])
  }

  /** `swap_get` without an address: give the unwanted slot back. */
  predicate CanDrop(s: State) {
    && s.cur in s.pc && At(s).Dropping? && LockFree(s)
    && At(s).slot < |s.refs| && s.refs[At(s).slot] > 0
  }

  function Drop(s: State): State
    requires CanDrop(s)
  {
    var Dropping(want, f, slot) := At(s);
    Goto(s, Zeroing(want, f)).(swapLock := Unlock(s, want), refs := s.refs[slot := s.refs[slot] - 1])
  }

  predicate CanZero(s: State) {
    s.cur in s.pc && At(s).Zeroing? && At(s).frame < |s.mem|
  }

  function Zero(s: State): State
    requires CanZero(s)
  {
    Goto(s, Granted(At(s).want, At(s).frame)).(mem := s.mem[At(s).frame := ZERO_PAGE])
  }

  // ------------------------------------------------------------------
  // What becomes of the frame

  /** `load_frame`: a page of a segment has yet to be loaded, a stack page stays zero. */
  predicate CanInstall(s: State) {
    s.cur in s.pc && At(s).Granted? && At(s).want.Fresh?
  }

  function Install(s: State): State
    requires CanInstall(s)
  {
    var Granted(want, f) := At(s);
    var v := want.page;
    var s1 := s.(pte := s.pte[Eid(s.cur, v) := Pte(f, false, false)]);
    if s.cur in s.image && v in s.image[s.cur] then Goto(s1, Loading(v, f, false))
    else Goto(s1, Mapping(v, f)).(stats := s.stats.(zeroed := s.stats.zeroed + 1))
  }

  /** `load_from_swap`: give up the reference and start reading. */
  predicate CanFetch(s: State) {
    && s.cur in s.pc && At(s).Granted? && At(s).want.SwapIn? && LockFree(s)
    && var e := Eid(s.cur, At(s).want.page);
       e in s.pte && s.pte[e].frame < |s.refs| && s.refs[s.pte[e].frame] > 0
  }

  function Fetch(s: State): State
    requires CanFetch(s)
  {
    var Granted(want, f) := At(s);
    var slot := s.pte[Eid(s.cur, want.page)].frame;
    Goto(s, Reading(want.page, f, slot)).(
      swapLock := Some(s.cur), refs := s.refs[slot := s.refs[slot] - 1])
  }

  predicate CanArrive(s: State) {
    && s.cur in s.pc && At(s).Reading?
    && At(s).frame < |s.mem| && At(s).slot < |s.disk|
  }

  function Arrive(s: State): State
    requires CanArrive(s)
  {
    var Reading(v, f, slot) := At(s);
    Goto(s, Fetched(v, f)).(swapLock := None, mem := s.mem[f := s.disk[slot]])
  }

  predicate CanRevive(s: State) {
    s.cur in s.pc && At(s).Fetched?
  }

  function Revive(s: State): State
    requires CanRevive(s)
  {
    var Fetched(v, f) := At(s);
    Goto(s, Mapping(v, f)).(
      pte := s.pte[Eid(s.cur, v) := Pte(f, false, false)],
      stats := s.stats.(disk := s.stats.disk + 1, swap := s.stats.swap + 1))
  }

  function Resumed(b: Back): Pc {
    match b
    case ToRunning => Running
    case ToFault(v) => Faulting(v)
    case ToFork(c) => Forking(c)
  }

  /** The frame asked for by `get_kernel_frame`. */
  predicate CanHandOver(s: State) {
    s.cur in s.pc && At(s).Granted? && At(s).want.Kernel?
  }

  function HandOver(s: State): State
    requires CanHandOver(s)
  {
    Goto(s, Resumed(At(s).want.back)).(kernel := s.kernel + {At(s).frame})
  }

  // ------------------------------------------------------------------
  // Loading a page of the executable, which faults on the page being loaded

  predicate CanNestedFault(s: State) {
    s.cur in s.pc && At(s).Loading? && !At(s).done && !Tlb.Hit(s.tlb, At(s).vpn)
  }

  function NestedFault(s: State): State
    requires CanNestedFault(s)
  {
    Goto(s, LoadMapping(At(s).vpn, At(s).frame)).(stats := s.stats.(reloads := s.stats.reloads + 1))
  }

  predicate CanNestedFill(s: State) {
    s.cur in s.pc && At(s).LoadMapping? && s.rr < |s.tlb|
  }

  /** The TLB write of `vm_fault`, with its counters. */
  function Filled(s: State, vpn: nat, frame: nat): State
    requires s.rr < |s.tlb|
  {
    var free := Tlb.FillsFree(s.tlb, vpn, frame);
    var k := Tlb.FirstStop(s.tlb, vpn, frame, 0);
    s.(tlb := Tlb.Fill(s.tlb, vpn, frame, s.rr),
       rr := if k < |s.tlb| then s.rr else (s.rr + 1) % |s.tlb|,
       stats := s.stats.(faults := s.stats.faults + 1,
                         free := s.stats.free + (if free then 1 else 0),
                         replace := s.stats.replace + (if free then 0 else 1)))
  }

  function NestedFill(s: State): State
    requires CanNestedFill(s)
  {
    var LoadMapping(v, f) := At(s);
    Goto(Filled(s, v, f), Loading(v, f, false))
  }

  /** `load_segment` copies the file part of the page through the new translation. */
  predicate CanLoad(s: State) {
    && s.cur in s.pc && At(s).Loading? && !At(s).done
    && Tlb.Maps(s.tlb, At(s).vpn, At(s).frame) && At(s).frame < |s.mem|
  }

  function Load(s: State): State
    requires CanLoad(s)
  {
    var Loading(v, f, _) := At(s);
    Goto(s, Loading(v, f, true)).(mem := s.mem[f := Initial(s, s.cur, v)])
  }

  /** `load_page` returns; a page without file contents needs no copy. */
  predicate CanLoaded(s: State) {
    && s.cur in s.pc && At(s).Loading?
    && (At(s).done || Initial(s, s.cur, At(s).vpn) == ZERO_PAGE)
  }

  function Loaded(s: State): State
    requires CanLoaded(s)
  {
    Goto(s, Mapping(At(s).vpn, At(s).frame)).(
      stats := s.stats.(disk := s.stats.disk + 1, elf := s.stats.elf + 1))
  }

  /** The end of `vm_fault`; the pin is dropped unless permissions are being ignored. */
  predicate CanFill(s: State) {
    s.cur in s.pc && At(s).Mapping? && s.rr < |s.tlb| && At(s).frame < |s.cm|
  }

  function Fill(s: State, unpin: bool): State
    requires CanFill(s)
  {
    var Mapping(v, f) := At(s);
    var s1 := Goto(Filled(s, v, f), Running);
    if unpin then s1.(cm := s.cm[f := s.cm[f].(fixed := false)]) else s1
  }

  // ------------------------------------------------------------------
  // Processes

  ghost predicate CanSpawn(s: State, child: Tid) {
    s.cur in s.pc && At(s) == Running && child !in s.pc && |s.user| < MAX_PROC
  }

  function Spawn(s: State, child: Tid, program: map<nat, Page>): State {
    s.(pc := s.pc[child := Running], user := s.user + {child}, image := s.image[child := program])
  }

  predicate CanExit(s: State) {
    s.cur in s.user && s.cur in s.pc && At(s) == Running
  }

  function Exit(s: State): State {
    Goto(s, Exited)
  }

  /**
    A fault that fails ends the process: an address outside every segment or a forbidden
    access, no memory for a row of the page table, no frame, or an error while the page is
    loaded, which leaves `left` in its frame. A kernel request that fails outside a fault
    and outside `pt_copy` just returns.
   */
  predicate CanFail(s: State) {
    && s.cur in s.pc
    && (At(s).Faulting? || (At(s).Seeking? && !InCopy(At(s).want)) || (At(s).Loading? && At(s).frame < |s.mem|))
  }

  function Fail(s: State, left: Page): State
    requires CanFail(s)
  {
    if At(s).Loading? then Goto(s, Exited).(mem := s.mem[At(s).frame := left])
    else if At(s).Seeking? && At(s).want == Kernel(ToRunning) then Goto(s, Running)
    else Goto(s, Exited)
  }

  /** `pt_copy` starts: `swap_lock` is held until it ends. */
  ghost predicate CanFork(s: State, child: Tid) {
    && HasSpace(s, s.cur) && At(s) == Running && s.cur in s.image
    && child !in s.pc && |s.user| < MAX_PROC && s.swapLock == None
  }

  function Fork(s: State, child: Tid): State
    requires s.cur in s.image
  {
    s.(pc := s.pc[s.cur := Forking(child)][child := Embryo], user := s.user + {child},
       image := s.image[child := s.image[s.cur]], swapLock := Some(s.cur))
  }

  /** One entry of the parent: a swapped page is shared, a resident one needs a frame. */
  predicate CanShare(s: State, vpn: nat) {
    && s.cur in s.pc && At(s).Forking?
    && Eid(s.cur, vpn) in s.pte && Eid(At(s).offspring, vpn) !in s.pte
    && (s.pte[Eid(s.cur, vpn)].swp ==> s.pte[Eid(s.cur, vpn)].frame < |s.refs|)
  }

  function Share(s: State, vpn: nat): State
    requires CanShare(s, vpn)
  {
    var c := At(s).offspring;
    var p := s.pte[Eid(s.cur, vpn)];
    if p.swp then
      s.(pte := s.pte[Eid(c, vpn) := Pte(p.frame, true, false)],
         refs := s.refs[p.frame := (s.refs[p.frame] + 1) % Swap.REF_LIMIT])
    else
      Goto(s, Seeking(Copy(c, vpn)))
  }

  /**
    `memcpy` from the frame that the parent's entry names. The entry is read
    again here: if the page was evicted meanwhile the number read is a swap
    slot, and `junk` stands for memory beyond the last frame.
   */
  predicate CanDuplicate(s: State) {
    && s.cur in s.pc && At(s).Granted? && At(s).want.Copy?
    && At(s).frame < |s.mem| && At(s).frame < |s.cm|
    && Eid(s.cur, At(s).want.page) in s.pte
  }

  function Copied(s: State, junk: Page): Page
    requires CanDuplicate(s)
  {
    var n := s.pte[Eid(s.cur, At(s).want.page)].frame;
    if n < |s.mem| then s.mem[n] else junk
  }

  function Duplicate(s: State, junk: Page): State
    requires CanDuplicate(s)
  {
    var Granted(want, f) := At(s);
    var Copy(c, v) := want;
    var evicted := s.pte[Eid(s.cur, v)].swp;
    Goto(s, Forking(c)).(
      mem := s.mem[f := Copied(s, junk)],
      cm := s.cm[f := s.cm[f].(fixed := false)],
      pte := s.pte[Eid(c, v) := Pte(f, false, false)],
      spoiled := if evicted then s.spoiled + {Eid(c, v)} else s.spoiled)
  }

  /** `pt_copy` ends: every entry of the parent has been handled. */
  predicate CanForked(s: State) {
    && s.cur in s.pc && At(s).Forking?
    && forall e :: e in s.pte && e.pt == s.cur ==> Eid(At(s).offspring, e.vpn) in s.pte
  }

  function Forked(s: State): State
    requires CanForked(s)
  {
    Goto(s, Running).(pc := s.pc[s.cur := Running][At(s).offspring := Running], swapLock := None)
  }

  /** `pt_destroy` of a process that has exited. */
  predicate CanDestroy(s: State, prey: Tid) {
    && s.cur in s.pc && At(s) == Running && s.swapLock == None
    && prey in s.user && prey in s.pc && s.pc[prey] == Exited
  }

  function Destroy(s: State, prey: Tid): State {
    Goto(s, Destroying(prey)).(swapLock := Some(s.cur))
  }

  /** One entry: its slot reference or its frame is released, as one step. */
  ghost predicate CanRelease(s: State, vpn: nat, post: Map) {
    && s.cur in s.pc && At(s).Destroying?
    && var e := Eid(At(s).prey, vpn);
       && e in s.pte
       && (if s.pte[e].swp then s.pte[e].frame < |s.refs| && s.refs[s.pte[e].frame] > 0 && post == s.cm
           else
             var f := s.pte[e].frame;
             && f < |s.cm|
             && (if s.cm[f].owner != None && s.pte[e].swapping
                 then post == s.cm[f := s.cm[f].(fixed := true, owner := None)]
                 else Freed(s.cm, f, post)))
  }

  function Release(s: State, vpn: nat, post: Map): State
    requires s.cur in s.pc && At(s).Destroying?
    requires var e := Eid(At(s).prey, vpn); e in s.pte && (s.pte[e].swp ==>
      s.pte[e].frame < |s.refs| && s.refs[s.pte[e].frame] > 0)
  {
    var e := Eid(At(s).prey, vpn);
    var k := s.pte[e].frame;
    s.(pte := s.pte - {e}, cm := post,
       refs := if s.pte[e].swp then s.refs[k := s.refs[k] - 1] else s.refs)
  }

  predicate CanDestroyed(s: State) {
    && s.cur in s.pc && At(s).Destroying?
    && forall e :: e in s.pte ==> e.pt != At(s).prey
  }

  function Destroyed(s: State): State
    requires CanDestroyed(s)
  {
    Goto(s, Running).(user := s.user - {At(s).prey}, swapLock := None)
  }

  // ------------------------------------------------------------------
  // Kernel allocations

  /**
    The kernel needs a frame for itself: at any time, for a missing row of the page table
    during a fault, or for a row of the child's table during a fork.
   */
  predicate CanAsk(s: State) {
    && s.cur in s.pc
    && (At(s) == Running || At(s).Forking? || (At(s).Faulting? && Eid(s.cur, At(s).vpn) !in s.pte))
  }

  /** `get_kernel_frame(1)` when a victim may be needed. */
  function Ask(s: State): State
    requires CanAsk(s)
  {
    var back :=
      if At(s).Faulting? then ToFault(At(s).vpn)
      else if At(s).Forking? then ToFork(At(s).offspring)
      else ToRunning;
    Goto(s, Seeking(Kernel(back)))
  }

  ghost predicate CanTake(s: State, page: nat, num: nat, post: Map) {
    && s.cur in s.pc && (At(s) == Running || At(s).Faulting? || At(s).Forking?)
    && Fits(s.cm, page, num) && Taken(s.cm, page, num, None, post)
  }

  function Take(s: State, page: nat, post: Map): State {
    s.(cm := post, kernel := s.kernel + {page})
  }

  ghost predicate CanGive(s: State, page: nat, post: Map) {
    && s.cur in s.pc && (At(s) == Running || At(s).Destroying?)
    && page in s.kernel && Freed(s.cm, page, post)
  }

  function Give(s: State, page: nat, post: Map): State {
    s.(cm := post, kernel := s.kernel - {page})
  }

  // ------------------------------------------------------------------
  // Steps and runs

  datatype Label =
    | LSwitch(t: Tid)
    | LWrite(vpn: nat, frame: nat, content: Page)
    | LFault(vpn: nat)
    | LLookup
    | LGrab(page: nat, post: Map)
    | LClaim(frame: nat)
    | LReserve(slot: nat)
    | LStore
    | LCommit
    | LDrop
    | LZero
    | LInstall
    | LFetch
    | LArrive
    | LRevive
    | LHandOver
    | LNestedFault
    | LNestedFill
    | LLoad
    | LLoaded
    | LFill(unpin: bool)
    | LSpawn(child: Tid, program: map<nat, Page>)
    | LExit
    | LFail(left: Page)
    | LFork(child: Tid)
    | LShare(vpn: nat)
    | LDuplicate(junk: Page)
    | LForked
    | LDestroy(prey: Tid)
    | LRelease(vpn: nat, post: Map)
    | LDestroyed
    | LAsk
    | LTake(page: nat, num: nat, post: Map)
    | LGive(page: nat, post: Map)

  ghost predicate Enabled(s: State, l: Label) {
    match l
    case LSwitch(t) => CanSwitch(s, t)
    case LWrite(v, f, _) => CanWrite(s, v, f)
    case LFault(v) => CanFault(s, v)
    case LLookup => CanLookup(s)
    case LGrab(p, post) => CanGrab(s, p, post)
    case LClaim(f) => CanClaim(s, f)
    case LReserve(k) => CanReserve(s, k)
    case LStore => CanStore(s)
    case LCommit => CanCommit(s)
    case LDrop => CanDrop(s)
    case LZero => CanZero(s)
    case LInstall => CanInstall(s)
    case LFetch => CanFetch(s)
    case LArrive => CanArrive(s)
    case LRevive => CanRevive(s)
    case LHandOver => CanHandOver(s)
    case LNestedFault => CanNestedFault(s)
    case LNestedFill => CanNestedFill(s)
    case LLoad => CanLoad(s)
    case LLoaded => CanLoaded(s)
    case LFill(_) => CanFill(s)
    case LSpawn(c, _) => CanSpawn(s, c)
    case LExit => CanExit(s)
    case LFail(_) => CanFail(s)
    case LFork(c) => CanFork(s, c)
    case LShare(v) => CanShare(s, v)
    case LDuplicate(_) => CanDuplicate(s)
    case LForked => CanForked(s)
    case LDestroy(p) => CanDestroy(s, p)
    case LRelease(v, post) => CanRelease(s, v, post)
    case LDestroyed => CanDestroyed(s)
    case LAsk => CanAsk(s)
    case LTake(p, n, post) => CanTake(s, p, n, post)
    case LGive(p, post) => CanGive(s, p, post)
  }

  ghost function Next(s: State, l: Label): State
    requires Enabled(s, l)
  {
    hide Taken, Freed;
    match l
    case LSwitch(t) => Switch(s, t)
    case LWrite(_, f, c) => Write(s, f, c)
    case LFault(v) => Fault(s, v)
    case LLookup => Lookup(s)
    case LGrab(p, post) => Grab(s, p, post)
    case LClaim(f) => Claim(s, f)
    case LReserve(k) => Reserve(s, k)
    case LStore => Store(s)
    case LCommit => Commit(s)
    case LDrop => Drop(s)
    case LZero => Zero(s)
    case LInstall => Install(s)
    case LFetch => Fetch(s)
    case LArrive => Arrive(s)
    case LRevive => Revive(s)
    case LHandOver => HandOver(s)
    case LNestedFault => NestedFault(s)
    case LNestedFill => NestedFill(s)
    case LLoad => Load(s)
    case LLoaded => Loaded(s)
    case LFill(unpin) => Fill(s, unpin)
    case LSpawn(c, p) => Spawn(s, c, p)
    case LExit => Exit(s)
    case LFail(left) => Fail(s, left)
    case LFork(c) => Fork(s, c)
    case LShare(v) => Share(s, v)
    case LDuplicate(junk) => Duplicate(s, junk)
    case LForked => Forked(s)
    case LDestroy(p) => Destroy(s, p)
    case LRelease(v, post) => Release(s, v, post)
    case LDestroyed => Destroyed(s)
    case LAsk => Ask(s)
    case LTake(p, _, post) => Take(s, p, post)
    case LGive(p, post) => Give(s, p, post)
  }
}
