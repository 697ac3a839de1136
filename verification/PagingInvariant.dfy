/** What every reachable state of the paging system satisfies. */
module PagingInvariant {
  import opened Common
  import opened Coremap
  import opened Paging
  import Tlb

  // ------------------------------------------------------------------
  // Frames and page table entries

  ghost predicate Shape(s: State) {
    && ValidMap(s.cm) && |s.mem| == |s.cm| > 0
    && |s.refs| == |s.disk|
    && |s.tlb| == Tlb.NUM_TLB && s.rr < Tlb.NUM_TLB
    && 0 < s.first <= |s.cm| && (forall k :: 0 <= k < s.first ==> s.cm[k].occ && s.cm[k].owner == None)
    && s.cur in s.pc && s.pc[s.cur] != Embryo
    && s.user <= s.pc.Keys && |s.user| <= MAX_PROC
    && (forall h :: h in s.kernel ==> s.first <= h && Head(s.cm, h) && s.cm[h].occ && s.cm[h].owner == None)
  }

  /** A page in memory and the frame that holds it name each other. */
  ghost predicate EntriesOk(s: State) {
    && (forall e :: e in s.pte ==> e.pt in s.user)
    && (forall e :: e in s.pte && !s.pte[e].swp ==>
          s.pte[e].frame < |s.cm| && s.cm[s.pte[e].frame].owner == Some(e))
    && (forall e :: e in s.pte && s.pte[e].swp ==> s.pte[e].frame < |s.refs| && !s.pte[e].swapping)
  }

  /** A frame that may be chosen as victim holds a page that is in memory and not being written out. */
  ghost predicate UnpinnedOk(s: State) {
    forall f :: 0 <= f < |s.cm| && !s.cm[f].fixed && s.cm[f].owner != None ==>
      var e := s.cm[f].owner.value;
      e in s.pte && s.pte[e] == Pte(f, false, false)
  }

  ghost predicate Core(s: State) {
    Shape(s) && EntriesOk(s) && UnpinnedOk(s)
  }

  // ------------------------------------------------------------------
  // What each thread may rely on between its steps

  /** The thread holds a frame that nobody else may claim. */
  predicate HasFrame(pc: Pc) {
    || pc.Claimed? || pc.Writing? || pc.Written? || pc.Dropping? || pc.Zeroing? || pc.Granted?
    || pc.Reading? || pc.Fetched? || pc.Loading? || pc.LoadMapping? || pc.Mapping?
  }

  /** The thread is emptying a frame. */
  predicate Evicts(pc: Pc) {
    pc.Claimed? || pc.Writing? || pc.Written?
  }

  /** The thread holds a swap slot that no entry names yet. */
  predicate HasSlot(pc: Pc) {
    pc.Writing? || pc.Written? || pc.Dropping?
  }

  predicate HasWant(pc: Pc) {
    || pc.Seeking? || pc.Claimed? || pc.Writing? || pc.Written? || pc.Dropping? || pc.Zeroing? || pc.Granted?
  }

  predicate NeedsLock(pc: Pc) {
    || pc.Writing? || pc.Reading? || pc.Forking? || pc.Destroying?
    || (HasWant(pc) && InCopy(pc.want))
  }

  ghost predicate WantOk(s: State, t: Tid, want: Want) {
    match want
    case Fresh(v) => HasSpace(s, t) && Eid(t, v) !in s.pte
    case SwapIn(v) => HasSpace(s, t) && Eid(t, v) in s.pte && s.pte[Eid(t, v)].swp
    case Copy(c, v) => HasSpace(s, t) && IsEmbryo(s, c) && Eid(t, v) in s.pte && Eid(c, v) !in s.pte
    case Kernel(ToRunning) => true
    case Kernel(ToFault(v)) => HasSpace(s, t) && Eid(t, v) !in s.pte
    case Kernel(ToFork(c)) => HasSpace(s, t) && IsEmbryo(s, c)
  }

  ghost predicate IsEmbryo(s: State, c: Tid) {
    c in s.user && c in s.pc && s.pc[c] == Embryo
  }

  ghost predicate Held(s: State, f: nat) {
    && f < |s.cm| && s.cm[f].occ && s.cm[f].fixed && s.cm[f].nframes == 1
    && f !in s.kernel && f >= s.first
  }

  /** The frame is being emptied: its page is marked, unless the page is gone already. */
  ghost predicate Emptying(s: State, f: nat) {
    && Held(s, f)
    && (s.cm[f].owner != None ==>
          var e := s.cm[f].owner.value; e in s.pte && s.pte[e] == Pte(f, false, true))
  }

  /** The frame is set aside for an entry that does not name it yet. */
  ghost predicate Reserved(s: State, f: nat, owner: Option<Eid>) {
    Held(s, f) && s.cm[f].owner == owner
  }

  /** The frame holds a page of the thread and cannot be taken away. */
  ghost predicate Pinned(s: State, t: Tid, vpn: nat, f: nat) {
    Held(s, f) && HasSpace(s, t) && Eid(t, vpn) in s.pte && s.pte[Eid(t, vpn)] == Pte(f, false, false)
  }

  ghost predicate PcOk(s: State, t: Tid)
    requires t in s.pc
  {
    match s.pc[t]
    case Running => true
    case Faulting(v) => HasSpace(s, t)
    case Seeking(w) => WantOk(s, t, w)
    case Claimed(w, f) => WantOk(s, t, w) && Emptying(s, f)
    case Writing(w, f, k) => WantOk(s, t, w) && Emptying(s, f) && k < |s.refs|
    case Written(w, f, k) => WantOk(s, t, w) && Emptying(s, f) && k < |s.refs|
    case Dropping(w, f, k) => WantOk(s, t, w) && Reserved(s, f, Target(t, w)) && k < |s.refs|
    case Zeroing(w, f) => WantOk(s, t, w) && Reserved(s, f, Target(t, w))
    case Granted(w, f) => WantOk(s, t, w) && Reserved(s, f, Target(t, w))
    case Reading(v, f, k) =>
      && WantOk(s, t, SwapIn(v)) && Reserved(s, f, Some(Eid(t, v)))
      && k < |s.refs| && s.pte[Eid(t, v)].frame == k
    case Fetched(v, f) => WantOk(s, t, SwapIn(v)) && Reserved(s, f, Some(Eid(t, v)))
    case Loading(v, f, _) => Pinned(s, t, v, f)
    case LoadMapping(v, f) => Pinned(s, t, v, f)
    case Mapping(v, f) => Pinned(s, t, v, f)
    case Forking(c) => HasSpace(s, t) && IsEmbryo(s, c)
    case Destroying(p) => p in s.user && p in s.pc && s.pc[p] == Exited
    case Embryo => t in s.user
    case Exited => true
  }

  predicate HoldsFrame(s: State, t: Tid, f: nat) {
    t in s.pc && HasFrame(s.pc[t]) && s.pc[t].frame == f
  }

  ghost predicate ThreadsOk(s: State) {
    && (forall t :: t in s.pc ==> PcOk(s, t))
    && (forall t :: t in s.pc && NeedsLock(s.pc[t]) ==> s.swapLock == Some(t))
    && (forall t, u, f :: HoldsFrame(s, t, f) && HoldsFrame(s, u, f) ==> t == u)
  }

  // ------------------------------------------------------------------
  // Swap slots

  /** Who keeps a slot alive: an entry that names it, or an eviction that has just filled it. */
  datatype Ref = ByEntry(e: Eid) | ByThread(t: Tid)

  /** The thread has given up the reference of this entry but has not updated the entry. */
  predicate Consumed(s: State, e: Eid) {
    && e.pt in s.pc
    && ((s.pc[e.pt].Reading? && s.pc[e.pt].vpn == e.vpn) || (s.pc[e.pt].Fetched? && s.pc[e.pt].vpn == e.vpn))
  }

  predicate Names(s: State, e: Eid, k: nat) {
    e in s.pte && s.pte[e].swp && s.pte[e].frame == k && !Consumed(s, e)
  }

  predicate HoldsSlot(s: State, t: Tid, k: nat) {
    t in s.pc && HasSlot(s.pc[t]) && s.pc[t].slot == k
  }

  predicate Refers(s: State, r: Ref, k: nat) {
    match r
    case ByEntry(e) => Names(s, e, k)
    case ByThread(t) => HoldsSlot(s, t, k)
  }

  ghost function RefSet(s: State, k: nat): (r: set<Ref>)
    ensures forall x :: x in r <==> Refers(s, x, k)
  {
    var r := (set e | e in s.pte && Names(s, e, k) :: ByEntry(e))
           + (set t | t in s.pc && HoldsSlot(s, t, k) :: ByThread(t));
    assert forall x :: x in r <==> Refers(s, x, k);
    r
  }

  /** Reference counts are exact. */
  ghost predicate Counted(s: State) {
    forall k :: 0 <= k < |s.refs| ==> s.refs[k] == |RefSet(s, k)|
  }

  /** A slot in the hands of an eviction is nobody else's, and entries share a slot only across processes. */
  ghost predicate Unshared(s: State) {
    && (forall t, r, k :: Refers(s, ByThread(t), k) && Refers(s, r, k) ==> r == ByThread(t))
    && (forall e, d, k :: Refers(s, ByEntry(e), k) && Refers(s, ByEntry(d), k) ==> e.vpn == d.vpn)
  }

  ghost predicate SlotsOk(s: State) {
    Counted(s) && Unshared(s)
  }

  // ------------------------------------------------------------------
  // The TLB

  /** Every translation is the one the page table of the running thread gives. */
  ghost predicate TlbAgrees(s: State)
    requires s.cur in s.pc
  {
    forall i :: 0 <= i < |s.tlb| && s.tlb[i].Entry? ==>
      var e := Eid(s.cur, s.tlb[i].vpn);
      && e in s.pte && !s.pte[e].swp && s.pte[e].frame == s.tlb[i].frame
      && (s.pte[e].swapping ==> Evicts(At(s)) && At(s).frame == s.tlb[i].frame)
  }

  ghost predicate TlbOk(s: State)
    requires s.cur in s.pc
  {
    HasSpace(s, s.cur) ==>
      && TlbAgrees(s) && Tlb.Distinct(s.tlb)
      && (At(s).Faulting? ==> !Tlb.Hit(s.tlb, At(s).vpn))
      && (At(s).Loading? || At(s).LoadMapping? || At(s).Mapping? ==> Tlb.NoGapBefore(s.tlb, At(s).vpn))
  }

  // ------------------------------------------------------------------
  // Contents

  function Mem(s: State, f: nat): Page {
    if f < |s.mem| then s.mem[f] else ZERO_PAGE
  }

  function Disk(s: State, k: nat): Page {
    if k < |s.disk| then s.disk[k] else ZERO_PAGE
  }

  /** The page has been read back into a frame that its entry does not name yet. */
  predicate InFetch(s: State, e: Eid) {
    e.pt in s.pc && s.pc[e.pt].Fetched? && s.pc[e.pt].vpn == e.vpn
  }

  /** What the owner of a page is to see in it: its frame, or its slot while it is out. */
  function Content(s: State, e: Eid): Page
    requires e in s.pte
  {
    if !s.pte[e].swp then Mem(s, s.pte[e].frame)
    else if InFetch(s, e) then Mem(s, s.pc[e.pt].frame)
    else Disk(s, s.pte[e].frame)
  }

  /** The page is still being loaded from the executable. */
  predicate InLoad(s: State, e: Eid) {
    && e.pt in s.pc
    && ((s.pc[e.pt].Loading? && s.pc[e.pt].vpn == e.vpn) || (s.pc[e.pt].LoadMapping? && s.pc[e.pt].vpn == e.vpn))
  }

  /** What a thread knows about the contents of the frame it is working on. */
  ghost predicate ContentOk(s: State, t: Tid)
    requires t in s.pc
  {
    match s.pc[t]
    case Written(_, f, k) => f < |s.cm| && s.cm[f].owner != None ==> Disk(s, k) == Mem(s, f)
    case Granted(_, f) => Mem(s, f) == ZERO_PAGE
    case LoadMapping(_, f) => Mem(s, f) == ZERO_PAGE
    case Loading(v, f, done) => Mem(s, f) == if done then Initial(s, t, v) else ZERO_PAGE
    case _ => true
  }

  ghost predicate ContentsOk(s: State) {
    forall t :: t in s.pc ==> ContentOk(s, t)
  }

  // ------------------------------------------------------------------
  // Statistics

  /** Faults whose lookup has been counted but whose TLB write has not. */
  ghost function Pending(s: State): (r: set<Tid>)
    ensures forall t :: t in r <==> t in s.pc && (s.pc[t].Mapping? || s.pc[t].LoadMapping?)
  {
    set t | t in s.pc && (s.pc[t].Mapping? || s.pc[t].LoadMapping?)
  }

  ghost predicate StatsOk(s: State) {
    && s.stats.faults == s.stats.free + s.stats.replace
    && s.stats.disk == s.stats.elf + s.stats.swap
    && s.stats.faults + |Pending(s)| == s.stats.reloads + s.stats.zeroed + s.stats.disk
  }

  // ------------------------------------------------------------------
  // Fork

  /** The child a thread is copying its pages to. */
  predicate Copying(pc: Pc) {
    pc.Forking? || (HasWant(pc) && InCopy(pc.want))
  }

  function Child(pc: Pc): Tid
    requires Copying(pc)
  {
    if pc.Forking? then pc.offspring else if pc.want.Copy? then pc.want.child else pc.want.back.offspring
  }

  /** Pages copied so far are those of the parent, unless the source was evicted under the copy. */
  ghost predicate ForkOk(s: State) {
    forall t, v :: t in s.pc && Copying(s.pc[t]) && Eid(Child(s.pc[t]), v) in s.pte ==>
      && Eid(t, v) in s.pte
      && (Eid(Child(s.pc[t]), v) !in s.spoiled ==>
            Content(s, Eid(Child(s.pc[t]), v)) == Content(s, Eid(t, v)))
  }

  ghost predicate Inv(s: State) {
    && Core(s) && ThreadsOk(s) && SlotsOk(s)
    && TlbOk(s) && ContentsOk(s) && StatsOk(s) && ForkOk(s)
  }
}
