/**
  Paging is transparent: over every run, what processes see of their memory is
  what a flat memory without frames, slots or a TLB would show them.
 */
module PagingRuns {
  import opened Common
  import opened Coremap
  import opened Paging
  import opened PagingInvariant
  import opened PagingStable
  import opened PagingEvict
  import opened PagingFaults
  import opened PagingLoad
  import opened PagingProcs
  import Tlb

  // ------------------------------------------------------------------
  // The flat memory

  /** Pages as their owners see them; a page still being loaded is not there yet. */
  ghost function View(s: State): map<Eid, Page> {
    map e | e in s.pte && !InLoad(s, e) :: Content(s, e)
  }

  /** What a step means for the flat memory. */
  datatype Effect =
    | Silent
    | Store(e: Eid, c: Page)
    | Touch(e: Eid, c: Page)
    | CopyPage(src: Eid, e: Eid)
    | Garble(e: Eid, c: Page)
    | Forget(e: Eid)

  function Apply(v: map<Eid, Page>, x: Effect): map<Eid, Page> {
    match x
    case Silent => v
    case Store(e, c) => v[e := c]
    case Touch(e, c) => v[e := c]
    case CopyPage(src, e) => if src in v then v[e := v[src]] else v
    case Garble(e, c) => v[e := c]
    case Forget(e) => v - {e}
  }

  /** A stack page is there at once; a page of a segment must be loaded first. */
  function InstallEffect(s: State): Effect
    requires CanInstall(s)
  {
    var v := At(s).want.page;
    if s.cur in s.image && v in s.image[s.cur] then Silent else Touch(Eid(s.cur, v), ZERO_PAGE)
  }

  /** The effect of copying one entry of the parent to the child. */
  function ShareEffect(s: State, v: nat): Effect
    requires CanShare(s, v)
  {
    if s.pte[Eid(s.cur, v)].swp then CopyPage(Eid(s.cur, v), Eid(At(s).offspring, v)) else Silent
  }

  /** The effect of copying a frame of the parent: a copy, unless the page was evicted meanwhile. */
  function DuplicateEffect(s: State, junk: Page): Effect
    requires CanDuplicate(s)
  {
    var Copy(c, v) := At(s).want;
    if s.pte[Eid(s.cur, v)].swp then Garble(Eid(c, v), Copied(s, junk))
    else CopyPage(Eid(s.cur, v), Eid(c, v))
  }

  /** Only writes, first touches, forks and exits have an effect; eviction, reload and switches have none. */
  ghost function EffectOf(s: State, l: Label): Effect
    requires Enabled(s, l)
  {
    match l
    case LWrite(v, _, c) => Store(Eid(s.cur, v), c)
    case LInstall => InstallEffect(s)
    case LLoaded => Touch(Eid(s.cur, At(s).vpn), Initial(s, s.cur, At(s).vpn))
    case LFail(left) => if At(s).Loading? then Touch(Eid(s.cur, At(s).vpn), left) else Silent
    case LShare(v) => ShareEffect(s, v)
    case LDuplicate(junk) => DuplicateEffect(s, junk)
    case LRelease(v, _) => Forget(Eid(At(s).prey, v))
    case _ => Silent
  }

  // ------------------------------------------------------------------
  // One step

  lemma ViewSame(s: State, s': State)
    requires SameContents(s, s')
    requires forall e :: e in s.pte ==> (InLoad(s', e) <==> InLoad(s, e))
    ensures View(s') == View(s)
  {
  }

  lemma ViewOne(s: State, s': State, x: Eid)
    requires OnlyContent(s, s', x)
    requires forall e :: e in s.pte && e != x ==> (InLoad(s', e) <==> InLoad(s, e))
    ensures forall e :: e != x ==> (e in View(s) <==> e in View(s'))
    ensures forall e :: e != x && e in View(s) ==> View(s')[e] == View(s)[e]
  {
  }

  /** No thread starts or finishes loading a page. */
  ghost predicate KeepsLoading(s: State, s': State) {
    && s.pc.Keys <= s'.pc.Keys
    && forall t :: t in s.pc ==>
      && (s'.pc[t].Loading? || s'.pc[t].LoadMapping?) == (s.pc[t].Loading? || s.pc[t].LoadMapping?)
      && (s.pc[t].Loading? || s.pc[t].LoadMapping? ==> s'.pc[t].vpn == s.pc[t].vpn)
  }

  /** Whether a page is being loaded depends only on where its owner stands. */
  lemma LoadsSame(s: State, s': State)
    requires KeepsLoading(s, s')
    requires forall e :: e in s.pte ==> e.pt in s.pc
    ensures forall e :: e in s.pte ==> (InLoad(s', e) <==> InLoad(s, e))
  {
  }

  lemma OwnersKnown(s: State)
    requires Core(s)
    ensures forall e :: e in s.pte ==> e.pt in s.pc
    ensures s.cur in s.pc
  {
  }

  predicate Visible(l: Label) {
    l.LWrite? || l.LInstall? || l.LLoad? || l.LLoaded? || l.LFail? || l.LShare? || l.LDuplicate? || l.LRelease?
  }

  lemma QuietKeeps(s: State, l: Label)
    requires Inv(s) && Enabled(s, l) && !Visible(l)
    ensures Inv(Next(s, l)) && SameContents(s, Next(s, l))
  {
    hide Inv, SameContents;
    match l {
      case LSwitch(t) => SwitchKeeps(s, t);
      case LFault(v) => FaultKeeps(s, v);
      case LLookup => LookupKeeps(s);
      case LGrab(p, post) => GrabKeeps(s, p, post);
      case LClaim(f) => ClaimKeeps(s, f);
      case LReserve(k) => ReserveKeeps(s, k);
      case LStore => StoreKeeps(s);
      case LCommit => CommitKeeps(s);
      case LDrop => DropKeeps(s);
      case LZero => ZeroKeeps(s);
      case LFetch => FetchKeeps(s);
      case LArrive => ArriveKeeps(s);
      case LRevive => ReviveKeeps(s);
      case LHandOver => HandOverKeeps(s);
      case LNestedFault => NestedFaultKeeps(s);
      case LNestedFill => NestedFillKeeps(s);
      case LFill(unpin) => FillKeeps(s, unpin);
      case LSpawn(c, p) => SpawnKeeps(s, c, p);
      case LExit => ExitKeeps(s);
      case LFork(c) => ForkKeeps(s, c);
      case LForked => ForkedKeeps(s);
      case LDestroy(p) => DestroyKeeps(s, p);
      case LDestroyed => DestroyedKeeps(s);
      case LAsk => AskKeeps(s);
      case LTake(p, n, post) => TakeKeeps(s, p, n, post);
      case LGive(p, post) => GiveKeeps(s, p, post);
    }
  }

  /** No silent step starts or finishes loading a page. */
  lemma QuietLoads(s: State, l: Label)
    requires Core(s) && ThreadsOk(s) && Enabled(s, l) && !Visible(l)
    ensures forall e :: e in s.pte ==> (InLoad(Next(s, l), e) <==> InLoad(s, e))
  {
    hide Core, ThreadsOk;
    OwnersKnown(s);
    if l.LForked? {
      Mine(s);
      LoadsSame(s, Forked(s));
    } else {
      QuietStays(s, l);
      hide Enabled, Next;
      LoadsSame(s, Next(s, l));
    }
  }

  /** The steps of a frame request and of a swap-in. */
  predicate Evicting(l: Label) {
    l.LGrab? || l.LClaim? || l.LReserve? || l.LStore? || l.LCommit? || l.LDrop?
  }

  predicate Fetching(l: Label) {
    l.LZero? || l.LFetch? || l.LArrive? || l.LRevive? || l.LHandOver?
  }

  lemma QuietStays(s: State, l: Label)
    requires s.cur in s.pc && Enabled(s, l) && !Visible(l) && !l.LForked?
    ensures KeepsLoading(s, Next(s, l))
  {
    hide Enabled, Next, KeepsLoading;
    if Evicting(l) {
      EvictingStays(s, l);
    } else if Fetching(l) {
      FetchingStays(s, l);
    } else if InFault(l) {
      InFaultStays(s, l);
    } else {
      OtherStays(s, l);
    }
  }

  lemma EvictingStays(s: State, l: Label)
    requires s.cur in s.pc && Enabled(s, l) && Evicting(l)
    ensures KeepsLoading(s, Next(s, l))
  {
    hide Taken, Tlb.InvalidateFirst;
  }

  lemma FetchingStays(s: State, l: Label)
    requires s.cur in s.pc && Enabled(s, l) && Fetching(l)
    ensures KeepsLoading(s, Next(s, l))
  {
  }

  /** The quiet steps of a fault. */
  predicate InFault(l: Label) {
    l.LFault? || l.LLookup? || l.LNestedFault? || l.LNestedFill? || l.LFill?
  }

  lemma InFaultStays(s: State, l: Label)
    requires s.cur in s.pc && Enabled(s, l) && InFault(l)
    ensures KeepsLoading(s, Next(s, l))
  {
    hide Tlb.Fill, Tlb.FillsFree, Tlb.FirstStop, Tlb.Hit;
  }

  lemma OtherStays(s: State, l: Label)
    requires s.cur in s.pc && Enabled(s, l) && !Visible(l) && !l.LForked?
    requires !Evicting(l) && !Fetching(l) && !InFault(l)
    ensures KeepsLoading(s, Next(s, l))
  {
    hide Taken, Freed;
  }

  lemma WriteView(s: State, v: nat, f: nat, c: Page)
    requires Inv(s) && CanWrite(s, v, f)
    ensures View(Write(s, f, c)) == View(s)[Eid(s.cur, v) := c] && Eid(s.cur, v) in View(s)
  {
    hide Inv;
    WriteKeeps(s, v, f, c);
    ViewOne(s, Write(s, f, c), Eid(s.cur, v));
  }

  lemma InstallView(s: State)
    requires Inv(s) && CanInstall(s)
    ensures View(Install(s)) == Apply(View(s), InstallEffect(s))
  {
    hide Inv;
    InstallKeeps(s);
    ViewOne(s, Install(s), Eid(s.cur, At(s).want.page));
  }

  lemma LoadView(s: State)
    requires Inv(s) && CanLoad(s)
    ensures View(Load(s)) == View(s)
  {
    hide Inv;
    LoadKeeps(s);
    ViewOne(s, Load(s), Eid(s.cur, At(s).vpn));
  }

  lemma LoadedView(s: State)
    requires Inv(s) && CanLoaded(s)
    ensures View(Loaded(s)) == View(s)[Eid(s.cur, At(s).vpn) := Initial(s, s.cur, At(s).vpn)]
  {
    hide Inv;
    LoadedKeeps(s);
    ViewOne(s, Loaded(s), Eid(s.cur, At(s).vpn));
  }

  lemma FailView(s: State, left: Page)
    requires Inv(s) && CanFail(s)
    ensures View(Fail(s, left)) == Apply(View(s), EffectOf(s, LFail(left)))
  {
    hide Inv;
    if At(s).Loading? {
      FailLateView(s, left);
    } else {
      FailEarlyKeeps(s, left);
      ViewSame(s, Fail(s, left));
    }
  }

  lemma FailLateView(s: State, left: Page)
    requires Inv(s) && CanFail(s) && At(s).Loading?
    ensures View(Fail(s, left)) == View(s)[Eid(s.cur, At(s).vpn) := left]
  {
    hide Inv;
    FailLateKeeps(s, left);
    ViewOne(s, Fail(s, left), Eid(s.cur, At(s).vpn));
  }

  lemma FailKeeps(s: State, left: Page)
    requires Inv(s) && CanFail(s)
    ensures Inv(Fail(s, left))
  {
    if At(s).Loading? {
      FailLateKeeps(s, left);
    } else {
      FailEarlyKeeps(s, left);
    }
  }

  /** Neither a forking process nor its child is loading a page. */
  lemma ForkersLoadNothing(s: State)
    requires ThreadsOk(s) && s.cur in s.pc && Copying(At(s))
    ensures forall v :: !InLoad(s, Eid(s.cur, v)) && !InLoad(s, Eid(Child(At(s)), v))
  {
    ChildrenUnborn(s);
  }

  lemma ShareView(s: State, v: nat)
    requires Inv(s) && CanShare(s, v)
    ensures View(Share(s, v)) == Apply(View(s), ShareEffect(s, v))
  {
    hide Core, ThreadsOk, SlotsOk, TlbOk, ContentsOk, StatsOk, ForkOk;
    ForkersLoadNothing(s);
    ShareKeeps(s, v);
    if s.pte[Eid(s.cur, v)].swp {
      ViewOne(s, Share(s, v), Eid(At(s).offspring, v));
    } else {
      ViewSame(s, Share(s, v));
    }
  }

  lemma ResidentCopied(s: State, junk: Page)
    requires Core(s) && CanDuplicate(s)
    ensures var src := Eid(s.cur, At(s).want.page);
      !s.pte[src].swp ==> Copied(s, junk) == Content(s, src)
  {
  }

  lemma DuplicateView(s: State, junk: Page)
    requires Inv(s) && CanDuplicate(s)
    ensures View(Duplicate(s, junk)) == Apply(View(s), DuplicateEffect(s, junk))
  {
    hide Core, ThreadsOk, SlotsOk, TlbOk, ContentsOk, StatsOk, ForkOk;
    ForkersLoadNothing(s);
    ResidentCopied(s, junk);
    DuplicateKeeps(s, junk);
    ViewOne(s, Duplicate(s, junk), Eid(At(s).want.child, At(s).want.page));
  }

  lemma ReleaseView(s: State, v: nat, post: Map)
    requires Inv(s) && CanRelease(s, v, post)
    ensures View(Release(s, v, post)) == View(s) - {Eid(At(s).prey, v)}
  {
    hide Inv;
    ReleaseKeeps(s, v, post);
    ViewOne(s, Release(s, v, post), Eid(At(s).prey, v));
  }

  /** The visible steps of a page fault. */
  predicate Loads(l: Label) {
    l.LInstall? || l.LLoad? || l.LLoaded? || l.LFail?
  }

  lemma LoadsKeeps(s: State, l: Label)
    requires Inv(s) && Enabled(s, l) && Loads(l)
    ensures Inv(Next(s, l)) && View(Next(s, l)) == Apply(View(s), EffectOf(s, l))
  {
    hide Inv, View, Install, Load, Loaded, Fail;
    match l {
      case LInstall => InstallKeeps(s); InstallView(s);
      case LLoad => LoadKeeps(s); LoadView(s);
      case LLoaded => LoadedKeeps(s); LoadedView(s);
      case LFail(left) => FailKeeps(s, left); FailView(s, left);
    }
  }

  lemma VisibleKeeps(s: State, l: Label)
    requires Inv(s) && Enabled(s, l) && Visible(l) && !Loads(l)
    ensures Inv(Next(s, l)) && View(Next(s, l)) == Apply(View(s), EffectOf(s, l))
  {
    hide Inv, View, Write, Share, Duplicate, Release;
    match l {
      case LWrite(v, f, c) => WriteKeeps(s, v, f, c); WriteView(s, v, f, c);
      case LShare(v) => ShareKeeps(s, v); ShareView(s, v);
      case LDuplicate(junk) => DuplicateKeeps(s, junk); DuplicateView(s, junk);
      case LRelease(v, post) => ReleaseKeeps(s, v, post); ReleaseView(s, v, post);
    }
  }

  lemma ApplySilent(v: map<Eid, Page>)
    ensures Apply(v, Silent) == v
  {
  }

  /** An effect changes the page it names and no other. */
  lemma ApplyOther(v: map<Eid, Page>, x: Effect, e: Eid)
    requires e in v && (x == Silent || x.e != e)
    ensures e in Apply(v, x) && Apply(v, x)[e] == v[e]
  {
  }

  /** Every step keeps the invariant and does to the flat memory exactly what its effect says. */
  lemma StepTransparent(s: State, l: Label)
    requires Inv(s) && Enabled(s, l)
    ensures Inv(Next(s, l))
    ensures View(Next(s, l)) == Apply(View(s), EffectOf(s, l))
  {
    hide Core, ThreadsOk, SlotsOk, TlbOk, ContentsOk, StatsOk, ForkOk, View, Apply, SameContents, Enabled, Next;
    if Loads(l) {
      LoadsKeeps(s, l);
    } else if Visible(l) {
      VisibleKeeps(s, l);
    } else {
      QuietKeeps(s, l);
      QuietLoads(s, l);
      ViewSame(s, Next(s, l));
      assert EffectOf(s, l) == Silent;
      ApplySilent(View(s));
    }
  }

  // ------------------------------------------------------------------
  // Whole runs

  ghost predicate Run(ss: seq<State>, ls: seq<Label>) {
    && |ss| == |ls| + 1
    && (forall i :: 0 <= i < |ls| ==> Enabled(ss[i], ls[i]) && ss[i + 1] == Next(ss[i], ls[i]))
  }

  /** The boot state: every frame free or the kernel's, no process, an unused swap file. */
  ghost predicate Init(s: State) {
    && ValidMap(s.cm) && |s.mem| == |s.cm|
    && 0 < s.first <= |s.cm| && (forall k :: 0 <= k < s.first ==> s.cm[k].occ)
    && (forall f :: 0 <= f < |s.cm| ==> s.cm[f].owner == None)
    && s.pte == map[] && s.swapLock == None && s.user == {} && s.kernel == {} && s.spoiled == {}
    && |s.refs| == |s.disk| && (forall k :: 0 <= k < |s.refs| ==> s.refs[k] == 0)
    && s.tlb == Tlb.EMPTY && s.rr < Tlb.NUM_TLB
    && s.cur in s.pc && (forall t :: t in s.pc ==> s.pc[t] == Running)
    && s.stats == Stats(0, 0, 0, 0, 0, 0, 0, 0)
  }

  lemma InitHolds(s: State)
    requires Init(s)
    ensures Inv(s)
  {
    forall k | 0 <= k < |s.refs| ensures s.refs[k] == |RefSet(s, k)| {
      assert RefSet(s, k) == {};
    }
    assert Pending(s) == {};
  }

  /** Every state of every run from boot satisfies the invariant. */
  lemma {:induction false} RunInvariant(ss: seq<State>, ls: seq<Label>, i: nat)
    requires Run(ss, ls) && Init(ss[0]) && i < |ss|
    ensures Inv(ss[i])
    decreases i
  {
    hide Inv, Init, View, EffectOf, Enabled, Next, Apply;
    if i == 0 {
      InitHolds(ss[0]);
    } else {
      RunInvariant(ss, ls, i - 1);
      StepTransparent(ss[i - 1], ls[i - 1]);
    }
  }

  /** The flat memory after the effects of the first `i` steps. */
  ghost function Flat(ss: seq<State>, ls: seq<Label>, i: nat): map<Eid, Page>
    requires Run(ss, ls) && i < |ss|
  {
    if i == 0 then View(ss[0]) else Apply(Flat(ss, ls, i - 1), EffectOf(ss[i - 1], ls[i - 1]))
  }

  /** Paging is transparent over whole runs: frames, slots, evictions and switches cannot be observed. */
  lemma {:induction false} RunTransparent(ss: seq<State>, ls: seq<Label>, i: nat)
    requires Run(ss, ls) && Init(ss[0]) && i < |ss|
    ensures View(ss[i]) == Flat(ss, ls, i)
    decreases i
  {
    hide Inv, Init, View, EffectOf, Enabled, Next, Apply;
    if i > 0 {
      RunTransparent(ss, ls, i - 1);
      RunInvariant(ss, ls, i - 1);
      StepTransparent(ss[i - 1], ls[i - 1]);
    }
  }

  /** A page that nobody stores to, copies over or frees keeps its contents, whatever else happens. */
  lemma {:induction false} RunKeepsPage(ss: seq<State>, ls: seq<Label>, e: Eid, i: nat, j: nat)
    requires Run(ss, ls) && Init(ss[0]) && i <= j < |ss| && e in View(ss[i])
    requires forall k :: i <= k < j ==> EffectOf(ss[k], ls[k]) == Silent || EffectOf(ss[k], ls[k]).e != e
    ensures e in View(ss[j]) && View(ss[j])[e] == View(ss[i])[e]
    decreases j
  {
    hide Inv, View, EffectOf, Enabled, Next, Apply;
    if i < j {
      RunKeepsPage(ss, ls, e, i, j - 1);
      RunInvariant(ss, ls, j - 1);
      StepTransparent(ss[j - 1], ls[j - 1]);
      ApplyOther(View(ss[j - 1]), EffectOf(ss[j - 1], ls[j - 1]), e);
    }
  }
}
