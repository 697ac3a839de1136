/** What one step does to the running thread, to the programs and to what each thread is at. */
module PagingSteps {
  import opened Common
  import opened Coremap
  import opened Paging
  import opened PagingInvariant
  import opened PagingRuns
  import Tlb

  predicate IsLoading(pc: Pc) {
    pc.Loading? || pc.LoadMapping?
  }

  /** What a step does to the running thread, the programs and the processes. */
  ghost predicate Carried(s: State, l: Label, s': State) {
    && s'.cur == (if l.LSwitch? then l.t else s.cur)
    && if l.LSpawn? then
         l.child !in s.pc && s'.image == s.image[l.child := l.program] && s'.user == s.user + {l.child}
       else if l.LFork? then
         && l.child !in s.pc && s.cur in s.image && s.cur in s.user
         && s'.image == s.image[l.child := s.image[s.cur]] && s'.user == s.user + {l.child}
       else s'.image == s.image && s'.user <= s.user
  }

  /** What a thread is at: the fault on a page, the copy of its pages to a child, or the end of a process. */
  datatype Duty = Serve(vpn: nat) | CopyTo(child: Tid) | End(prey: Tid)

  function DutyOf(pc: Pc): Option<Duty> {
    match pc
    case Faulting(v) => Some(Serve(v))
    case Reading(v, _, _) => Some(Serve(v))
    case Fetched(v, _) => Some(Serve(v))
    case Loading(v, _, _) => Some(Serve(v))
    case LoadMapping(v, _) => Some(Serve(v))
    case Mapping(v, _) => Some(Serve(v))
    case Seeking(w) => For(w)
    case Claimed(w, _) => For(w)
    case Writing(w, _, _) => For(w)
    case Written(w, _, _) => For(w)
    case Dropping(w, _, _) => For(w)
    case Zeroing(w, _) => For(w)
    case Granted(w, _) => For(w)
    case Forking(c) => Some(CopyTo(c))
    case Destroying(prey) => Some(End(prey))
    case _ => None
  }

  /** The duty a frame is wanted for. */
  function For(want: Want): Option<Duty> {
    match want
    case Fresh(v) => Some(Serve(v))
    case SwapIn(v) => Some(Serve(v))
    case Copy(c, _) => Some(CopyTo(c))
    case Kernel(ToFault(v)) => Some(Serve(v))
    case Kernel(ToFork(c)) => Some(CopyTo(c))
    case Kernel(ToRunning) => None
  }

  /** The step at which a thread is done with its duty, apart from the end of a copy. */
  predicate Finishes(l: Label, p: Pc, p': Pc) {
    p' == Running && ((l.LFill? && p.Mapping?) || (l.LDestroyed? && p.Destroying?))
  }

  /** A thread goes on with its duty, finishes it, or is ended in a fault. */
  predicate Advances(l: Label, p: Pc, p': Pc) {
    DutyOf(p).Some? ==> DutyOf(p') == DutyOf(p) || Finishes(l, p, p') || (p' == Exited && DutyOf(p).value.Serve?)
  }

  /** Only the running thread moves. */
  ghost predicate Moves(s: State, s': State) {
    s.cur in s.pc && s.cur in s'.pc && s'.pc == s.pc[s.cur := s'.pc[s.cur]]
  }

  /** The running thread goes on. */
  ghost predicate Ahead(s: State, l: Label, s': State) {
    s.cur in s.pc && s.cur in s'.pc && Advances(l, s.pc[s.cur], s'.pc[s.cur])
  }

  lemma EvictingMoves(s: State, l: Label)
    requires Enabled(s, l) && Evicting(l)
    ensures Carried(s, l, Next(s, l)) && Moves(s, Next(s, l))
  {
    hide Taken, Fits, Eligible, Tlb.InvalidateFirst;
    match l {
      case LGrab(page, post) =>
      case LClaim(f) =>
      case LReserve(k) =>
      case LStore =>
      case LCommit =>
      case LDrop =>
    }
  }

  lemma GrabAhead(s: State, page: nat, post: Map)
    requires CanGrab(s, page, post)
    ensures Ahead(s, LGrab(page, post), Grab(s, page, post))
  {
    hide Taken, Fits;
  }

  lemma ClaimAhead(s: State, f: nat)
    requires CanClaim(s, f)
    ensures Ahead(s, LClaim(f), Claim(s, f))
  {
    hide Fits;
  }

  lemma ReserveAhead(s: State, k: nat)
    requires CanReserve(s, k)
    ensures Ahead(s, LReserve(k), Reserve(s, k))
  {
  }

  lemma StoreAhead(s: State)
    requires CanStore(s)
    ensures Ahead(s, LStore, Paging.Store(s))
  {
  }

  lemma CommitAhead(s: State)
    requires CanCommit(s)
    ensures Ahead(s, LCommit, Commit(s))
  {
    hide Tlb.InvalidateFirst;
  }

  lemma DropAhead(s: State)
    requires CanDrop(s)
    ensures Ahead(s, LDrop, Drop(s))
  {
  }

  lemma EvictingAhead(s: State, l: Label)
    requires Enabled(s, l) && Evicting(l)
    ensures Ahead(s, l, Next(s, l))
  {
    hide Ahead, Grab, Claim, Reserve, Paging.Store, Commit, Drop, Taken, Fits, Eligible;
    match l {
      case LGrab(page, post) => GrabAhead(s, page, post);
      case LClaim(f) => ClaimAhead(s, f);
      case LReserve(k) => ReserveAhead(s, k);
      case LStore => StoreAhead(s);
      case LCommit => CommitAhead(s);
      case LDrop => DropAhead(s);
    }
  }

  lemma FetchingMoves(s: State, l: Label)
    requires Enabled(s, l) && Fetching(l)
    ensures Carried(s, l, Next(s, l)) && Moves(s, Next(s, l))
  {
  }

  lemma ZeroAhead(s: State)
    requires CanZero(s)
    ensures Ahead(s, LZero, Zero(s))
  {
  }

  lemma FetchAhead(s: State)
    requires CanFetch(s)
    ensures Ahead(s, LFetch, Fetch(s))
  {
  }

  lemma ArriveAhead(s: State)
    requires CanArrive(s)
    ensures Ahead(s, LArrive, Arrive(s))
  {
  }

  lemma ReviveAhead(s: State)
    requires CanRevive(s)
    ensures Ahead(s, LRevive, Revive(s))
  {
  }

  lemma HandOverAhead(s: State)
    requires CanHandOver(s)
    ensures Ahead(s, LHandOver, HandOver(s))
  {
  }

  lemma FetchingAhead(s: State, l: Label)
    requires Enabled(s, l) && Fetching(l)
    ensures Ahead(s, l, Next(s, l))
  {
    hide Ahead, Zero, Fetch, Arrive, Revive, HandOver;
    match l {
      case LZero => ZeroAhead(s);
      case LFetch => FetchAhead(s);
      case LArrive => ArriveAhead(s);
      case LRevive => ReviveAhead(s);
      case LHandOver => HandOverAhead(s);
    }
  }

  lemma FaultMoves(s: State, l: Label)
    requires Enabled(s, l) && InFault(l)
    ensures Carried(s, l, Next(s, l)) && Moves(s, Next(s, l))
  {
    hide Tlb.Fill, Tlb.FillsFree, Tlb.FirstStop, Tlb.Hit;
    match l {
      case LFault(v) =>
      case LLookup =>
      case LNestedFault =>
      case LNestedFill =>
      case LFill(unpin) =>
    }
  }

  lemma FaultedAhead(s: State, v: nat)
    requires CanFault(s, v)
    ensures Ahead(s, LFault(v), Fault(s, v))
  {
    hide Tlb.Hit;
  }

  lemma LookupAhead(s: State)
    requires CanLookup(s)
    ensures Ahead(s, LLookup, Lookup(s))
  {
  }

  lemma NestedFaultAhead(s: State)
    requires CanNestedFault(s)
    ensures Ahead(s, LNestedFault, NestedFault(s))
  {
    hide Tlb.Hit;
  }

  lemma NestedFillAhead(s: State)
    requires CanNestedFill(s)
    ensures Ahead(s, LNestedFill, NestedFill(s))
  {
    hide Tlb.Fill, Tlb.FillsFree, Tlb.FirstStop;
  }

  lemma FilledAhead(s: State, unpin: bool)
    requires CanFill(s)
    ensures Ahead(s, LFill(unpin), Fill(s, unpin))
  {
    hide Tlb.Fill, Tlb.FillsFree, Tlb.FirstStop;
  }

  lemma FaultAhead(s: State, l: Label)
    requires Enabled(s, l) && InFault(l)
    ensures Ahead(s, l, Next(s, l))
  {
    hide Ahead, Fault, Lookup, NestedFault, NestedFill, Fill, Tlb.Hit;
    match l {
      case LFault(v) => FaultedAhead(s, v);
      case LLookup => LookupAhead(s);
      case LNestedFault => NestedFaultAhead(s);
      case LNestedFill => NestedFillAhead(s);
      case LFill(unpin) => FilledAhead(s, unpin);
    }
  }

  lemma LoadsMove(s: State, l: Label)
    requires Enabled(s, l) && Loads(l)
    ensures Carried(s, l, Next(s, l)) && Moves(s, Next(s, l))
  {
    hide Initial, Tlb.Maps;
    match l {
      case LInstall =>
      case LLoad =>
      case LLoaded =>
      case LFail(left) =>
    }
  }

  /** A thread at `p` loads a page of the running process's program, if any. */
  predicate LoadsOk(s: State, p: Pc) {
    IsLoading(p) ==> s.cur in s.image && p.vpn in s.image[s.cur]
  }

  /** The running thread goes on, and the page it loads is still one of its program. */
  ghost predicate LoadsOn(s: State, l: Label, s': State) {
    Ahead(s, l, s') && (LoadsOk(s, s.pc[s.cur]) ==> LoadsOk(s, s'.pc[s.cur]))
  }

  lemma InstallLoads(s: State)
    requires CanInstall(s)
    ensures LoadsOn(s, LInstall, Install(s))
  {
  }

  lemma LoadLoads(s: State)
    requires CanLoad(s)
    ensures LoadsOn(s, LLoad, Load(s))
  {
    hide Initial, Tlb.Maps;
  }

  lemma LoadedLoads(s: State)
    requires CanLoaded(s)
    ensures LoadsOn(s, LLoaded, Loaded(s))
  {
    hide Initial;
  }

  lemma FailLoads(s: State, left: Page)
    requires CanFail(s)
    ensures LoadsOn(s, LFail(left), Fail(s, left))
  {
  }

  lemma LoadsAhead(s: State, l: Label)
    requires Enabled(s, l) && Loads(l)
    ensures LoadsOn(s, l, Next(s, l))
  {
    hide LoadsOn, Install, Load, Loaded, Fail, Initial, Tlb.Maps;
    match l {
      case LInstall => InstallLoads(s);
      case LLoad => LoadLoads(s);
      case LLoaded => LoadedLoads(s);
      case LFail(left) => FailLoads(s, left);
    }
  }

  /** The steps that move another thread or start one. */
  predicate Starts(l: Label) {
    l.LSwitch? || l.LSpawn? || l.LFork? || l.LForked?
  }

  lemma OtherMoves(s: State, l: Label)
    requires Enabled(s, l) && !Evicting(l) && !Fetching(l) && !InFault(l) && !Loads(l) && !Starts(l)
    ensures Carried(s, l, Next(s, l)) && Moves(s, Next(s, l))
  {
    hide Taken, Freed, Fits, Tlb.Maps;
  }

  lemma OtherAhead(s: State, l: Label)
    requires Enabled(s, l) && !Evicting(l) && !Fetching(l) && !InFault(l) && !Loads(l) && !Starts(l)
    ensures Ahead(s, l, Next(s, l)) && (Visible(l) ==> !IsLoading(Next(s, l).pc[s.cur]))
  {
    hide Taken, Freed, Fits, Tlb.Maps;
  }

  /** The threads moved load nothing, and have no duty except the one whose copy ends. */
  ghost predicate Begins(s: State, l: Label, s': State) {
    && s.pc.Keys <= s'.pc.Keys
    && (forall t :: t in s'.pc ==> (t in s.pc && s'.pc[t] == s.pc[t]) || !IsLoading(s'.pc[t]))
    && (forall t :: t in s.pc && DutyOf(s.pc[t]).Some? ==> s'.pc[t] == s.pc[t] || (l.LForked? && t == s.cur))
  }

  lemma ForkedBegins(s: State)
    requires CanForked(s) && ThreadsOk(s)
    ensures Carried(s, LForked, Forked(s)) && Begins(s, LForked, Forked(s))
  {
    assert PcOk(s, s.cur);
    hide ThreadsOk;
  }

  lemma NewBegins(s: State, l: Label)
    requires Enabled(s, l) && (l.LSwitch? || l.LSpawn? || l.LFork?)
    ensures Carried(s, l, Next(s, l)) && Begins(s, l, Next(s, l))
  {
    match l {
      case LSwitch(t) =>
      case LSpawn(c, program) =>
      case LFork(c) =>
    }
  }

  lemma StepCarries(s: State, l: Label)
    requires Enabled(s, l) && ThreadsOk(s)
    ensures Carried(s, l, Next(s, l))
    ensures if Starts(l) then Begins(s, l, Next(s, l)) else Moves(s, Next(s, l)) && Ahead(s, l, Next(s, l))
  {
    hide Carried, Moves, Ahead, Begins, ThreadsOk, Taken, Freed, Fits;
    if l.LForked? {
      ForkedBegins(s);
    } else {
      hide Enabled, Next;
      if Starts(l) {
        NewBegins(s, l);
      } else if Evicting(l) {
        EvictingMoves(s, l);
        EvictingAhead(s, l);
      } else if Fetching(l) {
        FetchingMoves(s, l);
        FetchingAhead(s, l);
      } else if InFault(l) {
        FaultMoves(s, l);
        FaultAhead(s, l);
      } else if Loads(l) {
        LoadsMove(s, l);
        LoadsAhead(s, l);
      } else {
        OtherMoves(s, l);
        OtherAhead(s, l);
      }
    }
  }
}
