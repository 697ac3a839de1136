/**
  Runs told from their labels: who runs, which program a process was started with, what a
  page holds when it is first seen, and how a thread finishes what it has begun.
 */
module PagingHistory {
  import opened Common
  import opened Paging
  import opened PagingInvariant
  import opened PagingRuns
  import opened PagingSteps
  import Tlb

  // ------------------------------------------------------------------
  // Programs

  /** The thread that runs after `i` steps: the last one switched to. */
  ghost function Runner(boot: Tid, ls: seq<Label>, i: nat): Tid
    requires i <= |ls|
  {
    if i == 0 then boot else if ls[i - 1].LSwitch? then ls[i - 1].t else Runner(boot, ls, i - 1)
  }

  /** The program of `t` after `i` steps: the one it was started with, or its parent's when it was forked. */
  ghost function Program(boot: Tid, ls: seq<Label>, i: nat, t: Tid): Option<map<nat, Page>>
    requires i <= |ls|
  {
    if i == 0 then None
    else if ls[i - 1].LSpawn? && ls[i - 1].child == t then Some(ls[i - 1].program)
    else if ls[i - 1].LFork? && ls[i - 1].child == t then Program(boot, ls, i - 1, Runner(boot, ls, i - 1))
    else Program(boot, ls, i - 1, t)
  }

  // ------------------------------------------------------------------
  // The page being loaded is a page of the program

  ghost predicate LoadsKnown(s: State) {
    forall t :: t in s.pc && IsLoading(s.pc[t]) ==> t in s.image && s.pc[t].vpn in s.image[t]
  }

  lemma BeginsKnown(s: State, l: Label, s': State)
    requires LoadsKnown(s) && Begins(s, l, s') && Carried(s, l, s')
    ensures LoadsKnown(s')
  {
  }

  lemma MovesKnown(s: State, s': State)
    requires LoadsKnown(s) && Moves(s, s') && s'.image == s.image && LoadsOk(s, s'.pc[s.cur])
    ensures LoadsKnown(s')
  {
  }

  lemma KnownStep(s: State, l: Label)
    requires Enabled(s, l) && ThreadsOk(s) && LoadsKnown(s)
    ensures LoadsKnown(Next(s, l))
  {
    hide Enabled, Next, ThreadsOk, Ahead, Begins, Advances, DutyOf;
    StepCarries(s, l);
    if Starts(l) {
      BeginsKnown(s, l, Next(s, l));
    } else {
      if Loads(l) {
        LoadsAhead(s, l);
      } else if Visible(l) {
        OtherAhead(s, l);
      } else {
        QuietStays(s, l);
      }
      MovesKnown(s, Next(s, l));
    }
  }

  // ------------------------------------------------------------------
  // Over whole runs

  /** The state knows who runs and the programs of its processes as the labels tell them. */
  ghost predicate Told(boot: Tid, ls: seq<Label>, i: nat, s: State)
    requires i <= |ls|
  {
    && s.cur == Runner(boot, ls, i)
    && (forall t :: t in s.user ==> t in s.image && Program(boot, ls, i, t) == Some(s.image[t]))
  }

  lemma ToldStep(boot: Tid, ls: seq<Label>, i: nat, s: State, s': State)
    requires i < |ls| && Told(boot, ls, i, s) && Carried(s, ls[i], s')
    ensures Told(boot, ls, i + 1, s')
  {
  }

  lemma {:induction false} RunTold(ss: seq<State>, ls: seq<Label>, i: nat)
    requires Run(ss, ls) && Init(ss[0]) && i < |ss|
    ensures Told(ss[0].cur, ls, i, ss[i]) && LoadsKnown(ss[i])
  {
    hide Inv, Enabled, Next, Carried, Told, LoadsKnown, Begins, Moves, Ahead;
    if i == 0 {
      RunStarts(ss[0], ls);
    } else {
      RunTold(ss, ls, i - 1);
      RunInvariant(ss, ls, i - 1);
      InvThreads(ss[i - 1]);
      hide Init;
      StepCarries(ss[i - 1], ls[i - 1]);
      ToldStep(ss[0].cur, ls, i - 1, ss[i - 1], ss[i]);
      KnownStep(ss[i - 1], ls[i - 1]);
    }
  }

  lemma RunStarts(s: State, ls: seq<Label>)
    requires Init(s)
    ensures Told(s.cur, ls, 0, s) && LoadsKnown(s)
  {
  }

  lemma InvThreads(s: State)
    requires Inv(s)
    ensures ThreadsOk(s)
  {
  }

  /** The page a step of a fault is about, seen by its owner. */
  lemma TouchedPage(s: State)
    requires Inv(s) && (CanLoaded(s) || CanInstall(s))
    ensures s.cur in s.user
  {
    hide Core, SlotsOk, TlbOk, ContentsOk, StatsOk, ForkOk;
    assert PcOk(s, s.cur);
  }

  lemma LoadedShows(s: State)
    requires Inv(s) && CanLoaded(s) && s.cur in s.image && At(s).vpn in s.image[s.cur]
    ensures var e := Eid(s.cur, At(s).vpn); e in View(Loaded(s)) && View(Loaded(s))[e] == s.image[s.cur][e.vpn]
  {
    hide Inv, View, Loaded;
    LoadedView(s);
  }

  /**
    Over every run: when the page of a fault has been loaded, its owner sees there what the
    program it was started with has at that page.
   */
  lemma LoadedIsProgram(ss: seq<State>, ls: seq<Label>, i: nat)
    requires Run(ss, ls) && Init(ss[0]) && i < |ls| && ls[i] == LLoaded
    ensures CanLoaded(ss[i])
    ensures var t, v := Runner(ss[0].cur, ls, i), At(ss[i]).vpn;
      var program := Program(ss[0].cur, ls, i, t);
      && program.Some? && v in program.value
      && Eid(t, v) in View(ss[i + 1]) && View(ss[i + 1])[Eid(t, v)] == program.value[v]
  {
    hide Init, Inv, Program, Runner, View, Loaded, Initial;
    RunInvariant(ss, ls, i);
    RunTold(ss, ls, i);
    TouchedPage(ss[i]);
    LoadedShows(ss[i]);
  }

  /**
    Over every run: the first touch of a page outside the program shows zeros at once; a
    page of the program is not seen before it is loaded.
   */
  lemma TouchedIsZero(ss: seq<State>, ls: seq<Label>, i: nat)
    requires Run(ss, ls) && Init(ss[0]) && i < |ls| && ls[i] == LInstall
    ensures CanInstall(ss[i])
    ensures var t, v := Runner(ss[0].cur, ls, i), At(ss[i]).want.page;
      var program := Program(ss[0].cur, ls, i, t);
      && program.Some? && Eid(t, v) !in View(ss[i])
      && if v in program.value then View(ss[i + 1]) == View(ss[i])
         else View(ss[i + 1]) == View(ss[i])[Eid(t, v) := ZERO_PAGE]
  {
    hide Init, Inv, Program, Runner, View, Install;
    RunInvariant(ss, ls, i);
    RunTold(ss, ls, i);
    TouchedPage(ss[i]);
    InstallShows(ss[i]);
  }

  lemma InstallShows(s: State)
    requires Inv(s) && CanInstall(s) && s.cur in s.image
    ensures var e := Eid(s.cur, At(s).want.page);
      && e !in View(s)
      && View(Install(s)) == if e.vpn in s.image[s.cur] then View(s) else View(s)[e := ZERO_PAGE]
  {
    hide Core, SlotsOk, TlbOk, ContentsOk, StatsOk, ForkOk, Install, Content, InLoad;
    assert PcOk(s, s.cur);
    InstallView(s);
  }

  // ------------------------------------------------------------------
  // A duty is finished as it was begun

  lemma FillMaps(s: State, unpin: bool)
    requires Inv(s) && CanFill(s)
    ensures var e, f, s' := Eid(s.cur, At(s).vpn), At(s).frame, Fill(s, unpin);
      Tlb.Maps(s'.tlb, e.vpn, f) && e in s'.pte && s'.pte[e] == Pte(f, false, false)
  {
    hide Core, SlotsOk, TlbOk, ContentsOk, StatsOk, ForkOk;
    assert PcOk(s, s.cur);
  }

  /** The thread is back from its fault: the TLB maps the page to the frame its page table names. */
  ghost predicate BackFrom(s: State, t: Tid, v: nat) {
    && s.cur == t && t in s.pc && s.pc[t] == Running
    && Eid(t, v) in s.pte && !s.pte[Eid(t, v)].swp && Tlb.Maps(s.tlb, v, s.pte[Eid(t, v)].frame)
  }

  /** The step by which `t` finishes its duty. */
  ghost predicate Done(s: State, l: Label, s': State, t: Tid, duty: Duty) {
    match duty
    case Serve(v) => BackFrom(s', t, v) || (t in s'.pc && s'.pc[t] == Exited)
    case CopyTo(c) => l == LForked && s.cur == t && t in s.pc && s.pc[t] == Forking(c)
    case End(prey) => l == LDestroyed && forall e :: e in s'.pte ==> e.pt != prey
  }

  lemma FillBack(s: State, unpin: bool)
    requires Inv(s) && CanFill(s)
    ensures BackFrom(Fill(s, unpin), s.cur, At(s).vpn)
  {
    FillMaps(s, unpin);
    hide Inv, Tlb.Maps, Tlb.Fill, Tlb.FillsFree, Tlb.FirstStop;
  }

  lemma FillDone(s: State, unpin: bool)
    requires Inv(s) && Enabled(s, LFill(unpin))
    ensures s.cur in s.pc && At(s).Mapping?
    ensures s.cur in Next(s, LFill(unpin)).pc
    ensures Done(s, LFill(unpin), Next(s, LFill(unpin)), s.cur, Serve(At(s).vpn))
  {
    hide Inv, Fill, Tlb.Maps;
    FillBack(s, unpin);
  }

  lemma DestroyedDone(s: State)
    requires Enabled(s, LDestroyed)
    ensures s.cur in s.pc && At(s).Destroying?
    ensures s.cur in Next(s, LDestroyed).pc
    ensures Done(s, LDestroyed, Next(s, LDestroyed), s.cur, End(At(s).prey))
  {
  }

  lemma ForkedDone(s: State)
    requires Enabled(s, LForked)
    ensures s.cur in s.pc && At(s).Forking?
    ensures s.cur in Next(s, LForked).pc
    ensures Done(s, LForked, Next(s, LForked), s.cur, CopyTo(At(s).offspring))
  {
  }

  /** Still at it, or just done. */
  ghost predicate Pursues(s: State, l: Label, s': State, t: Tid, duty: Duty) {
    t in s'.pc && (DutyOf(s'.pc[t]) == Some(duty) || Done(s, l, s', t, duty))
  }

  lemma MovesPursue(s: State, l: Label, s': State, t: Tid, duty: Duty)
    requires t in s.pc && DutyOf(s.pc[t]) == Some(duty) && Moves(s, s') && Ahead(s, l, s')
    requires t != s.cur || (!l.LFill? && !l.LDestroyed?)
    ensures Pursues(s, l, s', t, duty)
  {
    hide BackFrom;
  }

  lemma BeginsPursue(s: State, l: Label, s': State, t: Tid, duty: Duty)
    requires t in s.pc && DutyOf(s.pc[t]) == Some(duty) && Begins(s, l, s') && (t != s.cur || !l.LForked?)
    ensures Pursues(s, l, s', t, duty)
  {
    hide BackFrom;
  }

  lemma FinishPursues(s: State, l: Label, duty: Duty)
    requires Inv(s) && Enabled(s, l) && s.cur in s.pc && DutyOf(s.pc[s.cur]) == Some(duty)
    requires l.LFill? || l.LDestroyed? || l.LForked?
    ensures s.cur in Next(s, l).pc && Done(s, l, Next(s, l), s.cur, duty)
  {
    hide Inv, Enabled, Next, Done;
    if l.LFill? {
      FillDone(s, l.unpin);
    } else if l.LDestroyed? {
      DestroyedDone(s);
    } else {
      ForkedDone(s);
    }
  }

  lemma DutyStep(s: State, l: Label, t: Tid, duty: Duty)
    requires Inv(s) && Enabled(s, l) && t in s.pc && DutyOf(s.pc[t]) == Some(duty)
    ensures Pursues(s, l, Next(s, l), t, duty)
  {
    hide Inv, Enabled, Next, Moves, Ahead, Begins, Carried, ThreadsOk, Done;
    if t == s.cur && (l.LFill? || l.LDestroyed? || l.LForked?) {
      FinishPursues(s, l, duty);
    } else {
      hide Pursues;
      InvThreads(s);
      StepCarries(s, l);
      if Starts(l) {
        BeginsPursue(s, l, Next(s, l), t, duty);
      } else {
        MovesPursue(s, l, Next(s, l), t, duty);
      }
    }
  }

  /** The step that gives the running thread a duty. */
  function Begun(l: Label): Option<Duty> {
    match l
    case LFault(v) => Some(Serve(v))
    case LFork(c) => Some(CopyTo(c))
    case LDestroy(prey) => Some(End(prey))
    case _ => None
  }

  lemma BegunDuty(s: State, l: Label)
    requires Enabled(s, l) && Begun(l).Some?
    ensures s.cur in Next(s, l).pc && DutyOf(Next(s, l).pc[s.cur]) == Begun(l)
  {
    hide Tlb.Hit;
    match l {
      case LFault(v) =>
      case LFork(c) =>
      case LDestroy(prey) =>
    }
  }

  /**
    Over every run: a thread that begins a duty keeps at it until it is done. A fault is done
    when the TLB maps the page that faulted to the frame the page table names, or the process is
    ended; the copy of a fork, and the end of a process, when nothing of them is left to do.
   */
  lemma {:induction false} DutyFinished(ss: seq<State>, ls: seq<Label>, i: nat, j: nat)
    requires Run(ss, ls) && Init(ss[0]) && i < j < |ss| && Begun(ls[i]).Some?
    requires forall k :: i + 1 < k < j ==> !Done(ss[k - 1], ls[k - 1], ss[k], ss[i].cur, Begun(ls[i]).value)
    ensures var t, duty := ss[i].cur, Begun(ls[i]).value;
      if j == i + 1 then t in ss[j].pc && DutyOf(ss[j].pc[t]) == Some(duty)
      else Pursues(ss[j - 1], ls[j - 1], ss[j], t, duty)
    decreases j
  {
    hide Init, Inv, DutyOf, Enabled, Next, Done;
    var t, duty := ss[i].cur, Begun(ls[i]).value;
    hide Begun;
    if j == i + 1 {
      BegunDuty(ss[i], ls[i]);
    } else {
      DutyFinished(ss, ls, i, j - 1);
      assert DutyOf(ss[j - 1].pc[t]) == Some(duty);
      RunInvariant(ss, ls, j - 1);
      DutyStep(ss[j - 1], ls[j - 1], t, duty);
    }
  }
}
