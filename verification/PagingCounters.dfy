/** What the counters of kern/vm/vm_stats.c count. */
module PagingCounters {
  import opened Coremap
  import opened Paging
  import opened PagingRuns
  import Tlb

  datatype Counter = Faults | Free | Replace | Reloads | Zeroed | FromDisk | FromElf | FromSwap

  function Reading(n: Stats, c: Counter): nat {
    match c
    case Faults => n.faults
    case Free => n.free
    case Replace => n.replace
    case Reloads => n.reloads
    case Zeroed => n.zeroed
    case FromDisk => n.disk
    case FromElf => n.elf
    case FromSwap => n.swap
  }

  /** The step writes a translation, in vm_fault itself or in the fault taken while loading. */
  predicate Fills(l: Label) {
    l.LFill? || l.LNestedFill?
  }

  /** A slot that was empty is in use. */
  ghost predicate SlotUsed(t: Tlb.Tlb, t': Tlb.Tlb) {
    exists k :: 0 <= k < |t| && k < |t'| && t[k].Invalid? && t'[k].Entry?
  }

  predicate Maps(s: State) {
    s.cur in s.pc && s.pc[s.cur].Mapping?
  }

  /** The event a counter counts. */
  ghost predicate Happens(s: State, l: Label, s': State, c: Counter) {
    match c
    case Faults => Fills(l)
    case Free => Fills(l) && SlotUsed(s.tlb, s'.tlb)
    case Replace => Fills(l) && !SlotUsed(s.tlb, s'.tlb)
    case Reloads => l.LNestedFault? || (l.LLookup? && Maps(s'))
    case Zeroed => l.LInstall? && Maps(s')
    case FromDisk => l.LLoaded? || l.LRevive?
    case FromElf => l.LLoaded?
    case FromSwap => l.LRevive?
  }

  /** A fill counts as one into a free slot exactly when an empty slot comes into use. */
  lemma FreeSlotUsed(t: Tlb.Tlb, vpn: nat, frame: nat, rr: nat)
    requires rr < |t|
    ensures Tlb.FillsFree(t, vpn, frame) <==> SlotUsed(t, Tlb.Fill(t, vpn, frame, rr))
  {
    var k := Tlb.FirstStop(t, vpn, frame, 0);
    if Tlb.FillsFree(t, vpn, frame) {
      assert t[k].Invalid? && Tlb.Fill(t, vpn, frame, rr)[k].Entry?;
    } else {
      forall j | 0 <= j < |t| && t[j].Invalid? ensures Tlb.Fill(t, vpn, frame, rr)[j].Invalid? {
        assert Tlb.Stops(t[j], vpn, frame);
      }
    }
  }

  /** The steps at which something is counted. */
  predicate Counted(l: Label) {
    Fills(l) || l.LNestedFault? || l.LLookup? || l.LInstall? || l.LLoaded? || l.LRevive?
  }

  lemma UncountedSteps(s: State, l: Label)
    requires Enabled(s, l) && !Counted(l)
    ensures Next(s, l).stats == s.stats
  {
    hide Taken, Freed, Fits, Eligible, HasSpace, Initial, Tlb.InvalidateFirst, Tlb.Hit, Tlb.Maps;
  }

  lemma FillsCounted(s: State, l: Label, c: Counter)
    requires Enabled(s, l) && Fills(l)
    ensures Adds(s, l, Next(s, l), c)
  {
    FreeSlotUsed(s.tlb, At(s).vpn, At(s).frame, s.rr);
    hide SlotUsed, Tlb.FillsFree, Tlb.Fill, Tlb.FirstStop;
  }

  /** The counter goes up by one if its event happens, and stays if not. */
  ghost predicate Adds(s: State, l: Label, s': State, c: Counter) {
    Reading(s'.stats, c) == Reading(s.stats, c) + if Happens(s, l, s', c) then 1 else 0
  }

  lemma NestedCounted(s: State, c: Counter)
    requires CanNestedFault(s)
    ensures Adds(s, LNestedFault, NestedFault(s), c)
  {
    hide Tlb.Hit, SlotUsed;
  }

  lemma LookupCounted(s: State, c: Counter)
    requires CanLookup(s)
    ensures Adds(s, LLookup, Lookup(s), c)
  {
    hide SlotUsed;
  }

  lemma InstallCounted(s: State, c: Counter)
    requires CanInstall(s)
    ensures Adds(s, LInstall, Install(s), c)
  {
    hide SlotUsed;
  }

  lemma LoadedCounted(s: State, c: Counter)
    requires CanLoaded(s)
    ensures Adds(s, LLoaded, Loaded(s), c)
  {
    hide Initial, SlotUsed;
  }

  lemma ReviveCounted(s: State, c: Counter)
    requires CanRevive(s)
    ensures Adds(s, LRevive, Revive(s), c)
  {
    hide SlotUsed;
  }

  lemma OthersCounted(s: State, l: Label, c: Counter)
    requires Enabled(s, l) && Counted(l) && !Fills(l)
    ensures Adds(s, l, Next(s, l), c)
  {
    hide Initial, Tlb.Hit, Adds, NestedFault, Lookup, Install, Loaded, Revive;
    match l {
      case LNestedFault => NestedCounted(s, c);
      case LLookup => LookupCounted(s, c);
      case LInstall => InstallCounted(s, c);
      case LLoaded => LoadedCounted(s, c);
      case LRevive => ReviveCounted(s, c);
    }
  }

  lemma StepCounted(s: State, l: Label, c: Counter)
    requires Enabled(s, l)
    ensures Adds(s, l, Next(s, l), c)
  {
    hide Enabled, Next, SlotUsed;
    if Fills(l) {
      hide Adds;
      FillsCounted(s, l, c);
    } else if Counted(l) {
      hide Adds;
      OthersCounted(s, l, c);
    } else {
      UncountedSteps(s, l);
    }
  }

  /** How often the event has happened in the first `i` steps. */
  ghost function Count(ss: seq<State>, ls: seq<Label>, i: nat, c: Counter): nat
    requires i < |ss| == |ls| + 1
  {
    if i == 0 then 0 else
      Count(ss, ls, i - 1, c) + if Happens(ss[i - 1], ls[i - 1], ss[i], c) then 1 else 0
  }

  /** Over every run each counter is the number of its events. */
  lemma {:induction false} CountersCount(ss: seq<State>, ls: seq<Label>, i: nat, c: Counter)
    requires Run(ss, ls) && Init(ss[0]) && i < |ss|
    ensures Reading(ss[i].stats, c) == Count(ss, ls, i, c)
  {
    hide Enabled, Next;
    if i > 0 {
      CountersCount(ss, ls, i - 1, c);
      hide Init, Happens, Reading;
      StepCounted(ss[i - 1], ls[i - 1], c);
    }
  }
}
