/** The objects of a run told from its labels: units, owners, and who comes back from cv_wait with what. */
module SynchHistory {
  import opened Common
  import opened Synch
  import opened SynchRuns

  // ------------------------------------------------------------------
  // Semaphores

  /** The calls of V on `x` in the first `i` steps. */
  function Vs(labs: seq<Label>, i: nat, x: Sid): nat
    requires i <= |labs|
  {
    if i == 0 then 0 else Vs(labs, i - 1, x) + if labs[i - 1] == V(x) then 1 else 0
  }

  /** The step is a P on `x` after which the thread runs. */
  predicate Passes(lab: Label, s': State, x: Sid) {
    lab.P? && lab.x == x && Is(s', lab.t, Running)
  }

  /** The calls of P on `x` that returned in the first `i` steps. */
  ghost function Ps(ss: seq<State>, labs: seq<Label>, i: nat, x: Sid): nat
    requires |ss| == |labs| + 1 && i <= |labs|
  {
    if i == 0 then 0 else Ps(ss, labs, i - 1, x) + if Passes(labs[i - 1], ss[i], x) then 1 else 0
  }

  lemma UnitsStep(s: State, lab: Label, x: Sid)
    requires Inv(s) && Enabled(s, lab) && x in s.sems
    ensures x in Next(s, lab).sems
    ensures var m, m' := s.sems[x], Next(s, lab).sems[x];
      && m'.initial == m.initial
      && m'.vs == m.vs + (if lab == V(x) then 1 else 0)
      && m'.ps == m.ps + (if Passes(lab, Next(s, lab), x) then 1 else 0)
    ensures lab.P? && lab.x == x ==> (Passes(lab, Next(s, lab), x) <==> s.sems[x].count > 0)
  {
    hide OnChannels, SpinOk, OwnersOk, SemOk, LockOk;
    WakeKeeps(s, lab);
    hide Wake, Domains;
  }

  lemma {:induction false} UnitsTold(ss: seq<State>, labs: seq<Label>, i: nat, x: Sid)
    requires Run(ss, labs) && i < |ss| && x in ss[0].sems
    ensures x in ss[i].sems
    ensures ss[i].sems[x].initial == ss[0].sems[x].count
    ensures ss[i].sems[x].vs == Vs(labs, i, x) && ss[i].sems[x].ps == Ps(ss, labs, i, x)
  {
    hide OnChannels, Domains, SpinOk, OwnersOk, SemOk, LockOk, Next, Enabled, Steps, Passes;
    if i > 0 {
      UnitsTold(ss, labs, i - 1, x);
      RunStep(ss, labs, i - 1);
      UnitsStep(ss[i - 1], labs[i - 1], x);
    }
  }

  /**
    Over every run: the count is what the semaphore was created with, plus the calls of
    V, less the calls of P that returned; a P returns exactly when that is not 0; and
    while threads sleep the units left are no more than the threads woken to take them.
   */
  lemma SemaphoreLaw(ss: seq<State>, labs: seq<Label>, i: nat, x: Sid)
    requires Run(ss, labs) && i < |ss| && x in ss[0].sems
    ensures x in ss[i].sems && SemChan(x) in ss[i].chans
    ensures ss[i].sems[x].count + Ps(ss, labs, i, x) == ss[0].sems[x].count + Vs(labs, i, x)
    ensures i < |labs| && labs[i].P? && labs[i].x == x ==>
      (Is(ss[i + 1], labs[i].t, Running) <==> Ps(ss, labs, i, x) < ss[0].sems[x].count + Vs(labs, i, x))
    ensures ss[i].chans[SemChan(x)] != [] ==> ss[i].sems[x].count <= |WokenSet(ss[i], SemChan(x))|
  {
    UnitsTold(ss, labs, i, x);
    RunInv(ss, labs, i);
    assert SemOk(ss[i], x);
    hide OnChannels, Domains, SpinOk, OwnersOk, LockOk, Next, Enabled, Steps, Run;
    if i < |labs| {
      RunStep(ss, labs, i);
      UnitsStep(ss[i], labs[i], x);
    }
  }

  // ------------------------------------------------------------------
  // Locks

  /** The owner of `l` after `i` steps: the last thread that came back from lock_acquire, unless it gave the lock up. */
  ghost function OwnerOf(ss: seq<State>, labs: seq<Label>, i: nat, l: Lid): Option<Tid>
    requires |ss| == |labs| + 1 && i <= |labs|
  {
    if i == 0 then None
    else if labs[i - 1].Acquire? && labs[i - 1].l == l && Is(ss[i], labs[i - 1].t, Running) then Some(labs[i - 1].t)
    else if GaveUp(ss[i - 1], labs[i - 1], l) then None
    else OwnerOf(ss, labs, i - 1, l)
  }

  /** The step is lock_release of `l`, or the release inside a cv_wait that was entered with `l`. */
  predicate GaveUp(s: State, lab: Label, l: Lid) {
    (lab.Release? && lab.l == l) || (lab.CvLetGo? && GivesUp(s, lab, lab.t, l))
  }

  lemma OwnerAct(s: State, lab: Label, l: Lid)
    requires Domains(s) && Enabled(s, lab) && l in s.owner
    ensures l in Act(s, lab).owner
    ensures lab.Acquire? && lab.l == l ==> (Is(Act(s, lab), lab.t, Running) <==> s.owner[l] == None)
    ensures Act(s, lab).owner[l] ==
      if lab.Acquire? && lab.l == l && s.owner[l] == None then Some(lab.t)
      else if GaveUp(s, lab, l) then None
      else s.owner[l]
  {
  }

  lemma OwnerStep(s: State, lab: Label, l: Lid)
    requires Inv(s) && Enabled(s, lab) && l in s.owner
    ensures l in Next(s, lab).owner
    ensures lab.Acquire? && lab.l == l ==> (Is(Next(s, lab), lab.t, Running) <==> s.owner[l] == None)
    ensures Next(s, lab).owner[l] ==
      if lab.Acquire? && lab.l == l && Is(Next(s, lab), lab.t, Running) then Some(lab.t)
      else if GaveUp(s, lab, l) then None
      else s.owner[l]
  {
    hide OnChannels, Domains, SpinOk, OwnersOk, SemOk, LockOk, Wake, Act;
    WakeKeeps(s, lab);
    OwnerAct(Wake(s, lab), lab, l);
  }

  /** Over every run: the owner is the one the labels tell, and lock_acquire returns exactly when there is none. */
  lemma {:induction false} LockHistory(ss: seq<State>, labs: seq<Label>, i: nat, l: Lid)
    requires Run(ss, labs) && i < |ss| && l in ss[0].owner
    ensures l in ss[i].owner && ss[i].owner[l] == OwnerOf(ss, labs, i, l)
    ensures i < |labs| && labs[i].Acquire? && labs[i].l == l ==>
      (Is(ss[i + 1], labs[i].t, Running) <==> OwnerOf(ss, labs, i, l) == None)
  {
    hide OnChannels, Domains, SpinOk, OwnersOk, SemOk, LockOk, Next, Enabled, Steps, GaveUp;
    if i > 0 {
      LockHistory(ss, labs, i - 1, l);
      RunStep(ss, labs, i - 1);
      OwnerStep(ss[i - 1], labs[i - 1], l);
    }
    if i < |labs| {
      RunStep(ss, labs, i);
      OwnerStep(ss[i], labs[i], l);
    }
  }

  // ------------------------------------------------------------------
  // Condition variables

  /** The thread is in a cv_wait on `c` that it entered with `l`. */
  predicate InCvWait(s: State, t: Tid, c: Cid, l: Lid) {
    && t in s.pc
    && s.pc[t] in {Entered(c, l), LetGo(c, l), Sleeping(CvChan(c), l), Woken(CvChan(c), l),
                   Sleeping(LockChan(l), l), Woken(LockChan(l), l)}
  }

  lemma EnterStep(s: State, t: Tid, c: Cid, l: Lid)
    requires Inv(s) && Enabled(s, CvEnter(t, c, l))
    ensures InCvWait(Next(s, CvEnter(t, c, l)), t, c, l)
  {
  }

  lemma WaitAct(s: State, lab: Label, t: Tid, c: Cid, l: Lid)
    requires Domains(s) && Enabled(s, lab) && InCvWait(s, t, c, l)
    ensures var s' := Act(s, lab); InCvWait(s', t, c, l) || (Is(s', t, Running) && Owns(s', t, l))
  {
  }

  lemma WaitStep(s: State, lab: Label, t: Tid, c: Cid, l: Lid)
    requires Inv(s) && Enabled(s, lab) && InCvWait(s, t, c, l)
    ensures var s' := Next(s, lab); InCvWait(s', t, c, l) || (Is(s', t, Running) && Owns(s', t, l))
  {
    hide OnChannels, Domains, SpinOk, OwnersOk, SemOk, LockOk, Wake, Act, Enabled;
    WakeKeeps(s, lab);
    WaitAct(Wake(s, lab), lab, t, c, l);
  }

  /** Over every run: a thread that entered cv_wait with a lock next runs only when it owns that lock again. */
  lemma {:induction false} CvWaitReturns(ss: seq<State>, labs: seq<Label>, i: nat, j: nat, t: Tid, c: Cid, l: Lid)
    requires Run(ss, labs) && i < j < |ss| && labs[i] == CvEnter(t, c, l)
    requires forall k :: i < k < j ==> !Is(ss[k], t, Running)
    ensures InCvWait(ss[j], t, c, l) || (Is(ss[j], t, Running) && Owns(ss[j], t, l))
    decreases j
  {
    hide OnChannels, Domains, SpinOk, OwnersOk, SemOk, LockOk, Next, Enabled, Steps, InCvWait;
    RunStep(ss, labs, j - 1);
    if i + 1 == j {
      EnterStep(ss[i], t, c, l);
    } else {
      CvWaitReturns(ss, labs, i, j - 1, t, c, l);
      WaitStep(ss[j - 1], labs[j - 1], t, c, l);
    }
  }
}
