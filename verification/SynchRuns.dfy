/** What the synchronization primitives guarantee over every schedule. */
module SynchRuns {
  import opened Common
  import opened Synch

  /** Just created: nobody waits, nobody owns anything. */
  ghost predicate Init(s: State) {
    && Domains(s)
    && (forall t :: t in s.pc ==> s.pc[t] == Running)
    && (forall ch :: ch in s.chans ==> s.chans[ch] == [])
    && (forall x :: x in s.sems ==> s.sems[x].count == s.sems[x].initial && s.sems[x].ps == 0 && s.sems[x].vs == 0)
    && (forall l :: l in s.owner ==> s.owner[l] == None)
    && (forall c :: c in s.spin ==> s.spin[c] == None)
  }

  /** The step is taken as modelled (in states of the invariant, which are the only ones met). */
  ghost predicate Steps(s: State, lab: Label, s': State) {
    Enabled(s, lab) && (Inv(s) ==> s' == Next(s, lab))
  }

  ghost predicate Run(ss: seq<State>, labs: seq<Label>) {
    && |ss| == |labs| + 1 && Init(ss[0])
    && forall i :: 0 <= i < |labs| ==> Steps(ss[i], labs[i], ss[i + 1])
  }

  lemma InitInv(s: State)
    requires Init(s)
    ensures Inv(s)
  {
  }

  lemma {:induction false} RunInv(ss: seq<State>, labs: seq<Label>, i: nat)
    requires Run(ss, labs) && i < |ss|
    ensures Inv(ss[i])
  {
    if i == 0 {
      InitInv(ss[0]);
    } else {
      RunInv(ss, labs, i - 1);
      assert Steps(ss[i - 1], labs[i - 1], ss[i]);
      StepInv(ss[i - 1], labs[i - 1]);
    }
  }

  lemma RunStep(ss: seq<State>, labs: seq<Label>, i: nat)
    requires Run(ss, labs) && i < |labs|
    ensures Inv(ss[i]) && Enabled(ss[i], labs[i]) && ss[i + 1] == Next(ss[i], labs[i]) && Inv(ss[i + 1])
  {
    RunInv(ss, labs, i);
    RunInv(ss, labs, i + 1);
    assert Steps(ss[i], labs[i], ss[i + 1]);
  }

  /** Locks: a free lock with sleepers has a woken thread on its way to it. */
  lemma LockLaw(ss: seq<State>, labs: seq<Label>, i: nat, l: Lid)
    requires Run(ss, labs) && i < |ss| && l in ss[i].owner && LockChan(l) in ss[i].chans
    requires ss[i].owner[l] == None && ss[i].chans[LockChan(l)] != []
    ensures exists t :: t in ss[i].pc && WokenOn(ss[i], t, LockChan(l))
  {
    RunInv(ss, labs, i);
    var t :| t in WokenSet(ss[i], LockChan(l));
  }

  // ------------------------------------------------------------------
  // Mutual exclusion

  /** The step gives up the lock `l` held by `t`. */
  predicate GivesUp(s: State, lab: Label, t: Tid, l: Lid) {
    lab == Release(t, l) || (lab == CvLetGo(t) && t in s.pc && s.pc[t].Entered? && s.pc[t].lock == l)
  }

  lemma ActStays(s: State, lab: Label, t: Tid, l: Lid)
    requires Domains(s) && Enabled(s, lab) && Owns(s, t, l) && !GivesUp(s, lab, t, l)
    requires lab.CvLetGo? && Owns(s, t, s.pc[lab.t].lock) ==> lab.t == t
    ensures Owns(Act(s, lab), t, l)
  {
  }

  lemma OwnerStays(s: State, lab: Label, t: Tid, l: Lid)
    requires Inv(s) && Enabled(s, lab) && Owns(s, t, l) && !GivesUp(s, lab, t, l)
    ensures Owns(Next(s, lab), t, l)
  {
    hide OnChannels, Domains, SpinOk, SemOk, LockOk, Wake, Act;
    WakeKeeps(s, lab);
    ActStays(Wake(s, lab), lab, t, l);
  }

  lemma {:induction false} OwnerUntil(ss: seq<State>, labs: seq<Label>, i: nat, j: nat, t: Tid, l: Lid)
    requires Run(ss, labs) && i <= j < |ss| && Owns(ss[i], t, l)
    requires forall k :: i <= k < j ==> !GivesUp(ss[k], labs[k], t, l)
    ensures Owns(ss[j], t, l)
  {
    hide OnChannels, Domains, SpinOk, OwnersOk, SemOk, LockOk, Next, Enabled, Steps;
    if i < j {
      OwnerUntil(ss, labs, i, j - 1, t, l);
      RunStep(ss, labs, j - 1);
      OwnerStays(ss[j - 1], labs[j - 1], t, l);
    }
  }

  /** A lock passes from one thread to another only after the first has given it up. */
  lemma MutualExclusion(ss: seq<State>, labs: seq<Label>, i: nat, j: nat, t: Tid, u: Tid, l: Lid)
    requires Run(ss, labs) && i <= j < |ss| && t != u && Owns(ss[i], t, l) && Owns(ss[j], u, l)
    ensures exists k :: i <= k < j && GivesUp(ss[k], labs[k], t, l)
  {
    hide Steps, Init;
    if forall k :: i <= k < j ==> !GivesUp(ss[k], labs[k], t, l) {
      OwnerUntil(ss, labs, i, j, t, l);
    }
  }

  // ------------------------------------------------------------------
  // Condition variables

  predicate Notifies(lab: Label, c: Cid) {
    (lab.Signal? || lab.Broadcast?) && lab.c == c
  }

  /** The thread has released its lock in cv_wait and has not been woken. */
  predicate InWait(s: State, w: Tid, c: Cid, l: Lid) {
    w in s.pc && (s.pc[w] == LetGo(c, l) || s.pc[w] == Sleeping(CvChan(c), l))
  }

  lemma WakeSpares(s: State, lab: Label, w: Tid)
    requires OnChannels(s) && Domains(s) && Enabled(s, lab) && w in s.pc && !SleepsOn(s, w, Touches(s, lab))
    ensures w in Wake(s, lab).pc && Wake(s, lab).pc[w] == s.pc[w]
  {
    if lab.Broadcast? {
      WakeAllOnChannels(s, CvChan(lab.c));
    } else if Touches(s, lab) in s.chans && s.chans[Touches(s, lab)] != [] {
      assert SleepsOn(s, s.chans[Touches(s, lab)][0], Touches(s, lab));
    }
  }

  lemma StaysInWait(s: State, lab: Label, w: Tid, c: Cid, l: Lid)
    requires Inv(s) && Enabled(s, lab) && InWait(s, w, c, l) && !Notifies(lab, c)
    ensures InWait(Next(s, lab), w, c, l)
  {
    hide OnChannels, SpinOk, OwnersOk, SemOk, LockOk;
    if lab == CvBlock(w) {
    } else {
      WakeKeeps(s, lab);
      if !SleepsOn(s, w, Touches(s, lab)) {
        WakeSpares(s, lab, w);
      }
      hide Wake;
    }
  }

  /** Whoever can notify finds every such thread on the channel. */
  lemma NotifierSees(s: State, lab: Label, w: Tid, c: Cid, l: Lid)
    requires Inv(s) && Enabled(s, lab) && InWait(s, w, c, l) && Notifies(lab, c)
    ensures CvChan(c) in s.chans && w in s.chans[CvChan(c)]
    ensures lab.Broadcast? ==> Is(Next(s, lab), w, Woken(CvChan(c), l))
    ensures lab.Signal? ==>
      var h := s.chans[CvChan(c)][0];
      h in s.pc && s.pc[h].Sleeping? && Is(Next(s, lab), h, Woken(CvChan(c), s.pc[h].lock))
  {
    assert s.pc[w] == Sleeping(CvChan(c), l);
    assert SleepsOn(s, s.chans[CvChan(c)][0], CvChan(c));
    if lab.Broadcast? {
      WakeAllOnChannels(s, CvChan(c));
    }
  }

  /** A thread that waits, wakes only by a notification. */
  lemma {:induction false} WaitsUntil(ss: seq<State>, labs: seq<Label>, i: nat, j: nat, w: Tid, c: Cid, l: Lid)
    requires Run(ss, labs) && i <= j < |ss| && InWait(ss[i], w, c, l)
    ensures InWait(ss[j], w, c, l) ||
            exists k :: i <= k < j && Notifies(labs[k], c) && InWait(ss[k], w, c, l) && !InWait(ss[k + 1], w, c, l)
  {
    hide OnChannels, Domains, SpinOk, OwnersOk, SemOk, LockOk, Next, Enabled, Steps, InWait;
    if i < j {
      WaitsUntil(ss, labs, i, j - 1, w, c, l);
      if InWait(ss[j - 1], w, c, l) && !Notifies(labs[j - 1], c) {
        RunStep(ss, labs, j - 1);
        StaysInWait(ss[j - 1], labs[j - 1], w, c, l);
      }
    }
  }

  /**
    A signal given after a waiter released the lock is not lost: the waiter is on the
    channel, unless an earlier signal has woken it already.
   */
  lemma SignalNotLost(ss: seq<State>, labs: seq<Label>, i: nat, j: nat, w: Tid, c: Cid, l: Lid)
    requires Run(ss, labs) && i < j < |labs| && labs[i] == CvLetGo(w)
    requires Is(ss[i], w, Entered(c, l)) && Notifies(labs[j], c)
    ensures (CvChan(c) in ss[j].chans && w in ss[j].chans[CvChan(c)]) ||
            exists k :: i < k < j && Notifies(labs[k], c) && InWait(ss[k], w, c, l) && !InWait(ss[k + 1], w, c, l)
  {
    RunStep(ss, labs, i);
    LetGoWaits(ss[i], w, c, l);
    hide OnChannels, Domains, SpinOk, OwnersOk, SemOk, LockOk, Next, Steps, InWait, Run;
    WaitsUntil(ss, labs, i + 1, j, w, c, l);
    if InWait(ss[j], w, c, l) {
      RunStep(ss, labs, j);
      NotifierSees(ss[j], labs[j], w, c, l);
    }
  }

  lemma LetGoWaits(s: State, w: Tid, c: Cid, l: Lid)
    requires Inv(s) && Is(s, w, Entered(c, l))
    ensures InWait(Next(s, CvLetGo(w)), w, c, l)
  {
  }

  // ------------------------------------------------------------------
  // First come, first woken

  /** The step wakes the head of the channel. */
  predicate WakesHead(s: State, lab: Label, ch: Chan) {
    match lab
    case V(x) => ch == SemChan(x)
    case Release(t, l) => ch == LockChan(l)
    case CvLetGo(t) => t in s.pc && s.pc[t].Entered? && ch == LockChan(s.pc[t].lock)
    case Signal(t, c, l) => ch == CvChan(c)
    case _ => false
  }

  /** Sleepers join at the tail, and leave from the head or all together. */
  lemma ChannelStep(s: State, lab: Label, ch: Chan)
    requires Inv(s) && Enabled(s, lab) && ch in s.chans
    ensures ch in Next(s, lab).chans
    ensures var q, q' := s.chans[ch], Next(s, lab).chans[ch];
      if WakesHead(s, lab, ch) then q' == (if q == [] then [] else q[1..])
      else if lab.Broadcast? && ch == CvChan(lab.c) then q' == []
      else q' == q || exists t :: q' == q + [t]
  {
    hide SpinOk, OwnersOk, SemOk, LockOk;
    if lab.Broadcast? {
      WakeAllOnChannels(s, CvChan(lab.c));
    }
  }

  ghost function WakesBetween(ss: seq<State>, labs: seq<Label>, i: nat, j: nat, ch: Chan): nat
    requires |ss| == |labs| + 1 && i <= j <= |labs|
  {
    if i == j then 0 else
      WakesBetween(ss, labs, i, j - 1, ch) + if WakesHead(ss[j - 1], labs[j - 1], ch) then 1 else 0
  }

  /**
    While a thread stays on a channel, each wakeup moves it one place forward and nothing
    else moves it: behind `p` others it is woken by the (p+1)st wakeup at the latest.
   */
  lemma {:induction false} InTurn(ss: seq<State>, labs: seq<Label>, i: nat, j: nat, ch: Chan, w: Tid, p: nat)
    requires Run(ss, labs) && i <= j <= |labs|
    requires forall k :: i <= k <= j ==> ch in ss[k].chans && w in ss[k].chans[ch]
    requires p < |ss[i].chans[ch]| && ss[i].chans[ch][p] == w
    ensures WakesBetween(ss, labs, i, j, ch) <= p
    ensures var p' := p - WakesBetween(ss, labs, i, j, ch); p' < |ss[j].chans[ch]| && ss[j].chans[ch][p'] == w
  {
    hide OnChannels, Domains, SpinOk, OwnersOk, SemOk, LockOk, Next, Enabled, Steps, WakesHead;
    if i < j {
      InTurn(ss, labs, i, j - 1, ch, w, p);
      RunStep(ss, labs, j - 1);
      ChannelStep(ss[j - 1], labs[j - 1], ch);
      OnceOnly(ss[j - 1], ch);
      assert w in ss[j].chans[ch];
    }
  }

  lemma OnceOnly(s: State, ch: Chan)
    requires Inv(s) && ch in s.chans
    ensures NoDup(s.chans[ch])
  {
  }
}
