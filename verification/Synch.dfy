/**
  Semaphores, locks and condition variables over wait channels (kern/thread/synch.c and
  the wchan part of kern/thread/thread.c), as a transition system. A step is a section
  run under one spinlock; cv_wait holds the spinlock of the condition variable across
  the release of the lock, so that spinlock is explicit state and cv_wait is three steps.
 */
module Synch {
  import opened Common

  type Sid = nat
  type Lid = nat
  type Cid = nat

  const UINT_MAX := 0xffff_ffff

  /** The wait channel of a semaphore, a lock or a condition variable. */
  datatype Chan = SemChan(x: Sid) | LockChan(l: Lid) | CvChan(c: Cid)

  /**
    Where a thread is. A sleeping thread is on a channel; a woken one is on a run queue
    and will take the spinlock again and look once more. `lock` is the lock a thread in
    cv_wait goes back to.
   */
  datatype Pc =
    | Running
    | Sleeping(on: Chan, lock: Lid)
    | Woken(on: Chan, lock: Lid)
    | Entered(c: Cid, lock: Lid)
    | LetGo(c: Cid, lock: Lid)

  /** `ps` and `vs` count the completed operations. */
  datatype Sem = Sem(count: nat, initial: nat, ps: nat, vs: nat)

  datatype State = State(
    pc: map<Tid, Pc>,
    chans: map<Chan, seq<Tid>>,
    sems: map<Sid, Sem>,
    owner: map<Lid, Option<Tid>>,
    spin: map<Cid, Option<Tid>>)

  // ------------------------------------------------------------------
  // Wait channels

  /** wchan_sleep up to the switch: the thread goes to the tail of the channel. */
  function Block(s: State, t: Tid, ch: Chan, l: Lid): State
    requires ch in s.chans
  {
    s.(pc := s.pc[t := Sleeping(ch, l)], chans := s.chans[ch := s.chans[ch] + [t]])
  }

  /** wchan_wakeone: the head of the channel becomes runnable. */
  function WakeOne(s: State, ch: Chan): State
    requires ch in s.chans && OnChannels(s)
  {
    if s.chans[ch] == [] then s else
      var t := s.chans[ch][0];
      s.(pc := s.pc[t := Woken(ch, s.pc[t].lock)], chans := s.chans[ch := s.chans[ch][1..]])
  }

  /** wchan_wakeall */
  function WakeAll(s: State, ch: Chan): State
    requires ch in s.chans && OnChannels(s)
    decreases if ch in s.chans then |s.chans[ch]| else 0
  {
    if s.chans[ch] == [] then s else
      WakeOneOnChannels(s, ch);
      WakeAll(WakeOne(s, ch), ch)
  }

  predicate NoDup(q: seq<Tid>) {
    forall i, j :: 0 <= i < j < |q| ==> q[i] != q[j]
  }

  predicate SleepsOn(s: State, t: Tid, ch: Chan) {
    t in s.pc && s.pc[t].Sleeping? && s.pc[t].on == ch
  }

  /** A channel holds exactly the threads that sleep on it, each once. */
  ghost predicate OnChannels(s: State) {
    && (forall ch :: ch in s.chans ==> NoDup(s.chans[ch]))
    && (forall ch, i :: ch in s.chans && 0 <= i < |s.chans[ch]| ==> SleepsOn(s, s.chans[ch][i], ch))
    && (forall t :: t in s.pc && s.pc[t].Sleeping? ==> s.pc[t].on in s.chans && t in s.chans[s.pc[t].on])
  }

  lemma WakeOneOnChannels(s: State, ch: Chan)
    requires ch in s.chans && OnChannels(s)
    ensures OnChannels(WakeOne(s, ch))
  {
    var s', q := WakeOne(s, ch), s.chans[ch];
    if q != [] {
      forall t | t in s'.pc && s'.pc[t].Sleeping? ensures s'.pc[t].on in s'.chans && t in s'.chans[s'.pc[t].on] {
        assert s.pc[t] == s'.pc[t];
        if s.pc[t].on == ch {
          var i :| 0 <= i < |q| && q[i] == t;
          assert q[1..][i - 1] == t;
        }
      }
    }
  }

  lemma BlockOnChannels(s: State, t: Tid, ch: Chan, l: Lid)
    requires ch in s.chans && OnChannels(s) && t in s.pc && !s.pc[t].Sleeping?
    ensures OnChannels(Block(s, t, ch, l))
  {
    var s', q := Block(s, t, ch, l), s.chans[ch];
    forall u | u in s'.pc && s'.pc[u].Sleeping? ensures s'.pc[u].on in s'.chans && u in s'.chans[s'.pc[u].on] {
      if u == t {
        assert (q + [t])[|q|] == t;
      } else {
        assert s.pc[u] == s'.pc[u];
      }
    }
    assert forall i :: 0 <= i < |q| ==> SleepsOn(s, q[i], ch);
  }

  lemma {:induction false} WakeAllOnChannels(s: State, ch: Chan)
    requires ch in s.chans && OnChannels(s)
    ensures OnChannels(WakeAll(s, ch)) && WakeAll(s, ch).chans == s.chans[ch := []]
    ensures WakeAll(s, ch).pc.Keys == s.pc.Keys
    ensures forall t :: t in s.pc ==>
      WakeAll(s, ch).pc[t] == if SleepsOn(s, t, ch) then Woken(ch, s.pc[t].lock) else s.pc[t]
    ensures WakeAll(s, ch) == s.(pc := WakeAll(s, ch).pc, chans := s.chans[ch := []])
    decreases |s.chans[ch]|
  {
    if s.chans[ch] == [] {
      assert s.chans == s.chans[ch := []];
    } else {
      WakeOneOnChannels(s, ch);
      WakeAllOnChannels(WakeOne(s, ch), ch);
    }
  }

  // ------------------------------------------------------------------
  // Steps

  datatype Label =
    | P(t: Tid, x: Sid)
    | V(x: Sid)
    | Acquire(t: Tid, l: Lid)
    | Release(t: Tid, l: Lid)
    | CvEnter(t: Tid, c: Cid, l: Lid)
    | CvLetGo(t: Tid)
    | CvBlock(t: Tid)
    | CvResume(t: Tid)
    | Signal(t: Tid, c: Cid, l: Lid)
    | Broadcast(t: Tid, c: Cid, l: Lid)

  predicate Is(s: State, t: Tid, p: Pc) {
    t in s.pc && s.pc[t] == p
  }

  predicate WokenOn(s: State, t: Tid, ch: Chan) {
    t in s.pc && s.pc[t].Woken? && s.pc[t].on == ch
  }

  predicate Owns(s: State, t: Tid, l: Lid) {
    l in s.owner && s.owner[l] == Some(t)
  }

  predicate SpinFree(s: State, c: Cid) {
    c in s.spin && s.spin[c] == None
  }

  /** A thread may take the step: a running one by a call, a woken one by trying again. */
  predicate Enabled(s: State, lab: Label) {
    match lab
    case P(t, x) => x in s.sems && (Is(s, t, Running) || WokenOn(s, t, SemChan(x)))
    case V(x) => x in s.sems && s.sems[x].count < UINT_MAX
    case Acquire(t, l) => l in s.owner && ((Is(s, t, Running) && !Owns(s, t, l)) || WokenOn(s, t, LockChan(l)))
    case Release(t, l) => Is(s, t, Running) && Owns(s, t, l)
    case CvEnter(t, c, l) => Is(s, t, Running) && Owns(s, t, l) && SpinFree(s, c)
    case CvLetGo(t) => t in s.pc && s.pc[t].Entered?
    case CvBlock(t) => t in s.pc && s.pc[t].LetGo?
    case CvResume(t) => t in s.pc && s.pc[t].Woken? && s.pc[t].on.CvChan? && SpinFree(s, s.pc[t].on.c)
    case Signal(t, c, l) => Is(s, t, Running) && Owns(s, t, l) && SpinFree(s, c)
    case Broadcast(t, c, l) => Is(s, t, Running) && Owns(s, t, l) && SpinFree(s, c)
  }

  /** The wakeups of a step: one thread or all threads of a channel. */
  function Wake(s: State, lab: Label): State
    requires OnChannels(s) && Domains(s) && Enabled(s, lab)
  {
    match lab
    case V(x) => WakeOne(s, SemChan(x))
    case Release(t, l) => WakeOne(s, LockChan(l))
    case CvLetGo(t) => WakeOne(s, LockChan(s.pc[t].lock))
    case Signal(t, c, l) => WakeOne(s, CvChan(c))
    case Broadcast(t, c, l) => WakeAll(s, CvChan(c))
    case _ => s
  }

  /** P once the spinlock is held: take a unit, or go to sleep. */
  function TryP(s: State, t: Tid, x: Sid): State
    requires x in s.sems && SemChan(x) in s.chans
  {
    var m := s.sems[x];
    if m.count == 0 then Block(s, t, SemChan(x), 0)
    else s.(pc := s.pc[t := Running], sems := s.sems[x := m.(count := m.count - 1, ps := m.ps + 1)])
  }

  function AddUnit(s: State, x: Sid): State
    requires x in s.sems
  {
    var m := s.sems[x];
    s.(sems := s.sems[x := m.(count := m.count + 1, vs := m.vs + 1)])
  }

  /** lock_acquire once the spinlock is held. */
  function TryLock(s: State, t: Tid, l: Lid): State
    requires l in s.owner && LockChan(l) in s.chans
  {
    if s.owner[l] != None then Block(s, t, LockChan(l), l)
    else s.(pc := s.pc[t := Running], owner := s.owner[l := Some(t)])
  }

  function Unlock(s: State, l: Lid): State {
    s.(owner := s.owner[l := None])
  }

  /** cv_wait: the spinlock is taken, then the lock released, then the thread put to sleep. */
  function EnterCv(s: State, t: Tid, c: Cid, l: Lid): State {
    s.(pc := s.pc[t := Entered(c, l)], spin := s.spin[c := Some(t)])
  }

  function LetGoCv(s: State, t: Tid): State
    requires t in s.pc && s.pc[t].Entered?
  {
    Unlock(s, s.pc[t].lock).(pc := s.pc[t := LetGo(s.pc[t].c, s.pc[t].lock)])
  }

  function BlockCv(s: State, t: Tid): State
    requires t in s.pc && s.pc[t].LetGo? && CvChan(s.pc[t].c) in s.chans
  {
    var c := s.pc[t].c;
    Block(s, t, CvChan(c), s.pc[t].lock).(spin := s.spin[c := None])
  }

  /** cv_wait after the wakeup: the spinlock is taken and let go, and the lock comes next. */
  function ResumeCv(s: State, t: Tid): State
    requires t in s.pc && s.pc[t].Woken?
  {
    s.(pc := s.pc[t := Woken(LockChan(s.pc[t].lock), s.pc[t].lock)])
  }

  /** What a step does to the acting thread and to the object it acts on. */
  function Act(s: State, lab: Label): State
    requires Domains(s) && Enabled(s, lab)
  {
    match lab
    case P(t, x) => TryP(s, t, x)
    case V(x) => AddUnit(s, x)
    case Acquire(t, l) => TryLock(s, t, l)
    case Release(t, l) => Unlock(s, l)
    case CvEnter(t, c, l) => EnterCv(s, t, c, l)
    case CvLetGo(t) => LetGoCv(s, t)
    case CvBlock(t) => BlockCv(s, t)
    case CvResume(t) => ResumeCv(s, t)
    case Signal(t, c, l) => s
    case Broadcast(t, c, l) => s
  }

  /** One spinlock-held section. */
  function Next(s: State, lab: Label): State
    requires OnChannels(s) && Domains(s) && Enabled(s, lab)
  {
    WakeKeeps(s, lab);
    Act(Wake(s, lab), lab)
  }

  // ------------------------------------------------------------------
  // The invariant

  predicate PcKnown(s: State, p: Pc) {
    match p
    case Running => true
    case Sleeping(ch, l) => ch in s.chans && (ch.LockChan? ==> l == ch.l) && (ch.CvChan? ==> l in s.owner)
    case Woken(ch, l) => ch in s.chans && (ch.LockChan? ==> l == ch.l) && (ch.CvChan? ==> l in s.owner)
    case Entered(c, l) => c in s.spin && l in s.owner
    case LetGo(c, l) => c in s.spin && l in s.owner
  }

  ghost predicate Domains(s: State) {
    && (forall x :: x in s.sems <==> SemChan(x) in s.chans)
    && (forall l :: l in s.owner <==> LockChan(l) in s.chans)
    && (forall c :: c in s.spin <==> CvChan(c) in s.chans)
    && (forall t :: t in s.pc ==> PcKnown(s, s.pc[t]))
  }

  /** The spinlock of a condition variable is held exactly by the thread inside its cv_wait. */
  ghost predicate SpinOk(s: State)
    requires Domains(s)
  {
    && (forall t :: t in s.pc && (s.pc[t].Entered? || s.pc[t].LetGo?) ==> s.spin[s.pc[t].c] == Some(t))
    && (forall c :: c in s.spin && s.spin[c].Some? ==> InCv(s, s.spin[c].value, c))
  }

  predicate InCv(s: State, t: Tid, c: Cid) {
    t in s.pc && (s.pc[t].Entered? || s.pc[t].LetGo?) && s.pc[t].c == c
  }

  /** The thread is in lock_acquire, or in cv_wait after giving the lock up. */
  predicate Awaits(p: Pc, l: Lid) {
    p != Running && p.lock == l && !p.Entered? && ((p.Sleeping? || p.Woken?) ==> !p.on.SemChan?)
  }

  ghost predicate OwnersOk(s: State)
    requires Domains(s)
  {
    && (forall l :: l in s.owner && s.owner[l].Some? ==> s.owner[l].value in s.pc && !Awaits(s.pc[s.owner[l].value], l))
    && (forall t :: t in s.pc && s.pc[t].Entered? ==> s.owner[s.pc[t].lock] == Some(t))
  }

  ghost function WokenSet(s: State, ch: Chan): set<Tid> {
    set t | t in s.pc && WokenOn(s, t, ch)
  }

  ghost predicate SemOk(s: State, x: Sid)
    requires x in s.sems && SemChan(x) in s.chans
  {
    var m := s.sems[x];
    && m.ps + m.count == m.initial + m.vs
    && (s.chans[SemChan(x)] != [] ==> m.count <= |WokenSet(s, SemChan(x))|)
  }

  ghost predicate LockOk(s: State, l: Lid)
    requires l in s.owner && LockChan(l) in s.chans
  {
    s.owner[l] == None && s.chans[LockChan(l)] != [] ==> WokenSet(s, LockChan(l)) != {}
  }

  ghost predicate Inv(s: State) {
    && OnChannels(s) && Domains(s) && SpinOk(s) && OwnersOk(s)
    && (forall x :: x in s.sems ==> SemOk(s, x))
    && (forall l :: l in s.owner ==> LockOk(s, l))
  }

  /** What every wakeup leaves alone. */
  ghost predicate OnlyWakes(s: State, s': State) {
    && s' == s.(pc := s'.pc, chans := s'.chans)
    && s'.pc.Keys == s.pc.Keys && s'.chans.Keys == s.chans.Keys
    && (forall t :: t in s.pc ==>
          s'.pc[t] == s.pc[t] || (s.pc[t].Sleeping? && s'.pc[t] == Woken(s.pc[t].on, s.pc[t].lock)))
  }

  lemma WakeOneOnly(s: State, ch: Chan)
    requires ch in s.chans && OnChannels(s)
    ensures OnlyWakes(s, WakeOne(s, ch)) && OnChannels(WakeOne(s, ch))
  {
    WakeOneOnChannels(s, ch);
  }

  lemma WakeAllOnly(s: State, ch: Chan)
    requires ch in s.chans && OnChannels(s)
    ensures OnlyWakes(s, WakeAll(s, ch)) && OnChannels(WakeAll(s, ch))
  {
    WakeAllOnChannels(s, ch);
  }

  lemma OnlyWakesKeeps(s: State, s': State)
    requires OnlyWakes(s, s') && Domains(s)
    ensures Domains(s')
    ensures SpinOk(s) ==> SpinOk(s')
    ensures OwnersOk(s) ==> OwnersOk(s')
  {
  }

  lemma WakeKeeps(s: State, lab: Label)
    requires OnChannels(s) && Domains(s) && Enabled(s, lab)
    ensures var s' := Wake(s, lab); OnlyWakes(s, s') && OnChannels(s') && Domains(s') && Enabled(s', lab)
    ensures SpinOk(s) ==> SpinOk(Wake(s, lab))
    ensures OwnersOk(s) ==> OwnersOk(Wake(s, lab))
  {
    var s' := Wake(s, lab);
    match lab {
      case V(x) => WakeOneOnly(s, SemChan(x));
      case Release(t, l) => WakeOneOnly(s, LockChan(l));
      case CvLetGo(t) => WakeOneOnly(s, LockChan(s.pc[t].lock));
      case Signal(t, c, l) => WakeOneOnly(s, CvChan(c));
      case Broadcast(t, c, l) => WakeAllOnly(s, CvChan(c));
      case _ =>
    }
    OnlyWakesKeeps(s, s');
  }

  /** Everything of the invariant but the wakeups. */
  ghost predicate Shape(s: State) {
    OnChannels(s) && Domains(s) && SpinOk(s) && OwnersOk(s)
  }

  /** A thread outside every cv_wait moves and stays outside. */
  lemma MoveSpin(s: State, s': State, t: Tid, p: Pc)
    requires Domains(s) && Domains(s') && SpinOk(s) && s'.spin == s.spin && s'.pc == s.pc[t := p] && t in s.pc
    requires !(s.pc[t].Entered? || s.pc[t].LetGo? || p.Entered? || p.LetGo?)
    ensures SpinOk(s')
  {
  }

  lemma BlockShape(s: State, t: Tid, ch: Chan, l: Lid)
    requires Shape(s) && t in s.pc && (s.pc[t].Running? || s.pc[t].Woken?) && ch in s.chans
    requires ch.SemChan? || (ch == LockChan(l) && !Owns(s, t, l))
    ensures Shape(Block(s, t, ch, l))
  {
    BlockOnChannels(s, t, ch, l);
    hide OnChannels, SpinOk;
    assert Domains(Block(s, t, ch, l));
    MoveSpin(s, Block(s, t, ch, l), t, Sleeping(ch, l));
  }

  /** A thread goes on running, with the lock `l` if the lock was free. */
  lemma RunShape(s: State, s': State, t: Tid)
    requires Shape(s) && t in s.pc && (s.pc[t].Running? || s.pc[t].Woken?)
    requires s'.pc == s.pc[t := Running] && s'.chans == s.chans && s'.spin == s.spin && s'.sems.Keys == s.sems.Keys
    requires s'.owner.Keys == s.owner.Keys
    requires forall l :: l in s.owner ==> s'.owner[l] == s.owner[l] || (s.owner[l] == None && s'.owner[l] == Some(t))
    ensures Shape(s')
  {
    RunOnChannels(s, s', t);
    hide OnChannels, SpinOk;
    assert Domains(s');
    MoveSpin(s, s', t, Running);
  }

  lemma RunOnChannels(s: State, s': State, t: Tid)
    requires OnChannels(s) && t in s.pc && !s.pc[t].Sleeping? && s'.pc == s.pc[t := Running] && s'.chans == s.chans
    ensures OnChannels(s')
  {
  }

  lemma TryPShape(s: State, t: Tid, x: Sid)
    requires Shape(s) && Enabled(s, P(t, x))
    ensures Shape(TryP(s, t, x))
  {
    hide OnChannels, SpinOk, OwnersOk;
    if s.sems[x].count == 0 {
      BlockShape(s, t, SemChan(x), 0);
    } else {
      RunShape(s, TryP(s, t, x), t);
    }
  }

  lemma TryLockShape(s: State, t: Tid, l: Lid)
    requires Shape(s) && Enabled(s, Acquire(t, l))
    ensures Shape(TryLock(s, t, l))
  {
    hide OnChannels, SpinOk;
    if s.owner[l] != None {
      BlockShape(s, t, LockChan(l), l);
    } else {
      RunShape(s, TryLock(s, t, l), t);
    }
  }

  lemma UnlockShape(s: State, t: Tid, l: Lid)
    requires Shape(s) && Enabled(s, Release(t, l))
    ensures Shape(Unlock(s, l))
  {
  }

  lemma EnterCvShape(s: State, t: Tid, c: Cid, l: Lid)
    requires Shape(s) && Enabled(s, CvEnter(t, c, l))
    ensures Shape(EnterCv(s, t, c, l))
  {
  }

  lemma LetGoCvShape(s: State, t: Tid)
    requires Shape(s) && Enabled(s, CvLetGo(t))
    ensures Shape(LetGoCv(s, t))
  {
  }

  lemma BlockCvShape(s: State, t: Tid)
    requires Shape(s) && Enabled(s, CvBlock(t))
    ensures Shape(BlockCv(s, t))
  {
    BlockOnChannels(s, t, CvChan(s.pc[t].c), s.pc[t].lock);
    BlockCvOwners(s, t);
    hide OwnersOk;
  }

  lemma BlockCvOwners(s: State, t: Tid)
    requires Domains(s) && OwnersOk(s) && Enabled(s, CvBlock(t))
    ensures Domains(BlockCv(s, t)) && OwnersOk(BlockCv(s, t))
  {
  }

  lemma ResumeCvShape(s: State, t: Tid)
    requires Shape(s) && Enabled(s, CvResume(t))
    ensures Shape(ResumeCv(s, t))
  {
  }

  lemma AddUnitShape(s: State, x: Sid)
    requires Shape(s) && Enabled(s, V(x))
    ensures Shape(AddUnit(s, x))
  {
  }

  lemma ActShape(s: State, lab: Label)
    requires Shape(s) && Enabled(s, lab)
    ensures Shape(Act(s, lab))
  {
    hide TryP, TryLock, Unlock, EnterCv, LetGoCv, BlockCv, ResumeCv, OnChannels, SpinOk, OwnersOk;
    match lab {
      case P(t, x) => TryPShape(s, t, x);
      case V(x) => AddUnitShape(s, x);
      case Acquire(t, l) => TryLockShape(s, t, l);
      case Release(t, l) => UnlockShape(s, t, l);
      case CvEnter(t, c, l) => EnterCvShape(s, t, c, l);
      case CvLetGo(t) => LetGoCvShape(s, t);
      case CvBlock(t) => BlockCvShape(s, t);
      case CvResume(t) => ResumeCvShape(s, t);
      case _ =>
    }
  }

  // ------------------------------------------------------------------
  // No wakeup is lost

  /** The one channel whose sleepers or woken threads a step may change. */
  function Touches(s: State, lab: Label): Chan
    requires Enabled(s, lab)
  {
    match lab
    case P(t, x) => SemChan(x)
    case V(x) => SemChan(x)
    case Acquire(t, l) => LockChan(l)
    case Release(t, l) => LockChan(l)
    case CvEnter(t, c, l) => CvChan(c)
    case CvLetGo(t) => LockChan(s.pc[t].lock)
    case CvBlock(t) => CvChan(s.pc[t].c)
    case CvResume(t) => s.pc[t].on
    case Signal(t, c, l) => CvChan(c)
    case Broadcast(t, c, l) => CvChan(c)
  }

  lemma WakeOneCounts(s: State, ch: Chan)
    requires ch in s.chans && OnChannels(s) && s.chans[ch] != []
    ensures var t := s.chans[ch][0]; t !in WokenSet(s, ch) && WokenSet(WakeOne(s, ch), ch) == WokenSet(s, ch) + {t}
    ensures |WokenSet(WakeOne(s, ch), ch)| == |WokenSet(s, ch)| + 1
  {
    assert SleepsOn(s, s.chans[ch][0], ch);
  }

  /** The object of a channel is as it was, and no thread woken on it has gone back to sleep. */
  ghost predicate Undisturbed(s: State, s': State, ch: Chan) {
    && ch in s.chans && ch in s'.chans && s'.chans[ch] == s.chans[ch] && WokenSet(s, ch) <= WokenSet(s', ch)
    && (ch.SemChan? && ch.x in s.sems ==> ch.x in s'.sems && s'.sems[ch.x] == s.sems[ch.x])
    && (ch.LockChan? && ch.l in s.owner ==> ch.l in s'.owner && s'.owner[ch.l] == s.owner[ch.l])
  }

  lemma WakeElsewhere(s: State, lab: Label, ch: Chan)
    requires OnChannels(s) && Domains(s) && Enabled(s, lab) && ch in s.chans && ch != Touches(s, lab)
    ensures Undisturbed(s, Wake(s, lab), ch)
  {
    hide OnChannels, SpinOk, OwnersOk;
    WakeKeeps(s, lab);
    if lab.Broadcast? {
      WakeAllOnChannels(s, CvChan(lab.c));
    }
  }

  lemma ActElsewhere(s: State, lab: Label, ch: Chan)
    requires Domains(s) && Enabled(s, lab) && ch in s.chans && ch != Touches(s, lab)
    ensures Undisturbed(s, Act(s, lab), ch)
  {
  }

  lemma SameTouch(s: State, lab: Label)
    requires OnChannels(s) && Domains(s) && Enabled(s, lab)
    ensures Enabled(Wake(s, lab), lab) && Touches(Wake(s, lab), lab) == Touches(s, lab)
  {
    WakeKeeps(s, lab);
  }

  lemma Elsewhere(s: State, lab: Label, ch: Chan)
    requires OnChannels(s) && Domains(s) && Enabled(s, lab) && ch in s.chans && ch != Touches(s, lab)
    ensures Undisturbed(s, Next(s, lab), ch)
  {
    hide Wake, Act, Enabled, Touches, OnChannels, Domains;
    WakeKeeps(s, lab);
    SameTouch(s, lab);
    WakeElsewhere(s, lab, ch);
    ActElsewhere(Wake(s, lab), lab, ch);
  }

  lemma UndisturbedOk(s: State, s': State, ch: Chan)
    requires Undisturbed(s, s', ch)
    ensures ch.SemChan? && ch.x in s.sems && SemOk(s, ch.x) ==> ch.x in s'.sems && SemOk(s', ch.x)
    ensures ch.LockChan? && ch.l in s.owner && LockOk(s, ch.l) ==> ch.l in s'.owner && LockOk(s', ch.l)
  {
    SubsetSize(WokenSet(s, ch), WokenSet(s', ch));
  }

  lemma {:induction false} SubsetSize(a: set<Tid>, b: set<Tid>)
    requires a <= b
    ensures |a| <= |b|
  {
    if a != {} {
      var t :| t in a;
      SubsetSize(a - {t}, b - {t});
    }
  }

  lemma VSem(s: State, x: Sid)
    requires OnChannels(s) && Domains(s) && Enabled(s, V(x)) && SemOk(s, x)
    ensures var s' := AddUnit(WakeOne(s, SemChan(x)), x); SemOk(s', x)
  {
    if s.chans[SemChan(x)] != [] {
      WakeOneCounts(s, SemChan(x));
    }
    var s1 := WakeOne(s, SemChan(x));
    assert WokenSet(AddUnit(s1, x), SemChan(x)) == WokenSet(s1, SemChan(x));
  }

  lemma PSem(s: State, t: Tid, x: Sid)
    requires Domains(s) && Enabled(s, P(t, x)) && SemOk(s, x)
    ensures SemOk(TryP(s, t, x), x)
  {
    if s.sems[x].count > 0 {
      var s' := TryP(s, t, x);
      assert WokenSet(s', SemChan(x)) == WokenSet(s, SemChan(x)) - {t};
    }
  }

  lemma StepSem(s: State, lab: Label, x: Sid)
    requires OnChannels(s) && Domains(s) && Enabled(s, lab) && x in s.sems && SemOk(s, x)
    ensures x in Next(s, lab).sems && SemChan(x) in Next(s, lab).chans && SemOk(Next(s, lab), x)
    ensures var n, n' := s.sems[x].count, Next(s, lab).sems[x].count;
      if lab == V(x) then n' == n + 1
      else if lab.P? && lab.x == x && n > 0 then n' == n - 1
      else n' == n
  {
    hide SemOk, OnChannels;
    if lab == V(x) {
      VSem(s, x);
    } else if lab.P? && lab.x == x {
      PSem(s, lab.t, x);
    } else {
      hide Act, Wake, WakeOne, Domains;
      Elsewhere(s, lab, SemChan(x));
      UndisturbedOk(s, Next(s, lab), SemChan(x));
    }
  }

  lemma WakesSomeone(s: State, s': State, t: Tid, l: Lid)
    requires OnChannels(s) && l in s.owner && LockChan(l) in s.chans && t in s.pc && !s.pc[t].Sleeping?
    requires s'.owner == s.owner[l := None] && s'.chans == WakeOne(s, LockChan(l)).chans
    requires t in s'.pc && s'.pc == WakeOne(s, LockChan(l)).pc[t := s'.pc[t]]
    ensures LockOk(s', l)
  {
    var ch := LockChan(l);
    if s.chans[ch] != [] {
      var w := s.chans[ch][0];
      assert SleepsOn(s, w, ch);
      assert w in WokenSet(s', ch);
    }
  }

  lemma StepLock(s: State, lab: Label, l: Lid)
    requires OnChannels(s) && Domains(s) && Enabled(s, lab) && l in s.owner && LockOk(s, l)
    ensures l in Next(s, lab).owner && LockChan(l) in Next(s, lab).chans && LockOk(Next(s, lab), l)
  {
    hide OnChannels;
    if Touches(s, lab) == LockChan(l) {
      if lab.Acquire? {
      } else {
        WakesSomeone(s, Next(s, lab), lab.t, l);
      }
    } else {
      hide Act, Wake, WakeOne, Domains;
      Elsewhere(s, lab, LockChan(l));
      UndisturbedOk(s, Next(s, lab), LockChan(l));
    }
  }

  lemma StepInv(s: State, lab: Label)
    requires Inv(s) && Enabled(s, lab)
    ensures Inv(Next(s, lab))
  {
    var s' := Next(s, lab);
    assert Shape(s') by {
      StepShape(s, lab);
    }
    assert s'.sems.Keys == s.sems.Keys && s'.owner.Keys == s.owner.Keys by {
      StepKeys(s, lab);
    }
    hide OnChannels, SpinOk, OwnersOk, SemOk, LockOk, Next;
    forall x | x in s'.sems ensures SemOk(s', x) {
      StepSem(s, lab, x);
    }
    forall l | l in s'.owner ensures LockOk(s', l) {
      StepLock(s, lab, l);
    }
  }

  lemma StepKeys(s: State, lab: Label)
    requires OnChannels(s) && Domains(s) && Enabled(s, lab)
    ensures Next(s, lab).sems.Keys == s.sems.Keys && Next(s, lab).owner.Keys == s.owner.Keys
  {
    hide OnChannels, SpinOk, OwnersOk, Wake, Act;
    WakeKeeps(s, lab);
    ActKeys(Wake(s, lab), lab);
  }

  lemma ActKeys(s: State, lab: Label)
    requires Domains(s) && Enabled(s, lab)
    ensures Act(s, lab).sems.Keys == s.sems.Keys && Act(s, lab).owner.Keys == s.owner.Keys
  {
  }

  lemma StepShape(s: State, lab: Label)
    requires Shape(s) && Enabled(s, lab)
    ensures Shape(Next(s, lab))
  {
    hide OnChannels, SpinOk, OwnersOk, Wake, Act, Enabled;
    WakeKeeps(s, lab);
    ActShape(Wake(s, lab), lab);
  }
}
