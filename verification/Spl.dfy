/**
  Interrupt level accounting: kern/thread/spl.c, kern/thread/spinlock.c, and the parts of
  kern/thread/thread.c and kern/arch/mips/locore/trap.c that hand a count from one
  thread to another. Every processor runs its own current thread.
 */
module Spl {
  import opened Common

  type Cpu = nat

  const IPL_NONE: nat := 0
  const IPL_HIGH: nat := 1

  /** Each processor has the lock of its run queue; all other spinlocks are numbered. */
  datatype Lock = RunQueue(c: Cpu) | Other(n: nat)

  /** t_iplhigh_count and t_curspl. */
  datatype Thread = Thread(count: nat, spl: nat)

  /** A processor's curthread, whether its interrupts are on, its c_spinlocks and the lock it spins on. */
  datatype Core = Core(cur: Tid, irq: bool, spinlocks: nat, spinning: Option<Lock>)

  /** `holder` is splk_holder of every spinlock. */
  datatype State = State(threads: map<Tid, Thread>, cores: map<Cpu, Core>, holder: map<Lock, Option<Cpu>>)

  // ------------------------------------------------------------------
  // The accounting

  ghost function HeldBy(s: State, c: Cpu): set<Lock> {
    set l | l in s.holder && s.holder[l] == Some(c)
  }

  /** The spinlocks the current thread of `c` has still to release. */
  ghost function Owed(s: State, c: Cpu): nat
    requires c in s.cores
  {
    |HeldBy(s, c)| + if s.cores[c].spinning.Some? then 1 else 0
  }

  ghost predicate CoreOk(s: State, c: Cpu)
    requires c in s.cores
  {
    var k := s.cores[c];
    && k.cur in s.threads && k.spinlocks == Owed(s, c)
    && var t := s.threads[k.cur];
    && t.spl <= IPL_HIGH && t.count == t.spl + Owed(s, c) && (k.irq <==> t.count == 0)
    && (k.spinning.Some? ==> k.spinning.value in s.holder && s.holder[k.spinning.value] != Some(c))
  }

  predicate Idle(s: State, t: Tid) {
    t in s.threads && forall c :: c in s.cores ==> s.cores[c].cur != t
  }

  /**
    The count of a thread is its own level plus the spinlocks it has still to release; a
    thread that is not running has one to release, the lock of the run queue it comes
    back through. Interrupts are on exactly when the running thread's count is 0.
   */
  ghost predicate Accounted(s: State) {
    && (forall c :: c in s.cores ==> CoreOk(s, c))
    && (forall c, d :: c in s.cores && d in s.cores && c != d ==> s.cores[c].cur != s.cores[d].cur)
    && (forall t :: Idle(s, t) ==> s.threads[t] == Thread(2, IPL_HIGH))
  }

  /** The processor sees what it saw. */
  ghost predicate SameCore(s: State, s': State, d: Cpu)
    requires d in s.cores && d in s'.cores
  {
    && s'.cores[d] == s.cores[d] && HeldBy(s', d) == HeldBy(s, d)
    && s.holder.Keys == s'.holder.Keys
    && s.cores[d].cur in s'.threads && s.cores[d].cur in s.threads
    && s'.threads[s.cores[d].cur] == s.threads[s.cores[d].cur]
  }

  lemma SameCoreOk(s: State, s': State, d: Cpu)
    requires d in s.cores && d in s'.cores && SameCore(s, s', d) && CoreOk(s, d)
    ensures CoreOk(s', d)
  {
    var k := s.cores[d];
    if k.spinning.Some? {
      assert k.spinning.value !in HeldBy(s, d);
    }
  }

  /** A change confined to one processor and its current thread is right if it is right there. */
  lemma Local(s: State, s': State, c: Cpu)
    requires Accounted(s) && c in s.cores && s'.cores.Keys == s.cores.Keys && s'.threads.Keys == s.threads.Keys
    requires forall d :: d in s.cores && d != c ==> SameCore(s, s', d)
    requires s'.cores[c].cur == s.cores[c].cur && CoreOk(s', c)
    requires forall t :: t in s.threads && t != s.cores[c].cur ==> s'.threads[t] == s.threads[t]
    ensures Accounted(s')
  {
    forall d | d in s'.cores ensures CoreOk(s', d) && s'.cores[d].cur == s.cores[d].cur {
      if d != c {
        SameCoreOk(s, s', d);
      }
    }
    hide CoreOk, SameCore, HeldBy, Idle;
    IdleStill(s, s', c);
  }

  lemma IdleStill(s: State, s': State, c: Cpu)
    requires forall t :: Idle(s, t) ==> s.threads[t] == Thread(2, IPL_HIGH)
    requires c in s.cores && s'.cores.Keys == s.cores.Keys && s'.threads.Keys == s.threads.Keys
    requires forall d :: d in s.cores ==> s'.cores[d].cur == s.cores[d].cur
    requires forall t :: t in s.threads && t != s.cores[c].cur ==> s'.threads[t] == s.threads[t]
    ensures forall t :: Idle(s', t) ==> s'.threads[t] == Thread(2, IPL_HIGH)
  {
    forall t | Idle(s', t) ensures s'.threads[t] == Thread(2, IPL_HIGH) {
      assert Idle(s, t);
    }
  }

  // ------------------------------------------------------------------
  // The operations, as changes of state

  function WithThread(s: State, c: Cpu, t: Thread): State
    requires c in s.cores
  {
    s.(threads := s.threads[s.cores[c].cur := t])
  }

  function WithCore(s: State, c: Cpu, k: Core): State {
    s.(cores := s.cores[c := k])
  }

  /** The current thread's record. */
  function Cur(s: State, c: Cpu): Thread
    requires c in s.cores && s.cores[c].cur in s.threads
  {
    s.threads[s.cores[c].cur]
  }

  /** The level of the current thread becomes `spl`; its count follows. */
  function Levelled(s: State, c: Cpu, spl: nat): State
    requires c in s.cores && s.cores[c].cur in s.threads && spl <= IPL_HIGH && Cur(s, c).spl <= Cur(s, c).count
  {
    var count := Cur(s, c).count - Cur(s, c).spl + spl;
    WithCore(WithThread(s, c, Thread(count, spl)), c, s.cores[c].(irq := count == 0))
  }

  /** One more or one fewer spinlock to release. */
  function Spinning(s: State, c: Cpu, l: Lock): State
    requires c in s.cores && s.cores[c].cur in s.threads
  {
    var t, k := Cur(s, c), s.cores[c];
    WithCore(WithThread(s, c, t.(count := t.count + 1)), c,
      k.(irq := false, spinlocks := k.spinlocks + 1, spinning := Some(l)))
  }

  function Got(s: State, c: Cpu, l: Lock): State
    requires c in s.cores
  {
    WithCore(s, c, s.cores[c].(spinning := None)).(holder := s.holder[l := Some(c)])
  }

  function LetGo(s: State, c: Cpu, l: Lock): State
    requires c in s.cores && s.cores[c].cur in s.threads && Cur(s, c).count > 0 && s.cores[c].spinlocks > 0
  {
    var t, k := Cur(s, c), s.cores[c];
    WithCore(WithThread(s, c, t.(count := t.count - 1)), c, k.(irq := t.count == 1, spinlocks := k.spinlocks - 1))
    .(holder := s.holder[l := None])
  }

  lemma SameHolder(s: State, s': State)
    requires s.holder == s'.holder
    ensures forall d :: HeldBy(s', d) == HeldBy(s, d)
  {
  }

  lemma LevelledKeeps(s: State, c: Cpu, spl: nat)
    requires Accounted(s) && c in s.cores && spl <= IPL_HIGH
    ensures CoreOk(s, c) && Accounted(Levelled(s, c, spl))
  {
    hide HeldBy, Idle;
    var s' := Levelled(s, c, spl);
    SameHolder(s, s');
    assert CoreOk(s', c);
    Others(s, c);
    hide CoreOk;
    Local(s, s', c);
  }

  /** No other processor runs the current thread of `c`. */
  lemma Others(s: State, c: Cpu)
    requires Accounted(s) && c in s.cores
    ensures forall d :: d in s.cores ==> s.cores[d].cur in s.threads && (d != c ==> s.cores[d].cur != s.cores[c].cur)
  {
  }

  lemma SpinningKeeps(s: State, c: Cpu, l: Lock)
    requires Accounted(s) && c in s.cores && s.cores[c].spinning == None && l in s.holder && s.holder[l] != Some(c)
    ensures CoreOk(s, c) && Accounted(Spinning(s, c, l))
  {
    hide HeldBy, Idle;
    var s' := Spinning(s, c, l);
    SameHolder(s, s');
    assert CoreOk(s', c);
    Others(s, c);
    hide CoreOk;
    Local(s, s', c);
  }

  lemma Taken(s: State, s': State, c: Cpu, l: Lock)
    requires l in s.holder && s.holder[l] == None && s'.holder == s.holder[l := Some(c)]
    ensures forall d :: d != c ==> HeldBy(s', d) == HeldBy(s, d)
    ensures |HeldBy(s', c)| == |HeldBy(s, c)| + 1
  {
    assert HeldBy(s', c) == HeldBy(s, c) + {l} && l !in HeldBy(s, c);
  }

  lemma GotKeeps(s: State, c: Cpu, l: Lock)
    requires Accounted(s) && c in s.cores && s.cores[c].spinning == Some(l) && l in s.holder && s.holder[l] == None
    ensures Accounted(Got(s, c, l))
  {
    hide HeldBy, Idle;
    var s' := Got(s, c, l);
    Taken(s, s', c, l);
    assert CoreOk(s', c);
    Others(s, c);
    hide CoreOk;
    Local(s, s', c);
  }

  lemma Dropped(s: State, s': State, c: Cpu, l: Lock)
    requires l in s.holder && s.holder[l] == Some(c) && s'.holder == s.holder[l := None]
    ensures forall d :: d != c ==> HeldBy(s', d) == HeldBy(s, d)
    ensures |HeldBy(s', c)| == |HeldBy(s, c)| - 1
  {
    assert HeldBy(s', c) == HeldBy(s, c) - {l} && l in HeldBy(s, c);
  }

  lemma LetGoKeeps(s: State, c: Cpu, l: Lock)
    requires Accounted(s) && c in s.cores && s.cores[c].spinning == None && l in s.holder && s.holder[l] == Some(c)
    ensures CoreOk(s, c) && Cur(s, c).count > 0 && s.cores[c].spinlocks > 0 && Accounted(LetGo(s, c, l))
  {
    hide HeldBy, Idle;
    Dropped(s, s.(holder := s.holder[l := None]), c, l);
    var s' := LetGo(s, c, l);
    Dropped(s, s', c, l);
    assert CoreOk(s', c);
    Others(s, c);
    hide CoreOk;
    Local(s, s', c);
  }

  // ------------------------------------------------------------------
  // Handing the processor over

  /** switchframe_switch: the next thread runs, and the run queue lock is now its to release. */
  function Switched(s: State, c: Cpu, next: Tid): State
    requires c in s.cores
  {
    WithCore(s, c, s.cores[c].(cur := next))
  }

  /** thread_create and the increment in thread_fork. */
  function Forked(s: State, t: Tid): State {
    s.(threads := s.threads[t := Thread(1 + 1, IPL_HIGH)])
  }

  /** What thread_switch has made sure of when it switches: only the run queue lock is held, at splhigh. */
  ghost predicate MaySwitch(s: State, c: Cpu, next: Tid) {
    && c in s.cores && s.cores[c].spinning == None && HeldBy(s, c) == {RunQueue(c)}
    && s.cores[c].cur in s.threads && Cur(s, c).spl == IPL_HIGH
    && (Idle(s, next) || next == s.cores[c].cur)
  }

  lemma SwitchedKeeps(s: State, c: Cpu, next: Tid)
    requires Accounted(s) && MaySwitch(s, c, next)
    ensures Accounted(Switched(s, c, next))
  {
    var s', was := Switched(s, c, next), s.cores[c].cur;
    SameHolder(s, s');
    assert s.threads[was] == Thread(2, IPL_HIGH) && s.threads[next] == Thread(2, IPL_HIGH);
    forall d | d in s'.cores ensures CoreOk(s', d) {
      if d != c {
        assert CoreOk(s, d) && SameCore(s, s', d);
        SameCoreOk(s, s', d);
      }
    }
    hide CoreOk, HeldBy;
    forall t | Idle(s', t) ensures s'.threads[t] == Thread(2, IPL_HIGH) {
      if t != was {
        forall d | d in s.cores ensures s.cores[d].cur != t {
          assert s'.cores[d].cur != t;
        }
        assert Idle(s, t);
      }
    }
  }

  lemma ForkedKeeps(s: State, t: Tid)
    requires Accounted(s) && t !in s.threads
    ensures Accounted(Forked(s, t))
  {
    var s' := Forked(s, t);
    SameHolder(s, s');
    forall d | d in s'.cores ensures CoreOk(s', d) {
      assert CoreOk(s, d) && SameCore(s, s', d);
      SameCoreOk(s, s', d);
    }
    hide CoreOk, HeldBy;
    forall u | Idle(s', u) ensures s'.threads[u] == Thread(2, IPL_HIGH) {
      assert u == t || Idle(s, u);
    }
  }

  // ------------------------------------------------------------------
  // Runs

  datatype Op =
    | SetLevel(c: Cpu, spl: nat)
    | Trap(c: Cpu)
    | TrapReturn(c: Cpu)
    | Spin(c: Cpu, l: Lock)
    | Get(c: Cpu, l: Lock)
    | Drop(c: Cpu, l: Lock)
    | Switch(c: Cpu, next: Tid)
    | Fork(t: Tid)

  ghost predicate Enabled(s: State, op: Op) {
    match op
    case SetLevel(c, spl) => c in s.cores && spl <= IPL_HIGH
    case Trap(c) => c in s.cores && s.cores[c].irq
    case TrapReturn(c) => c in s.cores && s.cores[c].cur in s.threads && Cur(s, c) == Thread(1, IPL_HIGH)
    case Spin(c, l) => c in s.cores && s.cores[c].spinning == None && l in s.holder && s.holder[l] != Some(c)
    case Get(c, l) => c in s.cores && s.cores[c].spinning == Some(l) && l in s.holder && s.holder[l] == None
    case Drop(c, l) => c in s.cores && s.cores[c].spinning == None && l in s.holder && s.holder[l] == Some(c)
    case Switch(c, next) => MaySwitch(s, c, next)
    case Fork(t) => t !in s.threads
  }

  /** A trap records that the hardware masked interrupts, and undoes that on the way out. */
  ghost function After(s: State, op: Op): State
    requires Accounted(s) && Enabled(s, op)
  {
    match op
    case SetLevel(c, spl) => LevelledKeeps(s, c, spl); Levelled(s, c, spl)
    case Trap(c) => LevelledKeeps(s, c, IPL_HIGH); Levelled(s, c, IPL_HIGH)
    case TrapReturn(c) => LevelledKeeps(s, c, IPL_NONE); Levelled(s, c, IPL_NONE)
    case Spin(c, l) => SpinningKeeps(s, c, l); Spinning(s, c, l)
    case Get(c, l) => Got(s, c, l)
    case Drop(c, l) => LetGoKeeps(s, c, l); LetGo(s, c, l)
    case Switch(c, next) => Switched(s, c, next)
    case Fork(t) => Forked(s, t)
  }

  lemma StepAccounted(s: State, op: Op)
    requires Accounted(s) && Enabled(s, op)
    ensures Accounted(After(s, op))
  {
    hide Accounted, Levelled, Spinning, Got, LetGo, Switched, Forked, MaySwitch;
    match op {
      case SetLevel(c, spl) => LevelledKeeps(s, c, spl);
      case Trap(c) => LevelledKeeps(s, c, IPL_HIGH);
      case TrapReturn(c) => LevelledKeeps(s, c, IPL_NONE);
      case Spin(c, l) => SpinningKeeps(s, c, l);
      case Get(c, l) => GotKeeps(s, c, l);
      case Drop(c, l) => LetGoKeeps(s, c, l);
      case Switch(c, next) => SwitchedKeeps(s, c, next);
      case Fork(t) => ForkedKeeps(s, t);
    }
  }

  /** Every processor in its boot thread, interrupts off, no lock taken. */
  ghost predicate Boot(s: State) {
    && (forall c :: c in s.cores ==> s.cores[c] == Core(s.cores[c].cur, false, 0, None))
    && (forall c :: c in s.cores ==> s.cores[c].cur in s.threads && s.threads[s.cores[c].cur] == Thread(1, IPL_HIGH))
    && (forall c, d :: c in s.cores && d in s.cores && c != d ==> s.cores[c].cur != s.cores[d].cur)
    && (forall t :: !Idle(s, t))
    && (forall l :: l in s.holder ==> s.holder[l] == None)
  }

  ghost predicate Run(ss: seq<State>, ops: seq<Op>) {
    && |ss| == |ops| + 1 && Boot(ss[0])
    && forall i :: 0 <= i < |ops| ==> Enabled(ss[i], ops[i]) && (Accounted(ss[i]) ==> ss[i + 1] == After(ss[i], ops[i]))
  }

  lemma BootAccounted(s: State)
    requires Boot(s)
    ensures Accounted(s)
  {
    forall c | c in s.cores ensures CoreOk(s, c) {
      assert HeldBy(s, c) == {};
    }
  }

  lemma {:induction false} RunAccounted(ss: seq<State>, ops: seq<Op>, i: nat)
    requires Run(ss, ops) && i < |ss|
    ensures Accounted(ss[i])
  {
    if i == 0 {
      BootAccounted(ss[0]);
    } else {
      RunAccounted(ss, ops, i - 1);
      hide Accounted, Boot;
      StepAccounted(ss[i - 1], ops[i - 1]);
    }
  }

  /**
    Over every run: interrupts are on exactly when the running thread owes nothing, and
    when it does, its count is what it owes.
   */
  lemma InterruptLaw(ss: seq<State>, ops: seq<Op>, i: nat, c: Cpu)
    requires Run(ss, ops) && i < |ss| && c in ss[i].cores
    ensures ss[i].cores[c].cur in ss[i].threads
    ensures Cur(ss[i], c).count == Cur(ss[i], c).spl + Owed(ss[i], c)
    ensures ss[i].cores[c].irq <==>
      Cur(ss[i], c).spl == IPL_NONE && HeldBy(ss[i], c) == {} && ss[i].cores[c].spinning == None
  {
    RunAccounted(ss, ops, i);
    assert CoreOk(ss[i], c);
  }

  // ------------------------------------------------------------------
  // The same, told from the labels of the run

  /** The thread of `c` after `i` steps: the boot thread, or the one last switched to. */
  ghost function RunnerOf(boot: State, ops: seq<Op>, i: nat, c: Cpu): Tid
    requires i <= |ops| && c in boot.cores
  {
    if i == 0 then boot.cores[c].cur else
      match ops[i - 1]
      case Switch(d, next) => if c == d then next else RunnerOf(boot, ops, i - 1, c)
      case _ => RunnerOf(boot, ops, i - 1, c)
  }

  /** The level a step gives to the thread of its processor, if it gives one. */
  function LevelSet(op: Op): Option<(Cpu, nat)> {
    match op
    case SetLevel(c, spl) => Some((c, spl))
    case Trap(c) => Some((c, IPL_HIGH))
    case TrapReturn(c) => Some((c, IPL_NONE))
    case _ => None
  }

  /** The level of `t` after `i` steps: the last one set while it ran, or the one every thread starts with. */
  ghost function LevelOf(boot: State, ops: seq<Op>, i: nat, t: Tid): nat
    requires i <= |ops|
  {
    if i == 0 then IPL_HIGH else
      var given := LevelSet(ops[i - 1]);
      if given.Some? && given.value.0 in boot.cores && RunnerOf(boot, ops, i - 1, given.value.0) == t then given.value.1
      else if ops[i - 1] == Fork(t) then IPL_HIGH
      else LevelOf(boot, ops, i - 1, t)
  }

  /** The holder of `l` after `i` steps: who last got it, unless it was dropped since. */
  ghost function HolderOf(ops: seq<Op>, i: nat, l: Lock): Option<Cpu>
    requires i <= |ops|
  {
    if i == 0 then None else
      match ops[i - 1]
      case Get(c, m) => if l == m then Some(c) else HolderOf(ops, i - 1, l)
      case Drop(c, m) => if l == m then None else HolderOf(ops, i - 1, l)
      case _ => HolderOf(ops, i - 1, l)
  }

  /** The lock `c` spins on after `i` steps. */
  ghost function SpinsOn(ops: seq<Op>, i: nat, c: Cpu): Option<Lock>
    requires i <= |ops|
  {
    if i == 0 then None else
      match ops[i - 1]
      case Spin(d, l) => if c == d then Some(l) else SpinsOn(ops, i - 1, c)
      case Get(d, l) => if c == d then None else SpinsOn(ops, i - 1, c)
      case _ => SpinsOn(ops, i - 1, c)
  }

  /** The state is what the first `i` labels say. */
  ghost predicate Told(boot: State, ops: seq<Op>, i: nat, s: State)
    requires i <= |ops|
  {
    && s.cores.Keys == boot.cores.Keys && s.holder.Keys == boot.holder.Keys
    && (forall c :: c in s.cores ==>
          s.cores[c].cur == RunnerOf(boot, ops, i, c) && s.cores[c].spinning == SpinsOn(ops, i, c))
    && (forall t :: t in s.threads ==> s.threads[t].spl == LevelOf(boot, ops, i, t))
    && (forall l :: l in s.holder ==> s.holder[l] == HolderOf(ops, i, l))
  }

  lemma LevelTold(boot: State, ops: seq<Op>, i: nat, s: State, c: Cpu, spl: nat)
    requires i < |ops| && Told(boot, ops, i, s) && c in s.cores && s.cores[c].cur in s.threads
    requires spl <= IPL_HIGH && Cur(s, c).spl <= Cur(s, c).count && LevelSet(ops[i]) == Some((c, spl))
    ensures Told(boot, ops, i + 1, Levelled(s, c, spl))
  {
  }

  lemma LockTold(boot: State, ops: seq<Op>, i: nat, s: State, c: Cpu, l: Lock)
    requires i < |ops| && Told(boot, ops, i, s) && c in s.cores && s.cores[c].cur in s.threads
    requires ops[i] in {Spin(c, l), Get(c, l), Drop(c, l)} && l in s.holder
    requires ops[i].Drop? ==> Cur(s, c).count > 0 && s.cores[c].spinlocks > 0
    ensures Told(boot, ops, i + 1,
      if ops[i].Spin? then Spinning(s, c, l) else if ops[i].Get? then Got(s, c, l) else LetGo(s, c, l))
  {
  }

  lemma SwitchTold(boot: State, ops: seq<Op>, i: nat, s: State, c: Cpu, next: Tid)
    requires i < |ops| && Told(boot, ops, i, s) && c in s.cores && ops[i] == Switch(c, next)
    ensures Told(boot, ops, i + 1, Switched(s, c, next))
  {
  }

  lemma ForkTold(boot: State, ops: seq<Op>, i: nat, s: State, t: Tid)
    requires i < |ops| && Told(boot, ops, i, s) && ops[i] == Fork(t)
    ensures Told(boot, ops, i + 1, Forked(s, t))
  {
  }

  lemma StepTold(boot: State, ops: seq<Op>, i: nat, s: State)
    requires i < |ops| && Told(boot, ops, i, s) && Accounted(s) && Enabled(s, ops[i])
    ensures Told(boot, ops, i + 1, After(s, ops[i]))
  {
    hide Told, Levelled, Spinning, Got, LetGo, Switched, Forked, HeldBy, Idle, Owed;
    if !ops[i].Fork? {
      assert CoreOk(s, ops[i].c);
    }
    hide Accounted;
    match ops[i] {
      case SetLevel(c, spl) => LevelTold(boot, ops, i, s, c, spl);
      case Trap(c) => LevelTold(boot, ops, i, s, c, IPL_HIGH);
      case TrapReturn(c) => LevelTold(boot, ops, i, s, c, IPL_NONE);
      case Spin(c, l) => LockTold(boot, ops, i, s, c, l);
      case Get(c, l) => LockTold(boot, ops, i, s, c, l);
      case Drop(c, l) =>
        LetGoKeeps(s, c, l);
        LockTold(boot, ops, i, s, c, l);
      case Switch(c, next) => SwitchTold(boot, ops, i, s, c, next);
      case Fork(t) => ForkTold(boot, ops, i, s, t);
    }
  }

  /** Over every run: who runs, at which level, who holds and who spins on a lock is what the labels say. */
  lemma {:induction false} RunTold(ss: seq<State>, ops: seq<Op>, i: nat)
    requires Run(ss, ops) && i < |ss|
    ensures Told(ss[0], ops, i, ss[i])
  {
    hide Accounted, Boot, Told, Enabled, After;
    if i == 0 {
      BootTold(ss[0], ops);
    } else {
      RunTold(ss, ops, i - 1);
      RunAccounted(ss, ops, i - 1);
      StepTold(ss[0], ops, i - 1, ss[i - 1]);
    }
  }

  lemma BootTold(s: State, ops: seq<Op>)
    requires Boot(s)
    ensures Told(s, ops, 0, s)
  {
    forall t | t in s.threads ensures s.threads[t].spl == IPL_HIGH {
      assert !Idle(s, t);
    }
  }

  /**
    Over every run, on the labels alone: a processor takes interrupts exactly when the
    thread last switched to was last set to level 0, every lock the processor got was
    dropped again and it spins on none.
   */
  lemma InterruptHistory(ss: seq<State>, ops: seq<Op>, i: nat, c: Cpu)
    requires Run(ss, ops) && i < |ss| && c in ss[0].cores
    ensures c in ss[i].cores
    ensures ss[i].cores[c].irq <==>
      && LevelOf(ss[0], ops, i, RunnerOf(ss[0], ops, i, c)) == IPL_NONE
      && (forall l :: l in ss[0].holder ==> HolderOf(ops, i, l) != Some(c))
      && SpinsOn(ops, i, c) == None
  {
    RunTold(ss, ops, i);
    InterruptLaw(ss, ops, i, c);
    hide Run, Owed;
    if HeldBy(ss[i], c) != {} {
      var l :| l in HeldBy(ss[i], c);
      assert HolderOf(ops, i, l) == Some(c);
    } else {
      forall l | l in ss[0].holder ensures HolderOf(ops, i, l) != Some(c) {
        assert l !in HeldBy(ss[i], c);
      }
    }
  }

  // ------------------------------------------------------------------
  // The code

  class Machine {
    var threads: map<Tid, Thread>
    var cores: map<Cpu, Core>
    var holder: map<Lock, Option<Cpu>>

    ghost function Now(): State
      reads this
    {
      State(threads, cores, holder)
    }

    ghost predicate Valid()
      reads this
    {
      Accounted(Now())
    }

    predicate Exists(c: Cpu)
      reads this
    {
      c in cores && cores[c].cur in threads
    }

    /** splraise: interrupts go off on the first raise. */
    method Raise(c: Cpu, oldspl: nat, newspl: nat)
      requires Exists(c) && oldspl == IPL_NONE && newspl == IPL_HIGH
      requires cores[c].irq <==> threads[cores[c].cur].count == 0
      modifies `threads, `cores
      ensures cores == old(cores)[c := old(cores)[c].(irq := false)]
      ensures var t := old(threads[cores[c].cur]);
        threads == old(threads)[old(cores[c].cur) := t.(count := t.count + 1)]
    {
      var cur := cores[c].cur;
      if threads[cur].count == 0 {
        cores := cores[c := cores[c].(irq := false)];
      }
      threads := threads[cur := threads[cur].(count := threads[cur].count + 1)];
    }

    /** spllower: interrupts go on again only on the last lower. */
    method Lower(c: Cpu, oldspl: nat, newspl: nat)
      requires Exists(c) && oldspl == IPL_HIGH && newspl == IPL_NONE
      requires threads[cores[c].cur].count > 0 && !cores[c].irq
      modifies `threads, `cores
      ensures var t := old(threads[cores[c].cur]);
        && threads == old(threads)[old(cores[c].cur) := t.(count := t.count - 1)]
        && cores == old(cores)[c := old(cores)[c].(irq := t.count == 1)]
    {
      var cur := cores[c].cur;
      threads := threads[cur := threads[cur].(count := threads[cur].count - 1)];
      if threads[cur].count == 0 {
        cores := cores[c := cores[c].(irq := true)];
      }
    }

    /** splx; spl0 and splhigh are splx with the two levels. */
    method Splx(c: Cpu, spl: nat) returns (ret: nat)
      requires Valid() && c in cores && spl <= IPL_HIGH
      modifies `threads, `cores
      ensures old(CoreOk(Now(), c)) && ret == old(Cur(Now(), c).spl) && Now() == Levelled(old(Now()), c, spl) && Valid()
      ensures var cur, count := old(cores[c].cur), old(Cur(Now(), c).count) - ret + spl;
        && threads == old(threads)[cur := Thread(count, spl)]
        && cores == old(cores)[c := old(cores)[c].(irq := count == 0)]
      ensures spl == IPL_HIGH ==> !cores[c].irq
    {
      hide Accounted, HeldBy, Idle, Owed;
      LevelledKeeps(Now(), c, spl);
      ghost var s := Now();
      assert CoreOk(s, c);
      var cur := cores[c].cur;
      if threads[cur].spl < spl {
        Raise(c, threads[cur].spl, spl);
        ret := threads[cur].spl;
        threads := threads[cur := threads[cur].(spl := spl)];
      } else if threads[cur].spl > spl {
        ret := threads[cur].spl;
        threads := threads[cur := threads[cur].(spl := spl)];
        Lower(c, ret, spl);
      } else {
        ret := spl;
        assert cores[c].(irq := threads[cur].count == 0) == cores[c];
      }
      assert Now() == Levelled(s, c, spl);
    }

    /** s = splhigh(); splx(s): interrupts are off in between, and everything is as before afterwards. */
    method HighAndBack(c: Cpu) returns (ghost between: State)
      requires Valid() && c in cores
      modifies `threads, `cores
      ensures Now() == old(Now()) && c in between.cores && !between.cores[c].irq
    {
      hide Accounted, HeldBy, Idle, Owed, Levelled;
      LevelledKeeps(Now(), c, IPL_HIGH);
      var s := Splx(c, IPL_HIGH);
      between := Now();
      var high := Splx(c, s);
      assert threads == old(threads) && cores == old(cores);
    }

    /** spinlock_acquire up to the spin loop; a processor that holds the lock already panics. */
    method StartAcquire(c: Cpu, l: Lock)
      requires Valid() && c in cores && cores[c].spinning == None && l in holder && holder[l] != Some(c)
      modifies `threads, `cores
      ensures old(CoreOk(Now(), c)) && Now() == Spinning(old(Now()), c, l) && Valid()
    {
      hide Accounted, HeldBy, Idle, Owed;
      SpinningKeeps(Now(), c, l);
      ghost var s := Now();
      assert CoreOk(s, c);
      Raise(c, IPL_NONE, IPL_HIGH);
      cores := cores[c := cores[c].(spinlocks := cores[c].spinlocks + 1)];
      cores := cores[c := cores[c].(spinning := Some(l))];
      assert Now() == Spinning(s, c, l);
    }

    /** The test-and-set that finds the lock word clear. */
    method FinishAcquire(c: Cpu, l: Lock)
      requires Valid() && c in cores && cores[c].spinning == Some(l) && l in holder && holder[l] == None
      modifies `cores, `holder
      ensures Now() == Got(old(Now()), c, l) && Valid()
    {
      GotKeeps(Now(), c, l);
      cores := cores[c := cores[c].(spinning := None)];
      holder := holder[l := Some(c)];
    }

    /** spinlock_release, in any order with the other locks and with splx. */
    method Release(c: Cpu, l: Lock)
      requires Valid() && c in cores && cores[c].spinning == None && l in holder && holder[l] == Some(c)
      modifies `threads, `cores, `holder
      ensures old(CoreOk(Now(), c) && Cur(Now(), c).count > 0 && cores[c].spinlocks > 0)
      ensures Now() == LetGo(old(Now()), c, l) && Valid()
    {
      hide Accounted, HeldBy, Idle, Owed;
      LetGoKeeps(Now(), c, l);
      ghost var s := Now();
      assert CoreOk(s, c);
      cores := cores[c := cores[c].(spinlocks := cores[c].spinlocks - 1)];
      holder := holder[l := None];
      Lower(c, IPL_HIGH, IPL_NONE);
      assert Now() == LetGo(s, c, l);
    }

    /** thread_startup, coming out of the switch: the two counts given by thread_fork are just used up. */
    method Startup(c: Cpu) returns (was: nat)
      requires Valid() && c in cores && cores[c].spinning == None && HeldBy(Now(), c) == {RunQueue(c)}
      requires cores[c].cur in threads && threads[cores[c].cur] == Thread(2, IPL_HIGH)
      modifies `threads, `cores, `holder
      ensures Valid() && c in cores && cores[c].cur == old(cores[c].cur) && Exists(c)
      ensures threads[cores[c].cur] == Thread(0, IPL_NONE) && cores[c].irq && holder == old(holder)[RunQueue(c) := None]
    {
      assert RunQueue(c) in HeldBy(Now(), c);
      Release(c, RunQueue(c));
      was := Splx(c, IPL_NONE);
    }
  }
}
