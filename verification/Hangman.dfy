/**
  The deadlock detector (kern/thread/hangman.c). An actor waits for at most one
  lockable and a lockable is held by at most one actor, so the waits-for graph is a
  partial function on actors and looking for a cycle is a walk.
 */
module Hangman {

  class Actor {
    var waiting: Lockable?
    constructor ()
      ensures waiting == null
    {
      waiting := null;
    }
  }

  class Lockable {
    var holding: Actor?
    constructor ()
      ensures holding == null
    {
      holding := null;
    }
  }

  /** The fields of all actors and lockables at one moment. */
  datatype Graph = Graph(waits: map<Actor, Lockable?>, holds: map<Lockable, Actor?>)

  ghost function Snapshot(actors: set<Actor>, locks: set<Lockable>): Graph
    reads actors, locks
  {
    Graph(map a | a in actors :: a.waiting, map l | l in locks :: l.holding)
  }

  ghost predicate Closed(g: Graph) {
    && (forall a :: a in g.waits && g.waits[a] != null ==> g.waits[a] in g.holds)
    && (forall l :: l in g.holds && g.holds[l] != null ==> g.holds[l] in g.waits)
  }

  /** The actor that `a` is waiting for, if any. */
  ghost function Next(g: Graph, a: Actor): (r: Actor?)
    requires Closed(g) && a in g.waits
    ensures r != null ==> r in g.waits
  {
    if g.waits[a] == null then null else g.holds[g.waits[a]]
  }

  /** The actor `k` steps along the waits-for graph from `a`. */
  ghost function Chain(g: Graph, a: Actor, k: nat): (r: Actor?)
    requires Closed(g) && a in g.waits
    ensures r != null ==> r in g.waits
  {
    if k == 0 then a else
      var b := Chain(g, a, k - 1);
      if b == null then null else Next(g, b)
  }

  ghost predicate Acyclic(g: Graph)
    requires Closed(g)
  {
    forall a, k: nat :: a in g.waits && k >= 1 ==> Chain(g, a, k) != a
  }

  /** A path leads from lockable `l` to `target`: what hangman_check looks for. */
  ghost predicate Leads(g: Graph, l: Lockable, target: Actor)
    requires Closed(g) && l in g.holds
  {
    g.holds[l] != null && exists k: nat :: Chain(g, g.holds[l], k) == target
  }

  // ------------------------------------------------------------------
  // Chains

  lemma {:induction false} ChainAdd(g: Graph, a: Actor, i: nat, j: nat)
    requires Closed(g) && a in g.waits && Chain(g, a, i) != null
    ensures Chain(g, a, i + j) == Chain(g, Chain(g, a, i), j)
  {
    if j > 0 {
      ChainAdd(g, a, i, j - 1);
    }
  }

  lemma {:induction false} ChainStops(g: Graph, a: Actor, i: nat, j: nat)
    requires Closed(g) && a in g.waits && i <= j && Chain(g, a, i) == null
    ensures Chain(g, a, j) == null
  {
    if i < j {
      ChainStops(g, a, i, j - 1);
    }
  }

  /** In an acyclic graph a chain never comes back to an actor it has left. */
  lemma NoReturn(g: Graph, a: Actor, i: nat, j: nat)
    requires Closed(g) && Acyclic(g) && a in g.waits && i < j && Chain(g, a, i) != null
    ensures Chain(g, a, j) != Chain(g, a, i)
  {
    ChainAdd(g, a, i, j - i);
  }

  /** Two graphs that differ only in edges the chain does not use. */
  lemma {:induction false} SameChain(g: Graph, g': Graph, a: Actor, b: Actor, k: nat)
    requires Closed(g) && Closed(g') && g.waits.Keys == g'.waits.Keys && b in g.waits
    requires forall c :: c in g.waits && c != a ==> Next(g, c) == Next(g', c)
    requires forall i: nat :: i < k ==> Chain(g, b, i) != a
    ensures Chain(g, b, k) == Chain(g', b, k)
  {
    if k > 0 {
      SameChain(g, g', a, b, k - 1);
    }
  }

  /** The first time a chain meets an actor. */
  lemma FirstMeeting(g: Graph, b: Actor, a: Actor, k: nat) returns (m: nat)
    requires Closed(g) && b in g.waits && Chain(g, b, k) == a
    ensures m <= k && Chain(g, b, m) == a && forall i: nat :: i < m ==> Chain(g, b, i) != a
  {
    m := 0;
    while Chain(g, b, m) != a
      invariant m <= k && forall i: nat :: i < m ==> Chain(g, b, i) != a
      decreases k - m
    {
      m := m + 1;
    }
  }

  // ------------------------------------------------------------------
  // What the three operations do to the graph

  ghost function Waiting(g: Graph, a: Actor, l: Lockable): Graph {
    g.(waits := g.waits[a := l])
  }

  ghost function Acquired(g: Graph, a: Actor, l: Lockable): Graph {
    Graph(g.waits[a := null], g.holds[l := a])
  }

  ghost function Released(g: Graph, l: Lockable): Graph {
    g.(holds := g.holds[l := null])
  }

  /** The new edge closes a cycle exactly when a path already led from the lockable to the actor. */
  lemma WaitCloses(g: Graph, a: Actor, l: Lockable)
    requires Closed(g) && Acyclic(g) && a in g.waits && l in g.holds && g.waits[a] == null
    ensures Closed(Waiting(g, a, l))
    ensures Acyclic(Waiting(g, a, l)) <==> !Leads(g, l, a)
  {
    var g' := Waiting(g, a, l);
    if Leads(g, l, a) {
      var k: nat :| Chain(g, g.holds[l], k) == a;
      LeadsCloses(g, a, l, k);
    } else {
      forall b, k: nat | b in g'.waits && k >= 1 ensures Chain(g', b, k) != b {
        if Chain(g', b, k) == b {
          CycleLeads(g, a, l, b, k);
        }
      }
    }
  }

  lemma LeadsCloses(g: Graph, a: Actor, l: Lockable, k: nat)
    requires Closed(g) && a in g.waits && l in g.holds && g.waits[a] == null
    requires g.holds[l] != null && Chain(g, g.holds[l], k) == a
    ensures Closed(Waiting(g, a, l)) && !Acyclic(Waiting(g, a, l))
  {
    var g', h := Waiting(g, a, l), g.holds[l];
    var m := FirstMeeting(g, h, a, k);
    SameChain(g, g', a, h, m);
    assert Chain(g', a, 0) == a && Next(g', a) == h;
    assert Chain(g', a, 1) == h;
    ChainAdd(g', a, 1, m);
    assert Chain(g', a, 1 + m) == a;
  }

  lemma CycleLeads(g: Graph, a: Actor, l: Lockable, b: Actor, k: nat)
    requires Closed(g) && Acyclic(g) && a in g.waits && l in g.holds && g.waits[a] == null
    requires Closed(Waiting(g, a, l)) && b in g.waits && k >= 1 && Chain(Waiting(g, a, l), b, k) == b
    ensures Leads(g, l, a)
  {
    var g' := Waiting(g, a, l);
    if forall i: nat :: i < k ==> Chain(g', b, i) != a {
      SameChain(g', g, a, b, k);
    } else {
      var i: nat :| i < k && Chain(g', b, i) == a;
      ChainAdd(g', b, i, k - i);
      ChainAdd(g', a, k - i, i);
      assert Chain(g', a, k) == a;
      CycleThrough(g, a, l, k);
    }
  }

  lemma CycleThrough(g: Graph, a: Actor, l: Lockable, k: nat)
    requires Closed(g) && a in g.waits && l in g.holds && g.waits[a] == null
    requires Closed(Waiting(g, a, l)) && k >= 1 && Chain(Waiting(g, a, l), a, k) == a
    ensures Leads(g, l, a)
  {
    var g', h := Waiting(g, a, l), g.holds[l];
    assert Chain(g', a, 0) == a;
    assert Chain(g', a, 1) == h;
    if h == null {
      ChainStops(g', a, 1, k);
    } else {
      ChainAdd(g', a, 1, k - 1);
      var m := FirstMeeting(g', h, a, k - 1);
      SameChain(g', g, a, h, m);
      assert Chain(g, h, m) == a;
    }
  }

  /** Redirecting edges into an actor that waits for nothing, or cutting them, closes no cycle. */
  lemma IntoSink(g: Graph, g': Graph, a: Actor)
    requires Closed(g) && Acyclic(g) && Closed(g') && g.waits.Keys == g'.waits.Keys
    requires a in g.waits && g'.waits[a] == null
    requires forall b :: b in g.waits && b != a ==> Next(g', b) in {Next(g, b), a, null}
    ensures Acyclic(g')
  {
    forall b, k: nat | b in g'.waits && k >= 1 ensures Chain(g', b, k) != b {
      if Chain(g', b, k) == b {
        forall i: nat | i <= k ensures Chain(g', b, i) != null && Chain(g', b, i) != a {
          OnCycle(g', b, k, i);
        }
        AwayFromSink(g, g', a, b, k);
      }
    }
  }

  /** Every actor of a cycle has a successor. */
  lemma OnCycle(g: Graph, b: Actor, k: nat, i: nat)
    requires Closed(g) && b in g.waits && k >= 1 && Chain(g, b, k) == b && i <= k
    ensures Chain(g, b, i) != null && Next(g, Chain(g, b, i)) != null
  {
    if Chain(g, b, i) == null {
      ChainStops(g, b, i, k);
    } else if i < k {
      assert Chain(g, b, i + 1) == Next(g, Chain(g, b, i));
      if Chain(g, b, i + 1) == null {
        ChainStops(g, b, i + 1, k);
      }
    } else {
      OnCycle(g, b, k, 0);
    }
  }

  lemma {:induction false} AwayFromSink(g: Graph, g': Graph, a: Actor, b: Actor, k: nat)
    requires Closed(g) && Closed(g') && g.waits.Keys == g'.waits.Keys && b in g.waits
    requires forall c :: c in g.waits && c != a ==> Next(g', c) in {Next(g, c), a, null}
    requires forall i: nat :: i <= k ==> Chain(g', b, i) != null && Chain(g', b, i) != a
    ensures Chain(g, b, k) == Chain(g', b, k)
  {
    if k > 0 {
      AwayFromSink(g, g', a, b, k - 1);
      assert Chain(g', b, k) == Next(g', Chain(g', b, k - 1));
    }
  }

  lemma AcquireKeeps(g: Graph, a: Actor, l: Lockable)
    requires Closed(g) && Acyclic(g) && a in g.waits && l in g.holds
    requires g.waits[a] == l && g.holds[l] == null
    ensures Closed(Acquired(g, a, l)) && Acyclic(Acquired(g, a, l))
  {
    IntoSink(g, Acquired(g, a, l), a);
  }

  lemma ReleaseKeeps(g: Graph, a: Actor, l: Lockable)
    requires Closed(g) && Acyclic(g) && a in g.waits && l in g.holds
    requires g.waits[a] == null && g.holds[l] == a
    ensures Closed(Released(g, l)) && Acyclic(Released(g, l))
  {
    IntoSink(g, Released(g, l), a);
  }

  /** `b` is among the first `k` actors of the chain from `a`. */
  ghost predicate Before(g: Graph, a: Actor, k: nat, b: Actor)
    requires Closed(g) && a in g.waits
  {
    exists i: nat :: i < k && Chain(g, a, i) == b
  }

  /** Some actor up the chain from `a` is not waiting, or waits for something nobody holds. */
  ghost predicate CanRun(g: Graph, a: Actor)
    requires Closed(g) && a in g.waits
  {
    exists k: nat :: Chain(g, a, k) != null && Next(g, Chain(g, a, k)) == null
  }

  /** What acyclicity is for: whoever waits, someone up the chain can go on. */
  lemma SomeoneCanRun(g: Graph, a: Actor)
    requires Closed(g) && Acyclic(g) && a in g.waits
    ensures CanRun(g, a)
  {
    var k: nat, seen: set<Actor> := 0, {};
    while Next(g, Chain(g, a, k)) != null
      invariant Chain(g, a, k) != null && seen <= g.waits.Keys
      invariant forall b :: b in seen ==> Before(g, a, k, b)
      decreases |g.waits.Keys - seen|
    {
      Fresh(g, a, k, seen);
      var was := g.waits.Keys - seen;
      seen := seen + {Chain(g, a, k)};
      assert g.waits.Keys - seen == was - {Chain(g, a, k)};
      k := k + 1;
    }
  }

  /** The walk so far: the first `k` actors of the chain, none of them the target. */
  ghost predicate Walked(g: Graph, h: Actor, target: Actor, k: nat, seen: set<Actor>)
    requires Closed(g)
  {
    && h in g.waits && seen <= g.waits.Keys
    && (forall i: nat :: i < k ==> Chain(g, h, i) != target)
    && (forall b :: b in seen ==> Before(g, h, k, b))
  }

  lemma WalkStarts(g: Graph, h: Actor, target: Actor)
    requires Closed(g) && h in g.waits
    ensures Walked(g, h, target, 0, {}) && Chain(g, h, 0) == h
  {
  }

  /** One step of the walk visits an actor not seen before. */
  lemma WalkOn(g: Graph, h: Actor, target: Actor, k: nat, seen: set<Actor>) returns (seen': set<Actor>)
    requires Closed(g) && Acyclic(g) && Walked(g, h, target, k, seen)
    requires Chain(g, h, k) != null && Chain(g, h, k) != target
    ensures Walked(g, h, target, k + 1, seen') && |g.waits.Keys - seen'| < |g.waits.Keys - seen|
  {
    Fresh(g, h, k, seen);
    seen' := seen + {Chain(g, h, k)};
    assert g.waits.Keys - seen' == g.waits.Keys - seen - {Chain(g, h, k)};
  }

  lemma NotReached(g: Graph, h: Actor, target: Actor, k: nat, seen: set<Actor>)
    requires Closed(g) && Walked(g, h, target, k, seen) && Chain(g, h, k) == null
    ensures forall i: nat :: Chain(g, h, i) != target
  {
    forall i: nat ensures Chain(g, h, i) != target {
      if i >= k {
        ChainStops(g, h, k, i);
      }
    }
  }

  ghost function Enrolled(g: Graph, a: Actor, l: Lockable): Graph {
    Graph(g.waits[a := null], g.holds[l := null])
  }

  lemma EnrollKeeps(g: Graph, a: Actor, l: Lockable)
    requires Closed(g) && Acyclic(g) && a !in g.waits && l !in g.holds
    ensures Closed(Enrolled(g, a, l)) && Acyclic(Enrolled(g, a, l))
  {
    var g' := Enrolled(g, a, l);
    forall b, k: nat | b in g'.waits && k >= 1 ensures Chain(g', b, k) != b {
      if b == a {
        assert Chain(g', a, 0) == a;
        ChainStops(g', a, 1, k);
      } else {
        Enlarged(g, g', b, k);
      }
    }
  }

  /** A new actor and a new lockable, in no edge, leave the chains of the others alone. */
  lemma {:induction false} Enlarged(g: Graph, g': Graph, b: Actor, k: nat)
    requires Closed(g) && Closed(g') && b in g.waits && g.waits.Keys <= g'.waits.Keys && g.holds.Keys <= g'.holds.Keys
    requires forall c :: c in g.waits ==> g.waits[c] == g'.waits[c]
    requires forall l :: l in g.holds ==> g.holds[l] == g'.holds[l]
    ensures Chain(g, b, k) == Chain(g', b, k)
  {
    if k > 0 {
      Enlarged(g, g', b, k - 1);
    }
  }

  lemma Fresh(g: Graph, a: Actor, k: nat, seen: set<Actor>)
    requires Closed(g) && Acyclic(g) && a in g.waits && Chain(g, a, k) != null
    requires forall b :: b in seen ==> Before(g, a, k, b)
    ensures Chain(g, a, k) !in seen
  {
    if Chain(g, a, k) in seen {
      var i: nat :| i < k && Chain(g, a, i) == Chain(g, a, k);
      NoReturn(g, a, i, k);
    }
  }

  /** From a lock of an actor that waits for nothing the path ends at that actor. */
  lemma Idle(g: Graph, b: Actor, m: Lockable, a: Actor)
    requires Closed(g) && m in g.holds && g.holds[m] == b && g.waits[b] == null && a != b
    ensures !Leads(g, m, a)
  {
    forall k: nat ensures Chain(g, b, k) != a {
      if k > 0 {
        assert Chain(g, b, 0) == b;
        ChainStops(g, b, 1, k);
      }
    }
  }

  /** From a lock of an actor that waits for a lock of another a path leads to the other. */
  lemma Held(g: Graph, a: Actor, l: Lockable, b: Actor, m: Lockable)
    requires Closed(g) && l in g.holds && m in g.holds && g.holds[l] == a && g.holds[m] == b && g.waits[a] == m
    ensures Leads(g, l, b)
  {
    assert Chain(g, a, 0) == a;
    assert Chain(g, a, 1) == b;
  }

  // ------------------------------------------------------------------
  // Runs

  datatype Op = Waits(a: Actor, l: Lockable) | Acquires(a: Actor, l: Lockable) | Releases(a: Actor, l: Lockable)

  /** The call does not panic. */
  ghost predicate Allowed(g: Graph, op: Op) {
    && Closed(g) && op.a in g.waits && op.l in g.holds
    && match op
       case Waits(a, l) => g.waits[a] == null && !Leads(g, l, a)
       case Acquires(a, l) => g.waits[a] == l && g.holds[l] == null
       case Releases(a, l) => g.waits[a] == null && g.holds[l] == a
  }

  ghost function After(g: Graph, op: Op): Graph {
    match op
    case Waits(a, l) => Waiting(g, a, l)
    case Acquires(a, l) => Acquired(g, a, l)
    case Releases(a, l) => Released(g, l)
  }

  ghost predicate PanicFree(g: Graph, ops: seq<Op>)
    decreases |ops|
  {
    ops == [] || (Allowed(g, ops[0]) && PanicFree(After(g, ops[0]), ops[1..]))
  }

  ghost function Final(g: Graph, ops: seq<Op>): Graph
    decreases |ops|
  {
    if ops == [] then g else Final(After(g, ops[0]), ops[1..])
  }

  /** After every panic-free run the graph is acyclic, so whoever waits, someone can go on. */
  lemma {:induction false} RunAcyclic(g: Graph, ops: seq<Op>)
    requires Closed(g) && Acyclic(g) && PanicFree(g, ops)
    ensures Closed(Final(g, ops)) && Acyclic(Final(g, ops)) && Final(g, ops).waits.Keys == g.waits.Keys
    ensures forall a :: a in g.waits ==> CanRun(Final(g, ops), a)
    decreases |ops|
  {
    if ops == [] {
      forall a | a in g.waits ensures CanRun(g, a) {
        SomeoneCanRun(g, a);
      }
    } else {
      hide Allowed, After, Acyclic;
      StepAcyclic(g, ops[0]);
      RunAcyclic(After(g, ops[0]), ops[1..]);
    }
  }

  /** The holder of `l` after the run, from the labels: the last to acquire it, unless it was released since. */
  ghost function HolderAfter(h: Actor?, ops: seq<Op>, l: Lockable): Actor?
    decreases |ops|
  {
    if ops == [] then h else
      var h' := match ops[0]
        case Acquires(a, m) => if m == l then a else h
        case Releases(a, m) => if m == l then null else h
        case Waits(a, m) => h;
      HolderAfter(h', ops[1..], l)
  }

  /** What `a` waits for after the run, from the labels: the last it asked for, unless it got it since. */
  ghost function WaitsAfter(w: Lockable?, ops: seq<Op>, a: Actor): Lockable?
    decreases |ops|
  {
    if ops == [] then w else
      var w' := match ops[0]
        case Waits(b, m) => if b == a then m else w
        case Acquires(b, m) => if b == a then null else w
        case Releases(b, m) => w;
      WaitsAfter(w', ops[1..], a)
  }

  /** After every run the graph says who holds and who waits for what as the labels do. */
  lemma {:induction false} RunTold(g: Graph, ops: seq<Op>, a: Actor, l: Lockable)
    requires PanicFree(g, ops) && a in g.waits && l in g.holds
    ensures a in Final(g, ops).waits && Final(g, ops).waits[a] == WaitsAfter(g.waits[a], ops, a)
    ensures l in Final(g, ops).holds && Final(g, ops).holds[l] == HolderAfter(g.holds[l], ops, l)
    decreases |ops|
  {
    if ops != [] {
      RunTold(After(g, ops[0]), ops[1..], a, l);
    }
  }

  lemma StepAcyclic(g: Graph, op: Op)
    requires Closed(g) && Acyclic(g) && Allowed(g, op)
    ensures Closed(After(g, op)) && Acyclic(After(g, op)) && After(g, op).waits.Keys == g.waits.Keys
  {
    hide Acyclic;
    match op {
      case Waits(a, l) => WaitCloses(g, a, l);
      case Acquires(a, l) => AcquireKeeps(g, a, l);
      case Releases(a, l) => ReleaseKeeps(g, a, l);
    }
  }

  // ------------------------------------------------------------------
  // The detector

  /** How a call ends: normally, without effect on the detector's own lock, or in a panic. */
  datatype Verdict = Done | Ignored | AlreadyWaiting | Deadlock | NotWaiting | StillHeld | NotHolder

  class Detector {
    ghost var actors: set<Actor>
    ghost var locks: set<Lockable>
    /** The lockable of hangman_lock itself, which is not tracked. */
    const own: Lockable

    ghost function Now(): Graph
      reads this, actors, locks
    {
      Snapshot(actors, locks)
    }

    ghost predicate Valid()
      reads this, actors, locks
    {
      Closed(Now()) && Acyclic(Now())
    }

    constructor ()
      ensures Valid() && actors == {} && locks == {} && fresh(own)
    {
      own := new Lockable();
      actors, locks := {}, {};
    }

    /** HANGMAN_ACTORINIT and HANGMAN_LOCKABLEINIT: a new object is on no path. */
    method Enroll(ghost a: Actor, ghost l: Lockable)
      requires Valid() && a !in actors && l !in locks && a.waiting == null && l.holding == null
      modifies this
      ensures Valid() && actors == old(actors) + {a} && locks == old(locks) + {l}
    {
      ghost var g := Now();
      actors, locks := actors + {a}, locks + {l};
      assert Now() == Enrolled(g, a, l);
      EnrollKeeps(g, a, l);
    }

    /** hangman_check: the walk ends, and finds the target exactly when a path leads to it. */
    method Check(start: Lockable, target: Actor) returns (found: bool)
      requires Valid() && start in locks && target in actors
      ensures found <==> Leads(Now(), start, target)
    {
      hide Walked, Before, Acyclic;
      ghost var g := Now();
      assert g.holds[start] == start.holding;
      ghost var k: nat, seen: set<Actor> := 0, {};
      var cur := start.holding;
      if cur != null {
        WalkStarts(g, cur, target);
      }
      while cur != null
        invariant start.holding == null ==> cur == null
        invariant start.holding != null ==>
          Walked(g, start.holding, target, k, seen) && cur == Chain(g, start.holding, k)
        decreases |g.waits.Keys - seen|
      {
        if cur == target {
          return true;
        }
        assert g.waits[cur] == cur.waiting;
        seen := WalkOn(g, start.holding, target, k, seen);
        if cur.waiting == null {
          NotReached(g, start.holding, target, k + 1, seen);
          return false;
        }
        cur := cur.waiting.holding;
        k := k + 1;
      }
      if start.holding != null {
        NotReached(g, start.holding, target, k, seen);
      }
      found := false;
    }

    /** hangman_wait: the edge is added unless it would close a cycle. */
    method Wait(a: Actor, l: Lockable) returns (v: Verdict)
      requires Valid() && a in actors && (l in locks || l == own)
      modifies a
      ensures Valid()
      ensures v == if l == own then Ignored
                   else if old(a.waiting) != null then AlreadyWaiting
                   else if old(Leads(Now(), l, a)) then Deadlock
                   else Done
      ensures Now() == if v == Done then Waiting(old(Now()), a, l) else old(Now())
      ensures v == Done ==> a.waiting == l
    {
      if l == own {
        return Ignored;
      }
      if a.waiting != null {
        return AlreadyWaiting;
      }
      var found := Check(l, a);
      if found {
        return Deadlock;
      }
      ghost var g := Now();
      WaitCloses(g, a, l);
      a.waiting := l;
      assert Now() == Waiting(g, a, l);
      v := Done;
    }

    /** hangman_acquire */
    method Acquire(a: Actor, l: Lockable) returns (v: Verdict)
      requires Valid() && a in actors && (l in locks || l == own)
      modifies a, l
      ensures Valid()
      ensures v == if l == own then Ignored
                   else if old(a.waiting) != l then NotWaiting
                   else if old(l.holding) != null then StillHeld
                   else Done
      ensures Now() == if v == Done then Acquired(old(Now()), a, l) else old(Now())
      ensures v == Done ==> l.holding == a && a.waiting == null
    {
      if l == own {
        return Ignored;
      }
      if a.waiting != l {
        return NotWaiting;
      }
      if l.holding != null {
        return StillHeld;
      }
      ghost var g := Now();
      AcquireKeeps(g, a, l);
      l.holding := a;
      a.waiting := null;
      assert Now() == Acquired(g, a, l);
      v := Done;
    }

    /** hangman_release */
    method Release(a: Actor, l: Lockable) returns (v: Verdict)
      requires Valid() && a in actors && (l in locks || l == own)
      modifies l
      ensures Valid()
      ensures v == if l == own then Ignored
                   else if old(a.waiting) != null then AlreadyWaiting
                   else if old(l.holding) != a then NotHolder
                   else Done
      ensures Now() == if v == Done then Released(old(Now()), l) else old(Now())
      ensures v == Done ==> l.holding == null
    {
      if l == own {
        return Ignored;
      }
      if a.waiting != null {
        return AlreadyWaiting;
      }
      if l.holding != a {
        return NotHolder;
      }
      ghost var g := Now();
      ReleaseKeeps(g, a, l);
      l.holding := null;
      assert Now() == Released(g, l);
      v := Done;
    }

    /** An idle actor takes a free lock. */
    method Lock(a: Actor, l: Lockable) returns (v: Verdict)
      requires Valid() && a in actors && l in locks && l != own && a.waiting == null && l.holding == null
      modifies a, l
      ensures Valid() && v == Done && l.holding == a && a.waiting == null
    {
      v := Wait(a, l);
      v := Acquire(a, l);
    }

    /** Two actors that take two locks crosswise: the second to ask for the other's lock is stopped. */
    method Crosswise(a: Actor, b: Actor, l: Lockable, m: Lockable) returns (first: Verdict, second: Verdict)
      requires Valid() && a in actors && b in actors && a != b && a.waiting == null && b.waiting == null
      requires l in locks && m in locks && l != m && own != l && own != m && l.holding == null && m.holding == null
      modifies a, b, l, m
      ensures Valid() && first == Done && second == Deadlock
    {
      var v := Lock(a, l);
      v := Lock(b, m);
      Idle(Now(), b, m, a);
      first := Wait(a, m);
      Held(Now(), a, l, b, m);
      second := Wait(b, l);
    }
  }
}
