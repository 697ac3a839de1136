/**
  The TLB as the fault handler uses it (kern/vm/vm_tlb.c, the slot choice in
  kern/vm/vm_project.c and the flush in kern/vm/addrspace.c).
 */
module Tlb {
  const NUM_TLB: nat := 64

  /** A slot is either empty or maps one page of the active address space to a frame. */
  datatype Slot = Invalid | Entry(vpn: nat, frame: nat)

  type Tlb = seq<Slot>

  function Empty(n: nat): (t: Tlb)
    ensures |t| == n && forall i :: 0 <= i < n ==> t[i] == Invalid
  {
    seq(n, _ => Invalid)
  }

  const EMPTY: Tlb := Empty(NUM_TLB)

  predicate Maps(t: Tlb, vpn: nat, frame: nat) {
    Entry(vpn, frame) in t
  }

  /** Some slot translates page `vpn`. */
  predicate Hit(t: Tlb, vpn: nat) {
    exists i :: 0 <= i < |t| && t[i].Entry? && t[i].vpn == vpn
  }

  /** At most one slot per page and at most one slot per frame. */
  ghost predicate Distinct(t: Tlb) {
    forall i, j :: 0 <= i < j < |t| && t[i].Entry? && t[j].Entry? ==>
      t[i].vpn != t[j].vpn && t[i].frame != t[j].frame
  }

  /** The frame field of a slot as `tlb_read` shows it: an empty slot reads 0. */
  function FrameField(s: Slot): nat {
    if s.Entry? then s.frame else 0
  }

  /** The first slot from `i` on whose frame field reads `f`, or the table length. */
  function FirstWithFrame(t: Tlb, f: nat, i: nat): (k: nat)
    requires i <= |t|
    ensures i <= k <= |t|
    ensures k < |t| ==> FrameField(t[k]) == f
    ensures forall j :: i <= j < k ==> FrameField(t[j]) != f
    decreases |t| - i
  {
    if i == |t| || FrameField(t[i]) == f then i else FirstWithFrame(t, f, i + 1)
  }

  /** What `invalidate_entry_by_paddr` does: it empties one slot and stops. */
  function InvalidateFirst(t: Tlb, f: nat): (r: Tlb)
    ensures |r| == |t|
  {
    var k := FirstWithFrame(t, f, 0);
    if k < |t| then t[k := Invalid] else t
  }

  /** Stopping at the first match is enough: no slot maps the frame afterwards, the others are untouched. */
  lemma InvalidateComplete(t: Tlb, f: nat)
    requires Distinct(t) && f != 0
    ensures var r := InvalidateFirst(t, f);
      forall i :: 0 <= i < |t| ==> r[i] == if t[i].Entry? && t[i].frame == f then Invalid else t[i]
  {
  }

  /** Slots the fault handler stops at: the very translation it wants, or an empty slot. */
  predicate Stops(s: Slot, vpn: nat, frame: nat) {
    s == Entry(vpn, frame) || s.Invalid?
  }

  function FirstStop(t: Tlb, vpn: nat, frame: nat, i: nat): (k: nat)
    requires i <= |t|
    ensures i <= k <= |t|
    ensures k < |t| ==> Stops(t[k], vpn, frame)
    ensures forall j :: i <= j < k ==> !Stops(t[j], vpn, frame)
    decreases |t| - i
  {
    if i == |t| || Stops(t[i], vpn, frame) then i else FirstStop(t, vpn, frame, i + 1)
  }

  /** Where the handler writes its translation; `rr` is the round-robin hand. */
  function ChooseSlot(t: Tlb, vpn: nat, frame: nat, rr: nat): (i: nat)
    requires rr < |t|
    ensures i < |t|
  {
    var k := FirstStop(t, vpn, frame, 0);
    if k < |t| then k else rr
  }

  /** The TLB once the handler has written its translation. */
  function Fill(t: Tlb, vpn: nat, frame: nat, rr: nat): (r: Tlb)
    requires rr < |t|
    ensures |r| == |t| && Maps(r, vpn, frame)
  {
    var i := ChooseSlot(t, vpn, frame, rr);
    assert t[i := Entry(vpn, frame)][i] == Entry(vpn, frame);
    t[i := Entry(vpn, frame)]
  }

  /** The handler counts a fault as served by a free slot or by a replacement. */
  predicate FillsFree(t: Tlb, vpn: nat, frame: nat) {
    var k := FirstStop(t, vpn, frame, 0);
    k < |t| && t[k].Invalid?
  }

  /** A slot that already translates `vpn` has no empty slot before it. */
  ghost predicate NoGapBefore(t: Tlb, vpn: nat) {
    forall i, k :: 0 <= i < k < |t| && t[k].Entry? && t[k].vpn == vpn ==> t[i].Entry?
  }

  /** Pages and frames in `t` other than the one being filled in. */
  ghost predicate AgreesOn(t: Tlb, vpn: nat, frame: nat) {
    forall i :: 0 <= i < |t| && t[i].Entry? ==> (t[i].vpn == vpn <==> t[i].frame == frame)
  }

  /**
    Filling keeps one slot per page and frame, provided an existing slot for
    the page is the right one and is found before any empty slot.
   */
  lemma FillDistinct(t: Tlb, vpn: nat, frame: nat, rr: nat)
    requires Distinct(t) && rr < |t| && NoGapBefore(t, vpn) && AgreesOn(t, vpn, frame)
    ensures Distinct(Fill(t, vpn, frame, rr)) && NoGapBefore(Fill(t, vpn, frame, rr), vpn)
    ensures forall i :: 0 <= i < |t| ==>
      var r := Fill(t, vpn, frame, rr); r[i] == Entry(vpn, frame) || r[i] == t[i]
  {
    var k := FirstStop(t, vpn, frame, 0);
    var i := ChooseSlot(t, vpn, frame, rr);
    forall j | 0 <= j < |t| && j != i && t[j].Entry?
      ensures t[j].vpn != vpn && t[j].frame != frame
    {
      if t[j].vpn == vpn || t[j].frame == frame {
        assert t[j] == Entry(vpn, frame) && Stops(t[j], vpn, frame);
      }
    }
  }

  // ------------------------------------------------------------------
  // Replacement in turn

  /** Where the hand stands after a fault was served. */
  function HandAfter(t: Tlb, vpn: nat, frame: nat, rr: nat): nat {
    if FirstStop(t, vpn, frame, 0) < |t| then rr else (rr + 1) % NUM_TLB
  }

  /** A full TLB and the hand. */
  datatype Full = Full(t: Tlb, rr: nat)

  ghost predicate FullOk(x: Full) {
    |x.t| == NUM_TLB && x.rr < NUM_TLB && forall i :: 0 <= i < NUM_TLB ==> x.t[i].Entry?
  }

  /** After faults that write the translations `es`, one after the other. */
  ghost function Served(x: Full, es: seq<Slot>): (y: Full)
    requires |x.t| == NUM_TLB && x.rr < NUM_TLB && forall i :: 0 <= i < |es| ==> es[i].Entry?
    ensures |y.t| == NUM_TLB && y.rr < NUM_TLB
  {
    if es == [] then x else
      var n := |es| - 1;
      var y := Served(x, es[..n]);
      Full(Fill(y.t, es[n].vpn, es[n].frame, y.rr), HandAfter(y.t, es[n].vpn, es[n].frame, y.rr))
  }

  /** The translations are new to the TLB and to each other. */
  ghost predicate AllNew(t: Tlb, es: seq<Slot>) {
    && (forall i :: 0 <= i < |es| ==> es[i].Entry? && es[i] !in t)
    && (forall i, j :: 0 <= i < j < |es| ==> es[i] != es[j])
  }

  /** The slot that the `k`-th fault replaces. */
  function Turn(rr: nat, k: nat): (i: nat)
    ensures i < NUM_TLB
  {
    (rr + k) % NUM_TLB
  }

  lemma FillFull(t: Tlb, e: Slot, rr: nat)
    requires |t| == NUM_TLB && rr < NUM_TLB && e.Entry? && e !in t && forall i :: 0 <= i < NUM_TLB ==> t[i].Entry?
    ensures Fill(t, e.vpn, e.frame, rr) == t[rr := e] && HandAfter(t, e.vpn, e.frame, rr) == Turn(rr, 1)
  {
  }

  lemma TurnsDiffer(rr: nat, k: nat, n: nat)
    requires k < n < NUM_TLB
    ensures Turn(rr, k) != Turn(rr, n)
  {
  }

  lemma TurnNext(rr: nat, n: nat)
    ensures Turn(Turn(rr, n), 1) == Turn(rr, n + 1)
  {
  }

  /** Slot `i` is not among the first `n` to be replaced. */
  ghost predicate Later(rr: nat, n: nat, i: nat) {
    forall k :: 0 <= k < n ==> Turn(rr, k) != i
  }

  /** The translations `es` are in the slots whose turn it was, and the other slots are as before. */
  ghost predicate InTurn(x: Full, y: Full, es: seq<Slot>) {
    && FullOk(y) && |x.t| == NUM_TLB && y.rr == Turn(x.rr, |es|)
    && (forall k :: 0 <= k < |es| ==> y.t[Turn(x.rr, k)] == es[k])
    && (forall i :: 0 <= i < NUM_TLB && Later(x.rr, |es|, i) ==> y.t[i] == x.t[i])
  }

  lemma StillNew(x: Full, y: Full, es: seq<Slot>, n: nat)
    requires AllNew(x.t, es) && n < |es| && InTurn(x, y, es[..n])
    ensures es[n] !in y.t
  {
    hide Turn;
    forall i | 0 <= i < NUM_TLB ensures y.t[i] != es[n] {
      if Later(x.rr, n, i) {
        assert y.t[i] == x.t[i] && x.t[i] in x.t;
      } else {
        var k :| 0 <= k < n && Turn(x.rr, k) == i;
        assert y.t[i] == es[..n][k];
      }
    }
  }

  lemma InTurnNext(x: Full, y: Full, es: seq<Slot>, e: Slot)
    requires InTurn(x, y, es) && |es| < NUM_TLB && e.Entry?
    ensures InTurn(x, Full(y.t[y.rr := e], Turn(y.rr, 1)), es + [e])
  {
    hide Turn;
    var n, z := |es|, Full(y.t[y.rr := e], Turn(y.rr, 1));
    TurnNext(x.rr, n);
    forall k | 0 <= k < n + 1 ensures z.t[Turn(x.rr, k)] == (es + [e])[k] {
      if k < n {
        TurnsDiffer(x.rr, k, n);
      }
    }
    forall i | 0 <= i < NUM_TLB && Later(x.rr, n + 1, i) ensures z.t[i] == x.t[i] {
      assert Turn(x.rr, n) != i && Later(x.rr, n, i);
    }
  }

  /**
    In a full TLB up to 64 new translations replace one slot each, in turn from the hand: all
    of them are there afterwards, and what they replaced is the oldest.
   */
  lemma {:induction false} ReplacedInTurn(x: Full, es: seq<Slot>)
    requires FullOk(x) && AllNew(x.t, es) && |es| <= NUM_TLB
    ensures InTurn(x, Served(x, es), es)
  {
    if es != [] {
      var n := |es| - 1;
      var y := Served(x, es[..n]);
      ReplacedInTurn(x, es[..n]);
      StillNew(x, y, es, n);
      FillFull(y.t, es[n], y.rr);
      InTurnNext(x, y, es[..n], es[n]);
      assert es[..n] + [es[n]] == es;
      hide Turn, InTurn;
    }
  }

  // ------------------------------------------------------------------
  // The registers, updated in place

  class Registers {
    const slots: array<Slot>
    var next: nat

    ghost predicate Valid()
      reads this
    {
      slots.Length == NUM_TLB && next < NUM_TLB
    }

    constructor ()
      ensures Valid() && fresh(slots) && slots[..] == EMPTY && next == 0
    {
      slots := new Slot[NUM_TLB](_ => Invalid);
      next := 0;
    }

    /** `tlb_get_rr_victim` */
    method NextVictim() returns (victim: nat)
      requires Valid()
      modifies this`next
      ensures Valid() && victim == old(next) && next == (old(next) + 1) % NUM_TLB
    {
      victim := next;
      next := (next + 1) % NUM_TLB;
    }

    /** `invalidate_entry_by_paddr` */
    method Invalidate(frame: nat)
      requires Valid()
      modifies slots
      ensures Valid() && slots[..] == InvalidateFirst(old(slots[..]), frame)
    {
      ghost var t := slots[..];
      for i := 0 to NUM_TLB
        invariant slots[..] == t
        invariant FirstWithFrame(t, frame, 0) == FirstWithFrame(t, frame, i)
      {
        if FrameField(slots[i]) == frame {
          slots[i] := Invalid;
          break;
        }
      }
    }

    /** The flush in `as_activate`. */
    method Flush()
      requires Valid()
      modifies slots
      ensures Valid() && slots[..] == EMPTY
    {
      for i := 0 to NUM_TLB
        invariant forall k :: 0 <= k < i ==> slots[k] == Invalid
      {
        slots[i] := Invalid;
      }
    }

    /** The search and write at the end of `vm_fault`. */
    method Install(vpn: nat, frame: nat) returns (free: bool)
      requires Valid()
      modifies slots, this`next
      ensures Valid() && slots[..] == Fill(old(slots[..]), vpn, frame, old(next))
      ensures free == FillsFree(old(slots[..]), vpn, frame)
      ensures next == HandAfter(old(slots[..]), vpn, frame, old(next))
    {
      ghost var t := slots[..];
      var i := 0;
      while i < NUM_TLB && !Stops(slots[i], vpn, frame)
        invariant 0 <= i <= NUM_TLB && slots[..] == t
        invariant FirstStop(t, vpn, frame, 0) == FirstStop(t, vpn, frame, i)
      {
        i := i + 1;
      }
      free := i < NUM_TLB && slots[i].Invalid?;
      if i == NUM_TLB {
        i := NextVictim();
      }
      slots[i] := Entry(vpn, frame);
    }
  }
}
