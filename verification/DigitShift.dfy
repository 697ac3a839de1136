/** Shifting digit arrays in place: `shl` and the final shift of the remainder in qdivrem.c. */
module DigitShift {
  import opened Digits
  import opened Divide

  const HALF_BITS: nat := 16

  /** The base splits into the weight of the bits that stay and of those that move up. */
  lemma {:induction false} SplitBase(sh: nat)
    requires 0 < sh < HALF_BITS
    ensures Pow(2, sh) > 0 && Pow(2, HALF_BITS - sh) > 0
    ensures Pow(2, sh) * Pow(2, HALF_BITS - sh) == B
  {
    PowPositive(2, sh);
    PowPositive(2, HALF_BITS - sh);
    PowAdd(2, sh, HALF_BITS - sh);
    TwoToHalfBits();
  }

  lemma TwoToHalfBits()
    ensures Pow(2, HALF_BITS) == B
  {
    assert Pow(2, 4) == 16;
    PowAdd(2, 4, 4);
    PowAdd(2, 8, 8);
  }

  // ------------------------------------------------------------------
  // Left

  /** What one digit keeps and what it passes on when shifted left by the bits worth `s`. */
  lemma LeftDigit(x: nat, s: nat, r: nat)
    requires s > 0 && r > 0 && s * r == B && x < B
    ensures x * s == (x / r) * B + (x * s) % B && x / r < s
    ensures (x * s) % B + (s - 1) < B
  {
    DivMod(x, r);
    DivLess(x, r, s);
    var hi, lo := x / r, x % r;
    assert x * s == hi * (s * r) + lo * s by {
      MulAssoc(hi, r, s);
      DistributeRight(hi * r, lo, s);
      assert hi * r * s == hi * (s * r);
    }
    assert lo * s <= (r - 1) * s by { MulMono(s, lo, r - 1); }
    DistributeOne(r - 1, s);
    DivModUnique(x * s, B, hi, lo * s);
  }

  /** The digits shifted so far: what left the first digit is missing, what the next passes on is in. */
  ghost predicate LeftSoFar(p: seq<nat>, was: seq<nat>, off: nat, i: nat, s: nat, r: nat)
    requires off + i < |p| == |was| && r > 0
  {
    Value(p[off..off + i]) == Value(was[off..off + i]) * s - (was[off] / r) * Pow(B, i) + was[off + i] / r
  }

  lemma LeftStep(p: seq<nat>, was: seq<nat>, off: nat, i: nat, s: nat, r: nat, carry: nat)
    requires off + i < |p| == |was| && s > 0 && r > 0 && s * r == B && was[off + i] < B
    requires LeftSoFar(p, was, off, i, s, r)
    ensures var d := (was[off + i] * s) % B + carry;
      Value(p[off + i := d][off..off + i + 1]) ==
      Value(was[off..off + i + 1]) * s - (was[off] / r) * Pow(B, i + 1) + carry
  {
    var x := was[off + i];
    var d := (x * s) % B + carry;
    var post := p[off + i := d];
    LeftDigit(x, s, r);
    assert post[off..off + i] == p[off..off + i];
    NextDigit(post, off, off + i);
    NextDigit(was, off, off + i);
    LeftSum(Value(was[off..off + i]), s, was[off] / r, Pow(B, i), x / r, x, (x * s) % B);
  }

  lemma LeftSum(w: int, s: int, c: int, p: int, hi: int, x: int, lo: int)
    requires x * s == hi * B + lo
    ensures (w * s - c * p + hi) * B + lo == (w * B + x) * s - c * (B * p)
  {
    DistributeRight(w * B, x, s);
    MulAssoc(w, B, s);
    MulAssoc(w, s, B);
    MulAssoc(c, B, p);
    MulAssoc(c, p, B);
  }

  /** `shl`: the `len + 1` digits at `off` are multiplied by 2^sh; bits shifted out on the left are lost. */
  method ShiftLeft(p: array<nat>, off: nat, len: nat, sh: nat)
    requires off + len < p.Length && Digital(p[..]) && 0 < sh < HALF_BITS
    modifies p
    ensures Digital(p[..]) && Pow(B, len + 1) > 0
    ensures forall k :: 0 <= k < p.Length && !(off <= k <= off + len) ==> p[k] == old(p[k])
    ensures Value(p[..][off..off + len + 1]) == (Value(old(p[..])[off..off + len + 1]) * Pow(2, sh)) % Pow(B, len + 1)
  {
    SplitBase(sh);
    ghost var was := p[..];
    var s, r := Pow(2, sh), Pow(2, HALF_BITS - sh);
    LeftStarts(was, off, s, r);
    hide Val, Pow, LeftSoFar;
    for i := 0 to len
      invariant Digital(p[..])
      invariant forall k :: 0 <= k < p.Length && !(off <= k < off + i) ==> p[k] == was[k]
      invariant LeftSoFar(p[..], was, off, i, s, r)
    {
      LeftNext(p[..], was, off, i, s, r);
      p[off + i] := (p[off + i] * s) % B + p[off + i + 1] / r;
    }
    LeftLast(p[..], was, off, len, s, r);
    p[off + len] := (p[off + len] * s) % B;
  }

  lemma LeftStarts(was: seq<nat>, off: nat, s: nat, r: nat)
    requires off < |was| && r > 0
    ensures LeftSoFar(was, was, off, 0, s, r)
  {
    assert was[off..off] == [];
  }

  lemma LeftNext(p: seq<nat>, was: seq<nat>, off: nat, i: nat, s: nat, r: nat)
    requires off + i + 1 < |p| == |was| && s > 0 && r > 0 && s * r == B && Digital(was)
    requires p[off + i] == was[off + i] && p[off + i + 1] == was[off + i + 1]
    requires LeftSoFar(p, was, off, i, s, r)
    ensures 0 <= (p[off + i] * s) % B + p[off + i + 1] / r < B && p[off + i + 1] / r >= 0
    ensures LeftSoFar(p[off + i := (p[off + i] * s) % B + p[off + i + 1] / r], was, off, i + 1, s, r)
  {
    LeftDigit(was[off + i], s, r);
    LeftDigit(was[off + i + 1], s, r);
    DivMod(was[off + i + 1], r);
    LeftStep(p, was, off, i, s, r, was[off + i + 1] / r);
  }

  lemma LeftLast(p: seq<nat>, was: seq<nat>, off: nat, len: nat, s: nat, r: nat)
    requires off + len < |p| == |was| && s > 0 && r > 0 && s * r == B && Digital(was) && Digital(p)
    requires p[off + len] == was[off + len] && LeftSoFar(p, was, off, len, s, r)
    ensures Pow(B, len + 1) > 0
    ensures Value(p[off + len := (p[off + len] * s) % B][off..off + len + 1]) ==
            (Value(was[off..off + len + 1]) * s) % Pow(B, len + 1)
  {
    LeftStep(p, was, off, len, s, r, 0);
    var post := p[off + len := (p[off + len] * s) % B];
    PowPositive(B, len + 1);
    DivMod(was[off], r);
    ValBound(post[off..off + len + 1], B);
    DivModUnique(Value(was[off..off + len + 1]) * s, Pow(B, len + 1), was[off] / r,
                 Value(post[off..off + len + 1]));
  }

  // ------------------------------------------------------------------
  // Right

  /** What one digit becomes when shifted right by the bits worth `s`, with `e` coming from its left. */
  lemma RightDigit(x: nat, y: nat, s: nat, r: nat)
    requires s > 0 && r > 0 && s * r == B && x < B && y < B
    ensures (y * r) % B == (y % s) * r
    ensures 0 <= x / s + (y * r) % B < B
    ensures s * (x / s + (y * r) % B) == x - x % s + (y % s) * B
  {
    DivMod(x, s);
    DivMod(y, s);
    DivLess(x, s, r);
    var hi, lo := y / s, y % s;
    assert y * r == hi * (s * r) + lo * r by {
      DistributeRight(hi * s, lo, r);
      MulAssoc(hi, s, r);
    }
    assert lo * r <= (s - 1) * r by { MulMono(r, lo, s - 1); }
    DistributeOne(s - 1, r);
    MulMono(r, 0, lo);
    DivModUnique(y * r, B, hi, lo * r);
    assert s * (x / s + lo * r) == (x / s) * s + lo * (s * r) by {
      DistributeLeft(s, x / s, lo * r);
      MulAssoc(lo, s, r);
      MulAssoc(s, lo, r);
    }
  }

  /** The digits after `i` shifted so far, with what the digit at `i` will pass down. */
  ghost predicate RightSoFar(u: seq<nat>, was: seq<nat>, i: nat, end: nat, s: nat)
    requires i < end <= |u| == |was| && s > 0
  {
    s * Value(u[i + 1..end]) == Value(was[i + 1..end]) + (was[i] % s) * Pow(B, end - i - 1) - was[end - 1] % s
  }

  lemma RightStep(u: seq<nat>, was: seq<nat>, i: nat, end: nat, s: nat, r: nat)
    requires 0 < i < end <= |u| == |was| && s > 0 && r > 0 && s * r == B && was[i] < B && was[i - 1] < B
    requires RightSoFar(u, was, i, end, s)
    ensures var d := was[i] / s + (was[i - 1] * r) % B;
      0 <= d < B && RightSoFar(u[i := d], was, i - 1, end, s)
  {
    RightDigit(was[i], was[i - 1], s, r);
    var d := was[i] / s + (was[i - 1] * r) % B;
    var post := u[i := d];
    assert post[i + 1..end] == u[i + 1..end];
    TailGrows(post, i, end);
    TailGrows(was, i, end);
    RightSum(d, was[i], was[i] % s, was[i - 1] % s, s, Pow(B, end - i - 1), Value(u[i + 1..end]));
  }

  lemma RightSum(d: int, x: int, e: int, f: int, s: int, p: int, tail: int)
    requires s * d == x - e + f * B
    ensures s * (d * p + tail) == x * p - e * p + f * (B * p) + s * tail
  {
    DistributeLeft(s, d * p, tail);
    MulAssoc(s, d, p);
    DistributeRight(x - e, f * B, p);
    DistributeRight(x - e, e, p);
    MulAssoc(f, B, p);
  }

  /** The remainder is shifted back: the digits after `lo` become the quotient by 2^d. */
  method ShiftRight(u: array<nat>, lo: nat, end: nat, d: nat)
    requires lo < end <= u.Length && Digital(u[..]) && 0 < d < HALF_BITS && u[lo] == 0
    modifies u
    ensures Digital(u[..]) && u[lo] == 0 && Pow(2, d) > 0
    ensures forall k :: 0 <= k < u.Length && !(lo < k < end) ==> u[k] == old(u[k])
    ensures Value(u[..][lo..end]) == Value(old(u[..])[lo..end]) / Pow(2, d)
  {
    SplitBase(d);
    ghost var was := u[..];
    var s, r := Pow(2, d), Pow(2, HALF_BITS - d);
    RightStarts(was, end, s);
    hide Val, Pow, RightSoFar;
    var i := end - 1;
    while i > lo
      invariant lo <= i < end
      invariant Digital(u[..])
      invariant forall k :: 0 <= k < u.Length && !(i < k < end) ==> u[k] == was[k]
      invariant RightSoFar(u[..], was, i, end, s)
    {
      RightStep(u[..], was, i, end, s, r);
      u[i] := u[i] / s + (u[i - 1] * r) % B;
      i := i - 1;
    }
    RightEnds(u[..], was, lo, end, s);
  }

  lemma RightStarts(was: seq<nat>, end: nat, s: nat)
    requires 0 < end <= |was| && s > 0
    ensures RightSoFar(was, was, end - 1, end, s)
  {
    assert was[end..end] == [];
  }

  lemma RightEnds(u: seq<nat>, was: seq<nat>, lo: nat, end: nat, s: nat)
    requires lo < end <= |u| == |was| && s > 0 && u[lo] == was[lo] == 0 && RightSoFar(u, was, lo, end, s)
    ensures Value(u[lo..end]) == Value(was[lo..end]) / s
  {
    ZerosThenWindow(u, lo, lo + 1, end);
    ZerosThenWindow(was, lo, lo + 1, end);
    DivMod(was[end - 1], s);
    assert was[lo] % s == 0;
    DivModUnique(Value(was[lo..end]), s, Value(u[lo..end]), was[end - 1] % s);
  }
}
