/**
  Multiplication of long longs from sixteen-bit products (common/gcc-millicode/muldi3.c):
  the three-product scheme of section 4.3.3 of Knuth vol. 2, in words that wrap.
 */
module Multiply {
  import opened Common
  import opened Digits
  import opened Divide
  import opened SignedArith

  /** A pair of words read as one number, up to wrap-around. */
  predicate Stands(h: nat, l: nat, x: int) {
    h < WORD && l < WORD && (h * WORD + l) % LONG == x % LONG
  }

  lemma Drop(x: int, k: int)
    ensures (x + k * LONG) % LONG == x % LONG
  {
  }

  /** Adding `x << 16`: the carry out of the low word shows as wrap-around. */
  method AddShifted(h: nat, l: nat, x: nat, ghost was: int) returns (h': nat, l': nat)
    requires x < WORD && Stands(h, l, was)
    ensures Stands(h', l', was + x * B)
  {
    var up := (x % B) * B;
    l' := (l + up) % WORD;
    h' := (h + x / B + (if l' < l then 1 else 0)) % WORD;
    ghost var c := if l' < l then 1 else 0;
    assert l' == l + up - c * WORD;
    ghost var k := (h + x / B + c) / WORD;
    assert h' * WORD + l' == h * WORD + l + x * B - k * LONG;
    Drop(h * WORD + l + x * B, -k);
    AddBoth(h * WORD + l, was, x * B);
  }

  lemma AddBoth(x: int, y: int, z: int)
    requires x % LONG == y % LONG
    ensures (x + z) % LONG == (y + z) % LONG
  {
    var k := x / LONG - y / LONG;
    assert x + z == y + z + k * LONG;
    Drop(y + z, k);
  }

  /** Subtracting `x << 16`: the borrow shows the other way round. */
  method SubtractShifted(h: nat, l: nat, x: nat, ghost was: int) returns (h': nat, l': nat)
    requires x < WORD && Stands(h, l, was)
    ensures Stands(h', l', was - x * B)
  {
    var up := (x % B) * B;
    l' := (l - up) % WORD;
    h' := (h - (x / B + (if l' > l then 1 else 0))) % WORD;
    ghost var c := if l' > l then 1 else 0;
    assert l' == l - up + c * WORD;
    ghost var k := (h - (x / B + c)) / WORD;
    assert h' * WORD + l' == h * WORD + l - x * B - k * LONG;
    Drop(h * WORD + l - x * B, -k);
    AddBoth(h * WORD + l, was, -(x * B));
  }

  /** Splitting the product over the halves of both factors. */
  lemma ThreeProducts(b: int, u1: int, u0: int, v1: int, v0: int)
    ensures (u1 * b + u0) * (v1 * b + v0) ==
            u1 * v1 * (b * b) + u1 * v1 * b + (u1 - u0) * (v0 - v1) * b + u0 * v0 * b + u0 * v0
  {
    var hh, hl, lh, ll := u1 * v1, u1 * v0, u0 * v1, u0 * v0;
    assert (u1 - u0) * (v0 - v1) == hl - hh - ll + lh;
    assert (u1 * b + u0) * (v1 * b + v0) == hh * (b * b) + hl * b + lh * b + ll by {
      DistributeLeft(u1 * b + u0, v1 * b, v0);
      DistributeRight(u1 * b, u0, v1 * b);
      DistributeRight(u1 * b, u0, v0);
      assert u1 * b * (v1 * b) == hh * (b * b);
      assert u0 * (v1 * b) == lh * b;
      assert u1 * b * v0 == hl * b;
    }
    DistributeRight(hl - hh - ll, lh, b);
    DistributeRight(hl - hh, -ll, b);
    DistributeRight(hl, -hh, b);
    MulNeg(hh, b);
    MulNeg(ll, b);
  }

  lemma MulNeg(x: int, y: int)
    ensures (-x) * y == -(x * y)
  {
  }

  /** The difference of two halves as a magnitude and a sign. */
  function Diff(x: nat, y: nat): nat {
    if x >= y then x - y else y - x
  }

  function WithSign(neg: bool, x: nat): int {
    if neg then 0 - x else x
  }

  lemma SignedMiddle(u1: nat, u0: nat, v1: nat, v0: nat)
    ensures (u1 - u0) * (v0 - v1) ==
      if (u1 >= u0) == (v0 >= v1) then Diff(u1, u0) * Diff(v0, v1) else -(Diff(u1, u0) * Diff(v0, v1))
  {
  }

  /** The three products added up, each shifted to its place. */
  method Combine(high: nat, mid: nat, neg: bool, low: nat) returns (h: nat, l: nat)
    requires high < WORD && mid < WORD && low < WORD
    ensures Stands(h, l, high * WORD + high * B + WithSign(neg, mid) * B + low * B + low)
  {
    hide Stands;
    ghost var x := high * WORD + high * B;
    h, l := (high + high / B) % WORD, (high % B) * B;
    StartStands(high);
    if neg {
      h, l := SubtractShifted(h, l, mid, x);
      x := x - mid * B;
    } else {
      h, l := AddShifted(h, l, mid, x);
      x := x + mid * B;
    }
    h, l := AddShifted(h, l, low, x);
    x := x + low * B;
    h, l := AddLow(h, l, low, x);
  }

  /** `__lmulq`: the exact product of two words. */
  method LMulQ(u: nat, v: nat) returns (h: nat, l: nat)
    requires u < WORD && v < WORD
    ensures h < WORD && l < WORD && h * WORD + l == u * v
  {
    hide Stands, Diff, WithSign;
    var u1, u0, v1, v0 := u / B, u % B, v / B, v % B;
    var low := HalfProduct(u0, v0);
    if u1 == 0 && v1 == 0 {
      return 0, low;
    }
    var udiff, vdiff := Diff(u1, u0), Diff(v0, v1);
    var neg := !(u1 >= u0);
    if !(v0 >= v1) {
      neg := !neg;
    }
    DiffBelow(u1, u0, B);
    DiffBelow(v0, v1, B);
    var mid := HalfProduct(udiff, vdiff);
    var high := HalfProduct(u1, v1);
    h, l := Combine(high, mid, neg, low);
    WordProduct(u1, u0, v1, v0, high, mid, neg, low);
    ProductFits(u, v);
    StandsExact(h, l, u * v);
  }

  lemma WordProduct(u1: nat, u0: nat, v1: nat, v0: nat, high: nat, mid: nat, neg: bool, low: nat)
    requires high == u1 * v1 && low == u0 * v0 && mid == Diff(u1, u0) * Diff(v0, v1)
    requires neg == ((u1 >= u0) != (v0 >= v1))
    ensures high * WORD + high * B + WithSign(neg, mid) * B + low * B + low == (u1 * B + u0) * (v1 * B + v0)
  {
    SignedMiddle(u1, u0, v1, v0);
    ThreeProducts(B, u1, u0, v1, v0);
  }

  lemma DiffBelow(x: nat, y: nat, bound: nat)
    requires x < bound && y < bound
    ensures Diff(x, y) < bound
  {
  }

  /** The product of two halves fits a word: the only multiplications `__lmulq` does. */
  function HalfProduct(x: nat, y: nat): (p: nat)
    requires x < B && y < B
    ensures p == x * y < WORD
  {
    MulMono(x, y, B - 1);
    MulMono(B - 1, x, B - 1);
    x * y
  }

  lemma StartStands(high: nat)
    requires high < WORD
    ensures Stands((high + high / B) % WORD, (high % B) * B, high * WORD + high * B)
  {
    var k := (high + high / B) / WORD;
    Drop(high * WORD + high * B, -k);
  }

  lemma ProductFits(u: nat, v: nat)
    requires u < WORD && v < WORD
    ensures 0 <= u * v < LONG
  {
    MulMono(u, v, WORD - 1);
    MulMono(WORD - 1, u, WORD - 1);
  }

  lemma StandsExact(h: nat, l: nat, x: nat)
    requires Stands(h, l, x) && x < LONG
    ensures h < WORD && l < WORD && h * WORD + l == x
  {
  }

  /** Adding a word, with the carry that the test against the addend finds. */
  method AddLow(h: nat, l: nat, x: nat, ghost was: int) returns (h': nat, l': nat)
    requires x < WORD && Stands(h, l, was)
    ensures Stands(h', l', was + x)
  {
    l' := (l + x) % WORD;
    h' := h;
    if l' < x {
      h' := (h + 1) % WORD;
    }
    ghost var c := if l' < x then 1 else 0;
    assert l' == l + x - c * WORD;
    ghost var k := (h + c) / WORD;
    assert h' * WORD + l' == h * WORD + l + x - k * LONG;
    Drop(h * WORD + l + x, -k);
    AddBoth(h * WORD + l, was, x);
  }

  // ------------------------------------------------------------------
  // Two long longs

  /** `__muldi3`: the product modulo 2^64. */
  method MulLong(a: int, b: int) returns (r: int)
    requires IsLong(a) && IsLong(b)
    ensures IsLong(r) && Bits(r) == Bits(a * b)
  {
    Magnitude(a);
    Magnitude(b);
    var u, v, negall := Bits(a), Bits(b), false;
    if a < 0 {
      u, negall := Negate(u), true;
    }
    if b < 0 {
      v, negall := Negate(v), !negall;
    }
    var p := MulUnsigned(u, v);
    SignProduct(a, b, u, v, p);
    r := FromBits(if negall then Negate(p) else p);
  }

  /** The part of `__muldi3` that multiplies the magnitudes. */
  method MulUnsigned(u: nat, v: nat) returns (p: nat)
    requires u < LONG && v < LONG
    ensures p == (u * v) % LONG
  {
    hide Diff;
    var u1, u0, v1, v0 := u / WORD, u % WORD, v / WORD, v % WORD;
    var lowh, lowl := LMulQ(u0, v0);
    if u1 == 0 && v1 == 0 {
      ProductFits(u0, v0);
      p := lowh * WORD + lowl;
    } else {
      var udiff, vdiff := Diff(u1, u0), Diff(v0, v1);
      var negmid := !(u1 >= u0);
      if !(v0 >= v1) {
        negmid := !negmid;
      }
      DiffBelow(u1, u0, WORD);
      DiffBelow(v0, v1, WORD);
      var mid := WrappedProduct(udiff, vdiff);
      var high := WrappedProduct(u1, v1);
      var ph := (high + WithSign(negmid, mid) + lowl + lowh) % WORD;
      p := ph * WORD + lowl;
      AssembleProduct(u1, u0, v1, v0, lowh, lowl, high, mid, negmid, ph);
    }
  }

  /** A product kept to one word. */
  function WrappedProduct(x: nat, y: nat): (p: nat)
    requires x < WORD && y < WORD
    ensures p == (x * y) % WORD
  {
    ProductFits(x, y);
    (x * y) % WORD
  }

  lemma AssembleProduct(u1: nat, u0: nat, v1: nat, v0: nat, lowh: nat, lowl: nat, high: nat, mid: nat, negmid: bool,
                        ph: nat)
    requires u1 < WORD && u0 < WORD && v1 < WORD && v0 < WORD && lowh < WORD && lowl < WORD
    requires lowh * WORD + lowl == u0 * v0
    requires mid == (Diff(u1, u0) * Diff(v0, v1)) % WORD && high == (u1 * v1) % WORD
    requires negmid == ((u1 >= u0) != (v0 >= v1))
    requires ph == (high + WithSign(negmid, mid) + lowl + lowh) % WORD
    ensures ph * WORD + lowl == ((u1 * WORD + u0) * (v1 * WORD + v0)) % LONG
  {
    SignedMiddle(u1, u0, v1, v0);
    ThreeProducts(WORD, u1, u0, v1, v0);
    NonNegative(u1, v1);
    NonNegative(Diff(u1, u0), Diff(v0, v1));
    TakeHalves(u1 * v1, Diff(u1, u0) * Diff(v0, v1), negmid, lowh, lowl, ph);
  }

  lemma NonNegative(x: nat, y: nat)
    ensures x * y >= 0
  {
  }

  /** Wrapping the high and middle products to a word first loses nothing modulo 2^64. */
  lemma TakeHalves(hh: nat, mm: nat, neg: bool, lowh: nat, lowl: nat, ph: nat)
    requires lowl < WORD && ph == (hh % WORD + WithSign(neg, mm % WORD) + lowl + lowh) % WORD
    ensures var low := lowh * WORD + lowl;
      ph * WORD + lowl == (hh * LONG + hh * WORD + WithSign(neg, mm) * WORD + low * WORD + low) % LONG
  {
    var sum := hh % WORD + WithSign(neg, mm % WORD) + lowl + lowh;
    var k := hh + hh / WORD + WithSign(neg, mm / WORD) + lowh + sum / WORD;
    var low := lowh * WORD + lowl;
    assert hh * LONG + hh * WORD + WithSign(neg, mm) * WORD + low * WORD + low == ph * WORD + lowl + k * LONG;
    Drop(ph * WORD + lowl, k);
  }

  /** The sign of the product, in wrapped arithmetic. */
  lemma SignProduct(a: int, b: int, u: nat, v: nat, p: nat)
    requires u == Abs(a) && v == Abs(b) && p < LONG && p == (u * v) % LONG
    ensures var r := FromBits(if (a < 0) != (b < 0) then Negate(p) else p); Bits(r) == Bits(a * b)
  {
    assert a * b == if (a < 0) != (b < 0) then -(u * v) else u * v;
  }
}
