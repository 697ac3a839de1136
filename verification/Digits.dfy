/** Natural numbers as sequences of digits, most significant first, in any base. */
module Digits {

  function Pow(b: nat, k: nat): nat {
    if k == 0 then 1 else b * Pow(b, k - 1)
  }

  ghost predicate InBase(s: seq<nat>, b: nat) {
    forall i :: 0 <= i < |s| ==> s[i] < b
  }

  function Val(s: seq<nat>, b: nat): nat {
    if s == [] then 0 else Val(s[..|s| - 1], b) * b + s[|s| - 1]
  }

  lemma PowPositive(b: nat, k: nat)
    requires b > 0
    ensures Pow(b, k) > 0
  {
  }

  lemma {:induction false} PowAdd(b: nat, i: nat, j: nat)
    ensures Pow(b, i + j) == Pow(b, i) * Pow(b, j)
  {
    if i > 0 {
      PowAdd(b, i - 1, j);
      assert b * (Pow(b, i - 1) * Pow(b, j)) == (b * Pow(b, i - 1)) * Pow(b, j);
    }
  }

  lemma ValAppend(s: seq<nat>, d: nat, b: nat)
    ensures Val(s + [d], b) == Val(s, b) * b + d
  {
    assert (s + [d])[..|s|] == s;
  }

  /** Splitting a number after its leading digits. */
  lemma {:induction false} ValConcat(s: seq<nat>, t: seq<nat>, b: nat)
    ensures Val(s + t, b) == Val(s, b) * Pow(b, |t|) + Val(t, b)
    decreases |t|
  {
    if t == [] {
      assert s + t == s;
    } else {
      var k := |t| - 1;
      var h := t[..k];
      assert s + t == (s + h) + [t[k]] && t == h + [t[k]];
      ValAppend(s + h, t[k], b);
      ValAppend(h, t[k], b);
      ValConcat(s, h, b);
      calc {
        Val(s + t, b);
        (Val(s, b) * Pow(b, k) + Val(h, b)) * b + t[k];
        { Distribute(Val(s, b), Pow(b, k), Val(h, b), b); }
        Val(s, b) * Pow(b, |t|) + (Val(h, b) * b + t[k]);
      }
    }
  }

  lemma Distribute(x: int, y: int, z: int, b: int)
    ensures (x * y + z) * b == x * (b * y) + z * b
  {
  }

  lemma DistributeOne(x: int, b: int)
    ensures (x + 1) * b == x * b + b
  {
  }

  lemma {:induction false} ValBound(s: seq<nat>, b: nat)
    requires InBase(s, b)
    ensures Val(s, b) < Pow(b, |s|)
    decreases |s|
  {
    if s != [] {
      var h := s[..|s| - 1];
      ValBound(h, b);
      MulMono(b, Val(h, b) + 1, Pow(b, |h|));
      DistributeOne(Val(h, b), b);
    }
  }

  lemma ValCons(d: nat, t: seq<nat>, b: nat)
    ensures Val([d] + t, b) == d * Pow(b, |t|) + Val(t, b)
  {
    ValConcat([d], t, b);
    assert [d][..0] == [];
    assert Val([d], b) == d;
  }

  /** Leading zeros do not count. */
  lemma {:induction false} ValZeros(s: seq<nat>, b: nat)
    requires forall i :: 0 <= i < |s| ==> s[i] == 0
    ensures Val(s, b) == 0
    decreases |s|
  {
    if s != [] {
      ValZeros(s[..|s| - 1], b);
    }
  }

  // ------------------------------------------------------------------
  // One step of long division, section 4.3.1 of Knuth vol. 2, in any base

  /** `x` is `hi` in front of `lo`, which takes up the weight `p`. */
  ghost predicate Split(x: nat, hi: nat, p: nat, lo: nat) {
    x == hi * p + lo && lo < p
  }

  /**
    The trial digit of step D3. `u3` and `v2` are the three leading digits of
    the dividend and the two leading digits of the divisor, `p` is the weight
    of the digits left out. The estimate is the true digit or one more.
   */
  lemma EstimateBounds(b: nat, p: nat, u: nat, u3: nat, urest: nat, v: nat, v2: nat, vrest: nat, qhat: nat)
    requires 2 <= b <= v2 && Split(u, u3, p, urest) && Split(v, v2, p, vrest) && u < v * b
    requires qhat == if Quotient(u3, v2) < b then Quotient(u3, v2) else b - 1
    ensures v > 0 && Quotient(u, v) <= qhat <= Quotient(u, v) + 1
  {
    hide Split, Quotient;
    SplitPositive(v, v2, p, vrest);
    EstimateNotLow(b, p, u, u3, urest, v, v2, vrest);
    EstimateNotHigh(b, p, u, u3, urest, v, v2, vrest, qhat);
  }

  lemma SplitPositive(x: nat, hi: nat, p: nat, lo: nat)
    requires Split(x, hi, p, lo) && hi > 0
    ensures x > 0
  {
    MulPositive(hi, p);
  }

  lemma MulPositive(x: nat, y: nat)
    requires x > 0 && y > 0
    ensures x * y > 0 && x * y >= x && x * y >= y
  {
  }

  lemma DivBounds(u: nat, v: nat)
    requires v > 0
    ensures (u / v) * v <= u < (u / v + 1) * v
  {
  }

  lemma MulCancel(x: int, y: int, v: nat)
    requires x * v < y * v
    ensures x < y
  {
    if y <= x {
      MulMono(v, y, x);
    }
  }

  lemma DivAtMost(u: nat, v: nat, k: nat)
    requires v > 0 && k * v <= u
    ensures k <= u / v
  {
    DivBounds(u, v);
    MulCancel(k, u / v + 1, v);
  }

  lemma DivLess(u: nat, v: nat, k: nat)
    requires v > 0 && u < k * v
    ensures u / v < k
  {
    DivBounds(u, v);
    MulCancel(u / v, k, v);
  }

  lemma EstimateNotLow(b: nat, p: nat, u: nat, u3: nat, urest: nat, v: nat, v2: nat, vrest: nat)
    requires 2 <= b <= v2 && Split(u, u3, p, urest) && Split(v, v2, p, vrest) && u < v * b && v > 0
    ensures Quotient(u, v) < b && Quotient(u, v) <= Quotient(u3, v2)
  {
    hide Split, Quotient;
    QuotientBelow(u, v, b);
    LeadingProduct(p, u, u3, urest, v, v2, vrest, Quotient(u, v));
    QuotientAtLeast(u3, v2, Quotient(u, v));
  }

  lemma QuotientBelow(u: nat, v: nat, b: nat)
    requires v > 0 && u < v * b
    ensures Quotient(u, v) < b && Quotient(u, v) * v <= u
  {
    DivBounds(u, v);
    DivLess(u, v, b);
  }

  lemma QuotientAtLeast(u: nat, v: nat, k: nat)
    requires v > 0 && k * v <= u
    ensures k <= Quotient(u, v)
  {
    DivAtMost(u, v, k);
  }

  /** What the divisor's leading digits contribute is covered by the dividend's. */
  lemma LeadingProduct(p: nat, u: nat, u3: nat, urest: nat, v: nat, v2: nat, vrest: nat, q: nat)
    requires Split(u, u3, p, urest) && Split(v, v2, p, vrest) && q * v <= u
    ensures q * v2 <= u3
  {
    MulMono(q, v2 * p, v);
    MulAssoc(q, v2, p);
    DistributeOne(u3, p);
    MulCancel(q * v2, u3 + 1, p);
  }

  lemma MulMono(x: nat, y: int, z: int)
    requires y <= z
    ensures x * y <= x * z && y * x <= z * x
  {
  }

  lemma MulAssoc(x: int, y: int, z: int)
    ensures x * y * z == x * (y * z)
  {
  }

  lemma EstimateNotHigh(b: nat, p: nat, u: nat, u3: nat, urest: nat, v: nat, v2: nat, vrest: nat, qhat: nat)
    requires 2 <= b <= v2 && Split(u, u3, p, urest) && Split(v, v2, p, vrest) && v > 0
    requires qhat < b && qhat <= Quotient(u3, v2)
    ensures qhat <= Quotient(u, v) + 1
  {
    hide Split, Quotient;
    EstimateProduct(b, p, u, u3, urest, v, v2, vrest, qhat);
    OneMore(u, v, qhat);
  }

  lemma OneMore(u: nat, v: nat, q: nat)
    requires v > 0 && q * v <= u + v
    ensures q <= Quotient(u, v) + 1
  {
    if q > 0 {
      DistributeOne(q - 1, v);
      DivAtMost(u, v, q - 1);
    }
  }

  /** Even the estimate times the divisor exceeds the dividend by at most one divisor. */
  lemma EstimateProduct(b: nat, p: nat, u: nat, u3: nat, urest: nat, v: nat, v2: nat, vrest: nat, qhat: nat)
    requires 2 <= b <= v2 && Split(u, u3, p, urest) && Split(v, v2, p, vrest)
    requires qhat < b && qhat <= Quotient(u3, v2)
    ensures qhat * v <= u + v
  {
    QuotientCovers(u3, v2, qhat);
    hide Quotient;
    MulMono(p, qhat * v2, u3);
    MulAssoc(qhat, v2, p);
    MulMono(qhat, vrest, p);
    MulMono(p, qhat, v2);
    DistributeLeft(qhat, v2 * p, vrest);
  }

  lemma QuotientCovers(u3: nat, v2: nat, qhat: nat)
    requires v2 > 0 && qhat <= Quotient(u3, v2)
    ensures qhat * v2 <= u3
  {
    DivBounds(u3, v2);
    MulMono(v2, qhat, u3 / v2);
  }

  lemma DistributeLeft(x: int, y: int, z: int)
    ensures x * (y + z) == x * y + x * z
  {
  }

  /** Bringing down the next digit: quotient and remainder advance together. */
  lemma LongDivisionStep(v: nat, total: nat, q: nat, r: nat, b: nat, d: nat)
    requires v > 0 && b > 0 && q == total / v && r == total % v
    ensures (total * b + d) / v == q * b + (r * b + d) / v
    ensures (total * b + d) % v == (r * b + d) % v
  {
    var w := r * b + d;
    DivMod(total, v);
    DivMod(w, v);
    Regroup(v, q, r, b, d, w / v, w % v);
    DivModUnique(total * b + d, v, q * b + w / v, w % v);
  }

  lemma Regroup(v: int, q: int, r: int, b: int, d: int, k: int, s: int)
    requires r * b + d == k * v + s
    ensures (q * v + r) * b + d == (q * b + k) * v + s
  {
    Distribute(q, v, r, b);
    MulSwap(q, b, v);
    DistributeRight(q * b, k, v);
  }

  lemma DivMod(x: nat, v: nat)
    requires v > 0
    ensures x == (x / v) * v + x % v && 0 <= x % v < v && x / v >= 0
  {
  }

  /** Division of naturals, with results that are naturals by type. */
  function Quotient(x: nat, v: nat): nat
    requires v > 0
  {
    DivMod(x, v);
    x / v
  }

  function Remainder(x: nat, v: nat): (r: nat)
    requires v > 0
    ensures r < v
  {
    DivMod(x, v);
    x % v
  }

  lemma MulSwap(x: int, y: int, z: int)
    ensures x * (y * z) == x * y * z
  {
  }

  lemma DistributeRight(x: int, y: int, z: int)
    ensures (x + y) * z == x * z + y * z
  {
  }

  lemma DivModUnique(x: nat, v: nat, q: nat, r: nat)
    requires v > 0 && x == q * v + r && r < v
    ensures x / v == q && x % v == r
  {
    DivAtMost(x, v, q);
    DivLess(x, v, q + 1);
    assert x == (x / v) * v + x % v;
  }
}
