/** `__qdivrem` and the signed operations built on it (qdivrem.c, divdi3.c, moddi3.c). */
module LongDivision {
  import opened Common
  import opened Digits
  import opened Divide
  import opened DigitShift

  /** Division by zero traps on the machine's own division. */
  datatype Outcome = Trap | Answer(q: nat, r: nat)

  // ------------------------------------------------------------------
  // Taking numbers apart and putting them together

  /** Four digits as a number, the way `COMBINE` and the word union assemble it. */
  function Assemble(a: nat, b: nat, c: nat, d: nat): nat {
    (a * B + b) * WORD + (c * B + d)
  }

  lemma AssembleIsValue(a: seq<nat>)
    requires |a| == 5
    ensures Assemble(a[1], a[2], a[3], a[4]) == Value(a[1..5])
  {
    assert a[1..1] == [];
    NextDigit(a, 1, 1);
    NextDigit(a, 1, 2);
    NextDigit(a, 1, 3);
    NextDigit(a, 1, 4);
  }

  method Split(x: nat) returns (a: array<nat>)
    requires x < LONG
    ensures fresh(a) && a.Length == 5 && Digital(a[..]) && a[0] == 0 && Value(a[..][1..5]) == x
  {
    var high, low := x / WORD, x % WORD;
    a := new nat[5](_ => 0);
    a[1], a[2], a[3], a[4] := high / B, high % B, low / B, low % B;
    AssembleIsValue(a[..]);
  }

  // ------------------------------------------------------------------
  // A divisor of one digit

  /** The unrolled division by a single digit. */
  method ShortDivide(u1: nat, u2: nat, u3: nat, u4: nat, t: nat) returns (q: nat, r: nat)
    requires u1 < B && u2 < B && u3 < B && u4 < B && 0 < t < B
    ensures var u := Assemble(u1, u2, u3, u4); q == u / t && r == u % t
  {
    hide Quotient, Remainder;
    var q1 := Quotient(u1, t);
    var rbj := Remainder(u1, t) * B + u2;
    ShortStep(u1, t, u1, u2, rbj);
    var q2, w := Quotient(rbj, t), rbj;
    rbj := Remainder(w, t) * B + u3;
    ShortStep(u1 * B + u2, t, w, u3, rbj);
    var q3 := Quotient(rbj, t);
    w := rbj;
    rbj := Remainder(w, t) * B + u4;
    ShortStep((u1 * B + u2) * B + u3, t, w, u4, rbj);
    var q4 := Quotient(rbj, t);
    q, r := Assemble(q1, q2, q3, q4), Remainder(rbj, t);
    Quotients(Assemble(u1, u2, u3, u4), t);
  }

  lemma Quotients(u: nat, t: nat)
    requires t > 0
    ensures Quotient(u, t) == u / t && Remainder(u, t) == u % t
  {
  }

  /** One digit more: `w` is the last partial dividend of `total`, `next` the following one. */
  lemma ShortStep(total: nat, t: nat, w: nat, d: nat, next: nat)
    requires 0 < t < B && d < B && Remainder(w, t) == Remainder(total, t) && next == Remainder(w, t) * B + d
    ensures Quotient(total * B + d, t) == Quotient(total, t) * B + Quotient(next, t)
    ensures Remainder(total * B + d, t) == Remainder(next, t)
    ensures next < WORD && Quotient(next, t) < B
  {
    LongDivisionStep(t, total, total / t, total % t, B, d);
    DivMod(w, t);
    DivLess(next, t, B);
  }

  // ------------------------------------------------------------------
  // Normalisation

  /** D1: how far the divisor must be shifted for its leading digit to reach B / 2. */
  method ShiftCount(v1: nat) returns (d: nat)
    requires 0 < v1 < B
    ensures d < HALF_BITS && B / 2 <= v1 * Pow(2, d) < B
    ensures d == 0 <==> v1 >= B / 2
  {
    d := 0;
    var t := v1;
    while t < B / 2
      invariant 0 < t < B && t == v1 * Pow(2, d) && Pow(2, d) <= t
      invariant d == 0 ==> t == v1
      invariant d > 0 ==> v1 < B / 2
      decreases B - t
    {
      assert v1 * Pow(2, d + 1) == 2 * t by { MulAssoc(v1, 2, Pow(2, d)); MulAssoc(2, v1, Pow(2, d)); }
      d := d + 1;
      t := t * 2;
    }
    ShiftSmall(d);
  }

  lemma PowLarge(d: nat)
    requires d >= HALF_BITS
    ensures Pow(2, d) >= B
  {
    TwoToHalfBits();
    PowAdd(2, HALF_BITS, d - HALF_BITS);
    PowPositive(2, d - HALF_BITS);
    MulMono(B, 1, Pow(2, d - HALF_BITS));
  }

  lemma ShiftSmall(d: nat)
    requires Pow(2, d) < B
    ensures d < HALF_BITS
  {
    if d >= HALF_BITS {
      PowLarge(d);
    }
  }

  /** A leading digit bounds its number from both sides. */
  lemma LeadBounds(v: seq<nat>, n: nat)
    requires n > 0 && |v| == n && Digital(v)
    ensures v[0] * Pow(B, n - 1) <= Value(v) < (v[0] + 1) * Pow(B, n - 1)
  {
    assert v == [v[0]] + v[1..];
    ValCons(v[0], v[1..], B);
    ValBound(v[1..], B);
    DistributeOne(v[0], Pow(B, n - 1));
  }

  /** Shifting the divisor loses no bit and brings its leading digit up to B / 2. */
  lemma DivisorShifted(v: seq<nat>, post: seq<nat>, n: nat, s: nat, r: nat)
    requires n > 0 && |v| == |post| == n && Digital(v) && Digital(post) && s > 0 && s * r == B
    requires B / 2 <= v[0] * s < B
    requires Pow(B, n) > 0 && Value(post) == (Value(v) * s) % Pow(B, n)
    ensures Value(post) == Value(v) * s && post[0] >= B / 2
  {
    var p := Pow(B, n - 1);
    LeadBounds(v, n);
    assert (v[0] + 1) * s <= B by {
      MulCancel(v[0], r, s);
      MulMono(s, v[0] + 1, r);
    }
    assert Value(v) * s < B * p by {
      MulMono(s, Value(v) + 1, (v[0] + 1) * p);
      DistributeOne(Value(v), s);
      assert (v[0] + 1) * p * s == (v[0] + 1) * s * p by { MulRotate(v[0] + 1, p, s); }
      MulMono(p, (v[0] + 1) * s, B);
    }
    DivModUnique(Value(v) * s, Pow(B, n), 0, Value(v) * s);
    LeadBounds(post, n);
    assert (B / 2) * p < (post[0] + 1) * p by {
      MulMono(s, v[0] * p, Value(v));
      MulRotate(v[0], p, s);
      MulMono(p, B / 2, v[0] * s);
    }
    MulCancel(B / 2, post[0] + 1, p);
  }

  lemma MulRotate(x: int, y: int, z: int)
    ensures x * y * z == x * z * y
  {
  }

  /** Shifting the dividend loses no bit either, because its first digit is a spare zero. */
  lemma DividendShifted(u: seq<nat>, post: seq<nat>, k: nat, s: nat)
    requires |u| == |post| == k + 1 && Digital(u) && Digital(post) && 0 < s <= B && u[0] == 0
    requires Pow(B, k + 1) > 0 && Value(post) == (Value(u) * s) % Pow(B, k + 1)
    ensures Value(post) == Value(u) * s
  {
    ZerosThenWindow(u, 0, 1, k + 1);
    assert u[0..k + 1] == u;
    ValBound(u[1..k + 1], B);
    assert Value(u) * s < B * Pow(B, k) by {
      MulMono(s, Value(u) + 1, Pow(B, k));
      DistributeOne(Value(u), s);
      MulMono(Pow(B, k), s, B);
    }
    DivModUnique(Value(u) * s, Pow(B, k + 1), 0, Value(u) * s);
  }

  /** The leading `n` digits of the shifted dividend are below the shifted divisor. */
  lemma PrefixBelow(u: seq<nat>, m: nat, n: nat, x: nat, s: nat, dv: nat)
    requires n > 0 && |u| == m + n + 1 && Digital(u) && s > 0
    requires Value(u) == x * s && x < Pow(B, m + n) && dv >= Pow(B, n - 1) * s
    ensures Value(u[0..n]) < dv
  {
    var p := Pow(B, m + 1);
    assert u == u[0..n] + u[n..];
    ValConcat(u[0..n], u[n..], B);
    PowAdd(B, n - 1, m + 1);
    assert x * s < Pow(B, n - 1) * p * s by {
      MulMono(s, x + 1, Pow(B, n - 1) * p);
      DistributeOne(x, s);
    }
    assert Pow(B, n - 1) * p * s == Pow(B, n - 1) * s * p by { MulRotate(Pow(B, n - 1), p, s); }
    MulMono(p, Pow(B, n - 1) * s, dv);
    MulCancel(Value(u[0..n]), dv, p);
  }

  /** Scaling dividend and divisor leaves the quotient and scales the remainder. */
  lemma ScaleAway(u: nat, v: nat, s: nat)
    requires v > 0 && s > 0
    ensures v * s > 0 && (u * s) / (v * s) == u / v && (u * s) % (v * s) == (u % v) * s
  {
    MulPositive(v, s);
    DivMod(u, v);
    assert u * s == (u / v) * (v * s) + (u % v) * s by {
      DistributeRight((u / v) * v, u % v, s);
      MulAssoc(u / v, v, s);
    }
    assert (u % v) * s < v * s by {
      MulMono(s, u % v + 1, v);
      DistributeOne(u % v, s);
    }
    DivModUnique(u * s, v * s, u / v, (u % v) * s);
  }

  // ------------------------------------------------------------------
  // The division of long numbers

  /** `u` has at least as many digits as `v`, so a leading zero can be dropped only while digits remain. */
  lemma DigitsLeft(us: seq<nat>, uo: nat, n: nat, u: nat, v: nat)
    requires |us| == 5 && Digital(us) && 0 < n <= 4 && uo + n <= 4
    requires (forall k :: 0 <= k <= uo + 1 ==> us[k] == 0) && Value(us[1..5]) == u
    requires Pow(B, n - 1) <= v <= u
    ensures uo + n < 4
  {
    ZerosThenWindow(us, 1, uo + 2, 5);
    ValBound(us[uo + 2..5], B);
  }

  method SkipZeros(us: array<nat>, n: nat, ghost u: nat, ghost v: nat) returns (uo: nat, m: nat)
    requires us.Length == 5 && Digital(us[..]) && us[0] == 0 && Value(us[..][1..5]) == u
    requires 2 <= n <= 4 && Pow(B, n - 1) <= v <= u
    ensures uo + m + n == 4 && forall k :: 0 <= k <= uo ==> us[k] == 0
  {
    uo, m := 0, 4 - n;
    while us[uo + 1] == 0
      invariant uo + m + n == 4 && forall k :: 0 <= k <= uo ==> us[k] == 0
      decreases m
    {
      DigitsLeft(us[..], uo, n, u, v);
      uo, m := uo + 1, m - 1;
    }
  }

  /** Dropping the leading zeros of the dividend changes neither its value nor its bound. */
  lemma Trimmed(us: seq<nat>, uo: nat)
    requires |us| == 5 && Digital(us) && uo < 5 && forall k :: 0 <= k <= uo ==> us[k] == 0
    ensures Value(us[uo..5]) == Value(us[1..5]) < Pow(B, 4 - uo)
  {
    if uo == 0 {
      ZerosThenWindow(us, 0, 1, 5);
    } else {
      ZerosThenWindow(us, 1, uo, 5);
    }
    ZerosThenWindow(us, uo, uo + 1, 5);
    ValBound(us[uo + 1..5], B);
  }

  /** D1: both numbers are multiplied by the same power of two. */
  method Normalise(us: array<nat>, uo: nat, m: nat, vs: array<nat>, vo: nat, n: nat) returns (d: nat)
    requires us != vs && us.Length == vs.Length == 5 && Digital(us[..]) && Digital(vs[..])
    requires uo + m + n == 4 && vo + n == 4 && n >= 2 && us[uo] == 0 && vs[vo + 1] > 0
    modifies us, vs
    ensures Digital(us[..]) && Digital(vs[..]) && d < HALF_BITS && vs[vo + 1] >= B / 2
    ensures forall k :: 0 <= k < uo ==> us[k] == old(us[k])
    ensures Value(us[..][uo..5]) == Value(old(us[..])[uo..5]) * Pow(2, d)
    ensures Value(vs[..][vo + 1..5]) == Value(old(vs[..])[vo + 1..5]) * Pow(2, d)
  {
    ghost var u0, v0 := us[..], vs[..];
    d := ShiftCount(vs[vo + 1]);
    if d > 0 {
      SplitBase(d);
      ghost var s, r := Pow(2, d), Pow(2, HALF_BITS - d);
      MulMono(s, 1, r);
      ShiftLeft(us, uo, m + n, d);
      ShiftLeft(vs, vo + 1, n - 1, d);
      hide Val, Pow, Digital;
      Slices(us[..], uo, vs[..], vo);
      Slices(u0, uo, v0, vo);
      DividendShifted(u0[uo..5], us[..][uo..5], m + n, s);
      DivisorShifted(v0[vo + 1..5], vs[..][vo + 1..5], n, s, r);
    }
  }

  lemma Slices(us: seq<nat>, uo: nat, vs: seq<nat>, vo: nat)
    requires |us| == |vs| == 5 && uo < 5 && vo < 4 && Digital(us) && Digital(vs)
    ensures Digital(us[uo..5]) && Digital(vs[vo + 1..5])
  {
  }

  method LongDivide(us: array<nat>, vs: array<nat>, vo: nat, n: nat, ghost u: nat, ghost v: nat)
    returns (q: nat, r: nat)
    requires us != vs && us.Length == vs.Length == 5 && Digital(us[..]) && Digital(vs[..])
    requires us[0] == 0 && Value(us[..][1..5]) == u
    requires 2 <= n <= 4 && vo + n == 4 && vs[vo + 1] > 0 && Value(vs[..][vo + 1..5]) == v <= u
    modifies us, vs
    ensures v > 0 && q == u / v && r == u % v
  {
    hide Val, Pow;
    DivisorLarge(vs[..], vo, n);
    var uo, m := SkipZeros(us, n, u, v);
    Trimmed(us[..], uo);
    var d := Normalise(us, uo, m, vs, vo, n);
    assert d < HALF_BITS;
    ghost var s := Pow(2, d);
    PowPositive(2, d);
    Prepared(us[..], uo, m, n, u, s, v);
    var qs := new nat[5](_ => 0);
    DivideDigits(us, uo, vs, vo + 1, qs, 4 - m, m, n);
    ScaleAway(u, v, s);
    assert Value(qs[..][4 - m..5]) == u / v;
    ZerosThenWindow(us[..], uo, uo + m, 5);
    ghost var rest := u % v;
    assert Value(us[..][uo + m..5]) == rest * s;
    if d > 0 {
      ShiftRight(us, uo + m, 5, d);
      DivModUnique(rest * s, s, rest, 0);
    } else {
      PowNone(2);
    }
    assert Value(us[..][uo + m..5]) == rest;
    Finish(us[..], uo + m, qs[..], 4 - m);
    q := Assemble(qs[1], qs[2], qs[3], qs[4]);
    r := Assemble(us[1], us[2], us[3], us[4]);
  }

  lemma PowNone(b: nat)
    ensures Pow(b, 0) == 1
  {
  }

  lemma DivisorLarge(vs: seq<nat>, vo: nat, n: nat)
    requires |vs| == 5 && n > 0 && vo + n == 4 && Digital(vs) && vs[vo + 1] > 0
    ensures Value(vs[vo + 1..5]) >= Pow(B, n - 1) && Value(vs[vo + 1..5]) > 0
  {
    LeadBounds(vs[vo + 1..5], n);
    PowPositive(B, n - 1);
    MulMono(Pow(B, n - 1), 1, vs[vo + 1]);
  }

  lemma Prepared(us: seq<nat>, uo: nat, m: nat, n: nat, u: nat, s: nat, v: nat)
    requires |us| == 5 && Digital(us) && uo + m + n == 4 && n > 0 && s > 0
    requires Value(us[uo..5]) == u * s && u < Pow(B, m + n) && v >= Pow(B, n - 1)
    ensures Value(us[uo..uo + n]) < v * s
  {
    assert us[uo..5][0..n] == us[uo..uo + n];
    MulMono(s, Pow(B, n - 1), v);
    PrefixBelow(us[uo..5], m, n, u, s, v * s);
  }

  lemma Finish(us: seq<nat>, k: nat, qs: seq<nat>, qo: nat)
    requires |us| == |qs| == 5 && k < 5 && 0 < qo <= 5
    requires (forall j :: 0 <= j <= k ==> us[j] == 0) && (forall j :: 0 <= j < qo ==> qs[j] == 0)
    ensures Assemble(us[1], us[2], us[3], us[4]) == Value(us[k..5])
    ensures Assemble(qs[1], qs[2], qs[3], qs[4]) == Value(qs[qo..5])
  {
    AssembleIsValue(us);
    AssembleIsValue(qs);
    ZerosThenWindow(qs, 1, qo, 5);
    if k == 0 {
      ZerosThenWindow(us, 0, 1, 5);
    } else {
      ZerosThenWindow(us, 1, k, 5);
    }
  }

  /** `__qdivrem`: quotient and remainder of any two unsigned long longs. */
  method QDivRem(u: nat, v: nat) returns (o: Outcome)
    requires u < LONG && v < LONG
    ensures v == 0 ==> o == Trap
    ensures v > 0 ==> o == Answer(u / v, u % v)
  {
    if v == 0 {
      return Trap;
    }
    if u < v {
      DivModUnique(u, v, 0, u);
      return Answer(0, u);
    }
    hide Val, Assemble;
    var us := Split(u);
    var vs := Split(v);
    AssembleIsValue(us[..]);
    var n, vo := 4, 0;
    while vs[vo + 1] == 0
      invariant vo + n == 4 && 2 <= n
      invariant forall k :: 0 <= k <= vo ==> vs[k] == 0
      decreases n
    {
      n := n - 1;
      if n == 1 {
        LastDigit(vs[..]);
        var q, r := ShortDivide(us[1], us[2], us[3], us[4], vs[vo + 2]);
        return Answer(q, r);
      }
      vo := vo + 1;
    }
    ZerosThenWindow(vs[..], 1, vo + 1, 5);
    var q, r := LongDivide(us, vs, vo, n, u, v);
    return Answer(q, r);
  }

  lemma LastDigit(vs: seq<nat>)
    requires |vs| == 5 && forall k :: 1 <= k < 4 ==> vs[k] == 0
    ensures Value(vs[1..5]) == vs[4]
  {
    ZerosThenWindow(vs, 1, 4, 5);
    assert vs[4..4] == [];
    NextDigit(vs, 4, 4);
  }
}
