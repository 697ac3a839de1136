/** Signed long long division: divdi3.c and moddi3.c of common/gcc-millicode. */
module SignedArith {
  import opened Common
  import opened Digits
  import opened LongDivision

  /** A long long is a two's complement number of 64 bits. */
  predicate IsLong(x: int) {
    -(LONG / 2) <= x < LONG / 2
  }

  /** The bits of a signed number read as unsigned. */
  function Bits(x: int): nat {
    x % LONG
  }

  /** The bits of an unsigned number read as signed. */
  function FromBits(x: nat): (r: int)
    requires x < LONG
    ensures IsLong(r) && Bits(r) == x
  {
    if x < LONG / 2 then x else x - LONG
  }

  /** Unary minus on unsigned long long. */
  function Negate(x: nat): nat
    requires x < LONG
  {
    if x == 0 then 0 else LONG - x
  }

  function Abs(x: int): nat {
    if x < 0 then -x else x
  }

  /** Quotient truncated toward zero, section 6.5.5 of C99. */
  function TruncDiv(a: int, b: int): int
    requires b != 0
  {
    if (a < 0) == (b < 0) then Abs(a) / Abs(b) else -(Abs(a) / Abs(b))
  }

  function TruncMod(a: int, b: int): int
    requires b != 0
  {
    a - b * TruncDiv(a, b)
  }

  /** The remainder has the sign of the dividend and is smaller than the divisor. */
  lemma TruncModSign(a: int, b: int)
    requires b != 0
    ensures TruncMod(a, b) == if a < 0 then -(Abs(a) % Abs(b)) else Abs(a) % Abs(b)
    ensures Abs(TruncMod(a, b)) < Abs(b)
  {
    DivMod(Abs(a), Abs(b));
    var q := Abs(a) / Abs(b);
    assert b * TruncDiv(a, b) == if a < 0 then -(q * Abs(b)) else q * Abs(b);
  }

  datatype Signed = Trapped | Ok(value: int)

  /** The magnitude of a signed number as the code computes it. */
  lemma Magnitude(x: int)
    requires IsLong(x)
    ensures (if x < 0 then Negate(Bits(x)) else Bits(x)) == Abs(x) < LONG
  {
  }

  /** `__divdi3` */
  method DivLong(a: int, b: int) returns (o: Signed)
    requires IsLong(a) && IsLong(b)
    ensures b == 0 ==> o == Trapped
    ensures b != 0 ==> o.Ok? && IsLong(o.value) && Bits(o.value) == Bits(TruncDiv(a, b))
    ensures b != 0 && !(a == -(LONG / 2) && b == -1) ==> o.value == TruncDiv(a, b)
  {
    Magnitude(a);
    Magnitude(b);
    hide Bits, FromBits, TruncDiv;
    var ua, ub, neg := Bits(a), Bits(b), false;
    if a < 0 {
      ua, neg := Negate(ua), !neg;
    }
    if b < 0 {
      ub, neg := Negate(ub), !neg;
    }
    var r := QDivRem(ua, ub);
    if r.Trap? {
      return Trapped;
    }
    SignedQuotient(a, b);
    QuotientFits(ua, ub);
    var uq := r.q;
    if neg {
      uq := Negate(uq);
    }
    return Ok(FromBits(uq));
  }

  /** Giving the quotient of the magnitudes its sign. */
  lemma SignedQuotient(a: int, b: int)
    requires IsLong(a) && IsLong(b) && b != 0
    ensures 0 <= Abs(a) / Abs(b) < LONG
    ensures var q := Abs(a) / Abs(b); var r := FromBits(if (a < 0) != (b < 0) then Negate(q) else q);
      Bits(r) == Bits(TruncDiv(a, b)) && (!(a == -(LONG / 2) && b == -1) ==> r == TruncDiv(a, b))
  {
    QuotientFits(Abs(a), Abs(b));
    QuotientRange(a, b);
  }

  lemma QuotientFits(u: nat, v: nat)
    requires v > 0
    ensures 0 <= u / v <= u && 0 <= u % v < v
  {
    DivMod(u, v);
    MulMono(u / v, 1, v);
  }

  /** Only the most negative number divided by -1 leaves the range. */
  lemma QuotientRange(a: int, b: int)
    requires IsLong(a) && IsLong(b) && b != 0
    ensures !(a == -(LONG / 2) && b == -1) ==> IsLong(TruncDiv(a, b))
    ensures -(LONG / 2) <= TruncDiv(a, b) <= LONG / 2
  {
    QuotientFits(Abs(a), Abs(b));
    if Abs(b) >= 2 {
      DivMod(Abs(a), Abs(b));
      MulMono(Abs(a) / Abs(b), 2, Abs(b));
    }
  }

  /** `__moddi3` */
  method ModLong(a: int, b: int) returns (o: Signed)
    requires IsLong(a) && IsLong(b)
    ensures b == 0 ==> o == Trapped
    ensures b != 0 ==> o == Ok(TruncMod(a, b))
  {
    Magnitude(a);
    Magnitude(b);
    hide Bits, FromBits, TruncDiv, TruncMod;
    var ua, ub, neg := Bits(a), Bits(b), false;
    if a < 0 {
      ua, neg := Negate(ua), !neg;
    }
    if b < 0 {
      ub := Negate(ub);
    }
    var r := QDivRem(ua, ub);
    if r.Trap? {
      return Trapped;
    }
    SignedRemainder(a, b);
    QuotientFits(ua, ub);
    var ur := r.r;
    if neg {
      ur := Negate(ur);
    }
    return Ok(FromBits(ur));
  }

  lemma SignedRemainder(a: int, b: int)
    requires IsLong(a) && IsLong(b) && b != 0
    ensures 0 <= Abs(a) % Abs(b) < LONG
    ensures var r := Abs(a) % Abs(b); FromBits(if a < 0 then Negate(r) else r) == TruncMod(a, b)
  {
    QuotientFits(Abs(a), Abs(b));
    TruncModSign(a, b);
  }
}
