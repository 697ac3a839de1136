/** atoi (common/libc/stdlib/atoi.c), and its round trip with the text of an int. */
module Atoi {
  import opened Common
  import opened Numeral

  predicate IsInt(n: int) {
    -0x8000_0000 <= n < 0x8000_0000
  }

  /** A number kept to 32 bits and read as an int. */
  function ToInt(x: int): (r: int)
    ensures IsInt(r) && (IsInt(x) ==> r == x)
  {
    (x + 0x8000_0000) % WORD - 0x8000_0000
  }

  predicate IsBlank(c: char) {
    c == ' ' || c == '\t'
  }

  function Blanks(s: string): (k: nat)
    ensures k <= |s| && (k < |s| ==> !IsBlank(s[k])) && forall i :: 0 <= i < k ==> IsBlank(s[i])
  {
    if s != [] && IsBlank(s[0]) then 1 + Blanks(s[1..]) else 0
  }

  /** The length of the longest run of decimal digits at the start. */
  function Run(s: string): (k: nat)
    ensures k <= |s| && (k < |s| ==> DigitValue(s[k]) >= 10) && IsNumeral(s[..k], 10)
  {
    if s != [] && DigitValue(s[0]) < 10 then 1 + Run(s[1..]) else 0
  }

  predicate HasSign(s: string) {
    s != [] && (s[0] == '-' || s[0] == '+')
  }

  /** The value of the leading digits. */
  function Number(s: string): nat {
    Value(s[..Run(s)], 10)
  }

  /** An optional sign and digits. */
  function SignedNumber(t: string): int {
    if !HasSign(t) then Number(t)
    else if t[0] == '-' then 0 - Number(t[1..])
    else Number(t[1..])
  }

  /** The int a string stands for: blanks, a sign, digits, and anything. */
  function Parsed(s: string): int {
    ToInt(SignedNumber(s[Blanks(s)..]))
  }

  method SkipBlanks(s: string) returns (i: nat)
    ensures i == Blanks(s)
  {
    i := 0;
    while i < |s| && IsBlank(s[i])
      invariant i <= |s| && Blanks(s) == i + Blanks(s[i..])
    {
      assert s[i..][1..] == s[i + 1..];
      i := i + 1;
    }
  }

  /** The digit loop, in an unsigned that wraps. */
  method ReadDigits(s: string, from: nat) returns (val: nat)
    requires from <= |s|
    ensures val == Number(s[from..]) % WORD
  {
    hide Value, DigitValue;
    val := 0;
    var i := from;
    assert s[from..i] == [] && Value([], 10) == 0 by { ValueNone(); }
    while i < |s| && DigitValue(s[i]) < 10
      invariant from <= i <= |s| && IsNumeral(s[from..i], 10) && val == Value(s[from..i], 10) % WORD
    {
      assert s[from..i + 1] == s[from..i] + [s[i]];
      ValueAppend(s[from..i], s[i], 10);
      WrapStep(Value(s[from..i], 10), DigitValue(s[i]));
      val := (val * 10 + DigitValue(s[i])) % WORD;
      i := i + 1;
    }
    assert s[from..][..i - from] == s[from..i];
    assert i < |s| ==> s[from..][i - from] == s[i];
    RunIs(s[from..], i - from);
  }

  method Atoi(s: string) returns (r: int)
    ensures r == Parsed(s)
  {
    hide Number, ToInt;
    var i := SkipBlanks(s);
    ghost var t := s[i..];
    var neg := false;
    if i < |s| && s[i] == '-' {
      neg := true;
      i := i + 1;
    } else if i < |s| && s[i] == '+' {
      i := i + 1;
    }
    assert s[i..] == if HasSign(t) then t[1..] else t;
    var val := ReadDigits(s, i);
    var v: int := val;
    r := ToInt(if neg then -v else v);
    WrapSame(Number(s[i..]));
  }

  lemma ValueNone()
    ensures Value([], 10) == 0
  {
  }

  lemma WrapStep(v: nat, d: nat)
    ensures (v % WORD * 10 + d) % WORD == (v * 10 + d) % WORD
  {
    assert v * 10 + d == v % WORD * 10 + d + v / WORD * 10 * WORD;
  }

  lemma WrapSame(v: nat)
    ensures ToInt(v % WORD) == ToInt(v) && ToInt(0 - v % WORD) == ToInt(0 - v)
  {
  }

  lemma {:induction false} RunIs(s: string, k: nat)
    requires k <= |s| && IsNumeral(s[..k], 10) && (k < |s| ==> DigitValue(s[k]) >= 10)
    ensures Run(s) == k
  {
    if k > 0 {
      assert DigitValue(s[..k][0]) < 10;
      assert s[1..][..k - 1] == s[..k][1..];
      RunIs(s[1..], k - 1);
    }
  }

  lemma {:induction false} BlanksAre(pad: string, s: string)
    requires (forall i :: 0 <= i < |pad| ==> IsBlank(pad[i])) && s != [] && !IsBlank(s[0])
    ensures Blanks(pad + s) == |pad|
  {
    if pad == [] {
      assert pad + s == s;
    } else {
      assert (pad + s)[1..] == pad[1..] + s;
      BlanksAre(pad[1..], s);
    }
  }

  /** The text of a signed number. */
  function Shown(n: int): string {
    if n < 0 then "-" + Text(-n, 10) else Text(n, 10)
  }

  lemma NumberOfText(m: nat, rest: string)
    requires rest != [] ==> DigitValue(rest[0]) >= 10
    ensures Number(Text(m, 10) + rest) == m && DigitValue(Text(m, 10)[0]) < 10
  {
    var digits := Text(m, 10);
    ValueOfText(m, 10);
    assert (digits + rest)[..|digits|] == digits;
    RunIs(digits + rest, |digits|);
  }

  lemma SignedOfShown(n: int, rest: string)
    requires rest != [] ==> DigitValue(rest[0]) >= 10
    ensures SignedNumber(Shown(n) + rest) == n && Shown(n) != [] && !IsBlank(Shown(n)[0])
  {
    hide Number, Text;
    if n < 0 {
      NumberOfText(-n, rest);
      assert (Shown(n) + rest)[1..] == Text(-n, 10) + rest;
    } else {
      NumberOfText(n, rest);
    }
  }

  /** atoi reads back every int, whatever blanks come before and whatever comes after the digits. */
  lemma RoundTrip(pad: string, n: int, rest: string)
    requires IsInt(n) && (forall i :: 0 <= i < |pad| ==> IsBlank(pad[i]))
    requires rest != [] ==> DigitValue(rest[0]) >= 10
    ensures Parsed(pad + Shown(n) + rest) == n
  {
    hide Shown, SignedNumber, Blanks;
    var s := Shown(n) + rest;
    SignedOfShown(n, rest);
    assert pad + Shown(n) + rest == pad + s;
    BlanksAre(pad, s);
    assert (pad + s)[|pad|..] == s;
  }
}
