/** Printing an int with %d and reading it back with atoi, for every width and flag. */
module PrintfAtoi {
  import opened Common
  import opened Digits
  import opened Numeral
  import opened Atoi
  import opened Printf
  import opened PrintfFields

  lemma IntArg(size: Size, n: int)
    requires IsInt(n)
    ensures SignedArg(size, n) == n
  {
  }

  /** %d, %ld and %zd take the int as it is, and have no base prefix. */
  lemma DecimalField(f: Field, n: int)
    requires IsInt(n)
    ensures NumberText(f, 'd', n) == Padded(f, if n < 0 then "-" else "", "", Text(if n < 0 then -n else n, 10))
  {
    hide Padded, Text, SignedArg;
    IntArg(f.size, n);
  }

  /** %d alone prints the plain text of the number. */
  lemma PlainDecimal(n: int)
    requires IsInt(n)
    ensures Rendered("%d", [Num(n)], None) == Shown(n)
  {
    var args := [Num(n)];
    PlainField(n);
    hide NumberText, Shown;
    assert "%d"[1..] == "d" && "d"[1..] == "";
    assert Emitted(None, '%', args) == "" && Emitted(Some(PLAIN), 'd', args) == Shown(n);
    hide Emitted;
    assert Rendered("d", args, Some(PLAIN)) == Shown(n) + Rendered("", Rest(args), None);
  }

  lemma PlainField(n: int)
    requires IsInt(n)
    ensures NumberText(PLAIN, 'd', n) == Shown(n)
  {
    hide Text, NumberText, Padded, Shown;
    var d, sign := Text(if n < 0 then -n else n, 10), if n < 0 then "-" else "";
    DecimalField(PLAIN, n);
    PaddedForms(PLAIN, sign, d);
    ShownForm(n);
    assert Repeat(' ', 0) == "" && "" + (sign + d) == sign + d;
  }

  lemma ShownForm(n: int)
    ensures (if n < 0 then "-" else "") + Text(if n < 0 then -n else n, 10) == Shown(n)
  {
  }

  /** The three ways to pad. */
  lemma PaddedForms(f: Field, sign: string, stuff: string)
    ensures var g := Gap(f, |sign| + |stuff|);
      Padded(f, sign, "", stuff) ==
        if f.right then (sign + stuff) + Repeat(if f.zero then '0' else ' ', g)
        else if f.zero then sign + (Repeat('0', g) + stuff)
        else Repeat(' ', g) + (sign + stuff)
  {
    var g := Gap(f, |sign| + |stuff|);
    var fill := Repeat(if f.zero then '0' else ' ', g);
    assert |sign| + |""| + |stuff| == |sign| + |stuff|;
    hide Repeat, Gap;
    if f.right {
      assert "" + sign + "" + "" + stuff + fill == (sign + stuff) + fill;
    } else if f.zero {
      assert "" + sign + "" + fill + stuff + "" == sign + (fill + stuff);
    } else {
      assert fill + sign + "" + "" + stuff + "" == fill + (sign + stuff);
    }
  }

  /** For every int n, atoi of "%d" formatted n is n. */
  lemma PrintThenRead(n: int)
    requires IsInt(n)
    ensures Parsed(Rendered("%d", [Num(n)], None)) == n
  {
    PlainDecimal(n);
    RoundTrip("", n, "");
    hide Shown, Parsed;
    assert "" + Shown(n) + "" == Shown(n);
  }

  // ------------------------------------------------------------------
  // Zeros

  lemma {:induction false} ValueConcat(s: string, t: string)
    ensures Value(s + t, 10) == Value(s, 10) * Pow(10, |t|) + Value(t, 10)
    decreases |t|
  {
    if t == [] {
      assert s + t == s;
    } else {
      var k := |t| - 1;
      var h := t[..k];
      assert s + t == (s + h) + [t[k]] && t == h + [t[k]];
      ValueAppend(s + h, t[k], 10);
      ValueAppend(h, t[k], 10);
      ValueConcat(s, h);
      MulAssoc(Value(s, 10), Pow(10, k), 10);
    }
  }

  lemma {:induction false} ValueZeros(k: nat)
    ensures Value(Repeat('0', k), 10) == 0 && IsNumeral(Repeat('0', k), 10)
  {
    if k > 0 {
      ValueZeros(k - 1);
      ValueAppend(Repeat('0', k - 1), '0', 10);
    }
  }

  lemma NumberIs(s: string)
    requires IsNumeral(s, 10)
    ensures Number(s) == Value(s, 10)
  {
    assert s[..|s|] == s;
    RunIs(s, |s|);
  }

  /** Zeros before the digits do not change the number. */
  lemma LeadingZeros(k: nat, m: nat)
    ensures Number(Repeat('0', k) + Text(m, 10)) == m
  {
    var z, d := Repeat('0', k), Text(m, 10);
    ValueZeros(k);
    ValueOfText(m, 10);
    ValueConcat(z, d);
    assert IsNumeral(z + d, 10);
    NumberIs(z + d);
  }

  /** Zeros after the digits multiply it. */
  lemma TrailingZeros(k: nat, m: nat)
    ensures Number(Text(m, 10) + Repeat('0', k)) == m * Pow(10, k)
  {
    var z, d := Repeat('0', k), Text(m, 10);
    ValueZeros(k);
    ValueOfText(m, 10);
    ValueConcat(d, z);
    assert IsNumeral(d + z, 10);
    NumberIs(d + z);
  }

  // ------------------------------------------------------------------
  // When a number is its own multiple modulo 2^32

  lemma {:induction false} OddFactor(n: nat, m: nat, k: nat, e: nat) returns (q: nat)
    requires n * m == k * Pow(2, e) && m % 2 == 1
    ensures n == q * Pow(2, e)
    decreases e
  {
    if e == 0 {
      q := n;
    } else {
      var p := Pow(2, e - 1);
      MulSwap(k, 2, p);
      assert n * m == 2 * (k * p);
      EvenProduct(n, m, k * p);
      var a := n / 2;
      MulAssoc(2, a, m);
      assert a * m == k * p;
      q := OddFactor(a, m, k, e - 1);
      MulSwap(q, 2, p);
    }
  }

  lemma EvenProduct(n: nat, m: nat, k: int)
    requires n * m == 2 * k && m % 2 == 1
    ensures n % 2 == 0
  {
    var h := m / 2;
    assert n * m == n * (2 * h) + n by { DistributeLeft(n, 2 * h, 1); }
    assert n * (2 * h) == 2 * (n * h);
  }

  lemma Power32()
    ensures Pow(2, 32) == WORD
  {
    PowAdd(2, 16, 16);
    PowAdd(2, 8, 8);
    PowAdd(2, 4, 4);
    assert Pow(2, 4) == 16;
  }

  lemma EvenPower(k: nat)
    requires k > 0
    ensures Pow(10, k) % 2 == 0 && Pow(10, k) > 0
  {
    PowPositive(10, k - 1);
    assert Pow(10, k) == 2 * (5 * Pow(10, k - 1));
  }

  /** Shifted by decimal places, an int other than 0 is never the same int again, even in 32 bits. */
  lemma ShiftedDiffers(n: int, m: nat, x: nat, k: nat)
    requires IsInt(n) && m == (if n < 0 then -n else n) && k > 0 && x == m * Pow(10, k)
    ensures ToInt(if n < 0 then 0 - x else x) == n <==> n == 0
  {
    var p := Pow(10, k);
    EvenPower(k);
    MulMono(m, 1, p);
    if ToInt(if n < 0 then 0 - x else x) == n {
      var j := SameResidue(n, m, x);
      NoMultiple(m, p, j);
    }
  }

  lemma NoMultiple(m: nat, p: nat, j: nat)
    requires m <= 0x8000_0000 && p > 0 && p % 2 == 0 && m * p - m == j * WORD
    ensures m == 0
  {
    DistributeLeft(m, p, -1);
    Power32();
    var q := OddFactor(m, p - 1, j, 32);
    assert m == q * WORD;
  }

  lemma SameResidue(n: int, m: nat, x: nat) returns (j: nat)
    requires IsInt(n) && m == (if n < 0 then -n else n) && x >= m
    requires ToInt(if n < 0 then 0 - x else x) == n
    ensures x - m == j * WORD
  {
    j := (x - m) / WORD;
  }

  // ------------------------------------------------------------------
  // Every field

  lemma FieldText(f: Field, n: int)
    requires IsInt(n)
    ensures var g, m := Gap(f, |Shown(n)|), Text(if n < 0 then -n else n, 10);
      NumberText(f, 'd', n) ==
        if f.right then Shown(n) + Repeat(if f.zero then '0' else ' ', g)
        else if f.zero then (if n < 0 then "-" else "") + (Repeat('0', g) + m)
        else Repeat(' ', g) + Shown(n)
  {
    hide Text, NumberText, Repeat, Padded, Gap, Shown;
    DecimalField(f, n);
    PaddedForms(f, if n < 0 then "-" else "", Text(if n < 0 then -n else n, 10));
    ShownForm(n);
  }

  lemma BlanksBefore(n: int, g: nat)
    requires IsInt(n)
    ensures Parsed(Repeat(' ', g) + Shown(n)) == n
  {
    hide Parsed, Shown, Repeat, DigitValue;
    RoundTrip(Repeat(' ', g), n, "");
    assert Repeat(' ', g) + Shown(n) + "" == Repeat(' ', g) + Shown(n);
  }

  lemma BlanksAfter(n: int, g: nat)
    requires IsInt(n)
    ensures Parsed(Shown(n) + Repeat(' ', g)) == n
  {
    hide Parsed, Shown, Repeat;
    RoundTrip("", n, Repeat(' ', g));
    assert "" + Shown(n) == Shown(n);
  }

  /** A string that starts with a digit or a sign has no blanks to skip. */
  lemma ParsedAtOnce(s: string)
    requires s != [] && !IsBlank(s[0])
    ensures Parsed(s) == ToInt(SignedNumber(s))
  {
    assert s[0..] == s;
  }

  lemma ParsedSigned(n: int, digits: string)
    requires IsNumeral(digits, 10) && digits != []
    ensures Parsed((if n < 0 then "-" else "") + digits) == ToInt(if n < 0 then 0 - Number(digits) else Number(digits))
  {
    var s := (if n < 0 then "-" else "") + digits;
    assert DigitValue(digits[0]) < 10;
    assert DigitValue('-') == 16 && DigitValue('+') == 16 && DigitValue(' ') == 16 && DigitValue('\t') == 16;
    hide Number, ToInt, DigitValue;
    ParsedAtOnce(s);
    if n < 0 {
      assert s[1..] == digits;
    } else {
      assert s == digits;
    }
  }

  lemma ZeroField(n: int, g: nat)
    requires IsInt(n)
    ensures Parsed((if n < 0 then "-" else "") + (Repeat('0', g) + Text(if n < 0 then -n else n, 10))) == n
  {
    var m: nat := if n < 0 then -n else n;
    ValueZeros(g);
    ValueOfText(m, 10);
    LeadingZeros(g, m);
    ParsedSigned(n, Repeat('0', g) + Text(m, 10));
  }

  lemma WrongField(n: int, g: nat)
    requires IsInt(n) && g > 0
    ensures Parsed(Shown(n) + Repeat('0', g)) == n <==> n == 0
  {
    hide Repeat, Text, ToInt, Parsed, Pow, Number, Value, DigitValue;
    var m: nat := if n < 0 then -n else n;
    var sign, t, z := if n < 0 then "-" else "", Text(m, 10), Repeat('0', g);
    ValueZeros(g);
    ValueOfText(m, 10);
    assert IsNumeral(t + z, 10);
    hide IsNumeral;
    TrailingZeros(g, m);
    ShiftedDiffers(n, m, Number(t + z), g);
    assert Shown(n) + z == sign + (t + z);
    ParsedSigned(n, t + z);
  }

  lemma FieldReads(f: Field, n: int)
    requires IsInt(n)
    ensures Parsed(NumberText(f, 'd', n)) == n <==> (n == 0 || !(f.right && f.zero && f.spacing > |Shown(n)|))
  {
    var g := Gap(f, |Shown(n)|);
    FieldText(f, n);
    hide NumberText, Parsed, Text;
    BlanksBefore(n, g);
    BlanksAfter(n, g);
    ZeroField(n, g);
    if f.right && f.zero {
      if g > 0 {
        WrongField(n, g);
      } else {
        assert Repeat('0', 0) == Repeat(' ', 0);
      }
    }
  }

  /**
    The format asks for padding on the right with zeros, which C99 section 7.19.6.1 does not
    allow ('-' overrides '0'), and there is something to pad.
   */
  predicate ZerosOnTheRight(mods: string, n: int) {
    var ds := DigitsOf(mods);
    '-' in mods && ds != [] && ds[0] == '0' && Value(ds, 10) > |Shown(n)|
  }

  /**
    atoi reads back what a format of one %d field printed, with any modifiers, exactly when the
    field does not pad on the right with zeros, or the number is 0.
   */
  lemma FieldRoundTrip(mods: string, n: int)
    requires IsInt(n) && AreModifiers(mods)
    ensures Parsed(Rendered(Format(mods, 'd'), [Num(n)], None)) == n <==> (n == 0 || !ZerosOnTheRight(mods, n))
  {
    hide Parsed, Rendered, NumberText, Folded, Shown, SizeOf, DigitsOf;
    FieldRendered(mods, 'd', n);
    ModifiersMean(mods);
    FieldReads(Folded(PLAIN, mods), n);
  }

  /** "%-05d" of 42 is read back as another number. */
  lemma WrongExample()
    ensures Parsed(Rendered("%-05d", [Num(42)], None)) != 42
  {
    hide Rendered, Parsed, Shown, DigitsOf, Value;
    ShownFortyTwo();
    DigitsZeroFive();
    assert Format("-05", 'd') == "%-05d";
    FieldRoundTrip("-05", 42);
  }

  lemma ShownFortyTwo()
    ensures |Shown(42)| == 2
  {
    assert |Text(4, 10)| == 1 && 42 / 10 == 4;
  }

  lemma DigitsZeroFive()
    ensures DigitsOf("-05") == "05" && Value("05", 10) == 5
  {
    assert "-05"[..2] == "-0" && "-0"[..1] == "-" && "-"[..0] == "";
    assert DigitsOf("-") == "" && DigitsOf("-0") == "0";
    assert "05"[..1] == "0" && "0"[..0] == "";
    assert Value("0", 10) == 0;
  }

  // ------------------------------------------------------------------
  // Through a buffer

  /** The string a C pointer to these characters denotes: up to the first NUL. */
  function CString(s: string): string {
    if s == [] || s[0] == NUL then [] else [s[0]] + CString(s[1..])
  }

  lemma {:induction false} CStringIs(s: string, k: nat)
    requires k < |s| && s[k] == NUL && NUL !in s[..k]
    ensures CString(s) == s[..k]
  {
    if k > 0 {
      assert s[..k][0] == s[0] && s[1..][..k - 1] == s[1..k];
      assert forall i :: 0 <= i < k - 1 ==> s[1..k][i] == s[..k][i + 1];
      CStringIs(s[1..], k - 1);
      assert [s[0]] + s[1..k] == s[..k];
    }
  }

  lemma ShownNoNul(n: int)
    ensures NUL !in Shown(n)
  {
    var m: nat := if n < 0 then -n else n;
    ValueOfText(m, 10);
    assert DigitValue(NUL) == 16;
    assert NUL !in Text(m, 10);
  }

  /** A sign and ten digits are enough for an int. */
  lemma ShownLength(n: int)
    requires IsInt(n)
    ensures |Shown(n)| <= 11
  {
    PowAdd(10, 5, 5);
    assert Pow(10, 5) == 100000;
    TextLength(if n < 0 then -n else n, 10, 10);
  }

  /**
    snprintf with "%d" into a buffer, then atoi of the buffer. With room for the number and the
    NUL the number comes back; 12 characters are always enough. With less, atoi reads the
    number cut off.
   */
  method PrintAndRead(buf: array<char>, len: nat, n: int) returns (r: int)
    requires IsInt(n) && 0 < len <= buf.Length
    modifies buf
    ensures r == if |Shown(n)| < len then n else Parsed(Shown(n)[..len - 1])
    ensures len >= 12 ==> r == n
  {
    hide Rendered, Parsed, Shown;
    var chars := Vsnprintf(buf, len, "%d", [Num(n)]);
    PlainDecimal(n);
    PrintThenRead(n);
    ShownNoNul(n);
    ShownLength(n);
    ghost var k := Min(|Shown(n)|, len - 1);
    assert buf[..][..k] == buf[..k];
    CStringIs(buf[..], k);
    r := Atoi.Atoi(CString(buf[..]));
    assert |Shown(n)| < len ==> Shown(n)[..k] == Shown(n);
  }
}
