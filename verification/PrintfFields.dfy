/** What the modifiers of a field mean, and what a whole field of a format prints. */
module PrintfFields {
  import opened Common
  import opened Numeral
  import opened Printf

  predicate AreModifiers(mods: string) {
    forall i :: 0 <= i < |mods| ==> IsModifier(mods[i])
  }

  /** The settings after a string of modifiers. */
  function Folded(f: Field, mods: string): Field
    requires AreModifiers(mods)
    decreases |mods|
  {
    if mods == [] then f else Folded(Modified(f, mods[0]), mods[1..])
  }

  lemma {:induction false} FoldedAppend(f: Field, mods: string, c: char)
    requires AreModifiers(mods + [c])
    ensures AreModifiers(mods) && IsModifier(c) && Folded(f, mods + [c]) == Modified(Folded(f, mods), c)
    decreases |mods|
  {
    assert (mods + [c])[|mods|] == c;
    assert forall i :: 0 <= i < |mods| ==> (mods + [c])[i] == mods[i];
    hide Modified;
    if mods == [] {
      assert mods + [c] == [c] && [c][1..] == [];
    } else {
      assert (mods + [c])[1..] == mods[1..] + [c];
      FoldedAppend(Modified(f, mods[0]), mods[1..], c);
    }
  }

  // ------------------------------------------------------------------
  // The meaning of a string of modifiers

  predicate IsDigit(c: char) {
    '0' <= c <= '9'
  }

  /** The digits among the modifiers, in order. */
  function DigitsOf(mods: string): string {
    if mods == [] then [] else
      var n := |mods| - 1;
      DigitsOf(mods[..n]) + if IsDigit(mods[n]) then [mods[n]] else []
  }

  /** How many times 'l' occurs after the last 'z'. */
  function Els(mods: string): nat {
    if mods == [] then 0 else
      var n := |mods| - 1;
      if mods[n] == 'z' then 0 else Els(mods[..n]) + if mods[n] == 'l' then 1 else 0
  }

  function SizeOf(mods: string): Size {
    if Els(mods) == 0 then (if 'z' in mods then SizeTSize else IntSize)
    else if Els(mods) % 2 == 1 then LongSize else LongLongSize
  }

  /** The digits together are the width; zero fill is on exactly when the first digit is 0. */
  predicate WidthMeans(f: Field, ds: string) {
    && f.spacing == Value(ds, 10) && (f.zero <==> ds != [] && ds[0] == '0')
    && (f.spacing == 0 <==> forall i :: 0 <= i < |ds| ==> ds[i] == '0')
  }

  predicate Means(f: Field, mods: string) {
    && (f.alt <==> '#' in mods) && (f.right <==> '-' in mods)
    && WidthMeans(f, DigitsOf(mods)) && f.size == SizeOf(mods)
  }

  lemma WidthNext(f: Field, ds: string, c: char)
    requires WidthMeans(f, ds) && IsDigit(c)
    ensures WidthMeans(Modified(f, c), ds + [c])
  {
    ValueAppend(ds, c, 10);
    assert forall i :: 0 <= i < |ds| ==> (ds + [c])[i] == ds[i];
    assert (ds + [c])[|ds|] == c;
  }

  lemma SizeNext(f: Field, mods: string, c: char)
    requires f.size == SizeOf(mods) && IsModifier(c)
    ensures Modified(f, c).size == SizeOf(mods + [c])
  {
    assert (mods + [c])[..|mods|] == mods;
  }

  lemma FlagsNext(f: Field, mods: string, c: char)
    requires IsModifier(c) && (f.alt <==> '#' in mods) && (f.right <==> '-' in mods)
    ensures var f' := Modified(f, c);
      && (f'.alt <==> '#' in mods + [c]) && (f'.right <==> '-' in mods + [c])
      && (!IsDigit(c) ==> f'.spacing == f.spacing && f'.zero == f.zero)
  {
  }

  lemma MeansNext(f: Field, mods: string, c: char)
    requires Means(f, mods) && IsModifier(c)
    ensures Means(Modified(f, c), mods + [c])
  {
    assert (mods + [c])[..|mods|] == mods;
    FlagsNext(f, mods, c);
    SizeNext(f, mods, c);
    var ds := DigitsOf(mods);
    assert DigitsOf(mods + [c]) == if IsDigit(c) then ds + [c] else ds;
    if IsDigit(c) {
      WidthNext(f, ds, c);
    } else {
      assert WidthMeans(Modified(f, c), ds);
    }
    hide SizeOf, Modified, WidthMeans, IsModifier;
  }

  /**
    '#' and '-' count wherever they stand; the digits together are the width, in decimal; zero
    fill is on exactly when the first digit is 0; the size depends on what follows the last 'z'.
   */
  lemma {:induction false} ModifiersMean(mods: string)
    requires AreModifiers(mods)
    ensures Means(Folded(PLAIN, mods), mods)
    decreases |mods|
  {
    if mods != [] {
      var n := |mods| - 1;
      assert mods == mods[..n] + [mods[n]];
      ModifiersMean(mods[..n]);
      FoldedAppend(PLAIN, mods[..n], mods[n]);
      MeansNext(Folded(PLAIN, mods[..n]), mods[..n], mods[n]);
    }
  }

  // ------------------------------------------------------------------
  // A whole field

  lemma {:induction false} ModifiersRendered(mods: string, rest: string, args: seq<Arg>, f: Field)
    requires AreModifiers(mods)
    ensures Rendered(mods + rest, args, Some(f)) == Rendered(rest, args, Some(Folded(f, mods)))
    decreases |mods|
  {
    hide Modified, Converted;
    if mods == [] {
      assert mods + rest == rest;
    } else {
      assert (mods + rest)[0] == mods[0] && (mods + rest)[1..] == mods[1..] + rest;
      assert IsModifier(mods[0]);
      ModifiersRendered(mods[1..], rest, args, Modified(f, mods[0]));
    }
  }

  function Format(mods: string, c: char): string {
    "%" + mods + [c]
  }

  lemma FieldStarts(fmt: string, args: seq<Arg>)
    requires fmt != [] && fmt[0] == '%'
    ensures Rendered(fmt, args, None) == Rendered(fmt[1..], args, Some(PLAIN))
  {
    hide Converted, Modified, IsModifier;
    assert Rendered(fmt, args, None) == "" + Rendered(fmt[1..], args, Some(PLAIN));
  }

  lemma NumericEnds(c: char, args: seq<Arg>, f: Field)
    requires c in "doupx"
    ensures Rendered([c], args, Some(f)) == NumberText(f, c, NumberArg(args))
  {
    assert !IsModifier(c);
    hide NumberText, Modified, Padded, IsModifier;
    assert Emitted(Some(f), c, args) == NumberText(f, c, NumberArg(args));
    hide Emitted;
    assert [c][1..] == [];
    assert Rendered([], NextArgs(Some(f), c, args), NextField(Some(f), c)) == "";
  }

  /** A format of one numeric field prints its argument as the folded modifiers say. */
  lemma FieldRendered(mods: string, c: char, n: int)
    requires AreModifiers(mods) && c in "doupx"
    ensures Rendered(Format(mods, c), [Num(n)], None) == NumberText(Folded(PLAIN, mods), c, n)
  {
    hide Rendered, NumberText, Folded, AreModifiers;
    var args, fmt := [Num(n)], Format(mods, c);
    assert fmt[0] == '%' && fmt[1..] == mods + [c];
    FieldStarts(fmt, args);
    ModifiersRendered(mods, [c], args, PLAIN);
    NumericEnds(c, args, Folded(PLAIN, mods));
  }

  // ------------------------------------------------------------------
  // The alternate form

  /** The value of an integer constant of C: hexadecimal after "0x", octal after "0", else decimal. */
  function Constant(s: string): nat {
    if |s| >= 2 && s[0] == '0' && s[1] == 'x' then Value(s[2..], 16)
    else if |s| >= 1 && s[0] == '0' then Value(s[1..], 8)
    else Value(s, 10)
  }

  lemma {:induction false} NoLeadingZero(n: nat, base: nat)
    requires 2 <= base <= 16 && n > 0
    ensures Text(n, base)[0] != '0'
    decreases n
  {
    if n >= base {
      DivSmaller(n, base);
      NoLeadingZero(n / base, base);
    } else {
      DigitBack(n);
      assert DigitValue('0') == 0;
    }
  }

  /** A text starts with a digit, not with an 'x'. */
  lemma TextStart(n: nat, base: nat)
    requires 2 <= base <= 16
    ensures Text(n, base)[0] != 'x' && Value(Text(n, base), base) == n
  {
    ValueOfText(n, base);
    assert DigitValue('x') == 16;
  }

  lemma ConstantOfText(n: nat, base: nat)
    requires base in {8, 10, 16}
    ensures Constant(Prefix(true, base) + Text(n, base)) == n
  {
    var t := Text(n, base);
    if base == 10 {
      DecimalConstant(n);
      hide Text, Value, Constant;
      assert "" + t == t;
    } else {
      TextStart(n, base);
      hide Text, Value;
      assert base == 16 ==> ("0x" + t)[2..] == t;
      assert base == 8 ==> ("0" + t)[1..] == t && ("0" + t)[1] == t[0];
    }
  }

  lemma DecimalConstant(n: nat)
    ensures Constant(Text(n, 10)) == n
  {
    var t := Text(n, 10);
    TextStart(n, 10);
    if n == 0 {
      assert t == "0" && t[1..] == "" && Value("", 8) == 0;
    } else {
      NoLeadingZero(n, 10);
      hide Text, Value;
    }
  }

  /** No width, no padding. */
  lemma Unpadded(f: Field, sign: string, base: string, stuff: string)
    requires f.spacing == 0
    ensures Padded(f, sign, base, stuff) == sign + base + stuff
  {
    assert Repeat(' ', 0) == "" && Repeat('0', 0) == "";
    assert "" + sign + base + "" + stuff + "" == sign + base + stuff;
  }

  /**
    What "%#o", "%#u" or "%#x" prints, with any size, is a constant of C with the value of the
    argument in that size.
   */
  lemma AlternateForm(mods: string, c: char, n: int)
    requires AreModifiers(mods) && '#' in mods && DigitsOf(mods) == [] && c in "oux"
    ensures Constant(Rendered(Format(mods, c), [Num(n)], None)) == n % Bits(SizeOf(mods))
  {
    var f := Folded(PLAIN, mods);
    ModifiersMean(mods);
    FieldRendered(mods, c, n);
    var v := ArgValue(f, c, n);
    hide Folded, SizeOf, Constant, Rendered, Padded, Text;
    Unpadded(f, "", Prefix(true, BaseOf(c)), Text(v, BaseOf(c)));
    ConstantOfText(v, BaseOf(c));
    assert "" + Prefix(true, BaseOf(c)) == Prefix(true, BaseOf(c));
  }
}
