/**
  The formatted printer (common/libc/printf/__printf.c) writing into a bounded buffer
  (common/libc/printf/snprintf.c).
 */
module Printf {
  import opened Common
  import opened Numeral
  import opened Digits

  /** A long long in base 8, a NUL and one more. */
  const NUMBER_BUF_SIZE := 23

  /** The text of a C string does not hold its terminator. */
  const NUL := '\0'

  datatype Size = IntSize | LongSize | LongLongSize | SizeTSize

  /** A variadic argument; a string may be a null pointer. */
  datatype Arg = Num(n: int) | Str(s: Option<string>)

  /** The settings of one %-field. */
  datatype Field = Field(size: Size, spacing: nat, right: bool, zero: bool, alt: bool)

  const PLAIN := Field(IntSize, 0, false, false, false)

  // ------------------------------------------------------------------
  // What a format means

  function Repeat(c: char, k: nat): (s: string)
    ensures |s| == k && forall i :: 0 <= i < k ==> s[i] == c
  {
    if k == 0 then [] else Repeat(c, k - 1) + [c]
  }

  /** Padding to the field width: blanks before the prefixes, zeros after them, or either on the right. */
  function Padded(f: Field, sign: string, base: string, stuff: string): string {
    var gap := Gap(f, |sign| + |base| + |stuff|);
    var fill := if f.zero then '0' else ' ';
    Piece(!f.right && !f.zero, fill, gap) + sign + base +
    Piece(!f.right && f.zero, fill, gap) + stuff + Piece(f.right, fill, gap)
  }

  function Gap(f: Field, len: nat): nat {
    if f.spacing > len then f.spacing - len else 0
  }

  function Piece(wanted: bool, c: char, k: nat): string {
    if wanted then Repeat(c, k) else ""
  }

  /** A field is as wide as asked for, or as its text needs. */
  lemma PaddedWidth(f: Field, sign: string, base: string, stuff: string)
    ensures |Padded(f, sign, base, stuff)| == |sign| + |base| + |stuff| + Gap(f, |sign| + |base| + |stuff|)
  {
  }

  function Bits(size: Size): nat {
    if size == LongLongSize then LONG else WORD
  }

  /** The argument as the type the format names: signed or unsigned, of the given width. */
  function SignedArg(size: Size, n: int): int {
    var b := Bits(size);
    var u := n % b;
    if u >= b / 2 then u - b else u
  }

  function NumberArg(args: seq<Arg>): int {
    if args != [] && args[0].Num? then args[0].n else 0
  }

  function StringArg(args: seq<Arg>): string {
    if args != [] && args[0].Str? && args[0].s.Some? then args[0].s.value else "(null)"
  }

  function Rest(args: seq<Arg>): seq<Arg> {
    if args == [] then [] else args[1..]
  }

  predicate IsModifier(c: char) {
    c in "#-lz0123456789"
  }

  function Modified(f: Field, c: char): Field
    requires IsModifier(c)
  {
    if c == '#' then f.(alt := true)
    else if c == '-' then f.(right := true)
    else if c == 'l' then f.(size := if f.size == LongSize then LongLongSize else LongSize)
    else if c == 'z' then f.(size := SizeTSize)
    else if c == '0' && f.spacing == 0 then f.(zero := true)
    else f.(spacing := f.spacing * 10 + DigitValue(c))
  }

  function BaseOf(c: char): nat {
    if c == 'o' then 8 else if c == 'x' || c == 'p' then 16 else 10
  }

  /** Sign, base prefix and digits of a numeric conversion. */
  function NumberText(f: Field, c: char, n: int): string {
    var v := ArgValue(f, c, n);
    Padded(f, if v < 0 then "-" else "", Prefix(f.alt || c == 'p', BaseOf(c)), Text(if v < 0 then -v else v, BaseOf(c)))
  }

  function Prefix(wanted: bool, base: nat): string {
    if wanted && base == 16 then "0x" else if wanted && base == 8 then "0" else ""
  }

  function Converted(f: Field, c: char, args: seq<Arg>): string {
    if c in "doupx" then NumberText(f, c, NumberArg(args))
    else if c == 's' then Padded(f, "", "", StringArg(args))
    else if c == 'c' then Padded(f, "", "", CharText(NumberArg(args)))
    else Padded(f, "", "", [c])
  }

  /** The character of an int argument; a NUL makes an empty string. */
  function CharText(n: int): string {
    if n % 256 == 0 then "" else [(n % 256) as char]
  }

  predicate TakesArg(c: char) {
    c in "doupx" || c == 's' || c == 'c'
  }

  /** What one character of the format prints, in a field or outside one. */
  function Emitted(f: Option<Field>, c: char, args: seq<Arg>): string {
    if f == None then (if c == '%' then "" else [c])
    else if IsModifier(c) then ""
    else Converted(f.value, c, args)
  }

  function NextField(f: Option<Field>, c: char): Option<Field> {
    if f == None then (if c == '%' then Some(PLAIN) else None)
    else if IsModifier(c) then Some(Modified(f.value, c))
    else None
  }

  function NextArgs(f: Option<Field>, c: char, args: seq<Arg>): seq<Arg> {
    if f.Some? && !IsModifier(c) && TakesArg(c) then Rest(args) else args
  }

  /** The whole output of a format, from the middle of a field or from outside one. */
  function Rendered(fmt: string, args: seq<Arg>, f: Option<Field>): string
    decreases |fmt|
  {
    if fmt == [] then []
    else Emitted(f, fmt[0], args) + Rendered(fmt[1..], NextArgs(f, fmt[0], args), NextField(f, fmt[0]))
  }

  // ------------------------------------------------------------------
  // The buffer

  function Min(x: nat, y: nat): nat {
    if x <= y then x else y
  }

  /** SNP: `buflen` leaves room for the terminator. */
  class Snp {
    const buf: array<char>
    const buflen: nat
    var bufpos: nat
    /** Everything sent so far. */
    ghost var sent: string

    ghost predicate Valid()
      reads this, buf
    {
      buflen <= buf.Length && bufpos == Min(|sent|, buflen) && buf[..bufpos] == sent[..bufpos]
    }

    constructor (buf: array<char>, len: nat)
      requires len <= buf.Length
      ensures Valid() && this.buf == buf && buflen == (if len == 0 then 0 else len - 1) && sent == []
    {
      this.buf := buf;
      buflen := if len == 0 then 0 else len - 1;
      bufpos := 0;
      sent := [];
    }

    /** __snprintf_send */
    method Send(data: string)
      requires Valid()
      modifies this, buf
      ensures Valid() && sent == old(sent) + data
      ensures buf[buflen..] == old(buf[buflen..])
    {
      ghost var before := sent;
      for i := 0 to |data|
        invariant Valid() && sent == before + data[..i]
        invariant buf[buflen..] == old(buf[buflen..])
      {
        if bufpos < buflen {
          buf[bufpos] := data[i];
          bufpos := bufpos + 1;
        }
        sent := sent + [data[i]];
      }
      assert data[..|data|] == data;
    }
  }

  // ------------------------------------------------------------------
  // Digits into a fixed buffer

  /** A long long needs at most 22 digits in base 8, 10 or 16, which leaves room for the NUL. */
  lemma FitsBuffer(n: nat, base: nat)
    requires n < LONG && base in {8, 10, 16}
    ensures |Text(n, base)| <= NUMBER_BUF_SIZE - 1
  {
    if base == 8 {
      assert Pow(8, 22) > LONG by { Powers(8); }
      TextLength(n, 8, 22);
    } else if base == 10 {
      assert Pow(10, 22) > LONG by { Powers(10); }
      TextLength(n, 10, 22);
    } else {
      assert Pow(16, 22) > LONG by { Powers(16); }
      TextLength(n, 16, 22);
    }
  }

  lemma Powers(base: nat)
    requires base in {8, 10, 16}
    ensures Pow(base, 22) > LONG
  {
    PowAdd(base, 11, 11);
    PowAdd(base, 5, 6);
    assert Pow(base, 5) == base * (base * (base * (base * base)));
    assert Pow(base, 6) == base * Pow(base, 5);
  }

  /** Taking the last digit off a number. */
  lemma LastDigit(n: nat, base: nat)
    requires 2 <= base <= 16
    ensures n > 0 ==> Quotient(n, base) < n
    ensures n == 0 ==> Quotient(n, base) == 0
    ensures Text(n, base) ==
      (if Quotient(n, base) == 0 then [] else Text(Quotient(n, base), base)) + [DigitChar(Remainder(n, base))]
  {
    DivMod(n, base);
    if n >= base {
      DivSmaller(n, base);
    } else {
      DivModUnique(n, base, 0, n);
    }
  }

  /** `tail` is the end of the text of `num`; what is left to print is `xnum`, if anything. */
  ghost predicate Partly(num: nat, base: nat, xnum: nat, more: bool, tail: string)
    requires 2 <= base <= 16
  {
    Text(num, base) == (if more then Text(xnum, base) else []) + tail
  }

  lemma PartlyNext(num: nat, base: nat, xnum: nat, tail: string)
    requires 2 <= base <= 16 && Partly(num, base, xnum, true, tail)
    ensures Partly(num, base, Quotient(xnum, base), Quotient(xnum, base) > 0, [DigitChar(Remainder(xnum, base))] + tail)
    ensures |tail| < |Text(num, base)|
  {
    LastDigit(xnum, base);
    var digit := DigitChar(Remainder(xnum, base));
    var front := if Quotient(xnum, base) == 0 then [] else Text(Quotient(xnum, base), base);
    hide Text, Quotient, Remainder, DigitChar;
    assert front + [digit] + tail == front + ([digit] + tail);
  }

  lemma PartlyDone(num: nat, base: nat, xnum: nat, tail: string)
    requires 2 <= base <= 16 && Partly(num, base, xnum, false, tail)
    ensures tail == Text(num, base)
  {
  }

  lemma PartlyStart(num: nat, base: nat)
    requires 2 <= base <= 16
    ensures Partly(num, base, num, true, "")
  {
  }

  /** The do-while loop of __pf_printnum: digits from the right end of the buffer, never past its left end. */
  method Digitize(num: nat, base: nat) returns (text: string)
    requires num < LONG && base in {8, 10, 16}
    ensures text == Text(num, base)
  {
    FitsBuffer(num, base);
    PartlyStart(num, base);
    hide Text, Quotient, Remainder, DigitChar, Partly;
    var buf := new char[NUMBER_BUF_SIZE];
    var x := NUMBER_BUF_SIZE - 1;
    buf[x] := NUL;
    x := x - 1;
    var xnum, more := num, true;
    ghost var tail := "";
    while more
      invariant -1 <= x && |tail| + x == NUMBER_BUF_SIZE - 2 && tail == buf[x + 1..NUMBER_BUF_SIZE - 1]
      invariant Partly(num, base, xnum, more, tail)
      decreases xnum + if more then 1 else 0
    {
      PartlyNext(num, base, xnum, tail);
      LastDigit(xnum, base);
      var digit := DigitChar(Remainder(xnum, base));
      Put(buf, x, digit);
      tail := [digit] + tail;
      x := x - 1;
      xnum := Quotient(xnum, base);
      more := xnum > 0;
    }
    PartlyDone(num, base, xnum, tail);
    x := x + 1;
    text := buf[x..NUMBER_BUF_SIZE - 1];
  }

  method Put(buf: array<char>, x: nat, c: char)
    requires buf.Length == NUMBER_BUF_SIZE && x < NUMBER_BUF_SIZE - 1
    modifies buf
    ensures buf[x..NUMBER_BUF_SIZE - 1] == [c] + old(buf[x + 1..NUMBER_BUF_SIZE - 1])
  {
    buf[x] := c;
  }

  // ------------------------------------------------------------------
  // The printer

  class Pf {
    const snp: Snp
    var args: seq<Arg>
    var charcount: nat
    var inPct: bool
    var size: Size
    var num: nat
    var sign: bool
    var spacing: nat
    var right: bool
    var fill: char
    var base: nat
    var baseprefix: bool
    var alt: bool

    ghost predicate Valid()
      reads this, snp, snp.buf
    {
      snp.Valid() && charcount == |snp.sent| && (fill == ' ' || fill == '0')
    }

    ghost function Now(): Field
      reads this
    {
      Field(size, spacing, right, fill == '0', alt)
    }

    /** Between fields: everything is reset. */
    ghost predicate Reset()
      reads this
    {
      !inPct && Now() == PLAIN && !sign && !baseprefix
    }

    constructor (snp: Snp, args: seq<Arg>)
      requires snp.Valid() && snp.sent == []
      ensures Valid() && Reset() && this.snp == snp && this.args == args
    {
      this.snp, this.args := snp, args;
      charcount := 0;
      inPct, size, num, sign, spacing, right := false, IntSize, 0, false, 0, false;
      fill, base, baseprefix, alt := ' ', 0, false, false;
    }

    /** __pf_print */
    method Print(txt: string)
      requires Valid()
      modifies `charcount, snp, snp.buf
      ensures Valid() && snp.sent == old(snp.sent) + txt && snp.buf[snp.buflen..] == old(snp.buf[snp.buflen..])
    {
      snp.Send(txt);
      charcount := charcount + |txt|;
    }

    /** __pf_endfield */
    method EndField()
      requires Valid()
      modifies `inPct, `size, `num, `sign, `spacing, `right, `fill, `base, `baseprefix, `alt
      ensures Valid() && Reset()
    {
      inPct, size, num, sign, spacing, right := false, IntSize, 0, false, 0, false;
      fill, base, baseprefix, alt := ' ', 0, false, false;
    }

    /** __pf_modifier */
    method Modifier(ch: char)
      requires Valid() && IsModifier(ch)
      modifies `size, `spacing, `right, `fill, `alt
      ensures Valid() && Now() == Modified(old(Now()), ch)
    {
      match ch {
        case '#' => alt := true;
        case '-' => right := true;
        case 'l' => size := if size == LongSize then LongLongSize else LongSize;
        case 'z' => size := SizeTSize;
        case '0' =>
          if spacing > 0 {
            spacing := spacing * 10;
          } else {
            fill := '0';
          }
        case _ => spacing := spacing * 10 + DigitValue(ch);
      }
    }

    /** __pf_getnum: magnitude and sign of the next argument. */
    method GetNum(ch: char)
      requires Valid() && !sign
      modifies `num, `sign, `args
      ensures Valid() && args == old(Rest(args)) && num < LONG
      ensures (if sign then -(num as int) else num) == ArgValue(Now(), ch, old(NumberArg(args)))
      ensures sign ==> num > 0
    {
      var n := NumberArg(args);
      args := Rest(args);
      if ch == 'p' {
        num := n % WORD;
      } else if ch == 'd' {
        var signednum := SignedArg(size, n);
        if signednum < 0 {
          sign := true;
          num := -signednum;
        } else {
          num := signednum;
        }
      } else {
        num := n % Bits(size);
      }
    }

    /** __pf_setbase */
    method SetBase(ch: char)
      requires Valid() && ch in "doupx" && !baseprefix
      modifies `base, `baseprefix
      ensures Valid() && base == BaseOf(ch) && baseprefix == (alt || ch == 'p')
    {
      match ch {
        case 'd' => base := 10;
        case 'u' => base := 10;
        case 'x' => base := 16;
        case 'p' => base := 16;
        case _ => base := 8;
      }
      if alt || ch == 'p' {
        baseprefix := true;
      }
    }

    /** __pf_fill */
    method FillOut(spc: nat)
      requires Valid()
      modifies `charcount, snp, snp.buf
      ensures Valid() && snp.sent == old(snp.sent) + Repeat(fill, spc)
      ensures snp.buf[snp.buflen..] == old(snp.buf[snp.buflen..])
    {
      for i := 0 to spc
        invariant Valid() && snp.sent == old(snp.sent) + Repeat(fill, i)
        invariant snp.buf[snp.buflen..] == old(snp.buf[snp.buflen..])
      {
        Print([fill]);
      }
    }

    /** __pf_printstuff */
    method PrintStuff(prefix: string, prefix2: string, stuff: string)
      requires Valid()
      modifies `charcount, snp, snp.buf
      ensures Valid() && snp.sent == old(snp.sent) + Padded(Now(), prefix, prefix2, stuff)
      ensures snp.buf[snp.buflen..] == old(snp.buf[snp.buflen..])
    {
      ghost var before := snp.sent;
      var len := |prefix| + |prefix2| + |stuff|;
      var spc := if spacing > len then spacing - len else 0;
      ghost var f := Now();
      ghost var lead := Piece(!right && fill != '0', fill, spc);
      ghost var mid := Piece(!right && fill == '0', fill, spc);
      ghost var trail := Piece(right, fill, spc);
      assert Padded(f, prefix, prefix2, stuff) == lead + prefix + prefix2 + mid + stuff + trail;
      hide Padded, Repeat;
      PadIf(spc, !right && fill != '0');
      Print(prefix);
      Print(prefix2);
      PadIf(spc, !right && fill == '0');
      Print(stuff);
      PadIf(spc, right);
      Join(before, lead, prefix, prefix2, mid, stuff, trail);
    }

    /** __pf_printnum */
    method PrintNum()
      requires Valid() && num < LONG && base in {8, 10, 16}
      modifies `charcount, snp, snp.buf
      ensures Valid() && snp.buf[snp.buflen..] == old(snp.buf[snp.buflen..])
      ensures snp.sent ==
        old(snp.sent) + Padded(Now(), if sign then "-" else "", Prefix(baseprefix, base), Text(num, base))
    {
      hide Text, Padded;
      var x := Digitize(num, base);
      var bprefix;
      if baseprefix && base == 16 {
        bprefix := "0x";
      } else if baseprefix && base == 8 {
        bprefix := "0";
      } else {
        bprefix := "";
      }
      var sprefix := if sign then "-" else "";
      PrintStuff(sprefix, bprefix, x);
    }

    /** Where the printer is in the format. */
    ghost function At(): Option<Field>
      reads this
    {
      if inPct then Some(Now()) else None
    }

    ghost predicate Between()
      reads this
    {
      (inPct || Reset()) && !sign && !baseprefix
    }

    /** A numeric conversion: fetch, set the base, print, reset. */
    method Number(ch: char)
      requires Valid() && inPct && !sign && !baseprefix && ch in "doupx"
      modifies this, snp, snp.buf
      ensures Valid() && Reset() && args == old(Rest(args)) && snp.buf[snp.buflen..] == old(snp.buf[snp.buflen..])
      ensures snp.sent == old(snp.sent) + NumberText(old(Now()), ch, old(NumberArg(args)))
    {
      hide Padded, Text, Repeat;
      ghost var n := NumberArg(args);
      ghost var f := Now();
      GetNum(ch);
      SetBase(ch);
      assert NumberText(f, ch, n) == Padded(f, if sign then "-" else "", Prefix(baseprefix, base), Text(num, base));
      PrintNum();
      EndField();
    }

    /** __pf_send */
    method SendChar(ch: char)
      requires Valid() && Between()
      modifies this, snp, snp.buf
      ensures Valid() && Between() && snp.buf[snp.buflen..] == old(snp.buf[snp.buflen..])
      ensures snp.sent == old(snp.sent) + Emitted(old(At()), ch, old(args))
      ensures At() == NextField(old(At()), ch) && args == NextArgs(old(At()), ch, old(args))
    {
      hide Padded, NumberText, Modified, Repeat;
      if !inPct && ch != '%' {
        Print([ch]);
      } else if !inPct {
        inPct := true;
      } else if IsModifier(ch) {
        Modifier(ch);
      } else if ch in "doupx" {
        Number(ch);
      } else if ch == 's' {
        var str := StringArg(args);
        args := Rest(args);
        PrintStuff("", "", str);
        EndField();
      } else {
        var x;
        if ch == 'c' {
          x := CharText(NumberArg(args));
          args := Rest(args);
        } else {
          x := [ch];
        }
        PrintStuff("", "", x);
        EndField();
      }
    }

    /** __vprintf: the whole format, and the number of characters it prints. */
    method Vprintf(fmt: string) returns (chars: nat)
      requires Valid() && Reset() && snp.sent == []
      modifies this, snp, snp.buf
      ensures Valid() && snp.sent == Rendered(fmt, old(args), None) && chars == |snp.sent|
      ensures snp.buf[snp.buflen..] == old(snp.buf[snp.buflen..])
    {
      hide Emitted, NextField, NextArgs;
      ghost var whole := Rendered(fmt, args, None);
      assert fmt[0..] == fmt;
      for i := 0 to |fmt|
        invariant Valid() && Between() && snp.buf[snp.buflen..] == old(snp.buf[snp.buflen..])
        invariant whole == snp.sent + Rendered(fmt[i..], args, At())
      {
        assert fmt[i..][1..] == fmt[i + 1..];
        SendChar(fmt[i]);
      }
      chars := charcount;
    }

    /** The three places where __pf_printstuff may pad. */
    method PadIf(spc: nat, wanted: bool)
      requires Valid()
      modifies `charcount, snp, snp.buf
      ensures Valid() && snp.sent == old(snp.sent) + Piece(wanted, fill, spc)
      ensures snp.buf[snp.buflen..] == old(snp.buf[snp.buflen..])
    {
      if spc > 0 && wanted {
        FillOut(spc);
      }
    }
  }

  lemma Join(a: string, b: string, c: string, d: string, e: string, f: string, g: string)
    ensures a + b + c + d + e + f + g == a + (b + c + d + e + f + g)
  {
  }

  /** The number a numeric conversion prints. */
  function ArgValue(f: Field, c: char, n: int): (v: int)
    ensures 0 - LONG < v < LONG && (c != 'd' ==> v >= 0)
  {
    if c == 'p' then n % WORD else if c == 'd' then SignedArg(f.size, n) else n % Bits(f.size)
  }

  /**
    vsnprintf: the longest prefix of the output that leaves room for a NUL, and the NUL,
    nothing past them, and the length of the whole output as the result.
   */
  method Vsnprintf(buf: array<char>, len: nat, fmt: string, args: seq<Arg>) returns (chars: nat)
    requires len <= buf.Length
    modifies buf
    ensures chars == |Rendered(fmt, args, None)|
    ensures len > 0 ==> var out := Rendered(fmt, args, None);
      var k := Min(|out|, len - 1);
      buf[..k] == out[..k] && buf[k] == NUL
    ensures buf[len..] == old(buf[len..])
  {
    hide Rendered;
    var snp := new Snp(buf, len);
    var pf := new Pf(snp, args);
    chars := pf.Vprintf(fmt);
    assert buf[len..] == buf[snp.buflen..][len - snp.buflen..];
    if len > 0 {
      buf[snp.bufpos] := NUL;
    }
  }
}
