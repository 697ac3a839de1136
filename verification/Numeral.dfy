/** Numbers as text: what __pf_printnum writes and atoi reads. */
module Numeral {
  import opened Digits

  const DIGITS := "0123456789abcdef"

  function DigitChar(d: nat): char
    requires d < 16
  {
    DIGITS[d]
  }

  /** The text of `n` in a base, most significant digit first. */
  function Text(n: nat, base: nat): (s: string)
    requires 2 <= base <= 16
    ensures s != []
    decreases n
  {
    if n < base then [DigitChar(n)] else
      DivSmaller(n, base);
      Text(n / base, base) + [DigitChar(n % base)]
  }

  lemma DivSmaller(n: nat, base: nat)
    requires n >= base >= 2
    ensures 0 < n / base < n && 0 <= n % base < base
  {
    DivMod(n, base);
    DivAtMost(base, base, 1);
    if n / base >= n {
      MulMono(base, n, n / base);
      MulMono(n, 2, base);
    }
    if n / base == 0 {
      assert n % base < base;
    }
  }

  /** A number below base^k has at most k digits. */
  lemma {:induction false} TextLength(n: nat, base: nat, k: nat)
    requires 2 <= base <= 16 && k > 0 && n < Pow(base, k)
    ensures |Text(n, base)| <= k
    decreases k
  {
    if n >= base {
      DivSmaller(n, base);
      assert k > 1;
      DivMod(n, base);
      DivLess(n, base, Pow(base, k - 1));
      TextLength(n / base, base, k - 1);
    }
  }

  /** The place of a character in the list of digits, or past its end. */
  function DigitValue(c: char): (d: nat)
    ensures d < 16 ==> DigitChar(d) == c
  {
    if '0' <= c <= '9' then c as int - '0' as int
    else if 'a' <= c <= 'f' then c as int - 'a' as int + 10
    else 16
  }

  lemma DigitBack(d: nat)
    requires d < 16
    ensures DigitValue(DigitChar(d)) == d
  {
    assert DIGITS == ['0', '1', '2', '3', '4', '5', '6', '7', '8', '9', 'a', 'b', 'c', 'd', 'e', 'f'];
  }

  /** All characters are digits of the base. */
  predicate IsNumeral(s: string, base: nat) {
    forall i :: 0 <= i < |s| ==> DigitValue(s[i]) < base
  }

  function Value(s: string, base: nat): nat {
    if s == [] then 0 else Value(s[..|s| - 1], base) * base + DigitValue(s[|s| - 1])
  }

  /** Reading back what was written, in any base. */
  lemma {:induction false} ValueOfText(n: nat, base: nat)
    requires 2 <= base <= 16
    ensures IsNumeral(Text(n, base), base) && Value(Text(n, base), base) == n
    decreases n
  {
    if n < base {
      DigitBack(n);
      assert [DigitChar(n)][..0] == [];
    } else {
      DivSmaller(n, base);
      DivMod(n, base);
      ValueOfText(n / base, base);
      DigitBack(n % base);
      ValueAppend(Text(n / base, base), DigitChar(n % base), base);
    }
  }

  lemma ValueAppend(s: string, c: char, base: nat)
    ensures Value(s + [c], base) == Value(s, base) * base + DigitValue(c)
  {
    assert (s + [c])[..|s|] == s;
  }

  /** Different numbers have different texts. */
  lemma TextUnique(m: nat, n: nat, base: nat)
    requires 2 <= base <= 16 && Text(m, base) == Text(n, base)
    ensures m == n
  {
    ValueOfText(m, base);
    ValueOfText(n, base);
  }
}
