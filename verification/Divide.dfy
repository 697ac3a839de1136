/**
  Sixty-four bit division from sixteen-bit digits (common/gcc-millicode/qdivrem.c):
  Algorithm D of section 4.3.1 of Knuth vol. 2, working in place on digit arrays.
  Machine words wrap modulo 2^32 wherever the code lets them.
 */
module Divide {
  import opened Common
  import opened Digits

  /** The digit base, 1 << HALF_BITS. */
  const B: nat := 0x1_0000

  ghost predicate Digital(s: seq<nat>) {
    InBase(s, B)
  }

  function Value(s: seq<nat>): nat {
    Val(s, B)
  }

  // ------------------------------------------------------------------
  // D3: the trial digit

  /** The smaller of the three-by-two digit quotient and the largest digit. */
  function Trial(u3: nat, v2: nat): nat
    requires v2 > 0
  {
    if u3 / v2 < B then u3 / v2 else B - 1
  }

  /** The trial digit `qhat` is not too small, and `rhat` is what it leaves of the two leading digits. */
  ghost predicate Estimating(u0: nat, u1: nat, u2: nat, v1: nat, v2: nat, qhat: nat, rhat: nat) {
    && qhat < B && qhat * v1 + rhat == u0 * B + u1
    && (qhat == B - 1 || (qhat + 1) * (v1 * B + v2) > (u0 * B + u1) * B + u2)
  }

  method Estimate(u0: nat, u1: nat, u2: nat, v1: nat, v2: nat) returns (qhat: nat)
    requires u0 <= v1 && v1 < B && u1 < B && u2 < B && v2 < B && B / 2 <= v1
    ensures qhat == Trial((u0 * B + u1) * B + u2, v1 * B + v2)
  {
    hide Estimating, Trial;
    var rhat: nat;
    var stop := false;
    if u0 == v1 {
      qhat := B - 1;
      rhat := u1 + v1;
      stop := rhat >= B;
      TopEstimate(u0, u1, u2, v1, v2);
    } else {
      var nn := u0 * B + u1;
      assert nn < WORD;
      DivMod(nn, v1);
      qhat := nn / v1;
      rhat := nn % v1;
      FirstEstimate(u0, u1, u2, v1, v2, qhat, rhat);
    }
    ComparisonFits(u0, u1, u2, v1, v2, qhat, rhat);
    while !stop && v2 * qhat > rhat * B + u2
      invariant Estimating(u0, u1, u2, v1, v2, qhat, rhat)
      invariant stop <==> rhat >= B
      // both sides of every comparison fit in an unsigned int
      invariant !stop ==> v2 * qhat < WORD && rhat * B + u2 < WORD
      decreases qhat, !stop
    {
      NextEstimate(u0, u1, u2, v1, v2, qhat, rhat);
      ComparisonFits(u0, u1, u2, v1, v2, qhat - 1, rhat + v1);
      qhat := qhat - 1;
      rhat := rhat + v1;
      if rhat >= B {
        stop := true;
      }
    }
    LastEstimate(u0, u1, u2, v1, v2, qhat, rhat);
  }

  /** The test of D3 fires only on a trial digit that is too big, so the next one is not too small. */
  lemma NextEstimate(u0: nat, u1: nat, u2: nat, v1: nat, v2: nat, qhat: nat, rhat: nat)
    requires Estimating(u0, u1, u2, v1, v2, qhat, rhat) && v2 * qhat > rhat * B + u2
    requires rhat < B && u2 < B && v2 < B
    ensures qhat > 0 && Estimating(u0, u1, u2, v1, v2, qhat - 1, rhat + v1)
  {
    Weigh(v1, v2, qhat);
    DistributeOne(qhat - 1, v1);
  }

  /** Once `rhat` is a digit, neither side of the test of D3 overflows. */
  lemma ComparisonFits(u0: nat, u1: nat, u2: nat, v1: nat, v2: nat, qhat: nat, rhat: nat)
    requires Estimating(u0, u1, u2, v1, v2, qhat, rhat) && u2 < B && v2 < B
    ensures v2 * qhat < WORD && (rhat < B ==> rhat * B + u2 < WORD)
  {
    MulMono(qhat, v2, B - 1);
  }

  lemma LastEstimate(u0: nat, u1: nat, u2: nat, v1: nat, v2: nat, qhat: nat, rhat: nat)
    requires Estimating(u0, u1, u2, v1, v2, qhat, rhat) && v1 > 0 && v2 < B
    requires rhat >= B || v2 * qhat <= rhat * B + u2
    ensures qhat == Trial((u0 * B + u1) * B + u2, v1 * B + v2)
  {
    Weigh(v1, v2, qhat);
    MulMono(qhat, v2, B);
    TrialReached((u0 * B + u1) * B + u2, v1 * B + v2, qhat);
  }

  lemma TopEstimate(u0: nat, u1: nat, u2: nat, v1: nat, v2: nat)
    requires u0 == v1
    ensures Estimating(u0, u1, u2, v1, v2, B - 1, u1 + v1)
  {
  }

  lemma FirstEstimate(u0: nat, u1: nat, u2: nat, v1: nat, v2: nat, qhat: nat, rhat: nat)
    requires u0 < v1 && v1 < B && u1 < B && u2 < B && v2 < B
    requires qhat == (u0 * B + u1) / v1 && rhat == (u0 * B + u1) % v1
    ensures rhat < v1 && Estimating(u0, u1, u2, v1, v2, qhat, rhat)
  {
    var nn := u0 * B + u1;
    DivMod(nn, v1);
    assert nn < B * v1;
    DivLess(nn, v1, B);
    DistributeOne(qhat, v1);
    assert (qhat + 1) * v1 >= nn + 1;
    assert (qhat + 1) * (v1 * B + v2) == (qhat + 1) * v1 * B + (qhat + 1) * v2 by {
      DistributeLeft(qhat + 1, v1 * B, v2);
      MulAssoc(qhat + 1, v1, B);
    }
    assert (qhat + 1) * v2 >= 0 by { MulMono(qhat + 1, 0, v2); }
  }

  lemma Weigh(v1: nat, v2: nat, qhat: nat)
    ensures qhat * (v1 * B + v2) == qhat * v1 * B + v2 * qhat
  {
    DistributeLeft(qhat, v1 * B, v2);
    MulAssoc(qhat, v1, B);
  }

  lemma TrialReached(u3: nat, v2: nat, qhat: nat)
    requires v2 > 0 && qhat < B && qhat * v2 <= u3
    requires qhat == B - 1 || (qhat + 1) * v2 > u3
    ensures qhat == Trial(u3, v2)
  {
    DivAtMost(u3, v2, qhat);
    if (qhat + 1) * v2 > u3 {
      DivLess(u3, v2, qhat + 1);
    }
  }

  // ------------------------------------------------------------------
  // D4: multiply and subtract, with a borrow word that wraps

  /** The digit and the borrow that the wrapped word stands for. */
  lemma BorrowStep(x: int)
    requires -((B - 1) * B) <= x < B
    ensures var w := x % WORD;
      w % B - ((B - w / B) % B) * B == x && 0 <= w % B < B && 0 <= (B - w / B) % B < B
  {
    if x >= 0 {
      assert x % WORD == x;
    } else {
      assert x % WORD == x + WORD;
    }
  }

  /** Weighing one more digit of the difference. */
  lemma SubtractDigit(ui: nat, vi: nat, qhat: nat, t: nat, digit: nat, next: nat,
                      su: nat, ou: nat, sv: nat, p: nat)
    requires digit - next * B == ui - vi * qhat - t
    requires su - t * p == ou - qhat * sv
    ensures (digit * p + su) - next * (B * p) == (ui * p + ou) - qhat * (vi * p + sv)
  {
    assert (digit - next * B) * p == digit * p - next * (B * p) by {
      MulAssoc(next, B, p);
      DistributeRight(digit - next * B, next * B, p);
    }
    assert (ui - vi * qhat - t) * p == ui * p - vi * qhat * p - t * p by {
      DistributeRight(ui - vi * qhat - t, vi * qhat + t, p);
      DistributeRight(vi * qhat, t, p);
    }
    assert qhat * (vi * p + sv) == vi * qhat * p + qhat * sv by {
      DistributeLeft(qhat, vi * p, sv);
      MulAssoc(qhat, vi, p);
    }
  }

  /** A tail of the array one digit longer. */
  lemma TailGrows(a: seq<nat>, i: nat, end: nat)
    requires i < end <= |a|
    ensures Value(a[i..end]) == a[i] * Pow(B, end - i - 1) + Value(a[i + 1..end])
  {
    assert a[i..end] == [a[i]] + a[i + 1..end];
    ValCons(a[i], a[i + 1..end], B);
  }

  /** How the digits after `i` of the window compare with what was subtracted from them. */
  ghost predicate Subtracted(u: seq<nat>, was: seq<nat>, at: nat, v: seq<nat>, vo: nat, n: nat, qhat: nat, i: nat,
                             t: nat)
    requires i <= n && at + n < |u| == |was| && vo + n <= |v|
  {
    Value(u[at + i + 1..at + n + 1]) - t * Pow(B, n - i) ==
    Value(was[at + i + 1..at + n + 1]) - qhat * Value(v[vo + i..vo + n])
  }

  lemma SubtractStarts(u: seq<nat>, at: nat, v: seq<nat>, vo: nat, n: nat, qhat: nat)
    requires at + n < |u| && vo + n <= |v|
    ensures Subtracted(u, u, at, v, vo, n, qhat, n, 0)
  {
  }

  lemma SubtractStep(u: seq<nat>, was: seq<nat>, at: nat, v: seq<nat>, vo: nat, n: nat, qhat: nat, i: nat, t: nat,
                     digit: nat, next: nat)
    requires 0 < i <= n && at + n < |u| == |was| && vo + n <= |v|
    requires Subtracted(u, was, at, v, vo, n, qhat, i, t)
    requires Borrowed(was[at + i], v[vo + i - 1], qhat, t, digit, next)
    ensures Subtracted(u[at + i := digit], was, at, v, vo, n, qhat, i - 1, next)
  {
    var post := u[at + i := digit];
    assert post[at + i + 1..at + n + 1] == u[at + i + 1..at + n + 1];
    TailGrows(post, at + i, at + n + 1);
    TailGrows(was, at + i, at + n + 1);
    TailGrows(v, vo + i - 1, vo + n);
    SubtractDigit(was[at + i], v[vo + i - 1], qhat, t, digit, next,
                  Value(u[at + i + 1..at + n + 1]), Value(was[at + i + 1..at + n + 1]),
                  Value(v[vo + i..vo + n]), Pow(B, n - i));
  }

  /** The word computed for one digit. */
  function SubtractWord(ui: nat, vi: nat, qhat: nat, t: nat): nat {
    (ui - vi * qhat - t) % WORD
  }

  /** `digit` and `next` stand for the difference. */
  ghost predicate Borrowed(ui: nat, vi: nat, qhat: nat, t: nat, digit: nat, next: nat) {
    digit - next * B == ui - vi * qhat - t
  }

  lemma WrapDigit(ui: nat, vi: nat, qhat: nat, t: nat, word: nat)
    requires ui < B && vi < B && qhat < B && t < B && word == SubtractWord(ui, vi, qhat, t)
    ensures Borrowed(ui, vi, qhat, t, word % B, (B - word / B) % B)
  {
    MulMono(qhat, vi, B - 1);
    MulMono(B - 1, qhat, B - 1);
    assert 0 <= vi * qhat by { MulMono(qhat, 0, vi); }
    BorrowStep(ui - vi * qhat - t);
  }

  /**
    Subtract `qhat` times the `n` digits at `vo` from the `n + 1` digits at
    `at`. There is a borrow out of the leading digit exactly when the result
    would be negative; the digits then stand for the result plus a full turn.
   */
  method MultiplySubtract(u: array<nat>, at: nat, v: array<nat>, vo: nat, n: nat, qhat: nat) returns (borrow: bool)
    requires u != v && at + n < u.Length && vo + n <= v.Length && qhat < B
    requires Digital(u[..]) && Digital(v[..])
    modifies u
    ensures Digital(u[..])
    ensures forall k :: 0 <= k < u.Length && !(at <= k <= at + n) ==> u[k] == old(u[k])
    ensures var w := Value(old(u[..])[at..at + n + 1]); var d := qhat * Value(v[..][vo..vo + n]);
      && (borrow <==> w < d)
      && Value(u[..][at..at + n + 1]) == w - d + (if borrow then Pow(B, n + 1) else 0)
  {
    var t: nat := 0;
    var i := n;
    ghost var was := u[..];
    ghost var vs := v[..];
    SubtractStarts(was, at, vs, vo, n, qhat);
    assert Subtracting(was, was, at, vs, vo, n, qhat, n, 0);
    hide Subtracting, Subtracted, SubtractWord, Val, Pow, Digital;
    while i > 0
      invariant 0 <= i <= n && v[..] == vs
      invariant Subtracting(u[..], was, at, vs, vo, n, qhat, i, t)
    {
      var word := SubtractWord(u[at + i], v[vo + i - 1], qhat, t);
      SubtractingNext(u[..], was, at, vs, vo, n, qhat, i, t, word);
      ghost var us, digit: nat := u[..], word % B;
      u[at + i] := word % B;
      assert u[..] == us[at + i := digit];
      t := (B - word / B) % B;
      i := i - 1;
    }
    var word := (u[at] - t) % WORD;
    SubtractingEnds(u[..], was, at, vs, vo, n, qhat, t, word);
    ghost var us, digit: nat := u[..], word % B;
    u[at] := word % B;
    assert u[..] == us[at := digit];
    borrow := word / B != 0;
  }

  /** Digits after `i` have been subtracted, with borrow `t`; nothing else has changed. */
  ghost predicate Subtracting(u: seq<nat>, was: seq<nat>, at: nat, v: seq<nat>, vo: nat, n: nat, qhat: nat, i: nat,
                              t: nat)
  {
    && i <= n && at + n < |u| == |was| && vo + n <= |v| && t < B && qhat < B && Digital(u) && Digital(v)
    && (forall k :: 0 <= k < |u| && !(at + i < k <= at + n) ==> u[k] == was[k])
    && Subtracted(u, was, at, v, vo, n, qhat, i, t)
  }

  lemma SubtractingNext(u: seq<nat>, was: seq<nat>, at: nat, v: seq<nat>, vo: nat, n: nat, qhat: nat, i: nat, t: nat,
                        word: nat)
    requires Subtracting(u, was, at, v, vo, n, qhat, i, t) && i > 0
    requires word == SubtractWord(u[at + i], v[vo + i - 1], qhat, t)
    ensures Subtracting(u[at + i := word % B], was, at, v, vo, n, qhat, i - 1, (B - word / B) % B)
  {
    hide Subtracted, SubtractWord, Borrowed;
    WrapDigit(u[at + i], v[vo + i - 1], qhat, t, word);
    SubtractStep(u, was, at, v, vo, n, qhat, i, t, word % B, (B - word / B) % B);
  }

  lemma SubtractingEnds(u: seq<nat>, was: seq<nat>, at: nat, v: seq<nat>, vo: nat, n: nat, qhat: nat, t: nat, word: nat)
    requires Subtracting(u, was, at, v, vo, n, qhat, 0, t) && word == (u[at] - t) % WORD
    ensures var post := u[at := word % B]; var w := Value(was[at..at + n + 1]); var d := qhat * Value(v[vo..vo + n]);
      && Digital(post) && (forall k :: 0 <= k < |u| && !(at <= k <= at + n) ==> post[k] == was[k])
      && (word / B != 0 <==> w < d)
      && Value(post[at..at + n + 1]) == w - d + (if word / B != 0 then Pow(B, n + 1) else 0)
  {
    hide Subtracted, Val, Pow;
    SubtractLast(u, was, at, v, vo, n, qhat, t, word);
  }

  /** The leading digit has nothing to multiply; its borrow shows in the upper half of the word. */
  lemma SubtractLast(u: seq<nat>, was: seq<nat>, at: nat, v: seq<nat>, vo: nat, n: nat, qhat: nat, t: nat, word: nat)
    requires at + n < |u| == |was| && vo + n <= |v| && Digital(u) && t < B && u[at] == was[at]
    requires Subtracted(u, was, at, v, vo, n, qhat, 0, t) && word == (u[at] - t) % WORD
    ensures var post := u[at := word % B]; var w := Value(was[at..at + n + 1]); var d := qhat * Value(v[vo..vo + n]);
      && word % B < B && (word / B != 0 <==> w < d)
      && Value(post[at..at + n + 1]) == w - d + (if word / B != 0 then Pow(B, n + 1) else 0)
  {
    var post := u[at := word % B];
    var p := Pow(B, n);
    assert post[at + 1..at + n + 1] == u[at + 1..at + n + 1];
    TailGrows(post, at, at + n + 1);
    TailGrows(was, at, at + n + 1);
    assert Digital(post) && InBase(post[at..at + n + 1], B);
    ValBound(post[at..at + n + 1], B);
    assert Pow(B, n + 1) == B * p;
    hide Val, Pow, Digital;
    var su, ou, sd := Value(u[at + 1..at + n + 1]), Value(was[at + 1..at + n + 1]), Value(v[vo..vo + n]);
    BorrowOut(u[at], t, word, p, su, ou, qhat * sd);
  }

  /** The last borrow, over plain numbers. */
  lemma BorrowOut(ui: nat, t: nat, word: nat, p: nat, su: nat, ou: nat, d: int)
    requires ui < B && t < B && word == (ui - t) % WORD && su - t * p == ou - d
    ensures word % B < B
    ensures (word % B) * p + su == ui * p + ou - d + (if word / B != 0 then B * p else 0)
  {
    var x := ui - t;
    assert word == (if x >= 0 then x else x + WORD);
    var turn := if word / B != 0 then B else 0;
    assert word % B == x + turn;
    DistributeRight(x, turn, p);
    DistributeRight(x, t, p);
  }

  // ------------------------------------------------------------------
  // D6: add back

  ghost predicate Added(u: seq<nat>, was: seq<nat>, at: nat, v: seq<nat>, vo: nat, n: nat, i: nat, t: nat)
    requires i <= n && at + n < |u| == |was| && vo + n <= |v|
  {
    Value(u[at + i + 1..at + n + 1]) + t * Pow(B, n - i) ==
    Value(was[at + i + 1..at + n + 1]) + Value(v[vo + i..vo + n])
  }

  lemma AddStep(u: seq<nat>, was: seq<nat>, at: nat, v: seq<nat>, vo: nat, n: nat, i: nat, t: nat, sum: nat)
    requires 0 < i <= n && at + n < |u| == |was| && vo + n <= |v|
    requires Added(u, was, at, v, vo, n, i, t) && sum == t + was[at + i] + v[vo + i - 1]
    ensures Added(u[at + i := sum % B], was, at, v, vo, n, i - 1, sum / B)
  {
    var post := u[at + i := sum % B];
    var p := Pow(B, n - i);
    assert post[at + i + 1..at + n + 1] == u[at + i + 1..at + n + 1];
    TailGrows(post, at + i, at + n + 1);
    TailGrows(was, at + i, at + n + 1);
    TailGrows(v, vo + i - 1, vo + n);
    AddDigit(was[at + i], v[vo + i - 1], t, sum % B, sum / B, p);
  }

  lemma AddDigit(ui: nat, vi: nat, t: nat, digit: nat, carry: nat, p: nat)
    requires digit + carry * B == t + ui + vi
    ensures digit * p + carry * (B * p) == t * p + ui * p + vi * p
  {
    MulAssoc(carry, B, p);
    DistributeRight(digit, carry * B, p);
    DistributeRight(t + ui, vi, p);
    DistributeRight(t, ui, p);
  }

  lemma AddStarts(u: seq<nat>, at: nat, v: seq<nat>, vo: nat, n: nat)
    requires at + n < |u| && vo + n <= |v|
    ensures Added(u, u, at, v, vo, n, n, 0)
  {
  }

  /** Digits after `i` have been added, with carry `t`; nothing else has changed. */
  ghost predicate Adding(u: seq<nat>, was: seq<nat>, at: nat, v: seq<nat>, vo: nat, n: nat, i: nat, t: nat) {
    && i <= n && at + n < |u| == |was| && vo + n <= |v| && t <= 1 && Digital(u) && Digital(v)
    && (forall k :: 0 <= k < |u| && !(at + i < k <= at + n) ==> u[k] == was[k])
    && Added(u, was, at, v, vo, n, i, t)
  }

  lemma AddingNext(u: seq<nat>, was: seq<nat>, at: nat, v: seq<nat>, vo: nat, n: nat, i: nat, t: nat, sum: nat)
    requires Adding(u, was, at, v, vo, n, i, t) && i > 0 && sum == t + u[at + i] + v[vo + i - 1]
    ensures Adding(u[at + i := sum % B], was, at, v, vo, n, i - 1, sum / B)
  {
    hide Added;
    AddStep(u, was, at, v, vo, n, i, t, sum);
  }

  lemma AddingEnds(u: seq<nat>, was: seq<nat>, at: nat, v: seq<nat>, vo: nat, n: nat, t: nat)
    requires Adding(u, was, at, v, vo, n, 0, t)
    ensures var post := u[at := (u[at] + t) % B];
      && Digital(post) && (forall k :: 0 <= k < |u| && !(at <= k <= at + n) ==> post[k] == was[k])
      && Pow(B, n + 1) > 0
      && Value(post[at..at + n + 1]) == (Value(was[at..at + n + 1]) + Value(v[vo..vo + n])) % Pow(B, n + 1)
  {
    hide Added, Val, Pow;
    AddLast(u, was, at, v, vo, n, t);
  }

  /** Add the `n` digits at `vo` to the `n + 1` digits at `at`; a carry out of the leading digit is lost. */
  method AddBack(u: array<nat>, at: nat, v: array<nat>, vo: nat, n: nat)
    requires u != v && at + n < u.Length && vo + n <= v.Length
    requires Digital(u[..]) && Digital(v[..])
    modifies u
    ensures Digital(u[..])
    ensures forall k :: 0 <= k < u.Length && !(at <= k <= at + n) ==> u[k] == old(u[k])
    ensures Pow(B, n + 1) > 0
    ensures Value(u[..][at..at + n + 1]) ==
            (Value(old(u[..])[at..at + n + 1]) + Value(v[..][vo..vo + n])) % Pow(B, n + 1)
  {
    var t: nat := 0;
    var i := n;
    ghost var was := u[..];
    ghost var vs := v[..];
    AddStarts(was, at, vs, vo, n);
    assert Adding(was, was, at, vs, vo, n, n, 0);
    hide Adding, Added, Val, Pow, Digital;
    while i > 0
      invariant 0 <= i <= n && v[..] == vs
      invariant Adding(u[..], was, at, vs, vo, n, i, t)
    {
      var sum := t + u[at + i] + v[vo + i - 1];
      AddingNext(u[..], was, at, vs, vo, n, i, t, sum);
      ghost var us, digit: nat := u[..], sum % B;
      u[at + i] := sum % B;
      assert u[..] == us[at + i := digit];
      t := sum / B;
      i := i - 1;
    }
    AddingEnds(u[..], was, at, vs, vo, n, t);
    ghost var us, digit: nat := u[..], (u[at] + t) % B;
    u[at] := (u[at] + t) % B;
    assert u[..] == us[at := digit];
  }

  lemma AddLast(u: seq<nat>, was: seq<nat>, at: nat, v: seq<nat>, vo: nat, n: nat, t: nat)
    requires at + n < |u| == |was| && vo + n <= |v| && Digital(u) && t <= 1 && u[at] == was[at]
    requires Added(u, was, at, v, vo, n, 0, t)
    ensures Pow(B, n + 1) > 0
    ensures Value(u[at := (u[at] + t) % B][at..at + n + 1]) ==
            (Value(was[at..at + n + 1]) + Value(v[vo..vo + n])) % Pow(B, n + 1)
  {
    var d := (u[at] + t) % B;
    var post := u[at := d];
    var p := Pow(B, n);
    PowPositive(B, n + 1);
    assert post[at + 1..at + n + 1] == u[at + 1..at + n + 1];
    TailGrows(post, at, at + n + 1);
    TailGrows(was, at, at + n + 1);
    var carry := (u[at] + t) / B;
    assert d * p + carry * (B * p) == was[at] * p + t * p by {
      MulAssoc(carry, B, p);
      DistributeRight(d, carry * B, p);
      DistributeRight(was[at], t, p);
    }
    ValBound(post[at..at + n + 1], B);
    DivModUnique(Value(was[at..at + n + 1]) + Value(v[vo..vo + n]), Pow(B, n + 1), carry,
                 Value(post[at..at + n + 1]));
  }

  // ------------------------------------------------------------------
  // D3 to D6: one digit of the quotient

  lemma TwoDigits(x: nat, y: nat)
    ensures Value([x] + [y]) == x * B + y
  {
    ValAppend([], x, B);
    ValAppend([x], y, B);
    assert [] + [x] == [x];
  }

  /** The three leading digits of the window and the two of the divisor carry their weight. */
  lemma Leading(w: seq<nat>, v: seq<nat>, n: nat)
    requires n >= 2 && |w| == n + 1 && |v| == n && Digital(w) && Digital(v)
    ensures Split(Value(w), (w[0] * B + w[1]) * B + w[2], Pow(B, n - 2), Value(w[3..]))
    ensures Split(Value(v), v[0] * B + v[1], Pow(B, n - 2), Value(v[2..]))
  {
    hide Val, Pow, Split;
    FirstDigits(w, 3);
    FirstDigits(v, 2);
    assert w[..3] == [w[0]] + [w[1]] + [w[2]] && v[..2] == [v[0]] + [v[1]];
    TwoDigits(v[0], v[1]);
    TwoDigits(w[0], w[1]);
    ValAppend([w[0]] + [w[1]], w[2], B);
  }

  lemma FirstDigits(s: seq<nat>, k: nat)
    requires k <= |s| && Digital(s)
    ensures Split(Value(s), Value(s[..k]), Pow(B, |s| - k), Value(s[k..]))
  {
    hide Val, Pow;
    assert s == s[..k] + s[k..];
    ValConcat(s[..k], s[k..], B);
    ValBound(s[k..], B);
  }

  /** The leading digit of the window never exceeds that of the divisor. */
  lemma LeadingAtMost(w: seq<nat>, v: seq<nat>, n: nat)
    requires n >= 2 && |w| == n + 1 && |v| == n && Digital(w) && Digital(v)
    requires Value(w) < Value(v) * B
    ensures w[0] <= v[0]
  {
    var p := Pow(B, n - 1);
    assert w == [w[0]] + w[1..] && v == [v[0]] + v[1..];
    ValCons(w[0], w[1..], B);
    ValCons(v[0], v[1..], B);
    ValBound(v[1..], B);
    assert Pow(B, n) == B * p;
    DistributeOne(v[0], p);
    assert w[0] * (B * p) < (v[0] + 1) * p * B;
    MulAssoc(v[0] + 1, p, B);
    MulCancel(w[0], v[0] + 1, B * p);
  }

  /** The trial digit is the true digit or one more. */
  lemma TrialBounds(w: seq<nat>, v: seq<nat>, n: nat, qhat: nat)
    requires n >= 2 && |w| == n + 1 && |v| == n && Digital(w) && Digital(v) && v[0] > 0
    requires Value(w) < Value(v) * B
    requires qhat == Trial((w[0] * B + w[1]) * B + w[2], v[0] * B + v[1])
    ensures Value(v) > 0 && Value(w) / Value(v) <= qhat <= Value(w) / Value(v) + 1 && qhat < B
  {
    Leading(w, v, n);
    hide Val, Pow, Split, Digital;
    var u3, v2 := (w[0] * B + w[1]) * B + w[2], v[0] * B + v[1];
    assert qhat == if Quotient(u3, v2) < B then Quotient(u3, v2) else B - 1;
    EstimateBounds(B, Pow(B, n - 2), Value(w), u3, Value(w[3..]), Value(v), v2, Value(v[2..]), qhat);
  }

  /** A borrow shows that the trial digit was one too big; adding the divisor back repairs the window. */
  lemma RepairDigit(w: nat, v: nat, qhat: nat, turn: nat, got: nat)
    requires v > 0 && w / v <= qhat <= w / v + 1 && w < qhat * v && 0 <= got == w - qhat * v + turn < turn
    requires v <= turn
    ensures qhat == w / v + 1 && (got + v) % turn == w % v
  {
    DivMod(w, v);
    MulCancel(w / v, qhat, v);
    DistributeOne(w / v, v);
    assert got + v == turn + w % v;
    DivModUnique(got + v, turn, 1, w % v);
  }

  lemma RepairWindow(w: seq<nat>, d: seq<nat>, got: seq<nat>, n: nat, qhat: nat)
    requires |d| == n && |got| == n + 1 && Digital(d) && Digital(got) && Value(d) > 0
    requires Value(w) / Value(d) <= qhat <= Value(w) / Value(d) + 1 && Value(w) < qhat * Value(d)
    requires Value(got) == Value(w) - qhat * Value(d) + Pow(B, n + 1)
    ensures qhat == Value(w) / Value(d) + 1 && Pow(B, n + 1) > 0
    ensures (Value(got) + Value(d)) % Pow(B, n + 1) == Value(w) % Value(d)
  {
    ValBound(got, B);
    ValBound(d, B);
    RepairDigit(Value(w), Value(d), qhat, Pow(B, n + 1), Value(got));
  }

  lemma KeepDigit(w: nat, v: nat, qhat: nat)
    requires v > 0 && w / v <= qhat <= w / v + 1 && w >= qhat * v
    ensures qhat == w / v && w - qhat * v == w % v
  {
    DivMod(w, v);
    DivAtMost(w, v, qhat);
  }

  /** Divide the window by the divisor: the digit is returned, the remainder left in place. */
  method DivideDigit(u: array<nat>, at: nat, v: array<nat>, vo: nat, n: nat) returns (qhat: nat)
    requires n >= 2 && u != v && at + n < u.Length && vo + n <= v.Length
    requires Digital(u[..]) && Digital(v[..]) && v[vo] >= B / 2
    requires Value(u[..][at..at + n + 1]) < Value(v[..][vo..vo + n]) * B
    modifies u
    ensures Digital(u[..]) && Value(v[..][vo..vo + n]) > 0
    ensures forall k :: 0 <= k < u.Length && !(at <= k <= at + n) ==> u[k] == old(u[k])
    ensures qhat == Value(old(u[..])[at..at + n + 1]) / Value(v[..][vo..vo + n]) < B
    ensures Value(u[..][at..at + n + 1]) == Value(old(u[..])[at..at + n + 1]) % Value(v[..][vo..vo + n])
  {
    hide Trial, Pow, Value;
    ghost var w := u[..][at..at + n + 1];
    ghost var d := v[..][vo..vo + n];
    LeadingAtMost(w, d, n);
    qhat := Estimate(u[at], u[at + 1], u[at + 2], v[vo], v[vo + 1]);
    TrialBounds(w, d, n, qhat);
    DivLess(Value(w), Value(d), B);
    var borrow := MultiplySubtract(u, at, v, vo, n, qhat);
    if borrow {
      RepairWindow(w, d, u[..][at..at + n + 1], n, qhat);
      qhat := qhat - 1;
      AddBack(u, at, v, vo, n);
    } else {
      KeepDigit(Value(w), Value(d), qhat);
    }
  }

  // ------------------------------------------------------------------
  // D2 and D7: one digit after the other

  lemma ZerosThenWindow(u: seq<nat>, i: nat, k: nat, end: nat)
    requires i <= k <= end <= |u| && forall j :: i <= j < k ==> u[j] == 0
    ensures Value(u[i..end]) == Value(u[k..end])
  {
    assert u[i..end] == u[i..k] + u[k..end];
    ValConcat(u[i..k], u[k..end], B);
    ValZeros(u[i..k], B);
  }

  lemma NextDigit(u: seq<nat>, i: nat, end: nat)
    requires i <= end < |u|
    ensures Value(u[i..end + 1]) == Value(u[i..end]) * B + u[end]
  {
    assert u[i..end + 1] == u[i..end] + [u[end]];
    ValAppend(u[i..end], u[end], B);
  }

  /** A value of `n` digits written with `n + 1` starts with a zero. */
  lemma LeadZero(w: seq<nat>, n: nat)
    requires |w| == n + 1 && Value(w) < Pow(B, n)
    ensures w[0] == 0
  {
    assert w == [w[0]] + w[1..];
    ValCons(w[0], w[1..], B);
    assert w[0] * Pow(B, n) < 1 * Pow(B, n);
    MulCancel(w[0], 1, Pow(B, n));
  }

  /** The prefix still to be divided at step `j` fits the window. */
  lemma WindowFits(u: seq<nat>, was: seq<nat>, uo: nat, d: nat, n: nat, j: nat)
    requires uo + j + n < |u| == |was| && d > 0
    requires forall k :: uo <= k < uo + j ==> u[k] == 0
    requires u[uo + j + n] == was[uo + j + n] < B
    requires Value(u[uo..uo + j + n]) == Value(was[uo..uo + j + n]) % d
    ensures var w := Value(u[uo + j..uo + j + n + 1]);
      w == (Value(was[uo..uo + j + n]) % d) * B + was[uo + j + n] && w < d * B
  {
    ZerosThenWindow(u, uo, uo + j, uo + j + n + 1);
    NextDigit(u, uo, uo + j + n);
    DivMod(Value(was[uo..uo + j + n]), d);
  }

  lemma WindowDone(u: seq<nat>, was: seq<nat>, uo: nat, d: nat, n: nat, j: nat, w: nat)
    requires uo + j + n < |u| == |was| && 0 < d < Pow(B, n)
    requires forall k :: uo <= k < uo + j ==> u[k] == 0
    requires w == (Value(was[uo..uo + j + n]) % d) * B + was[uo + j + n]
    requires Value(u[uo + j..uo + j + n + 1]) == w % d
    ensures u[uo + j] == 0
    ensures Value(u[uo..uo + j + n + 1]) == Value(was[uo..uo + j + n + 1]) % d
    ensures Value(was[uo..uo + j + n + 1]) / d == (Value(was[uo..uo + j + n]) / d) * B + w / d
  {
    hide Val, Pow;
    WindowLead(u[uo + j..uo + j + n + 1], n, w, d);
    ZerosThenWindow(u, uo, uo + j, uo + j + n + 1);
    NextDigit(was, uo, uo + j + n);
    NextTotal(Value(was[uo..uo + j + n]), Value(was[uo..uo + j + n + 1]), d, was[uo + j + n], w);
  }

  lemma WindowLead(window: seq<nat>, n: nat, w: nat, d: nat)
    requires |window| == n + 1 && 0 < d < Pow(B, n) && Value(window) == w % d
    ensures window[0] == 0
  {
    hide Val, Pow;
    DivMod(w, d);
    LeadZero(window, n);
  }

  /** The division step, over plain numbers. */
  lemma NextTotal(total: nat, next: nat, d: nat, digit: nat, w: nat)
    requires d > 0 && next == total * B + digit && w == (total % d) * B + digit
    ensures next % d == w % d && next / d == (total / d) * B + w / d
  {
    LongDivisionStep(d, total, total / d, total % d, B, digit);
  }

  /** Where the division stands after `j` digits of the quotient. */
  ghost predicate Dividing(u: seq<nat>, was: seq<nat>, uo: nat, q: seq<nat>, qo: nat, d: nat, n: nat, j: nat)
    requires uo + j + n <= |u| == |was| && qo + j <= |q| && d > 0
  {
    && Value(u[uo..uo + j + n]) == Value(was[uo..uo + j + n]) % d
    && Value(q[qo..qo + j]) == Value(was[uo..uo + j + n]) / d
  }

  lemma DividingStep(before: seq<nat>, u: seq<nat>, was: seq<nat>, uo: nat, q: seq<nat>, qo: nat, d: nat, n: nat,
                     j: nat, digit: nat)
    requires uo + j + n < |u| == |was| == |before| && qo + j < |q| && 0 < d < Pow(B, n)
    requires Dividing(before, was, uo, q, qo, d, n, j)
    requires forall k :: uo <= k < uo + j ==> before[k] == 0
    requires forall k :: uo <= k < uo + j ==> u[k] == before[k]
    requires before[uo + j + n] == was[uo + j + n] < B
    requires digit == Value(before[uo + j..uo + j + n + 1]) / d
    requires Value(u[uo + j..uo + j + n + 1]) == Value(before[uo + j..uo + j + n + 1]) % d
    ensures u[uo + j] == 0 && Dividing(u, was, uo, q[qo + j := digit], qo, d, n, j + 1)
  {
    hide Val, Pow;
    WindowFits(before, was, uo, d, n, j);
    WindowDone(u, was, uo, d, n, j, Value(before[uo + j..uo + j + n + 1]));
    var post := q[qo + j := digit];
    NextDigit(post, qo, qo + j);
    assert post[qo..qo + j] == q[qo..qo + j];
  }

  /** The state of the arrays after `j` quotient digits. */
  ghost predicate Stage(u: seq<nat>, was: seq<nat>, uo: nat, q: seq<nat>, qwas: seq<nat>, qo: nat, d: nat, n: nat,
                        j: nat)
    requires uo + j + n <= |u| == |was| && qo + j <= |q| == |qwas| && d > 0
  {
    && Digital(u) && Digital(q)
    && (forall k :: uo <= k < uo + j ==> u[k] == 0)
    && (forall k :: 0 <= k < |u| && !(uo <= k < uo + j + n) ==> u[k] == was[k])
    && (forall k :: 0 <= k < |q| && !(qo <= k < qo + j) ==> q[k] == qwas[k])
    && Dividing(u, was, uo, q, qo, d, n, j)
  }

  lemma StageFits(u: seq<nat>, was: seq<nat>, uo: nat, q: seq<nat>, qwas: seq<nat>, qo: nat, d: nat, n: nat, j: nat)
    requires uo + j + n < |u| == |was| && qo + j < |q| == |qwas| && d > 0
    requires Stage(u, was, uo, q, qwas, qo, d, n, j)
    ensures Digital(u) && Value(u[uo + j..uo + j + n + 1]) < d * B
  {
    hide Val, Dividing;
    DividingFits(u, was, uo, q, qo, d, n, j);
  }

  /** The window has been divided and its digit goes to the quotient. */
  lemma StageNext(before: seq<nat>, u: seq<nat>, was: seq<nat>, uo: nat, q: seq<nat>, qwas: seq<nat>, qo: nat, d: nat,
                  n: nat, j: nat, digit: nat)
    requires uo + j + n < |u| == |was| == |before| && qo + j < |q| == |qwas| && 0 < d < Pow(B, n)
    requires Stage(before, was, uo, q, qwas, qo, d, n, j) && Digital(u)
    requires forall k :: 0 <= k < |u| && !(uo + j <= k <= uo + j + n) ==> u[k] == before[k]
    requires digit == Value(before[uo + j..uo + j + n + 1]) / d < B
    requires Value(u[uo + j..uo + j + n + 1]) == Value(before[uo + j..uo + j + n + 1]) % d
    ensures Stage(u, was, uo, q[qo + j := digit], qwas, qo, d, n, j + 1)
  {
    hide Val, Pow, Dividing;
    DividingStep(before, u, was, uo, q, qo, d, n, j, digit);
  }

  /** One pass of the loop over `j`. */
  method DivideOne(u: array<nat>, uo: nat, v: array<nat>, vo: nat, q: array<nat>, qo: nat, n: nat, j: nat,
                   ghost was: seq<nat>, ghost qwas: seq<nat>)
    requires u != v && u != q && v != q && n >= 2
    requires uo + j + n < u.Length == |was| && vo + n <= v.Length && qo + j < q.Length == |qwas|
    requires Digital(v[..]) && v[vo] >= B / 2 && 0 < Value(v[..][vo..vo + n]) < Pow(B, n)
    requires Stage(u[..], was, uo, q[..], qwas, qo, Value(v[..][vo..vo + n]), n, j)
    modifies u, q
    ensures Stage(u[..], was, uo, q[..], qwas, qo, Value(v[..][vo..vo + n]), n, j + 1)
  {
    ghost var before := u[..];
    ghost var qs := q[..];
    ghost var vs := v[..];
    ghost var d := Value(vs[vo..vo + n]);
    hide Val, Pow, Stage, Digital;
    StageFits(before, was, uo, qs, qwas, qo, d, n, j);
    var digit := DivideDigit(u, uo + j, v, vo, n);
    StageNext(before, u[..], was, uo, qs, qwas, qo, d, n, j, digit);
    q[qo + j] := digit;
    assert v[..] == vs && q[..] == qs[qo + j := digit];
  }

  /** The long division proper; quotient digits go to `q`, the remainder is left in `u`. */
  method DivideDigits(u: array<nat>, uo: nat, v: array<nat>, vo: nat, q: array<nat>, qo: nat, m: nat, n: nat)
    requires u != v && u != q && v != q
    requires n >= 2 && uo + m + n < u.Length && vo + n <= v.Length && qo + m < q.Length
    requires Digital(u[..]) && Digital(v[..]) && Digital(q[..]) && v[vo] >= B / 2
    requires Value(u[..][uo..uo + n]) < Value(v[..][vo..vo + n])
    modifies u, q
    ensures Digital(u[..]) && Digital(q[..])
    ensures forall k :: 0 <= k < q.Length && !(qo <= k <= qo + m) ==> q[k] == old(q[k])
    ensures forall k :: 0 <= k < uo ==> u[k] == old(u[k])
    ensures forall k :: uo <= k <= uo + m ==> u[k] == 0
    ensures var w := Value(old(u[..])[uo..uo + m + n + 1]); var d := Value(v[..][vo..vo + n]);
      && Value(q[..][qo..qo + m + 1]) == w / d
      && Value(u[..][uo..uo + m + n + 1]) == w % d
  {
    ghost var was := u[..];
    ghost var qwas := q[..];
    ghost var vs := v[..];
    ghost var d := Value(vs[vo..vo + n]);
    StageStarts(was, uo, vs, vo, qwas, qo, n);
    hide Val, Pow, Stage, Digital;
    var j := 0;
    while j <= m
      invariant 0 <= j <= m + 1 && v[..] == vs
      invariant Stage(u[..], was, uo, q[..], qwas, qo, d, n, j)
    {
      DivideOne(u, uo, v, vo, q, qo, n, j, was, qwas);
      assert v[..] == vs;
      j := j + 1;
    }
    StageEnds(u[..], was, uo, q[..], qwas, qo, d, n, m);
  }

  lemma StageStarts(u: seq<nat>, uo: nat, v: seq<nat>, vo: nat, q: seq<nat>, qo: nat, n: nat)
    requires uo + n <= |u| && vo + n <= |v| && qo <= |q| && Digital(u) && Digital(v) && Digital(q)
    requires Value(u[uo..uo + n]) < Value(v[vo..vo + n])
    ensures 0 < Value(v[vo..vo + n]) < Pow(B, n)
    ensures Stage(u, u, uo, q, q, qo, Value(v[vo..vo + n]), n, 0)
  {
    ValBound(v[vo..vo + n], B);
    DivModUnique(Value(u[uo..uo + n]), Value(v[vo..vo + n]), 0, Value(u[uo..uo + n]));
    assert q[qo..qo] == [];
  }

  lemma StageEnds(u: seq<nat>, was: seq<nat>, uo: nat, q: seq<nat>, qwas: seq<nat>, qo: nat, d: nat, n: nat, m: nat)
    requires uo + m + 1 + n <= |u| == |was| && qo + m + 1 <= |q| == |qwas| && d > 0
    requires Stage(u, was, uo, q, qwas, qo, d, n, m + 1)
    ensures Digital(u) && Digital(q)
    ensures forall k :: 0 <= k < |q| && !(qo <= k <= qo + m) ==> q[k] == qwas[k]
    ensures forall k :: 0 <= k < uo ==> u[k] == was[k]
    ensures forall k :: uo <= k <= uo + m ==> u[k] == 0
    ensures Value(q[qo..qo + m + 1]) == Value(was[uo..uo + m + n + 1]) / d
    ensures Value(u[uo..uo + m + n + 1]) == Value(was[uo..uo + m + n + 1]) % d
  {
  }

  lemma DividingFits(before: seq<nat>, was: seq<nat>, uo: nat, q: seq<nat>, qo: nat, d: nat, n: nat, j: nat)
    requires uo + j + n < |was| == |before| && qo + j <= |q| && 0 < d
    requires Dividing(before, was, uo, q, qo, d, n, j)
    requires forall k :: uo <= k < uo + j ==> before[k] == 0
    requires before[uo + j + n] == was[uo + j + n] < B
    ensures Value(before[uo + j..uo + j + n + 1]) < d * B
  {
    WindowFits(before, was, uo, d, n, j);
  }
}
