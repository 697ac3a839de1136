/** Moving ready threads to less busy processors (thread_consider_migration in kern/thread/thread.c). */
module Migration {
  import opened Common
  import opened Digits

  /** All threads on all run queues. */
  ghost function Pool(qs: seq<seq<Tid>>): multiset<Tid> {
    if qs == [] then multiset{} else Pool(qs[..|qs| - 1]) + multiset(qs[|qs| - 1])
  }

  function Total(qs: seq<seq<Tid>>): nat {
    if qs == [] then 0 else Total(qs[..|qs| - 1]) + |qs[|qs| - 1]|
  }

  lemma {:induction false} PoolUpdate(qs: seq<seq<Tid>>, c: nat, q: seq<Tid>)
    requires c < |qs|
    ensures Pool(qs[c := q]) + multiset(qs[c]) == Pool(qs) + multiset(q)
  {
    var n := |qs| - 1;
    if c < n {
      assert qs[c := q][..n] == qs[..n][c := q];
      PoolUpdate(qs[..n], c, q);
      var a, b, m := Pool(qs[..n][c := q]), Pool(qs[..n]), multiset(qs[n]);
      assert a + multiset(qs[c]) == b + multiset(q);
      assert a + m + multiset(qs[c]) == a + multiset(qs[c]) + m;
      assert b + m + multiset(q) == b + multiset(q) + m;
    } else {
      assert qs[c := q][..n] == qs[..n];
    }
  }

  lemma {:induction false} TotalUpdate(qs: seq<seq<Tid>>, c: nat, q: seq<Tid>)
    requires c < |qs|
    ensures Total(qs[c := q]) + |qs[c]| == Total(qs) + |q|
  {
    var n := |qs| - 1;
    if c < n {
      assert qs[c := q][..n] == qs[..n][c := q];
      TotalUpdate(qs[..n], c, q);
    } else {
      assert qs[c := q][..n] == qs[..n];
    }
  }

  /** If no queue is shorter than a share, the total is at least that many shares. */
  lemma {:induction false} EnoughEverywhere(qs: seq<seq<Tid>>, share: nat)
    requires forall c :: 0 <= c < |qs| ==> share <= |qs[c]|
    ensures |qs| * share <= Total(qs)
  {
    if qs != [] {
      var n := |qs| - 1;
      EnoughEverywhere(qs[..n], share);
      DistributeRight(n, 1, share);
    }
  }

  function RoundUp(total: nat, n: nat): nat
    requires n > 0
  {
    DivAtLeast(total, n);
    (total + n - 1) / n
  }

  lemma DivAtLeast(total: nat, n: nat)
    requires n > 0
    ensures (total + n - 1) / n >= 0
  {
    DivMod(total + n - 1, n);
  }

  /** The share is the average rounded up: the least number that, given to each, covers the total. */
  lemma ShareCovers(total: nat, n: nat)
    requires n > 0
    ensures total <= n * RoundUp(total, n) < total + n
  {
    DivMod(total + n - 1, n);
  }

  /** A list of threads without the running one. */
  function Skip(s: seq<Tid>, cur: Tid): seq<Tid> {
    if s == [] then [] else (if s[0] == cur then [] else [s[0]]) + Skip(s[1..], cur)
  }

  lemma {:induction false} SkipConcat(s: seq<Tid>, t: seq<Tid>, cur: Tid)
    ensures Skip(s + t, cur) == Skip(s, cur) + Skip(t, cur)
  {
    if s == [] {
      assert s + t == t;
    } else {
      assert (s + t)[1..] == s[1..] + t;
      SkipConcat(s[1..], t, cur);
    }
  }

  lemma {:induction false} SkipNone(s: seq<Tid>, cur: Tid)
    requires cur !in s
    ensures Skip(s, cur) == s
  {
    if s != [] {
      SkipNone(s[1..], cur);
    }
  }

  predicate NoDup(s: seq<Tid>) {
    forall i, j :: 0 <= i < j < |s| ==> s[i] != s[j]
  }

  /** Every thread's processor field names the queue it is on. */
  ghost predicate Placed(qs: seq<seq<Tid>>, home: map<Tid, nat>) {
    forall c, i :: 0 <= c < |qs| && 0 <= i < |qs[c]| ==> qs[c][i] in home && home[qs[c][i]] == c
  }

  /** The list still holds what is to be sent; a running thread that was skipped sits at its end. */
  predicate Ready(victims: seq<Tid>, toSend: nat, cur: Tid) {
    && NoDup(victims)
    && (|victims| == toSend || (|victims| == toSend + 1 && victims[toSend] == cur))
  }

  /** From `victims0`, `moved` have been sent in order and `victims` are left. */
  ghost predicate Dealt(victims0: seq<Tid>, victims: seq<Tid>, moved: seq<Tid>, toSend: nat, cur: Tid) {
    && Ready(victims, toSend, cur)
    && Skip(victims0, cur) == moved + Skip(victims, cur)
    && (cur in victims0 <==> cur in victims)
    && multiset(victims0) == multiset(moved) + multiset(victims)
  }

  lemma DealtSkip(v0: seq<Tid>, v: seq<Tid>, moved: seq<Tid>, toSend: nat, cur: Tid)
    requires Dealt(v0, v, moved, toSend, cur) && toSend > 0 && v[0] == cur
    ensures Dealt(v0, v[1..] + [cur], moved, toSend - 1, cur)
  {
    assert v == [cur] + v[1..];
    SkipConcat([cur], v[1..], cur);
    SkipConcat(v[1..], [cur], cur);
  }

  lemma DealtMove(v0: seq<Tid>, v: seq<Tid>, moved: seq<Tid>, toSend: nat, cur: Tid)
    requires Dealt(v0, v, moved, toSend, cur) && toSend > 0 && v[0] != cur
    ensures Dealt(v0, v[1..], moved + [v[0]], toSend - 1, cur)
  {
    assert v == [v[0]] + v[1..];
    assert cur in v <==> cur in v[1..];
  }

  // ------------------------------------------------------------------
  // The dealing loop over the processors

  /** What the queues of processors below `i`, other than `me`, have received, in order. */
  function Received(qs0: seq<seq<Tid>>, qs: seq<seq<Tid>>, me: nat, i: nat): seq<Tid>
    requires i <= |qs0| == |qs|
  {
    if i == 0 then [] else
      Received(qs0, qs, me, i - 1) +
      if i - 1 == me || |qs[i - 1]| < |qs0[i - 1]| then [] else qs[i - 1][|qs0[i - 1]|..]
  }

  lemma {:induction false} ReceivedFrame(qs0: seq<seq<Tid>>, qs: seq<seq<Tid>>, qs0': seq<seq<Tid>>,
                                         qs': seq<seq<Tid>>, me: nat, i: nat)
    requires i <= |qs0| == |qs| == |qs'| == |qs0'|
    requires forall c :: 0 <= c < i && c != me ==> qs0[c] == qs0'[c] && qs[c] == qs'[c]
    ensures Received(qs0, qs, me, i) == Received(qs0', qs', me, i)
  {
    if i > 0 {
      ReceivedFrame(qs0, qs, qs0', qs', me, i - 1);
    }
  }

  /** The queues of the processors below `i` have been filled up from the victims. */
  ghost predicate Spread(qs0: seq<seq<Tid>>, qs: seq<seq<Tid>>, v0: seq<Tid>, v: seq<Tid>, toSend: nat,
                         share: nat, me: nat, cur: Tid, i: nat)
  {
    && i <= |qs0| == |qs|
    && (forall c :: 0 <= c < |qs| && (c == me || c >= i) ==> qs[c] == qs0[c])
    && (forall c :: 0 <= c < i ==> qs0[c] <= qs[c] && (qs[c] == qs0[c] || |qs[c]| <= share))
    && (toSend == 0 || forall c :: 0 <= c < i && c != me ==> share <= |qs[c]|)
    && Dealt(v0, v, Received(qs0, qs, me, i), toSend, cur)
    && Total(qs) + |v| == Total(qs0) + |v0|
    && Pool(qs) + multiset(v) == Pool(qs0) + multiset(v0)
  }

  lemma SpreadSkip(qs0: seq<seq<Tid>>, qs: seq<seq<Tid>>, v0: seq<Tid>, v: seq<Tid>, toSend: nat,
                   share: nat, me: nat, cur: Tid)
    requires me < |qs0| && Spread(qs0, qs, v0, v, toSend, share, me, cur, me)
    ensures Spread(qs0, qs, v0, v, toSend, share, me, cur, me + 1)
  {
    assert Received(qs0, qs, me, me + 1) == Received(qs0, qs, me, me);
  }

  /** Sending in two goes is sending what both goes sent. */
  lemma DealtTwice(v0: seq<Tid>, v: seq<Tid>, v': seq<Tid>, m: seq<Tid>, m': seq<Tid>, n: nat, n': nat, cur: Tid)
    requires Dealt(v0, v, m, n, cur) && Dealt(v, v', m', n', cur)
    ensures Dealt(v0, v', m + m', n', cur)
  {
    hide Skip, Ready;
    assert m + m' + Skip(v', cur) == m + (m' + Skip(v', cur));
    assert multiset(m + m') == multiset(m) + multiset(m');
  }

  lemma SpreadOn(qs0: seq<seq<Tid>>, qs: seq<seq<Tid>>, v0: seq<Tid>, v: seq<Tid>, toSend: nat,
                 share: nat, me: nat, cur: Tid, i: nat, q: seq<Tid>, v': seq<Tid>, toSend': nat)
    requires Spread(qs0, qs, v0, v, toSend, share, me, cur, i) && i < |qs| && i != me && toSend > 0
    requires qs[i] <= q && (q == qs[i] || |q| <= share) && (toSend' == 0 || share <= |q|)
    requires Dealt(v, v', q[|qs[i]|..], toSend', cur)
    ensures Spread(qs0, qs[i := q], v0, v', toSend', share, me, cur, i + 1)
  {
    hide Skip, Ready;
    var qs', m, m' := qs[i := q], Received(qs0, qs, me, i), q[|qs[i]|..];
    ReceivedFrame(qs0, qs, qs0, qs', me, i);
    assert Received(qs0, qs', me, i + 1) == m + m';
    DealtTwice(v0, v, v', m, m', toSend, toSend', cur);
    assert q == qs[i] + m';
    TotalUpdate(qs, i, q);
    PoolUpdate(qs, i, q);
    assert |multiset(v)| == |v| && |multiset(v')| == |v'| && |multiset(m')| == |m'|;
    PoolMoves(Pool(qs), Pool(qs'), Pool(qs0), multiset(qs[i]), multiset(m'), multiset(v), multiset(v'), multiset(v0));
  }

  lemma PoolMoves(p: multiset<Tid>, p': multiset<Tid>, p0: multiset<Tid>, q: multiset<Tid>, m: multiset<Tid>,
                  v: multiset<Tid>, v': multiset<Tid>, v0: multiset<Tid>)
    requires p' + q == p + (q + m) && v == m + v' && p + v == p0 + v0
    ensures p' + v' == p0 + v0
  {
    forall t ensures p'[t] == (p + m)[t] {
      assert (p' + q)[t] == (p + (q + m))[t];
    }
    assert p' == p + m;
  }

  lemma DealtNone(v: seq<Tid>, cur: Tid)
    requires NoDup(v)
    ensures Dealt(v, v, [], |v|, cur)
  {
  }

  lemma DealtSome(v0: seq<Tid>, v: seq<Tid>, moved: seq<Tid>, toSend: nat, cur: Tid)
    requires Dealt(v0, v, moved, toSend, cur) && toSend > 0
    ensures v != []
  {
  }

  lemma FillStarts(qs: seq<seq<Tid>>, home: map<Tid, nat>, c: nat, v: seq<Tid>, toSend: nat, cur: Tid)
    requires c < |qs| && Ready(v, toSend, cur)
    ensures qs[c] + [] == qs[c] && qs[c := qs[c]] == qs
    ensures Dealt(v, v, [], toSend, cur) && home == Rehomed(home, [], c)
  {
  }

  lemma DealtKeeps(v0: seq<Tid>, v: seq<Tid>, m: seq<Tid>, toSend: nat, cur: Tid)
    requires Dealt(v0, v, m, toSend, cur)
    ensures multiset(v0) == multiset(m) + multiset(v)
  {
  }

  lemma SpreadStart(qs: seq<seq<Tid>>, home: map<Tid, nat>, v: seq<Tid>, share: nat, me: nat, cur: Tid)
    requires HomeOk(qs, home, v, me)
    ensures Spread(qs, qs, v, v, |v|, share, me, cur, 0)
  {
    DealtNone(v, cur);
  }

  /** With nothing left to send, the other processors need not be looked at. */
  lemma SpreadNext(qs0: seq<seq<Tid>>, qs: seq<seq<Tid>>, v0: seq<Tid>, v: seq<Tid>,
                   share: nat, me: nat, cur: Tid, i: nat)
    requires i < |qs0| && Spread(qs0, qs, v0, v, 0, share, me, cur, i)
    ensures Spread(qs0, qs, v0, v, 0, share, me, cur, i + 1)
  {
    hide Dealt, Pool, Total;
    assert Received(qs0, qs, me, i + 1) == Received(qs0, qs, me, i);
  }

  lemma {:induction false} SpreadRest(qs0: seq<seq<Tid>>, qs: seq<seq<Tid>>, v0: seq<Tid>, v: seq<Tid>,
                                      share: nat, me: nat, cur: Tid, i: nat)
    requires i <= |qs0| && Spread(qs0, qs, v0, v, 0, share, me, cur, i)
    ensures Spread(qs0, qs, v0, v, 0, share, me, cur, |qs0|)
    decreases |qs0| - i
  {
    hide Spread;
    if i < |qs0| {
      SpreadNext(qs0, qs, v0, v, share, me, cur, i);
      SpreadRest(qs0, qs, v0, v, share, me, cur, i + 1);
    }
  }

  /** Room for everyone: without the running thread in the way nothing is left over. */
  lemma NothingLeft(qs0: seq<seq<Tid>>, qs: seq<seq<Tid>>, v0: seq<Tid>, v: seq<Tid>, toSend: nat,
                    share: nat, me: nat, cur: Tid)
    requires me < |qs0| && Spread(qs0, qs, v0, v, toSend, share, me, cur, |qs0|)
    requires |qs0[me]| == share && Total(qs0) + |v0| <= |qs0| * share
    ensures toSend == 0
  {
    if toSend > 0 {
      EnoughEverywhere(qs, share);
    }
  }

  /**
    The outcome: with at least a share of its own, the processor keeps exactly one share
    (and the running thread, which is never sent away); the others take the surplus in
    order, at their tails, and nobody is filled beyond the share.
   */
  ghost predicate Balanced(qs: seq<seq<Tid>>, qs': seq<seq<Tid>>, me: nat, cur: Tid)
    requires me < |qs| == |qs'|
  {
    var share := RoundUp(Total(qs), |qs|);
    if |qs[me]| < share then qs' == qs else
      var surplus := qs[me][share..];
      && qs'[me] == qs[me][..share] + (if cur in surplus then [cur] else [])
      && Received(qs, qs', me, |qs|) == Skip(surplus, cur)
      && forall c :: 0 <= c < |qs| && c != me ==> qs[c] <= qs'[c] && (qs'[c] == qs[c] || |qs'[c]| <= share)
  }

  /** The running thread is never migrated: it is on a queue after exactly when it was on it before. */
  lemma RunningStays(qs: seq<seq<Tid>>, qs': seq<seq<Tid>>, me: nat, cur: Tid, c: nat)
    requires me < |qs| == |qs'| && c < |qs| && Balanced(qs, qs', me, cur)
    ensures cur in qs'[c] <==> cur in qs[c]
  {
    hide RoundUp;
    var share := RoundUp(Total(qs), |qs|);
    if |qs[me]| >= share {
      if c == me {
        assert qs[me] == qs[me][..share] + qs[me][share..];
      } else {
        var got := qs'[c][|qs[c]|..];
        assert qs'[c] == qs[c] + got;
        if cur in got {
          ReceivedHas(qs, qs', me, |qs|, c, cur);
          SkipNever(qs[me][share..], cur);
        }
      }
    }
  }

  /** Of its own queue the processor keeps one share, and the running thread if that was beyond it. */
  lemma BalancedOwn(qs: seq<seq<Tid>>, qs': seq<seq<Tid>>, me: nat, cur: Tid, share: nat)
    requires me < |qs| == |qs'| && Balanced(qs, qs', me, cur) && share == RoundUp(Total(qs), |qs|)
    ensures Own(qs, qs', me, cur, share)
  {
  }

  predicate Own(qs: seq<seq<Tid>>, qs': seq<seq<Tid>>, me: nat, cur: Tid, share: nat)
    requires me < |qs| == |qs'|
  {
    if |qs[me]| <= share then qs'[me] == qs[me]
    else if cur in qs[me][share..] then qs'[me] == qs[me][..share] + [cur]
    else qs'[me] == qs[me][..share] && |qs'[me]| == share
  }

  lemma {:induction false} SkipNever(s: seq<Tid>, cur: Tid)
    ensures cur !in Skip(s, cur)
  {
    if s != [] {
      SkipNever(s[1..], cur);
    }
  }

  lemma {:induction false} ReceivedHas(qs0: seq<seq<Tid>>, qs: seq<seq<Tid>>, me: nat, i: nat, c: nat, t: Tid)
    requires c < i <= |qs0| == |qs| && c != me && |qs0[c]| <= |qs[c]| && t in qs[c][|qs0[c]|..]
    ensures t in Received(qs0, qs, me, i)
  {
    var before := Received(qs0, qs, me, i - 1);
    if c < i - 1 {
      ReceivedHas(qs0, qs, me, i - 1, c, t);
      assert before <= Received(qs0, qs, me, i);
    } else {
      assert Received(qs0, qs, me, i) == before + qs[c][|qs0[c]|..];
    }
  }

  lemma BalancedStill(qs: seq<seq<Tid>>, me: nat, cur: Tid)
    requires me < |qs| && |qs[me]| < RoundUp(Total(qs), |qs|)
    ensures Balanced(qs, qs, me, cur)
  {
  }

  lemma Settled(qs: seq<seq<Tid>>, qs0: seq<seq<Tid>>, qs1: seq<seq<Tid>>, v0: seq<Tid>, v: seq<Tid>,
                toSend: nat, share: nat, me: nat, cur: Tid)
    requires me < |qs| == |qs0| == |qs1| && share == RoundUp(Total(qs), |qs|) <= |qs[me]|
    requires qs0 == qs[me := qs[me][..share]] && v0 == qs[me][share..]
    requires Spread(qs0, qs1, v0, v, toSend, share, me, cur, |qs0|)
    ensures var qs' := qs1[me := qs1[me] + v]; Balanced(qs, qs', me, cur) && Pool(qs') == Pool(qs)
  {
    hide RoundUp, Dealt, Skip, Pool, Total;
    var kept, qs' := qs[me][..share], qs1[me := qs1[me] + v];
    assert qs[me] == kept + v0;
    AllSent(qs, qs0, qs1, v0, v, toSend, share, me, cur);
    DealtEnd(v0, v, Received(qs0, qs1, me, |qs|), cur);
    ReceivedFrame(qs0, qs1, qs, qs', me, |qs|);
    hide Received;
    SettledPool(qs, qs0, qs1, me, kept, v0, v);
  }

  lemma AllSent(qs: seq<seq<Tid>>, qs0: seq<seq<Tid>>, qs1: seq<seq<Tid>>, v0: seq<Tid>, v: seq<Tid>,
                toSend: nat, share: nat, me: nat, cur: Tid)
    requires me < |qs| == |qs0| && share == RoundUp(Total(qs), |qs|) <= |qs[me]|
    requires qs0 == qs[me := qs[me][..share]] && v0 == qs[me][share..]
    requires Spread(qs0, qs1, v0, v, toSend, share, me, cur, |qs0|)
    ensures toSend == 0
  {
    hide RoundUp, Spread;
    TotalUpdate(qs, me, qs[me][..share]);
    ShareCovers(Total(qs), |qs|);
    NothingLeft(qs0, qs1, v0, v, toSend, share, me, cur);
  }

  lemma DealtEnd(v0: seq<Tid>, v: seq<Tid>, m: seq<Tid>, cur: Tid)
    requires Dealt(v0, v, m, 0, cur)
    ensures m == Skip(v0, cur) && v == if cur in v0 then [cur] else []
  {
    if v != [] {
      assert v == [cur] && v[1..] == [];
    }
    assert Skip(v, cur) == [];
  }

  lemma SettledPool(qs: seq<seq<Tid>>, qs0: seq<seq<Tid>>, qs1: seq<seq<Tid>>, me: nat, kept: seq<Tid>, v0: seq<Tid>,
                    v: seq<Tid>)
    requires me < |qs| == |qs0| == |qs1| && qs0 == qs[me := kept] && qs[me] == kept + v0
    requires Pool(qs1) + multiset(v) == Pool(qs0) + multiset(v0)
    ensures Pool(qs1[me := qs1[me] + v]) == Pool(qs)
  {
    PoolUpdate(qs, me, kept);
    PoolUpdate(qs1, me, qs1[me] + v);
    Cancel(Pool(qs0) + multiset(v0), Pool(qs), multiset(kept));
    Cancel(Pool(qs1[me := qs1[me] + v]), Pool(qs1) + multiset(v), multiset(qs1[me]));
  }

  lemma Cancel(a: multiset<Tid>, b: multiset<Tid>, c: multiset<Tid>)
    requires a + c == b + c
    ensures a == b
  {
    forall t ensures a[t] == b[t] {
      assert (a + c)[t] == (b + c)[t];
    }
  }

  lemma OwnIndex(qs: seq<seq<Tid>>, home: map<Tid, nat>, me: nat)
    requires HomeOk(qs, home, [], me)
    ensures me < |qs|
  {
  }

  // ------------------------------------------------------------------
  // The processor fields

  /** Queued threads name their processor, the threads in transit still name `me`, and nobody is twice anywhere. */
  ghost predicate HomeOk(qs: seq<seq<Tid>>, home: map<Tid, nat>, v: seq<Tid>, me: nat) {
    && me < |qs| && Placed(qs, home) && NoDup(v)
    && (forall c :: 0 <= c < |qs| ==> NoDup(qs[c]))
    && (forall t :: t in v ==> t in home && home[t] == me && t !in qs[me])
  }

  lemma {:induction false} NoDupMultiset(s: seq<Tid>, t: Tid)
    requires NoDup(s)
    ensures multiset(s)[t] <= 1
  {
    if s != [] {
      var n := |s| - 1;
      assert s == s[..n] + [s[n]];
      NoDupMultiset(s[..n], t);
      if s[n] == t {
        assert t !in s[..n];
      }
    }
  }

  lemma MultisetNoDup(s: seq<Tid>)
    requires forall t :: multiset(s)[t] <= 1
    ensures NoDup(s)
  {
    forall i, j | 0 <= i < j < |s| ensures s[i] != s[j] {
      assert s == s[..j] + s[j..];
      assert s[i] in s[..j] && s[j] in s[j..];
      assert multiset(s)[s[i]] == multiset(s[..j])[s[i]] + multiset(s[j..])[s[i]];
    }
  }

  /** Splitting a list without repetitions gives two such lists with nothing in common. */
  lemma SplitNoDup(v: seq<Tid>, m: seq<Tid>, v': seq<Tid>)
    requires NoDup(v) && multiset(v) == multiset(m) + multiset(v')
    ensures NoDup(m) && NoDup(v') && forall t :: t in m ==> t in v && t !in v'
    ensures forall t :: t in v' ==> t in v
  {
    forall t
      ensures multiset(m)[t] <= 1 && multiset(v')[t] <= 1 && (t in m ==> t in v && t !in v') && (t in v' ==> t in v)
    {
      NoDupMultiset(v, t);
      assert t in v <==> t in multiset(v);
      assert t in m <==> t in multiset(m);
      assert t in v' <==> t in multiset(v');
    }
    MultisetNoDup(m);
    MultisetNoDup(v');
  }

  lemma HomeAfter(qs: seq<seq<Tid>>, home: map<Tid, nat>, v: seq<Tid>, me: nat, i: nat, m: seq<Tid>, v': seq<Tid>)
    requires HomeOk(qs, home, v, me) && i < |qs| && i != me && multiset(v) == multiset(m) + multiset(v')
    ensures HomeOk(qs[i := qs[i] + m], Rehomed(home, m, i), v', me)
  {
    SplitNoDup(v, m, v');
    var qs', home' := qs[i := qs[i] + m], Rehomed(home, m, i);
    forall c, k | 0 <= c < |qs'| && 0 <= k < |qs'[c]| ensures qs'[c][k] in home' && home'[qs'[c][k]] == c {
      if k < |qs[c]| {
        assert home[qs[c][k]] == c;
        assert c == me ==> qs[c][k] !in m;
      } else {
        assert qs'[c][k] == m[k - |qs[c]|];
      }
    }
    forall c | 0 <= c < |qs'| ensures NoDup(qs'[c]) {
      if c == i {
        assert forall k :: 0 <= k < |qs[i]| ==> home[qs[i][k]] == i;
        assert forall k :: 0 <= k < |m| ==> m[k] in v && home[m[k]] == me;
      }
    }
  }

  lemma HomeBack(qs: seq<seq<Tid>>, home: map<Tid, nat>, v: seq<Tid>, me: nat)
    requires HomeOk(qs, home, v, me)
    ensures HomeOk(qs[me := qs[me] + v], home, [], me)
  {
    var q := qs[me] + v;
    assert forall k :: 0 <= k < |v| ==> v[k] in v;
    assert forall k :: 0 <= k < |qs[me]| ==> qs[me][k] in qs[me];
  }

  lemma HomeTaken(qs: seq<seq<Tid>>, home: map<Tid, nat>, me: nat, k: nat)
    requires HomeOk(qs, home, [], me) && k <= |qs[me]|
    ensures HomeOk(qs[me := qs[me][..k]], home, qs[me][k..], me)
  {
    forall t | t in qs[me][k..] ensures t in home && home[t] == me && t !in qs[me][..k] {
      var j :| k <= j < |qs[me]| && qs[me][j] == t;
    }
  }

  // ------------------------------------------------------------------
  // The other processors at work

  /** A thread is put at the end of a run queue, or leaves the run queue of another processor. */
  datatype Event = Arrive(cpu: nat, t: Tid) | Depart(cpu: nat, pos: nat)

  /**
    What other processors can do between two locked sections: a thread that is queued nowhere
    becomes ready, and a thread leaves a queue other than `me`, which only its own processor
    takes threads from. The running thread is put on no queue but its own.
   */
  predicate Legal(qs: seq<seq<Tid>>, v: seq<Tid>, me: nat, cur: Tid, e: Event) {
    match e
    case Arrive(c, t) =>
      c < |qs| && t !in v && (forall d :: 0 <= d < |qs| ==> t !in qs[d]) && (t == cur ==> c == me)
    case Depart(c, i) => c < |qs| && c != me && i < |qs[c]|
  }

  function Without(q: seq<Tid>, i: nat): seq<Tid>
    requires i < |q|
  {
    q[..i] + q[i + 1..]
  }

  /** What may happen between two locked sections, by the number of the section that follows. */
  type Plan = seq<seq<Event>>

  function Gap(plan: Plan, k: nat): seq<Event> {
    if k < |plan| then plan[k] else []
  }

  /** Nothing happens in between. */
  ghost predicate Quiet(plan: Plan) {
    forall k :: Gap(plan, k) == []
  }

  /** Nobody is lost or made up: queued threads, threads in transit and those that left are all there were and came. */
  ghost predicate Ledger(p0: multiset<Tid>, qs: seq<seq<Tid>>, v: seq<Tid>, came: multiset<Tid>, went: multiset<Tid>) {
    Pool(qs) + multiset(v) + went == p0 + came
  }

  /** The own queue only grows at its end, and the running thread turns up on no other queue. */
  ghost predicate Grown(qs0: seq<seq<Tid>>, qs: seq<seq<Tid>>, me: nat, cur: Tid) {
    && me < |qs0| == |qs| && qs0[me] <= qs[me]
    && forall c :: 0 <= c < |qs| && c != me && cur in qs[c] ==> cur in qs0[c]
  }

  lemma ArriveKeeps(qs: seq<seq<Tid>>, home: map<Tid, nat>, v: seq<Tid>, me: nat, cur: Tid, c: nat, t: Tid)
    requires HomeOk(qs, home, v, me) && Legal(qs, v, me, cur, Arrive(c, t))
    ensures var qs' := qs[c := qs[c] + [t]]; HomeOk(qs', home[t := c], v, me) && Grown(qs, qs', me, cur)
  {
    var qs', home' := qs[c := qs[c] + [t]], home[t := c];
    forall d, k | 0 <= d < |qs'| && 0 <= k < |qs'[d]| ensures qs'[d][k] in home' && home'[qs'[d][k]] == d {
      if k < |qs[d]| {
        assert qs[d][k] in qs[d] && qs[d][k] != t;
      }
    }
    forall d | 0 <= d < |qs'| ensures NoDup(qs'[d]) {
      assert t !in qs[d] && NoDup(qs[d]);
    }
  }

  lemma DepartKeeps(qs: seq<seq<Tid>>, home: map<Tid, nat>, v: seq<Tid>, me: nat, cur: Tid, c: nat, i: nat)
    requires HomeOk(qs, home, v, me) && Legal(qs, v, me, cur, Depart(c, i))
    ensures var qs' := qs[c := Without(qs[c], i)]; HomeOk(qs', home, v, me) && Grown(qs, qs', me, cur)
  {
    var q := Without(qs[c], i);
    assert forall k :: 0 <= k < |q| ==> q[k] == qs[c][if k < i then k else k + 1];
    assert NoDup(qs[c]);
  }

  lemma ArriveLedger(p0: multiset<Tid>, qs: seq<seq<Tid>>, v: seq<Tid>, came: multiset<Tid>, went: multiset<Tid>,
                     c: nat, t: Tid)
    requires Ledger(p0, qs, v, came, went) && c < |qs|
    ensures Ledger(p0, qs[c := qs[c] + [t]], v, came + multiset{t}, went)
  {
    var p' := Pool(qs[c := qs[c] + [t]]);
    PoolUpdate(qs, c, qs[c] + [t]);
    assert p' + multiset(qs[c]) == Pool(qs) + multiset{t} + multiset(qs[c]);
    Cancel(p', Pool(qs) + multiset{t}, multiset(qs[c]));
    assert p' + multiset(v) + went == Pool(qs) + multiset(v) + went + multiset{t};
  }

  lemma DepartLedger(p0: multiset<Tid>, qs: seq<seq<Tid>>, v: seq<Tid>, came: multiset<Tid>, went: multiset<Tid>,
                     c: nat, i: nat)
    requires Ledger(p0, qs, v, came, went) && c < |qs| && i < |qs[c]|
    ensures Ledger(p0, qs[c := Without(qs[c], i)], v, came, went + multiset{qs[c][i]})
  {
    var q, t := Without(qs[c], i), qs[c][i];
    assert qs[c] == qs[c][..i] + [t] + qs[c][i + 1..];
    assert multiset(qs[c]) == multiset(q) + multiset{t};
    PoolUpdate(qs, c, q);
    Cancel(Pool(qs[c := q]) + multiset{t}, Pool(qs), multiset(q));
  }

  lemma GrownTrans(a: seq<seq<Tid>>, b: seq<seq<Tid>>, c: seq<seq<Tid>>, me: nat, cur: Tid)
    requires Grown(a, b, me, cur) && Grown(b, c, me, cur)
    ensures Grown(a, c, me, cur)
  {
  }

  lemma GrownSelf(qs: seq<seq<Tid>>, me: nat, cur: Tid)
    requires me < |qs|
    ensures Grown(qs, qs, me, cur)
  {
  }

  // ------------------------------------------------------------------
  // The threads sent away

  /** Thread `t` was put on the queue of processor `to` when that held `len` threads. */
  datatype Sent = Sent(t: Tid, to: nat, len: nat)

  ghost function Threads(log: seq<Sent>): (r: seq<Tid>)
    ensures |r| == |log| && forall k :: 0 <= k < |log| ==> r[k] == log[k].t
  {
    seq(|log|, k requires 0 <= k < |log| => log[k].t)
  }

  ghost predicate SendsOk(log: seq<Sent>, share: nat, me: nat, n: nat) {
    forall k :: 0 <= k < |log| ==> log[k].to < n && log[k].to != me && log[k].len < share
  }

  /** The section that filled queue `c` from `len` threads sent `moved`. */
  ghost function Log(c: nat, len: nat, moved: seq<Tid>): (r: seq<Sent>)
    ensures Threads(r) == moved
  {
    var r := seq(|moved|, k requires 0 <= k < |moved| => Sent(moved[k], c, len + k));
    assert Threads(r) == moved;
    r
  }

  /** What holds between two sections of the dealing loop, whatever the other processors do. */
  ghost predicate Dealing(p0: multiset<Tid>, qs0: seq<seq<Tid>>, qs: seq<seq<Tid>>, home: map<Tid, nat>,
                          v0: seq<Tid>, v: seq<Tid>, toSend: nat, log: seq<Sent>, share: nat, me: nat, cur: Tid,
                          came: multiset<Tid>, went: multiset<Tid>)
  {
    && HomeOk(qs, home, v, me) && Ledger(p0, qs, v, came, went) && Grown(qs0, qs, me, cur)
    && Dealt(v0, v, Threads(log), toSend, cur) && SendsOk(log, share, me, |qs|)
  }

  lemma FillDealing(p0: multiset<Tid>, qs0: seq<seq<Tid>>, qs: seq<seq<Tid>>, home: map<Tid, nat>,
                    v0: seq<Tid>, v: seq<Tid>, toSend: nat, log: seq<Sent>, share: nat, me: nat, cur: Tid,
                    came: multiset<Tid>, went: multiset<Tid>, c: nat, m: seq<Tid>, v': seq<Tid>, toSend': nat)
    requires Dealing(p0, qs0, qs, home, v0, v, toSend, log, share, me, cur, came, went)
    requires c < |qs| && c != me && (m == [] || |qs[c]| + |m| <= share) && Dealt(v, v', m, toSend', cur)
    ensures Dealing(p0, qs0, qs[c := qs[c] + m], Rehomed(home, m, c), v0, v', toSend',
                    log + Log(c, |qs[c]|, m), share, me, cur, came, went)
  {
    hide HomeOk, Dealt, Rehomed;
    var log' := log + Log(c, |qs[c]|, m);
    assert Threads(log') == Threads(log) + m;
    DealtTwice(v0, v, v', Threads(log), m, toSend, toSend', cur);
    DealtKeeps(v, v', m, toSend', cur);
    HomeAfter(qs, home, v, me, c, m, v');
    FillLedger(p0, qs, v, came, went, c, m, v');
    assert cur !in m by { MovedNotCur(v, v', m, toSend', cur); }
    FillSends(log, c, |qs[c]|, m, share, me, |qs|);
  }

  lemma FillSends(log: seq<Sent>, c: nat, len: nat, m: seq<Tid>, share: nat, me: nat, n: nat)
    requires SendsOk(log, share, me, n) && c < n && c != me && (m == [] || len + |m| <= share)
    ensures SendsOk(log + Log(c, len, m), share, me, n)
  {
  }

  lemma MovedNotCur(v0: seq<Tid>, v: seq<Tid>, m: seq<Tid>, toSend: nat, cur: Tid)
    requires Dealt(v0, v, m, toSend, cur)
    ensures cur !in m
  {
    SkipNever(v0, cur);
    assert forall k :: 0 <= k < |m| ==> (m + Skip(v, cur))[k] == m[k];
  }

  lemma FillLedger(p0: multiset<Tid>, qs: seq<seq<Tid>>, v: seq<Tid>, came: multiset<Tid>, went: multiset<Tid>,
                   c: nat, m: seq<Tid>, v': seq<Tid>)
    requires Ledger(p0, qs, v, came, went) && c < |qs| && multiset(v) == multiset(m) + multiset(v')
    ensures Ledger(p0, qs[c := qs[c] + m], v', came, went)
  {
    PoolUpdate(qs, c, qs[c] + m);
    Cancel(Pool(qs[c := qs[c] + m]), Pool(qs) + multiset(m), multiset(qs[c]));
  }

  lemma TransitIndex(qs: seq<seq<Tid>>, home: map<Tid, nat>, v: seq<Tid>, me: nat)
    requires HomeOk(qs, home, v, me)
    ensures me < |qs|
  {
  }

  lemma DealingStart(p0: multiset<Tid>, qs: seq<seq<Tid>>, home: map<Tid, nat>, v: seq<Tid>, share: nat, me: nat,
                     cur: Tid, came: multiset<Tid>, went: multiset<Tid>)
    requires HomeOk(qs, home, v, me) && Ledger(p0, qs, v, came, went)
    ensures Dealing(p0, qs, qs, home, v, v, |v|, [], share, me, cur, came, went)
  {
    DealtNone(v, cur);
    assert Threads([]) == [];
  }

  lemma DealingParts(p0: multiset<Tid>, qs0: seq<seq<Tid>>, qs: seq<seq<Tid>>, home: map<Tid, nat>,
                     v0: seq<Tid>, v: seq<Tid>, toSend: nat, log: seq<Sent>, share: nat, me: nat, cur: Tid,
                     came: multiset<Tid>, went: multiset<Tid>)
    requires Dealing(p0, qs0, qs, home, v0, v, toSend, log, share, me, cur, came, went)
    ensures HomeOk(qs, home, v, me) && Ledger(p0, qs, v, came, went) && Ready(v, toSend, cur)
    ensures Dealt(v0, v, Threads(log), toSend, cur) && SendsOk(log, share, me, |qs|)
    ensures me < |qs| == |qs0| && Grown(qs0, qs, me, cur)
  {
  }

  lemma DealingAgain(p0: multiset<Tid>, qs0: seq<seq<Tid>>, qs: seq<seq<Tid>>, qs': seq<seq<Tid>>, home: map<Tid, nat>,
                     v0: seq<Tid>, v: seq<Tid>, toSend: nat, log: seq<Sent>, share: nat, me: nat, cur: Tid,
                     came: multiset<Tid>, went: multiset<Tid>)
    requires Dealt(v0, v, Threads(log), toSend, cur) && SendsOk(log, share, me, |qs|)
    requires Grown(qs0, qs, me, cur) && Grown(qs, qs', me, cur)
    requires HomeOk(qs', home, v, me) && Ledger(p0, qs', v, came, went)
    ensures Dealing(p0, qs0, qs', home, v0, v, toSend, log, share, me, cur, came, went) && |qs'| == |qs|
  {
    GrownTrans(qs0, qs, qs', me, cur);
  }

  lemma LedgerStart(qs: seq<seq<Tid>>)
    ensures Ledger(Pool(qs), qs, [], multiset{}, multiset{})
  {
  }

  lemma GrownLength(a: seq<seq<Tid>>, b: seq<seq<Tid>>, me: nat, cur: Tid)
    requires Grown(a, b, me, cur)
    ensures me < |a| == |b| && a[me] <= b[me]
  {
  }

  lemma DealtSkipped(v0: seq<Tid>, v: seq<Tid>, m: seq<Tid>, toSend: nat, cur: Tid)
    requires Dealt(v0, v, m, toSend, cur)
    ensures Skip(v0, cur) == m + Skip(v, cur)
  {
  }

  lemma TakenLedger(p0: multiset<Tid>, qs: seq<seq<Tid>>, came: multiset<Tid>, went: multiset<Tid>, me: nat, k: nat)
    requires me < |qs| && k <= |qs[me]| && Ledger(p0, qs, [], came, went)
    ensures Ledger(p0, qs[me := qs[me][..k]], qs[me][k..], came, went)
  {
    assert qs[me] == qs[me][..k] + qs[me][k..];
    PoolUpdate(qs, me, qs[me][..k]);
    Cancel(Pool(qs[me := qs[me][..k]]) + multiset(qs[me][k..]), Pool(qs), multiset(qs[me][..k]));
  }

  /**
    What a call has done to the queues `qs`, whatever the other processors did meanwhile.
    Of the own queue, with what had come by then, it took `taken` and left `kept`, at least
    a share; it sent what `log` records and put `back` the rest behind what came late.
   */
  ghost predicate Outcome(qs: seq<seq<Tid>>, qs': seq<seq<Tid>>, share: nat, kept: seq<Tid>, taken: seq<Tid>,
                          log: seq<Sent>, back: seq<Tid>, me: nat, cur: Tid, came: multiset<Tid>, went: multiset<Tid>)
  {
    && me < |qs| == |qs'| && Pool(qs') + went == Pool(qs) + came
    && qs[me] <= kept + taken && (taken != [] ==> share <= |kept|)
    && SendsOk(log, share, me, |qs|) && Skip(taken, cur) == Threads(log) + Skip(back, cur)
    && (exists late :: qs'[me] == kept + late + back)
    && (forall c :: 0 <= c < |qs| && c != me && cur in qs'[c] ==> cur in qs[c])
  }

  lemma OutcomeLength(qs: seq<seq<Tid>>, qs': seq<seq<Tid>>, share: nat, kept: seq<Tid>, taken: seq<Tid>,
                      log: seq<Sent>, back: seq<Tid>, me: nat, cur: Tid, came: multiset<Tid>, went: multiset<Tid>)
    requires Outcome(qs, qs', share, kept, taken, log, back, me, cur, came, went)
    ensures |qs| == |qs'|
  {
  }

  lemma NothingDone(qs: seq<seq<Tid>>, qs': seq<seq<Tid>>, share: nat, me: nat, cur: Tid,
                    came: multiset<Tid>, went: multiset<Tid>)
    requires Grown(qs, qs', me, cur) && Ledger(Pool(qs), qs', [], came, went)
    ensures Outcome(qs, qs', share, qs'[me], [], [], [], me, cur, came, went)
  {
    assert Threads([]) == [];
    assert qs'[me] == qs'[me] + [] + [];
  }

  /** What is left goes back: the ledger closes, and the own queue is what was kept, what came late and the rest. */
  lemma Ended(qs: seq<seq<Tid>>, before: seq<seq<Tid>>, qs1: seq<seq<Tid>>, share: nat, kept: seq<Tid>,
              taken: seq<Tid>, log: seq<Sent>, back: seq<Tid>, me: nat, cur: Tid,
              came: multiset<Tid>, went: multiset<Tid>)
    requires Grown(qs, before, me, cur) && before[me] == kept + taken && share <= |kept|
    requires Grown(before[me := kept], qs1, me, cur) && Ledger(Pool(qs), qs1, back, came, went)
    requires SendsOk(log, share, me, |qs1|) && Skip(taken, cur) == Threads(log) + Skip(back, cur)
    ensures Outcome(qs, qs1[me := qs1[me] + back], share, kept, taken, log, back, me, cur, came, went)
  {
    hide Skip, SendsOk, Threads;
    var end, late := qs1[me := qs1[me] + back], qs1[me][|kept|..];
    assert end[me] == kept + late + back;
    BackLedger(Pool(qs), qs1, back, came, went, me);
    hide Pool;
  }

  lemma BackLedger(p0: multiset<Tid>, qs: seq<seq<Tid>>, v: seq<Tid>, came: multiset<Tid>, went: multiset<Tid>, me: nat)
    requires me < |qs| && Ledger(p0, qs, v, came, went)
    ensures Pool(qs[me := qs[me] + v]) + went == p0 + came
  {
    PoolUpdate(qs, me, qs[me] + v);
    Cancel(Pool(qs[me := qs[me] + v]), Pool(qs) + multiset(v), multiset(qs[me]));
  }

  /** Queue `i` as it stood at look `i`, other processors having been at work since the start. */
  ghost predicate Looks(qs: seq<seq<Tid>>, looks: seq<seq<seq<Tid>>>, me: nat, cur: Tid) {
    forall i :: 0 <= i < |looks| ==> i < |looks[i]| && Grown(qs, looks[i], me, cur)
  }

  /** The sum of what the looks saw, one queue each. */
  ghost function Tally(looks: seq<seq<seq<Tid>>>): nat
    requires forall i :: 0 <= i < |looks| ==> i < |looks[i]|
  {
    if looks == [] then 0 else
      var n := |looks| - 1;
      Tally(looks[..n]) + |looks[n][n]|
  }

  /** One look at each queue gave these counts. */
  ghost predicate Counts(qs: seq<seq<Tid>>, looks: seq<seq<seq<Tid>>>, mine: nat, total: nat, me: nat, cur: Tid) {
    && |looks| == |qs| && me < |qs| && Looks(qs, looks, me, cur)
    && mine == |looks[me][me]| && total == Tally(looks)
  }

  lemma NoLooks(qs: seq<seq<Tid>>)
    ensures Tally([]) == 0 && Total(qs[..0]) == 0
  {
  }

  lemma OneMoreLook(qs: seq<seq<Tid>>, looks: seq<seq<seq<Tid>>>, now: seq<seq<Tid>>, me: nat, cur: Tid)
    requires Looks(qs, looks, me, cur) && Grown(qs, now, me, cur) && |looks| < |now|
    ensures Looks(qs, looks + [now], me, cur) && Tally(looks + [now]) == Tally(looks) + |now[|looks|]|
  {
    assert (looks + [now])[..|looks|] == looks;
  }

  lemma OneMoreQueue(qs: seq<seq<Tid>>, i: nat)
    requires i < |qs|
    ensures Total(qs[..i + 1]) == Total(qs[..i]) + |qs[i]|
  {
    assert qs[..i + 1][..i] == qs[..i];
  }

  class Machine {
    var queues: seq<seq<Tid>>
    var home: map<Tid, nat>
    const me: nat
    const cur: Tid
    /** The threads that became ready, and those that left a queue, while the method ran. */
    ghost var came: multiset<Tid>
    ghost var went: multiset<Tid>

    ghost predicate Valid()
      reads this
    {
      HomeOk(queues, home, [], me)
    }

    /** The other processors run; an event that cannot happen does not. */
    method Interfere(events: seq<Event>, victims: seq<Tid>, ghost p0: multiset<Tid>)
      requires HomeOk(queues, home, victims, me) && Ledger(p0, queues, victims, came, went)
      modifies this
      ensures HomeOk(queues, home, victims, me) && Ledger(p0, queues, victims, came, went)
      ensures Grown(old(queues), queues, me, cur)
      ensures events == [] ==> queues == old(queues) && home == old(home)
    {
      hide HomeOk, Ledger, Grown;
      assert me < |queues| by { TransitIndex(queues, home, victims, me); }
      GrownSelf(queues, me, cur);
      for k := 0 to |events|
        invariant HomeOk(queues, home, victims, me) && Ledger(p0, queues, victims, came, went)
        invariant Grown(old(queues), queues, me, cur)
        invariant events == [] ==> queues == old(queues) && home == old(home)
      {
        if Legal(queues, victims, me, cur, events[k]) {
          ghost var qs := queues;
          match events[k] {
            case Arrive(c, t) =>
              ArriveKeeps(queues, home, victims, me, cur, c, t);
              ArriveLedger(p0, queues, victims, came, went, c, t);
              queues, home, came := queues[c := queues[c] + [t]], home[t := c], came + multiset{t};
            case Depart(c, i) =>
              DepartKeeps(queues, home, victims, me, cur, c, i);
              DepartLedger(p0, queues, victims, came, went, c, i);
              went := went + multiset{queues[c][i]};
              queues := queues[c := Without(queues[c], i)];
          }
          GrownTrans(old(queues), qs, queues, me, cur);
        }
      }
    }

    /**
      The counting loop. `looks` are the queues as they stood when each count was taken; the own
      queue is at least as long as it was when counted.
     */
    method Count(plan: Plan, ghost p0: multiset<Tid>)
      returns (mine: nat, total: nat, ghost looks: seq<seq<seq<Tid>>>)
      requires Valid() && Ledger(p0, queues, [], came, went)
      modifies this
      ensures Valid() && Ledger(p0, queues, [], came, went) && Grown(old(queues), queues, me, cur)
      ensures mine <= |queues[me]| && Counts(old(queues), looks, mine, total, me, cur)
      ensures Quiet(plan) ==> queues == old(queues) && mine == |queues[me]| && total == Total(queues)
    {
      hide HomeOk, Ledger, Pool, Grown, Tally, Total;
      assert me < |queues| by { TransitIndex(queues, home, [], me); }
      mine, total, looks := 0, 0, [];
      GrownSelf(queues, me, cur);
      NoLooks(queues);
      for i := 0 to |queues|
        invariant HomeOk(queues, home, [], me) && Ledger(p0, queues, [], came, went)
        invariant Grown(old(queues), queues, me, cur)
        invariant me < |queues| == |old(queues)| && mine <= |queues[me]|
        invariant |looks| == i && Looks(old(queues), looks, me, cur) && total == Tally(looks)
        invariant me < i ==> mine == |looks[me][me]|
        invariant Quiet(plan) ==>
          queues == old(queues) && total == Total(queues[..i]) && (me < i ==> mine == |queues[me]|)
      {
        ghost var qs := queues;
        Interfere(Gap(plan, i), [], p0);
        GrownLength(qs, queues, me, cur);
        GrownTrans(old(queues), qs, queues, me, cur);
        OneMoreLook(old(queues), looks, queues, me, cur);
        OneMoreQueue(queues, i);
        total := total + |queues[i]|;
        if i == me {
          mine := |queues[i]|;
        }
        looks := looks + [queues];
      }
      assert queues[..|queues|] == queues;
    }

    /** The loop that takes `toSend` threads off the end of the own queue, keeping their order. */
    method TakeVictims(toSend: nat) returns (victims: seq<Tid>)
      requires me < |queues| && toSend <= |queues[me]|
      modifies `queues
      ensures queues == old(queues)[me := old(queues)[me][..|old(queues)[me]| - toSend]]
      ensures victims == old(queues)[me][|old(queues)[me]| - toSend..]
    {
      ghost var q := queues[me];
      assert q[..|q|] == q && queues[me := q] == queues;
      victims := [];
      for i := 0 to toSend
        invariant queues == old(queues)[me := q[..|q| - i]] && victims == q[|q| - i..]
      {
        var n := |queues[me]|;
        var t := queues[me][n - 1];
        queues := queues[me := queues[me][..n - 1]];
        victims := [t] + victims;
        assert q[..n][..n - 1] == q[..n - 1] && [q[n - 1]] + q[n..] == q[n - 1..];
      }
    }

    /** Filling one other processor's queue: the section under its run queue lock. */
    method Fill(c: nat, share: nat, victims0: seq<Tid>, toSend0: nat) returns (victims: seq<Tid>, toSend: nat)
      requires c < |queues| && c != me && Ready(victims0, toSend0, cur)
      modifies `queues, `home
      ensures |queues| == |old(queues)| && queues == old(queues)[c := queues[c]] && old(queues)[c] <= queues[c]
      ensures queues[c] == old(queues)[c] || |queues[c]| <= share
      ensures toSend == 0 || share <= |queues[c]|
      ensures var moved := queues[c][|old(queues)[c]|..];
        Dealt(victims0, victims, moved, toSend, cur) && home == Rehomed(old(home), moved, c)
    {
      hide Dealt, Ready, Rehomed;
      victims, toSend := victims0, toSend0;
      ghost var q, moved: seq<Tid> := queues[c], [];
      FillStarts(queues, home, c, victims0, toSend0, cur);
      while |queues[c]| < share && toSend > 0
        invariant |queues| == |old(queues)| && queues == old(queues)[c := q + moved]
        invariant moved == [] || |queues[c]| <= share
        invariant Dealt(victims0, victims, moved, toSend, cur) && home == Rehomed(old(home), moved, c)
        decreases toSend
      {
        DealtSome(victims0, victims, moved, toSend, cur);
        var t := victims[0];
        if t == cur {
          DealtSkip(victims0, victims, moved, toSend, cur);
          victims := victims[1..] + [t];
        } else {
          DealtMove(victims0, victims, moved, toSend, cur);
          RehomedOne(old(home), moved, t, c);
          victims := victims[1..];
          home := home[t := c];
          queues := queues[c := queues[c] + [t]];
          assert q + moved + [t] == q + (moved + [t]);
          moved := moved + [t];
        }
        toSend := toSend - 1;
      }
      assert (q + moved)[|q|..] == moved;
    }

    /**
      The whole dealing loop; it stops when nothing is left to send. Other processors may
      run before each section. Without them the queues are filled in order.
     */
    method Deal(plan: Plan, share: nat, victims0: seq<Tid>, ghost p0: multiset<Tid>)
      returns (victims: seq<Tid>, ghost toSend: nat, ghost log: seq<Sent>)
      requires HomeOk(queues, home, victims0, me) && Ledger(p0, queues, victims0, came, went)
      modifies this
      ensures Dealing(p0, old(queues), queues, home, victims0, victims, toSend, log, share, me, cur, came, went)
      ensures Quiet(plan) ==> Spread(old(queues), queues, victims0, victims, toSend, share, me, cur, |queues|)
    {
      hide HomeOk, Ledger, Grown, Spread, Dealt, Dealing, Ready, Rehomed;
      victims := victims0;
      log := [];
      var left: nat, i := |victims0|, 0;
      SpreadStart(queues, home, victims0, share, me, cur);
      DealingStart(p0, queues, home, victims0, share, me, cur, came, went);
      while i < |queues| && left > 0
        invariant i <= |queues| == |old(queues)|
        invariant Dealing(p0, old(queues), queues, home, victims0, victims, left, log, share, me, cur, came, went)
        invariant Quiet(plan) ==> Spread(old(queues), queues, victims0, victims, left, share, me, cur, i)
        decreases |old(queues)| - i
      {
        if i == me {
          if Quiet(plan) {
            SpreadSkip(old(queues), queues, victims0, victims, left, share, me, cur);
          }
        } else {
          ghost var was := queues;
          DealingParts(p0, old(queues), queues, home, victims0, victims, left, log, share, me, cur, came, went);
          Interfere(Gap(plan, |queues| + 1 + i), victims, p0);
          DealingAgain(p0, old(queues), was, queues, home, victims0, victims, left, log, share, me, cur, came, went);
          ghost var qs, h, v, n := queues, home, victims, left;
          victims, left := Fill(i, share, victims, left);
          ghost var m := queues[i][|qs[i]|..];
          assert queues[i] == qs[i] + m;
          FillDealing(p0, old(queues), qs, h, victims0, v, n, log, share, me, cur, came, went, i, m, victims, left);
          log := log + Log(i, |qs[i]|, m);
          if Quiet(plan) {
            SpreadOn(old(queues), qs, victims0, v, n, share, me, cur, i, queues[i], victims, left);
          }
        }
        i := i + 1;
      }
      toSend := left;
      if left == 0 && Quiet(plan) {
        SpreadRest(old(queues), queues, victims0, victims, share, me, cur, i);
      }
    }

    /** Everything after the counting, when the processor has at least its share. */
    method Migrate(plan: Plan, mine: nat, share: nat, ghost qs: seq<seq<Tid>>)
      returns (ghost kept: seq<Tid>, ghost taken: seq<Tid>, ghost log: seq<Sent>, ghost back: seq<Tid>)
      requires Valid() && Grown(qs, queues, me, cur) && Ledger(Pool(qs), queues, [], came, went)
      requires share <= mine <= |queues[me]|
      modifies this
      ensures Valid() && Outcome(qs, queues, share, kept, taken, log, back, me, cur, came, went)
      ensures |taken| == mine - share
      ensures Quiet(plan) && qs == old(queues) && mine == |qs[me]| && share == RoundUp(Total(qs), |qs|) ==>
        Balanced(qs, queues, me, cur)
    {
      hide HomeOk, Spread, Dealt, Ready, Balanced, Ledger, Grown, Dealing, Outcome, SendsOk, Threads, Skip, RoundUp;
      ghost var counted, p0 := queues, Pool(qs);
      GrownLength(qs, queues, me, cur);
      Interfere(Gap(plan, |queues|), [], p0);
      GrownLength(counted, queues, me, cur);
      GrownTrans(qs, counted, queues, me, cur);
      ghost var before, k := queues, |queues[me]| - (mine - share);
      kept, taken := queues[me][..k], queues[me][k..];
      HomeTaken(queues, home, me, k);
      TakenLedger(p0, queues, came, went, me, k);
      var victims := TakeVictims(mine - share);
      ghost var qs0 := queues;
      ghost var toSend: nat;
      victims, toSend, log := Deal(plan, share, victims, p0);
      ghost var qs1 := queues;
      DealingParts(p0, qs0, queues, home, taken, victims, toSend, log, share, me, cur, came, went);
      DealtSkipped(taken, victims, Threads(log), toSend, cur);
      if Quiet(plan) && qs == old(queues) && mine == |qs[me]| && share == RoundUp(Total(qs), |qs|) {
        Settled(qs, qs0, qs1, taken, victims, toSend, share, me, cur);
      }
      Interfere(Gap(plan, 2 * |queues| + 1), victims, p0);
      back := victims;
      GrownLength(qs1, queues, me, cur);
      GrownTrans(qs0, qs1, queues, me, cur);
      Ended(qs, before, queues, share, kept, taken, log, back, me, cur, came, went);
      HomeBack(queues, home, victims, me);
      GiveBack(victims);
    }

    /** thread_consider_migration, with anything the other processors may do between its sections. */
    method ConsiderMigration(plan: Plan)
      returns (ghost share: nat, ghost kept: seq<Tid>, ghost taken: seq<Tid>, ghost log: seq<Sent>,
               ghost back: seq<Tid>, ghost mine: nat, ghost total: nat, ghost looks: seq<seq<seq<Tid>>>)
      requires Valid()
      modifies this
      ensures Valid() && Outcome(old(queues), queues, share, kept, taken, log, back, me, cur, came, went)
      ensures Counts(old(queues), looks, mine, total, me, cur) && total <= |queues| * share < total + |queues|
      ensures |taken| == if mine < share then 0 else mine - share
      ensures Quiet(plan) ==> total == Total(old(queues)) && mine == |old(queues)[me]|
      ensures Quiet(plan) ==> Balanced(old(queues), queues, me, cur) && Own(old(queues), queues, me, cur, share)
    {
      hide HomeOk, Spread, Dealt, Ready, Balanced, Ledger, Grown, Dealing, Outcome, Counts, RoundUp, Own;
      ghost var qs := queues;
      came, went := multiset{}, multiset{};
      LedgerStart(queues);
      OwnIndex(queues, home, me);
      var myCount, totalCount;
      myCount, totalCount, looks := Count(plan, Pool(qs));
      mine, total := myCount, totalCount;
      GrownLength(qs, queues, me, cur);
      var oneShare := RoundUp(totalCount, |queues|);
      share := oneShare;
      ShareCovers(totalCount, |queues|);
      if myCount < oneShare {
        kept, taken, log, back := queues[me], [], [], [];
        NothingDone(qs, queues, share, me, cur, came, went);
        assert |taken| == 0;
        if Quiet(plan) {
          BalancedStill(qs, me, cur);
          BalancedOwn(qs, queues, me, cur, share);
        }
        return;
      }
      kept, taken, log, back := Migrate(plan, myCount, oneShare, qs);
      OutcomeLength(qs, queues, share, kept, taken, log, back, me, cur, came, went);
      if Quiet(plan) {
        BalancedOwn(qs, queues, me, cur, share);
      }
    }

    /** Leftovers go back to the end of the own queue. */
    method GiveBack(victims0: seq<Tid>)
      requires me < |queues|
      modifies `queues
      ensures queues == old(queues)[me := old(queues)[me] + victims0]
    {
      var victims := victims0;
      ghost var j := 0;
      assert queues[me] + victims0[..0] == queues[me] && queues[me := queues[me]] == queues;
      while victims != []
        invariant j <= |victims0| && victims == victims0[j..]
        invariant queues == old(queues)[me := old(queues)[me] + victims0[..j]]
        decreases |victims0| - j
      {
        var t := victims[0];
        victims := victims[1..];
        assert old(queues)[me] + victims0[..j] + [t] == old(queues)[me] + victims0[..j + 1];
        queues := queues[me := queues[me] + [t]];
        j := j + 1;
      }
      assert victims0[..j] == victims0;
    }
  }

  /** The processor fields after `moved` went to processor `c`. */
  ghost function Rehomed(home: map<Tid, nat>, moved: seq<Tid>, c: nat): map<Tid, nat> {
    map t | t in home.Keys + (set x | x in moved) :: if t in moved then c else home[t]
  }

  lemma RehomedOne(home: map<Tid, nat>, moved: seq<Tid>, t: Tid, c: nat)
    ensures Rehomed(home, moved + [t], c) == Rehomed(home, moved, c)[t := c]
  {
  }
}
