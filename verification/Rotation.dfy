/** The rotation produced by "avoid every node used so far; once all have been
    used, forget all but the latest" (src/controller.rs), over a fixed set of
    eligible nodes. */
module Rotation {
  import opened Base

  /** The stretch of `|e|` placements from `s` on visits every node of `e` exactly once. */
  ghost predicate Round<T>(p: seq<T>, s: nat, e: set<T>) {
    s + |e| <= |p| && Distinct(p[s..s + |e|]) && ToSet(p[s..s + |e|]) <= e
  }

  /** Round `k` starts at `k * (n - 1)`: consecutive rounds share one placement,
      the one whose node the reset keeps. */
  function RoundStart(k: nat, n: nat): nat
    requires n > 0
  {
    if k == 0 then 0 else RoundStart(k - 1, n) + (n - 1)
  }

  ghost predicate AllRounds<T>(p: seq<T>, e: set<T>)
    requires e != {}
  {
    forall k: nat | RoundStart(k, |e|) + |e| <= |p| :: Round(p, RoundStart(k, |e|), e)
  }

  /** Any `2n - 2` consecutive placements visit every node. */
  ghost predicate AllWindows<T>(p: seq<T>, e: set<T>) {
    forall a: nat, x | a + WindowLength(|e|) <= |p| && x in e :: Within(p, a, WindowLength(|e|), x)
  }

  function WindowLength(n: nat): int {
    2 * n - 2
  }

  ghost predicate Within<T>(p: seq<T>, a: nat, len: int, x: T) {
    exists i :: a <= i < a + len && i < |p| && p[i] == x
  }

  /** `h` is the part of `q` since the current round `k` started; the round
      before it, if any, ended with the first entry of `h`. */
  ghost predicate InRound<T>(q: seq<T>, h: seq<T>, e: set<T>, k: nat) {
    && |e| >= 2
    && 0 < |h| <= |q| && h == q[|q| - |h|..] && Distinct(h) && ToSet(h) <= e
    && |q| - |h| == RoundStart(k, |e|)
    && (|h| < |q| ==> |q| - |h| >= |e| - 1 && Round(q, |q| - |h| - (|e| - 1), e))
  }

  /** `p` is the run of placements so far and `h` the history the next pick avoids. */
  ghost predicate Rotates<T(!new)>(p: seq<T>, h: seq<T>, e: set<T>) {
    forall q: seq<T> {:trigger Shown(q)} | Shown(q) && q == p :: InRotation(q, h, e)
  }

  ghost predicate InRotation<T(!new)>(p: seq<T>, h: seq<T>, e: set<T>) {
    && |e| >= 2 && ToSet(p) <= e
    && (if p == [] then h == [] else exists k: nat :: InRound(p, h, e, k))
    && AllRounds(p, e)
    && AllWindows(p, e)
  }

  /** While no more placements than nodes have been made, all of them differ. */
  lemma FirstRound<T(!new)>(p: seq<T>, h: seq<T>, e: set<T>)
    requires InRotation(p, h, e) && |p| <= |e|
    ensures Distinct(p)
  {
    if p == [] {
    } else {
      var k: nat :| InRound(p, h, e, k);
      if k == 0 {
        assert h == p;
      } else {
        RoundStartGap(0, k, |e|);
        assert |h| == 1 && |p| == |e|;
        assert p[0..|e|] == p;
      }
    }
  }

  /** The placements of round `k` up to now are `h`, and no two are the same. */
  ghost predicate RoundSoFar<T(!new)>(p: seq<T>, h: seq<T>, e: set<T>, k: nat)
    requires e != {}
  {
    && 0 < |h| <= |e| && RoundStart(k, |e|) + |h| == |p|
    && h == p[RoundStart(k, |e|)..] && Distinct(h) && forall x | x in h :: x in e
  }

  lemma CurrentRound<T(!new)>(p: seq<T>, h: seq<T>, e: set<T>)
    requires InRotation(p, h, e)
    ensures forall x | x in p :: x in e
    ensures if p == [] then h == [] else exists k: nat :: RoundSoFar(p, h, e, k)
  {
    assert forall x | x in p :: x in ToSet(p);
    if p == [] {
    } else {
      var k: nat :| InRound(p, h, e, k);
      DistinctCovers(h, e);
      assert forall x | x in h :: x in ToSet(h);
      assert RoundSoFar(p, h, e, k);
    }
  }

  lemma RotatesMeans<T(!new)>(p: seq<T>, h: seq<T>, e: set<T>)
    ensures Rotates(p, h, e) <==> InRotation(p, h, e)
  {
    assert Shown(p);
  }

  lemma {:induction false} RoundStartGap(j: nat, k: nat, n: nat)
    requires n > 0 && j < k
    ensures RoundStart(j, n) + (n - 1) <= RoundStart(k, n)
  {
    if j + 1 == k {
    } else {
      RoundStartGap(j, k - 1, n);
    }
  }

  lemma RoundVisits<T>(p: seq<T>, s: nat, e: set<T>, x: T)
    requires Round(p, s, e) && x in e
    ensures exists i :: s <= i < s + |e| && p[i] == x
  {
    var r := p[s..s + |e|];
    DistinctCovers(r, e);
    assert x in r;
    var i :| 0 <= i < |r| && r[i] == x;
    assert p[s + i] == x;
  }

  lemma RoundPrefix<T>(p: seq<T>, s: nat, e: set<T>, n: T)
    requires s + |e| <= |p|
    ensures Round(p + [n], s, e) <==> Round(p, s, e)
  {
    assert (p + [n])[s..s + |e|] == p[s..s + |e|];
  }

  lemma Start<T(!new)>(e: set<T>)
    requires |e| >= 2
    ensures Rotates([], [], e)
  {
    RotatesMeans([], [], e);
  }

  lemma FullRound<T>(q: seq<T>, h: seq<T>, e: set<T>)
    requires |h| == |e| <= |q| && h == q[|q| - |h|..] && Distinct(h) && ToSet(h) <= e
    ensures Round(q, |q| - |h|, e)
  {
    assert q[|q| - |h|..|q| - |h| + |e|] == h;
  }

  /** Where the latest complete round starts, if there is one. */
  function LatestStart(q: nat, h: nat, m: nat): int {
    if h == m then q - h else q - h - (m - 1)
  }

  lemma LatestRound<T>(q: seq<T>, h: seq<T>, e: set<T>, k: nat)
    requires InRound(q, h, e, k)
    ensures |h| <= |e|
    ensures |h| == |e| || |h| < |q| ==> LatestStart(|q|, |h|, |e|) >= 0 && Round(q, LatestStart(|q|, |h|, |e|), e)
  {
    DistinctCovers(h, e);
    if |h| == |e| { FullRound(q, h, e); }
  }

  /** A round that ends with the placement just made. */
  lemma LastRound<T>(q: seq<T>, h: seq<T>, e: set<T>, k: nat, j: nat)
    requires InRound(q, h, e, k) && RoundStart(j, |e|) + |e| == |q|
    ensures Round(q, RoundStart(j, |e|), e)
  {
    var s := LatestStart(|q|, |h|, |e|);
    LatestRound(q, h, e, k);
    if |h| < |e| {
      if j > k { RoundStartGap(k, j, |e|); }
      if j < k { RoundStartGap(j, k, |e|); }
      assert |h| == 1 && s == RoundStart(j, |e|);
    }
  }

  lemma AppendRounds<T>(p: seq<T>, h: seq<T>, e: set<T>, n: T, k: nat)
    requires InRound(p + [n], h, e, k) && AllRounds(p, e)
    ensures AllRounds(p + [n], e)
  {
    var q := p + [n];
    forall j: nat | RoundStart(j, |e|) + |e| <= |q| ensures Round(q, RoundStart(j, |e|), e) {
      if RoundStart(j, |e|) + |e| <= |p| { RoundPrefix(p, RoundStart(j, |e|), e, n); }
      else { LastRound(q, h, e, k, j); }
    }
  }

  /** A window that ends with the placement just made. */
  lemma LastWindow<T>(q: seq<T>, h: seq<T>, e: set<T>, k: nat, x: T)
    requires InRound(q, h, e, k) && WindowLength(|e|) <= |q| && x in e
    ensures Within(q, |q| - WindowLength(|e|), WindowLength(|e|), x)
  {
    LatestRound(q, h, e, k);
    RoundVisits(q, LatestStart(|q|, |h|, |e|), e, x);
  }

  lemma AppendWindow<T>(p: seq<T>, h: seq<T>, e: set<T>, n: T, k: nat, a: nat, x: T)
    requires InRound(p + [n], h, e, k) && AllWindows(p, e)
    requires a + WindowLength(|e|) <= |p| + 1 && x in e
    ensures Within(p + [n], a, WindowLength(|e|), x)
  {
    if a + WindowLength(|e|) <= |p| {
      assert Within(p, a, WindowLength(|e|), x);
      WithinPrefix(p, a, WindowLength(|e|), x, n);
    } else {
      LastWindow(p + [n], h, e, k, x);
    }
  }

  lemma WithinPrefix<T>(p: seq<T>, a: nat, len: int, x: T, n: T)
    requires Within(p, a, len, x)
    ensures Within(p + [n], a, len, x)
  {
    var i :| a <= i < a + len && i < |p| && p[i] == x;
    assert (p + [n])[i] == x;
  }

  lemma Append<T(!new)>(p: seq<T>, h: seq<T>, e: set<T>, n: T, k: nat)
    requires InRound(p + [n], h, e, k) && AllRounds(p, e) && AllWindows(p, e) && ToSet(p) <= e && n in e
    ensures Rotates(p + [n], h, e)
  {
    assert ToSet(p + [n]) == ToSet(p) + {n};
    AppendRounds(p, h, e, n, k);
    forall a: nat, x | a + WindowLength(|e|) <= |p| + 1 && x in e
      ensures Within(p + [n], a, WindowLength(|e|), x)
    {
      AppendWindow(p, h, e, n, k, a, x);
    }
    RotatesMeans(p + [n], h, e);
  }

  lemma FullHistory<T>(h: seq<T>, e: set<T>)
    requires Distinct(h) && ToSet(h) <= e && forall x | x in e :: x in h
    ensures |h| == |e|
  {
    assert ToSet(h) == e;
    DistinctSize(h);
  }

  lemma ExtendRound<T>(p: seq<T>, h: seq<T>, e: set<T>, n: T, k: nat)
    requires InRound(p, h, e, k) && n in e && n !in h
    ensures InRound(p + [n], h + [n], e, k)
  {
    var s := |p| - |h|;
    if |h| < |p| { RoundPrefix(p, s - (|e| - 1), e, n); }
    assert (p + [n])[s..] == h + [n];
  }

  lemma NewRound<T>(p: seq<T>, h: seq<T>, e: set<T>, n: T, k: nat)
    requires InRound(p, h, e, k) && n in e && n != Last(h) && |h| == |e|
    ensures InRound(p + [n], [Last(h), n], e, k + 1)
  {
    var s, q, h' := |p| - |h|, p + [n], [Last(h), n];
    assert Round(q, s, e) by {
      assert p[s..s + |e|] == h;
      RoundPrefix(p, s, e, n);
    }
    assert q[|q| - |h'|..] == h' by { assert Last(h) == Last(p); }
    assert ToSet(h') <= e by { assert Last(h) in ToSet(h); }
    assert |q| - |h'| - (|e| - 1) == s;
  }

  /** Placing a node that has not been used since the last reset. */
  lemma Extend<T(!new)>(p: seq<T>, h: seq<T>, e: set<T>, n: T)
    requires Rotates(p, h, e) && n in e && n !in h
    ensures Rotates(p + [n], h + [n], e)
  {
    RotatesMeans(p, h, e);
    if p == [] {
      assert InRound([n], [n], e, 0);
      assert p + [n] == h + [n] == [n];
      Append(p, h + [n], e, n, 0);
    } else {
      var k: nat :| InRound(p, h, e, k);
      ExtendRound(p, h, e, n, k);
      Append(p, h + [n], e, n, k);
    }
  }

  /** Placing after a reset: every eligible node was in the history. */
  lemma ExtendAfterReset<T(!new)>(p: seq<T>, h: seq<T>, e: set<T>, n: T)
    requires Rotates(p, h, e) && n in e && h != [] && n != Last(h)
    requires forall x | x in e :: x in h
    ensures Rotates(p + [n], [Last(h), n], e)
  {
    RotatesMeans(p, h, e);
    var k: nat :| InRound(p, h, e, k);
    FullHistory(h, e);
    NewRound(p, h, e, n, k);
    Append(p, [Last(h), n], e, n, k + 1);
  }
}
