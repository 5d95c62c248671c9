/** The Fisher-Yates shuffle of models/Tournament.js, with its random choices as an argument:
    choices[i - 1] is the j drawn from 0..i when the loop stands at i. */
module Shuffle {

  ghost predicate Choices(c: seq<nat>) {
    forall i :: 0 <= i < |c| ==> c[i] <= i + 1
  }

  /** One choice for each turn of the loop over n elements. */
  ghost predicate FullChoices(c: seq<nat>, n: nat) {
    Choices(c) && |c| == if n == 0 then 0 else n - 1
  }

  function Swap<T>(s: seq<T>, i: nat, j: nat): (r: seq<T>)
    requires i < |s| && j < |s|
    ensures |r| == |s|
  {
    s[i := s[j]][j := s[i]]
  }

  /** The sequence after the loop has run from position |c| down to 1. */
  function Shuffled<T>(s: seq<T>, c: seq<nat>): (r: seq<T>)
    requires Choices(c) && (c == [] || |c| < |s|)
    ensures |r| == |s|
    decreases |c|
  {
    if c == [] then s
    else Shuffled(Swap(s, |c|, c[|c| - 1]), c[..|c| - 1])
  }

  lemma SwapPermutes<T>(s: seq<T>, i: nat, j: nat)
    requires i < |s| && j < |s|
    ensures multiset(Swap(s, i, j)) == multiset(s)
  {
  }

  /** Nothing is lost or duplicated. */
  lemma {:induction false} ShufflePermutes<T>(s: seq<T>, c: seq<nat>)
    requires Choices(c) && (c == [] || |c| < |s|)
    ensures multiset(Shuffled(s, c)) == multiset(s)
    decreases |c|
  {
    if c != [] {
      SwapPermutes(s, |c|, c[|c| - 1]);
      ShufflePermutes(Swap(s, |c|, c[|c| - 1]), c[..|c| - 1]);
    }
  }

  /** Positions above the loop variable are final. */
  lemma {:induction false} TailFixed<T>(s: seq<T>, c: seq<nat>, k: nat)
    requires Choices(c) && (c == [] || |c| < |s|) && |c| < k < |s|
    ensures Shuffled(s, c)[k] == s[k]
    decreases |c|
  {
    if c != [] {
      TailFixed(Swap(s, |c|, c[|c| - 1]), c[..|c| - 1], k);
    }
  }

  ghost predicate Distinct<T>(s: seq<T>) {
    forall i, j :: 0 <= i < j < |s| ==> s[i] != s[j]
  }

  /** The first swap decides who ends up last. */
  lemma FirstChoice<T>(s: seq<T>, c: seq<nat>)
    requires Choices(c) && c != [] && |c| < |s|
    ensures Shuffled(s, c)[|c|] == s[c[|c| - 1]]
  {
    TailFixed(Swap(s, |c|, c[|c| - 1]), c[..|c| - 1], |c|);
  }

  lemma SwapDistinct<T>(s: seq<T>, i: nat, j: nat)
    requires Distinct(s) && i < |s| && j < |s|
    ensures Distinct(Swap(s, i, j))
  {
  }

  /** Different choices give different orders. */
  lemma {:induction false} ShuffleInjective<T>(s: seq<T>, c: seq<nat>, d: seq<nat>)
    requires Distinct(s) && Choices(c) && Choices(d) && |c| == |d| && (c == [] || |c| < |s|)
    requires Shuffled(s, c) == Shuffled(s, d)
    ensures c == d
    decreases |c|
  {
    if c != [] {
      var i := |c|;
      FirstChoice(s, c);
      FirstChoice(s, d);
      hide Swap;
      assert c[i - 1] == d[i - 1];
      SwapDistinct(s, i, c[i - 1]);
      ShuffleInjective(Swap(s, i, c[i - 1]), c[..i - 1], d[..i - 1]);
      assert c == c[..i - 1] + [c[i - 1]] && d == d[..i - 1] + [d[i - 1]];
    }
  }

  lemma SplitLast<T>(a: seq<T>)
    requires a != []
    ensures multiset(a) == multiset(a[..|a| - 1]) + multiset{a[|a| - 1]}
  {
    assert a == a[..|a| - 1] + [a[|a| - 1]];
  }

  lemma CancelOne<T>(a: multiset<T>, b: multiset<T>, x: T)
    requires a + multiset{x} == b + multiset{x}
    ensures a == b
  {
    assert a == (a + multiset{x}) - multiset{x};
    assert b == (b + multiset{x}) - multiset{x};
  }

  lemma LastOut<T>(a: seq<T>, b: seq<T>)
    requires |a| == |b| > 0 && multiset(a) == multiset(b) && a[|a| - 1] == b[|b| - 1]
    ensures multiset(a[..|a| - 1]) == multiset(b[..|b| - 1])
  {
    SplitLast(a);
    SplitLast(b);
    CancelOne(multiset(a[..|a| - 1]), multiset(b[..|b| - 1]), a[|a| - 1]);
  }

  lemma FindIn<T>(a: seq<T>, b: seq<T>, k: nat) returns (j: nat)
    requires multiset(a) == multiset(b) && k < |b|
    ensures j < |a| && a[j] == b[k]
  {
    assert b[k] in multiset(a);
    j :| 0 <= j < |a| && a[j] == b[k];
  }

  /** Every order is produced by some choices. */
  lemma {:induction false} ShuffleSurjective<T>(s: seq<T>, t: seq<T>, i: nat) returns (c: seq<nat>)
    requires |s| == |t| && i < |s| && multiset(s[..i + 1]) == multiset(t[..i + 1])
    requires forall k :: i < k < |s| ==> s[k] == t[k]
    ensures |c| == i && Choices(c) && Shuffled(s, c) == t
    decreases i
  {
    var head, goal := s[..i + 1], t[..i + 1];
    var j := FindIn(head, goal, i);
    if i == 0 {
      c := [];
      assert s == t;
    } else {
      var s' := Swap(s, i, j);
      SwapPrefix(s, t, i, j);
      var rest := ShuffleSurjective(s', t, i - 1);
      c := rest + [j];
      assert c[..|c| - 1] == rest;
    }
  }

  lemma SwapPrefix<T>(s: seq<T>, t: seq<T>, i: nat, j: nat)
    requires |s| == |t| && i < |s| && j <= i && s[j] == t[i] && multiset(s[..i + 1]) == multiset(t[..i + 1])
    ensures multiset(Swap(s, i, j)[..i]) == multiset(t[..i])
  {
    var s' := Swap(s, i, j);
    SwapPermutes(s[..i + 1], i, j);
    assert s'[..i + 1] == Swap(s[..i + 1], i, j);
    LastOut(s'[..i + 1], t[..i + 1]);
    assert s'[..i + 1][..i] == s'[..i] && t[..i + 1][..i] == t[..i];
  }

  /** The choices are in one-to-one correspondence with the orders of distinct players, so
      uniform choices give uniform brackets. */
  lemma ShuffleBijection<T>(s: seq<T>, t: seq<T>)
    requires Distinct(s) && s != [] && multiset(s) == multiset(t)
    ensures exists c ::
              && |c| == |s| - 1 && Choices(c) && Shuffled(s, c) == t
              && (forall d :: |d| == |c| && Choices(d) && Shuffled(s, d) == t ==> d == c)
  {
    assert |s| == |multiset(s)| == |multiset(t)| == |t|;
    assert s[..|s|] == s && t[..|t|] == t;
    var c := ShuffleSurjective(s, t, |s| - 1);
    forall d | |d| == |c| && Choices(d) && Shuffled(s, d) == t ensures d == c {
      ShuffleInjective(s, c, d);
    }
  }

  /** shuffle: swap in place, from the last position down. */
  method ShuffleInPlace<T>(a: array<T>, c: seq<nat>)
    requires FullChoices(c, a.Length)
    modifies a
    ensures a[..] == Shuffled(old(a[..]), c)
    ensures multiset(a[..]) == multiset(old(a[..]))
  {
    var i := |c|;
    assert c[..i] == c;
    while i > 0
      invariant 0 <= i <= |c|
      invariant Shuffled(a[..], c[..i]) == Shuffled(old(a[..]), c)
    {
      var j := c[i - 1];
      ghost var before := a[..];
      a[i], a[j] := a[j], a[i];
      assert a[..] == Swap(before, i, j);
      assert c[..i][..i - 1] == c[..i - 1];
      i := i - 1;
    }
    assert c[..0] == [];
    ShufflePermutes(old(a[..]), c);
  }
}
