/** utils/elo.js: the rating arithmetic of one settled game.

    Ratings are integers (users.elo_rating); the expected-score curve is any function
    strictly between 0 and 1, which is all the arithmetic relies on. */
module Elo {

  const K: real := 32.0

  datatype Curve = Curve(expected: (int, int) -> real) {
    ghost predicate Valid() {
      forall a, b :: 0.0 < expected(a, b) < 1.0
    }
  }

  /** JavaScript's Math.round: halves go up. */
  function Round(x: real): int {
    (x + 0.5).Floor
  }

  function NewRatings(curve: Curve, ratingA: int, ratingB: int, scoreA: real): (int, int) {
    var expA := curve.expected(ratingA, ratingB);
    var expB := 1.0 - expA;
    var scoreB := 1.0 - scoreA;
    (Round(ratingA as real + K * (scoreA - expA)), Round(ratingB as real + K * (scoreB - expB)))
  }

  /** The real-valued rating change of the first player, before rounding. */
  function Gain(curve: Curve, ratingA: int, ratingB: int, scoreA: real): real {
    K * (scoreA - curve.expected(ratingA, ratingB))
  }

  /** The unrounded change lies exactly half way between two integers. */
  predicate ExactHalf(curve: Curve, ratingA: int, ratingB: int, scoreA: real) {
    var gain := Gain(curve, ratingA, ratingB, scoreA);
    Round(gain) as real - gain == 0.5
  }

  lemma RoundShift(n: int, x: real)
    ensures Round(n as real + x) == n + Round(x)
  {
    var f := Round(x);
    assert f as real <= x + 0.5 < f as real + 1.0;
    assert (n + f) as real == n as real + f as real;
  }

  /** Rounding a change and its opposite loses nothing except on an exact half. */
  lemma RoundOpposite(x: real)
    ensures Round(x) + Round(-x) == if Round(x) as real - x == 0.5 then 1 else 0
  {
    var f := Round(x);
    assert f as real <= x + 0.5 < f as real + 1.0;
    if f as real - x == 0.5 {
      assert -x + 0.5 == (1 - f) as real;
    } else {
      assert (-f) as real <= -x + 0.5 < (-f) as real + 1.0;
    }
  }

  /** One game moves the pair's total by nothing, or by one point exactly when the
      unrounded change is a half; no rating moves by more than K. */
  lemma PairTotal(curve: Curve, a: int, b: int, scoreA: real)
    requires curve.Valid() && 0.0 <= scoreA <= 1.0
    ensures var (newA, newB) := NewRatings(curve, a, b, scoreA);
            && newA + newB == a + b + (if ExactHalf(curve, a, b, scoreA) then 1 else 0)
            && -32 <= newA - a <= 32
            && -32 <= newB - b <= 32
  {
    var gain := Gain(curve, a, b, scoreA);
    assert -32.0 < gain < 32.0;
    RoundShift(a, gain);
    RoundShift(b, -gain);
    assert K * ((1.0 - scoreA) - (1.0 - curve.expected(a, b))) == -gain;
    RoundOpposite(gain);
  }

  /** The integer nearest to x, the greater one of two. */
  predicate Nearest(d: int, x: real) {
    x - 0.5 < d as real <= x + 0.5
  }

  /** Each rating changes by the integer nearest to 32 times score minus expected score. */
  lemma NearestGains(curve: Curve, a: int, b: int, scoreA: real)
    ensures var (newA, newB) := NewRatings(curve, a, b, scoreA);
            && Nearest(newA - a, 32.0 * (scoreA - curve.expected(a, b)))
            && Nearest(newB - b, 32.0 * (curve.expected(a, b) - scoreA))
  {
    var gain := Gain(curve, a, b, scoreA);
    RoundShift(a, gain);
    RoundShift(b, -gain);
    assert K * ((1.0 - scoreA) - (1.0 - curve.expected(a, b))) == -gain;
  }

  /** A winner never loses points, a loser never gains any, and a draw moves at most half of K. */
  lemma OutcomeDirection(curve: Curve, a: int, b: int)
    requires curve.Valid()
    ensures NewRatings(curve, a, b, 1.0).0 >= a && NewRatings(curve, a, b, 1.0).1 <= b
    ensures NewRatings(curve, a, b, 0.0).0 <= a && NewRatings(curve, a, b, 0.0).1 >= b
    ensures -16 <= NewRatings(curve, a, b, 0.5).0 - a <= 16
    ensures -16 <= NewRatings(curve, a, b, 0.5).1 - b <= 16
  {
    var e := curve.expected(a, b);
    assert 0.0 < e < 1.0;
    forall s: real | s == 1.0 || s == 0.0 || s == 0.5
      ensures NewRatings(curve, a, b, s) == (a + Round(K * (s - e)), b + Round(-(K * (s - e))))
    {
      RoundShift(a, K * (s - e));
      assert K * ((1.0 - s) - (1.0 - e)) == -(K * (s - e));
      RoundShift(b, -(K * (s - e)));
    }
  }
}
