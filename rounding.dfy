/**
 * PHP's `round()` on exact real numbers (halves away from zero), and the
 * mean that both normalisers store: `round(array_sum($xs) / count($xs), 1)`,
 * or null for an empty list.
 */
module Rounding {
  import opened Wrappers

  /** `round($x)`: the nearest whole number; a tie goes away from zero. */
  function RoundHalfAway(x: real): (n: int)
    ensures x - 0.5 <= n as real <= x + 0.5
    ensures n as real - x == 0.5 ==> x >= 0.0
    ensures x - n as real == 0.5 ==> x < 0.0
  {
    if x >= 0.0 then (x + 0.5).Floor else -((0.5 - x).Floor)
  }

  /** `round($x, 1)`: the nearest multiple of 0.1, ties away from zero. */
  function Round1(x: real): (r: real)
    ensures x - 0.05 <= r <= x + 0.05
  {
    RoundHalfAway(x * 10.0) as real / 10.0
  }

  lemma {:induction false} RoundHalfAwayMonotone(x: real, y: real)
    requires x <= y
    ensures RoundHalfAway(x) <= RoundHalfAway(y)
  {
    if 0.0 <= x {
      assert (x + 0.5).Floor <= (y + 0.5).Floor;
    } else if y < 0.0 {
      assert (0.5 - y).Floor <= (0.5 - x).Floor;
    }
  }

  /** Rounding never reverses the order of two values. */
  lemma {:induction false} Round1Monotone(x: real, y: real)
    requires x <= y
    ensures Round1(x) <= Round1(y)
  {
    RoundHalfAwayMonotone(x * 10.0, y * 10.0);
  }

  /** A whole number rounds to itself. */
  lemma {:induction false} RoundHalfAwayWhole(n: int)
    ensures RoundHalfAway(n as real) == n
  {
  }

  /** Rounding a value already rounded to one decimal changes nothing. */
  lemma {:induction false} Round1Idempotent(x: real)
    ensures Round1(Round1(x)) == Round1(x)
  {
    var n := RoundHalfAway(x * 10.0);
    assert Round1(x) * 10.0 == n as real;
    RoundHalfAwayWhole(n);
  }

  /** `array_sum`. */
  function Sum(xs: seq<real>): real {
    if xs == [] then 0.0 else Sum(xs[..|xs| - 1]) + xs[|xs| - 1]
  }

  /** The stored mean of a field: null exactly for an empty list, never 0 instead. */
  function Mean(xs: seq<real>): (r: Option<real>)
    ensures r.None? <==> xs == []
  {
    if xs == [] then None else Some(Round1(Sum(xs) / (|xs| as real)))
  }

  lemma {:induction false} SumBounds(xs: seq<real>, lo: real, hi: real)
    requires forall i | 0 <= i < |xs| :: lo <= xs[i] <= hi
    ensures (|xs| as real) * lo <= Sum(xs) <= (|xs| as real) * hi
  {
    if xs != [] {
      SumBounds(xs[..|xs| - 1], lo, hi);
    }
  }

  /** The mean of values within [lo, hi] lies within [round(lo, 1), round(hi, 1)]. */
  lemma {:induction false} MeanBounds(xs: seq<real>, lo: real, hi: real)
    requires xs != []
    requires forall i | 0 <= i < |xs| :: lo <= xs[i] <= hi
    ensures Round1(lo) <= Mean(xs).value <= Round1(hi)
  {
    SumBounds(xs, lo, hi);
    var n := |xs| as real;
    var avg := Sum(xs) / n;
    assert lo <= avg <= hi by {
      assert avg * n == Sum(xs);
    }
    Round1Monotone(lo, avg);
    Round1Monotone(avg, hi);
  }

  lemma {:induction false} Round1Tenth()
    ensures Round1(0.1) == 0.1
  {
    assert RoundHalfAway(1.0) == 1;
  }

  /** The largest element of a non-empty list. */
  function Max(xs: seq<real>): (m: real)
    requires xs != []
    ensures m in xs && forall i | 0 <= i < |xs| :: xs[i] <= m
  {
    if |xs| == 1 then xs[0]
    else
      var m := Max(xs[1..]);
      assert forall i | 1 <= i < |xs| :: xs[i] == xs[1..][i - 1];
      if xs[0] >= m then xs[0] else m
  }

  /** The mean of values at least lo is at least round(lo, 1). */
  lemma {:induction false} MeanAtLeast(xs: seq<real>, lo: real)
    requires xs != []
    requires forall i | 0 <= i < |xs| :: lo <= xs[i]
    ensures Round1(lo) <= Mean(xs).value
  {
    MeanBounds(xs, lo, Max(xs));
  }

  /** Worked examples: [20, 22, 24] gives 22 and [0.3, 0.7] gives 0.5. */
  lemma {:induction false} MeanExamples()
    ensures Mean([20.0, 22.0, 24.0]) == Some(22.0)
    ensures Mean([0.3, 0.7]) == Some(0.5)
  {
    assert Sum([20.0, 22.0, 24.0]) == 66.0 by {
      assert [20.0, 22.0, 24.0][..2] == [20.0, 22.0];
      assert [20.0, 22.0][..1] == [20.0];
      assert [20.0][..0] == [];
    }
    assert Sum([0.3, 0.7]) == 1.0 by {
      assert [0.3, 0.7][..1] == [0.3];
      assert [0.3][..0] == [];
    }
    assert RoundHalfAway(220.0) == 220;
    assert RoundHalfAway(5.0) == 5;
  }
}
