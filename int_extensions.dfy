/** `Int.roundUpToNearestHundred()`, the arithmetic kernel of the round-up feature. */
module IntExtensions {
  import opened Numerics

  /**
   * `((self + 99) / 100) * 100` with Swift's trapping `+` and truncating `/`.
   * The addition traps above `Int.max - 99`, so that is excluded; the
   * division and multiplication then stay in range.
   */
  function RoundUpToNearestHundred(x: Int64): (r: Int64)
    requires x as int <= IntMax - 99
    ensures r as int % 100 == 0 && x as int <= r as int
    ensures x as int >= -99 ==> r as int <= x as int + 99
    ensures x as int < -99 ==> x as int + 99 <= r as int <= x as int + 198
  {
    var q := TruncDiv(x as int + 99, 100);
    assert IntMin <= q * 100 <= IntMax;
    (q * 100) as Int64
  }

  /** On non-negatives the result is the least multiple of 100 that is at least `x`. */
  lemma RoundUpIsCeiling(x: Int64)
    requires 0 <= x as int <= IntMax - 99
    ensures var r := RoundUpToNearestHundred(x) as int;
            && r % 100 == 0
            && x as int <= r <= x as int + 99
            && forall m: int :: m % 100 == 0 && m >= x as int ==> r <= m
  {
    var r := RoundUpToNearestHundred(x) as int;
    var q := TruncDiv(x as int + 99, 100);
    assert r == q * 100;
    forall m: int | m % 100 == 0 && m >= x as int
      ensures r <= m
    {
      var k := m / 100;
      assert m == k * 100;
      assert k * 100 + 99 >= x as int + 99;
    }
  }

  /** Amounts already on a multiple of 100, zero included, are left unchanged. */
  lemma RoundUpFixesMultiples(x: Int64)
    requires 0 <= x as int <= IntMax - 99 && x as int % 100 == 0
    ensures RoundUpToNearestHundred(x) == x
  {
    RoundUpIsCeiling(x);
  }

  /**
   * Rounding twice changes nothing. Above `Int.max - 107` the first result is
   * `Int.max - 7`, whose own `+ 99` would trap, so the bound is tighter here.
   */
  lemma RoundUpIdempotent(x: Int64)
    requires 0 <= x as int <= IntMax - 107
    ensures RoundUpToNearestHundred(x) as int <= IntMax - 99
    ensures RoundUpToNearestHundred(RoundUpToNearestHundred(x)) == RoundUpToNearestHundred(x)
  {
    RoundUpIsCeiling(x);
    var r := RoundUpToNearestHundred(x);
    RoundUpFixesMultiples(r);
  }

  /**
   * Truncating division rounds a negative `x + 99` toward zero, so below -99
   * the result is the ceiling only when `x` is 1 more than a multiple of 100:
   * -199 becomes its ceiling -100, but -100 becomes 0 and -250 becomes -100.
   */
  lemma RoundUpOnNegatives()
    ensures RoundUpToNearestHundred(-100) == 0
    ensures RoundUpToNearestHundred(-250) == -100
    ensures RoundUpToNearestHundred(-199) == -100
    ensures RoundUpToNearestHundred(-99) == 0
  {
  }

  /** Every amount of `xs` can be rounded without trapping. */
  predicate Roundable(xs: seq<Int64>) {
    forall i | 0 <= i < |xs| :: 0 <= xs[i] as int <= IntMax - 99
  }

  /** `xs.map { $0.roundUpToNearestHundred() }`: each amount rounded, position by position. */
  function RoundAll(xs: seq<Int64>): (r: seq<Int64>)
    requires forall i | 0 <= i < |xs| :: xs[i] as int <= IntMax - 99
    ensures |r| == |xs|
    ensures forall i | 0 <= i < |xs| :: r[i] == RoundUpToNearestHundred(xs[i])
    decreases |xs|
  {
    if xs == [] then [] else RoundAll(xs[..|xs| - 1]) + [RoundUpToNearestHundred(xs[|xs| - 1])]
  }

  /** `xs.reduce(0, +)`, taken over unbounded integers: non-negative amounts have a non-negative total. */
  function Total(xs: seq<Int64>): (r: int)
    ensures (forall i | 0 <= i < |xs| :: xs[i] >= 0) ==> r >= 0
    decreases |xs|
  {
    if xs == [] then 0 else Total(xs[..|xs| - 1]) + xs[|xs| - 1] as int
  }

  /** The total of two lists one after the other is the sum of their totals. */
  lemma {:induction false} TotalConcat(xs: seq<Int64>, ys: seq<Int64>)
    ensures Total(xs + ys) == Total(xs) + Total(ys)
    decreases |ys|
  {
    if ys == [] {
      assert xs + ys == xs;
    } else {
      var init := ys[..|ys| - 1];
      assert (xs + ys)[..|xs + ys| - 1] == xs + init;
      TotalConcat(xs, init);
    }
  }

  /**
   * The round-up transfer of a list of non-negative amounts: rounding each
   * one adds between 0 and 99, so the difference of the totals lies in
   * [0, 99 * |xs|], and it is 0 exactly when every amount is a multiple of 100.
   */
  lemma {:induction false} RoundUpDifferenceBounds(xs: seq<Int64>)
    requires Roundable(xs)
    ensures 0 <= Total(RoundAll(xs)) - Total(xs) <= 99 * |xs|
    ensures Total(RoundAll(xs)) == Total(xs) <==> forall i | 0 <= i < |xs| :: xs[i] as int % 100 == 0
    decreases |xs|
  {
    if xs != [] {
      var init := xs[..|xs| - 1];
      var last := xs[|xs| - 1];
      assert Roundable(init);
      RoundUpDifferenceBounds(init);
      RoundUpIsCeiling(last);
      var rounded := RoundAll(xs);
      assert rounded[..|rounded| - 1] == RoundAll(init);
      assert Total(rounded) - Total(xs)
          == (Total(RoundAll(init)) - Total(init)) + (RoundUpToNearestHundred(last) as int - last as int);
      if last as int % 100 == 0 {
        RoundUpFixesMultiples(last);
      }
      if forall i | 0 <= i < |xs| :: xs[i] as int % 100 == 0 {
        assert forall i | 0 <= i < |init| :: init[i] as int % 100 == 0 by {
          forall i | 0 <= i < |init| ensures init[i] as int % 100 == 0 {
            assert init[i] == xs[i];
          }
        }
      }
    }
  }

  /** The values of the unit test: 435, 520 and 87 round to 500, 600 and 100, a round-up of 158. */
  lemma RoundUpExample()
    ensures RoundAll([435, 520, 87]) == [500, 600, 100]
    ensures Total(RoundAll([435, 520, 87])) - Total([435, 520, 87]) == 158
  {
    var xs: seq<Int64> := [435, 520, 87];
    assert xs[..2] == [435, 520] && xs[..2][..1] == [435] && xs[..2][..1][..0] == [];
    assert RoundAll(xs) == [500, 600, 100];
  }

  /**
   * Between `Int.max - 106` and `Int.max - 99` one rounding is defined but
   * lands on `Int.max - 7`, where a second one traps; so the bound of
   * `RoundUpIdempotent` cannot be raised.
   */
  lemma RoundUpTwiceTrapsNearMax(x: Int64)
    requires IntMax - 106 <= x as int <= IntMax - 99
    ensures RoundUpToNearestHundred(x) as int == IntMax - 7
    ensures RoundUpToNearestHundred(x) as int > IntMax - 99
  {
  }
}
