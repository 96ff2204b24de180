/** What the percentiles of a cohort measure: standard scores, which do not depend on where the metric has its zero. */
module ZScores {
  import opened Arithmetic
  import opened Domain
  import opened Sorting
  import opened Rounding
  import opened CrossSection

  // ---------- standard scores ----------

  function Scored(w: seq<real>, mean: real, sd: real): seq<real>
    requires sd != 0.0
  {
    seq(|w|, i requires 0 <= i < |w| => (w[i] - mean) / sd)
  }

  lemma {:induction false} ScoresTotal(w: seq<real>, mean: real, sd: real)
    requires sd > 0.0
    ensures Amount(Total(Scored(w, mean, sd)), sd) == Total(w) - Amount(|w| as real, mean)
  {
    if w != [] {
      var n := |w| - 1;
      ScoresTotal(w[..n], mean, sd);
      assert Scored(w, mean, sd)[..n] == Scored(w[..n], mean, sd);
      AddScore(Total(Scored(w[..n], mean, sd)), w[n] - mean, sd);
      AddMean(n, mean);
    }
  }

  lemma AddScore(total: real, gap: real, sd: real)
    requires sd > 0.0
    ensures Amount(total + gap / sd, sd) == Amount(total, sd) + gap
  {
    DivMul(gap, sd);
  }

  lemma AddMean(n: nat, mean: real)
    ensures Amount((n + 1) as real, mean) == Amount(n as real, mean) + mean
  {}

  /** The sum of the squares of a list. */
  function Squares(z: seq<real>): real {
    if z == [] then 0.0 else Squares(z[..|z| - 1]) + Square(z[|z| - 1])
  }

  lemma {:induction false} ScoresSquares(w: seq<real>, mean: real, sd: real)
    requires sd > 0.0
    ensures Amount(Squares(Scored(w, mean, sd)), Square(sd)) == SquaredErrors(w, mean)
  {
    if w != [] {
      hide Square;
      var n := |w| - 1;
      ScoresSquares(w[..n], mean, sd);
      assert Scored(w, mean, sd)[..n] == Scored(w[..n], mean, sd);
      SquareOfScore(w[n] - mean, sd);
      AmountSum(Squares(Scored(w[..n], mean, sd)), Square((w[n] - mean) / sd), Square(sd));
    }
  }

  lemma AmountSum(a: real, b: real, c: real)
    ensures Amount(a + b, c) == Amount(a, c) + Amount(b, c)
  {}

  lemma SquareOfScore(gap: real, sd: real)
    requires sd > 0.0
    ensures Amount(Square(gap / sd), Square(sd)) == Square(gap)
  {
    DivMul(gap, sd);
    SquareOfProduct(gap / sd, sd);
  }

  lemma SquareOfProduct(a: real, b: real)
    ensures Amount(Square(a), Square(b)) == Square(a * b)
  {}

  lemma CancelRight(a: real, b: real, c: real)
    requires c > 0.0 && Amount(a, c) == Amount(b, c)
    ensures a == b
  {
    ProductQuotient(c, a);
    ProductQuotient(c, b);
  }

  /** Standard scores have mean zero and mean square one. */
  lemma ScoresAreStandard(st: Stats, w: seq<real>)
    requires Proper(st) && w != [] && st.sd(w) != 0.0
    ensures st.sd(w) > 0.0
    ensures var z := Scored(w, Mean(w), st.sd(w)); Total(z) == 0.0 && Squares(z) == |w| as real
  {
    hide Square, SquaredErrors, Total, Squares, Scored;
    var n, mean, sd := |w| as real, Mean(w), st.sd(w);
    var e := SquaredErrors(w, mean);
    assert IsRoot(sd, e / n);
    var z := Scored(w, mean, sd);
    ScoresTotal(w, mean, sd);
    MeanTotal(w);
    CancelRight(Total(z), 0.0, sd);
    ScoresSquares(w, mean, sd);
    SquareSign(sd);
    assert Amount(n, e / n) == e by { DivMul(e, n); }
    CancelRight(Squares(z), n, Square(sd));
  }

  lemma MeanTotal(w: seq<real>)
    requires w != []
    ensures Amount(|w| as real, Mean(w)) == Total(w)
  {
    hide Total;
    DivMul(Total(w), |w| as real);
  }

  /** The gaps between values are those between scores, all stretched by one factor. */
  ghost predicate SameGaps(w: seq<real>, z: seq<real>, factor: real) {
    |z| == |w| && forall i, j :: 0 <= i < |w| && 0 <= j < |w| ==> w[i] - w[j] == factor * (z[i] - z[j])
  }

  /** A cohort's percentiles are those of its standard scores: there are scores whose sum is zero, whose squares add up to the size
      of the cohort, and whose differences are those of the winsorized values up to one positive factor, and a percentile is
      the rounded value of the normal distribution at the score, or at its negative for an inverse metric. Only when all
      winsorized values are equal is everybody at 50. */
  lemma PercentilesAreOfScores(st: Stats, order: seq<Symbol>, values: map<Symbol, real>, inverse: bool)
    returns (z: seq<real>, factor: real)
    requires Proper(st) && order != [] && forall s :: s in order ==> s in values
    ensures var w := Winsorize(Along(order, values)); var p := PercentileRank(st, order, values, inverse);
      if forall i :: 0 <= i < |order| ==> w[i] == w[0]
      then forall s :: s in order ==> p[s] == 50.0
      else
        && |z| == |order| && Total(z) == 0.0 && Squares(z) == |order| as real && factor > 0.0
        && SameGaps(w, z, factor)
        && forall i :: 0 <= i < |order| ==> p[order[i]] == Round3(st.cdf(if inverse then -z[i] else z[i]) * 100.0)
  {
    hide Mean, Low, High, Total, Squares, Round3, PercentileOf, Scored, Winsorize, SquaredErrors, Square, SameGaps;
    var raw := Along(order, values);
    var w, scale := Winsorize(raw), ScaleOf(st, raw);
    assert |w| == |order| by { WinsorizeClips(raw); }
    assert scale.sd == st.sd(w) && scale.mean == Mean(w);
    ZeroDeviationIffConstant(st, w);
    z, factor := [], 0.0;
    if scale.sd != 0.0 {
      ScoresAreStandard(st, w);
      z, factor := Scored(w, scale.mean, scale.sd), scale.sd;
      ScoreGaps(w, scale.mean, scale.sd);
      CohortScores(st, order, values, inverse, z);
    } else {
      forall s | s in order ensures PercentileOf(st, scale, inverse, values[s]) == 50.0 {
        DegenerateIsNeutral(st, scale, inverse, values[s]);
      }
    }
  }

  lemma CohortScores(st: Stats, order: seq<Symbol>, values: map<Symbol, real>, inverse: bool, z: seq<real>)
    requires order != [] && (forall s :: s in order ==> s in values)
    requires var scale := ScaleOf(st, Along(order, values));
      scale.sd != 0.0 && z == Scored(Winsorize(Along(order, values)), scale.mean, scale.sd)
    ensures |z| == |order|
    ensures var p := PercentileRank(st, order, values, inverse);
      forall i :: 0 <= i < |order| ==> p[order[i]] == Round3(st.cdf(if inverse then -z[i] else z[i]) * 100.0)
  {
    hide Mean, Low, High, Round3;
    var scale := ScaleOf(st, Along(order, values));
    forall i | 0 <= i < |order| ensures PercentileRank(st, order, values, inverse)[order[i]]
                                        == Round3(st.cdf(if inverse then -z[i] else z[i]) * 100.0) {
      assert z[i] == Standardized(scale, values[order[i]]);
    }
  }

  lemma ScoreGaps(w: seq<real>, mean: real, sd: real)
    requires sd > 0.0
    ensures SameGaps(w, Scored(w, mean, sd), sd)
  {
    forall i, j | 0 <= i < |w| && 0 <= j < |w|
      ensures w[i] - w[j] == sd * (Scored(w, mean, sd)[i] - Scored(w, mean, sd)[j])
    {
      ScoreGap(w[i], w[j], mean, sd);
    }
  }

  lemma ScoreGap(a: real, b: real, mean: real, sd: real)
    requires sd > 0.0
    ensures a - b == sd * ((a - mean) / sd - (b - mean) / sd)
  {
    DivMul(a - mean, sd);
    DivMul(b - mean, sd);
  }

  // ---------- where the zero is ----------

  function Shift(xs: seq<real>, c: real): seq<real> { seq(|xs|, i requires 0 <= i < |xs| => xs[i] + c) }

  lemma ShiftAppend(xs: seq<real>, x: real, c: real)
    ensures Shift(xs + [x], c) == Shift(xs, c) + [x + c]
  {}

  lemma InsertStep(xs: seq<real>, x: real)
    ensures xs == [] ==> Insert(xs, x, Identity) == [x]
    ensures xs != [] && xs[|xs| - 1] <= x ==> Insert(xs, x, Identity) == xs + [x]
    ensures xs != [] && xs[|xs| - 1] > x ==> Insert(xs, x, Identity) == Insert(xs[..|xs| - 1], x, Identity) + [xs[|xs| - 1]]
  {}

  lemma {:induction false} InsertShift(xs: seq<real>, x: real, c: real)
    ensures Insert(Shift(xs, c), x + c, Identity) == Shift(Insert(xs, x, Identity), c)
  {
    hide Shift, Insert;
    InsertStep(xs, x);
    InsertStep(Shift(xs, c), x + c);
    if xs == [] {
      ShiftNothing(xs, c);
      ShiftAppend(xs, x, c);
      assert xs + [x] == [x] && Shift(xs, c) + [x + c] == [x + c];
    } else {
      var n := |xs| - 1;
      ShiftInit(xs, c);
      if xs[n] <= x {
        ShiftAppend(xs, x, c);
      } else {
        InsertShift(xs[..n], x, c);
        ShiftAppend(Insert(xs[..n], x, Identity), xs[n], c);
      }
    }
  }

  lemma ShiftNothing(xs: seq<real>, c: real)
    requires xs == []
    ensures Shift(xs, c) == []
  {}

  lemma SortStep(xs: seq<real>)
    requires xs != []
    ensures Sorted(xs) == Insert(Sorted(xs[..|xs| - 1]), xs[|xs| - 1], Identity)
  {
    hide Insert;
  }

  lemma {:induction false} SortShift(xs: seq<real>, c: real)
    ensures Sorted(Shift(xs, c)) == Shift(Sorted(xs), c)
  {
    hide Insert, StableSort, Sorted, Shift;
    if xs == [] {
      SortNothing(xs, c);
    } else {
      var n := |xs| - 1;
      SortShift(xs[..n], c);
      SortStep(xs);
      ShiftInit(xs, c);
      SortStep(Shift(xs, c));
      InsertShift(Sorted(xs[..n]), xs[n], c);
    }
  }

  lemma SortNothing(xs: seq<real>, c: real)
    requires xs == []
    ensures Sorted(Shift(xs, c)) == Shift(Sorted(xs), c)
  {}

  lemma ShiftInit(xs: seq<real>, c: real)
    requires xs != []
    ensures var y := Shift(xs, c); var n := |xs| - 1; |y| == |xs| && y[..n] == Shift(xs[..n], c) && y[n] == xs[n] + c
  {}

  lemma BetweenShift(a: real, b: real, frac: real, c: real)
    ensures Between(a + c, b + c, frac) == Between(a, b, frac) + c
  {}

  lemma QuantileShift(ordered: seq<real>, q: real, c: real)
    requires ordered != [] && q >= 0.0
    ensures Quantile(Shift(ordered, c), q) == Quantile(ordered, q) + c
  {
    hide Between;
    var pos := PositionOf(ordered, q);
    assert PositionOf(Shift(ordered, c), q) == pos;
    if pos.Floor + 1 < |ordered| {
      BetweenShift(ordered[pos.Floor], ordered[pos.Floor + 1], pos - pos.Floor as real, c);
    }
  }

  lemma WinsorizeShift(xs: seq<real>, c: real)
    requires xs != []
    ensures Winsorize(Shift(xs, c)) == Shift(Winsorize(xs), c)
    ensures Low(Shift(xs, c)) == Low(xs) + c && High(Shift(xs, c)) == High(xs) + c
  {
    hide Quantile, StableSort;
    SortShift(xs, c);
    QuantileShift(Sorted(xs), 0.01, c);
    QuantileShift(Sorted(xs), 0.99, c);
  }

  lemma {:induction false} TotalShift(xs: seq<real>, c: real)
    ensures Total(Shift(xs, c)) == Total(xs) + Amount(|xs| as real, c)
  {
    if xs != [] {
      var n := |xs| - 1;
      TotalShift(xs[..n], c);
      assert Shift(xs, c)[..n] == Shift(xs[..n], c);
      AddMean(n, c);
    }
  }

  lemma MeanShift(xs: seq<real>, c: real)
    requires xs != []
    ensures Mean(Shift(xs, c)) == Mean(xs) + c
  {
    hide Total;
    TotalShift(xs, c);
    QuotientOfSum(Total(xs), |xs| as real, c);
  }

  lemma QuotientOfSum(t: real, n: real, c: real)
    requires n > 0.0
    ensures (t + Amount(n, c)) / n == t / n + c
  {
    ProductQuotient(n, c);
  }

  lemma {:induction false} ErrorsShift(xs: seq<real>, around: real, c: real)
    ensures SquaredErrors(Shift(xs, c), around + c) == SquaredErrors(xs, around)
  {
    if xs != [] {
      hide Square;
      var n := |xs| - 1;
      ErrorsShift(xs[..n], around, c);
      assert Shift(xs, c)[..n] == Shift(xs[..n], c);
      assert Shift(xs, c)[n] - (around + c) == xs[n] - around;
    }
  }

  lemma SquareGrows(a: real, b: real)
    requires a >= 0.0 && b >= 0.0
    ensures a < b ==> Square(a) < Square(b)
  {
    if a < b {
      PositiveProduct(b - a, a + b);
      assert Amount(b - a, a + b) == Square(b) - Square(a);
    }
  }

  lemma RootsAreEqual(a: real, b: real, squared: real)
    requires IsRoot(a, squared) && IsRoot(b, squared)
    ensures a == b
  {
    hide Square;
    SquareGrows(a, b);
    SquareGrows(b, a);
  }

  lemma DeviationShift(st: Stats, xs: seq<real>, c: real)
    requires Proper(st) && xs != []
    ensures st.sd(Shift(xs, c)) == st.sd(xs)
  {
    hide SquaredErrors, Square;
    MeanShift(xs, c);
    ErrorsShift(xs, Mean(xs), c);
    var squared := SquaredErrors(xs, Mean(xs)) / |xs| as real;
    assert IsRoot(st.sd(xs), squared) && IsRoot(st.sd(Shift(xs, c)), squared);
    RootsAreEqual(st.sd(xs), st.sd(Shift(xs, c)), squared);
  }

  /** Adding the same amount to every value of a cohort changes no percentile. */
  lemma PercentilesIgnoreShift(st: Stats, order: seq<Symbol>, values: map<Symbol, real>, inverse: bool, c: real)
    requires Proper(st) && order != [] && forall s :: s in order ==> s in values
    ensures PercentileRank(st, order, map s | s in values :: values[s] + c, inverse) == PercentileRank(st, order, values, inverse)
  {
    hide Low, High, Mean, Proper, Round3;
    var shifted := map s | s in values :: values[s] + c;
    var raw := Along(order, values);
    assert Along(order, shifted) == Shift(raw, c);
    WinsorizeShift(raw, c);
    MeanShift(Winsorize(raw), c);
    DeviationShift(st, Winsorize(raw), c);
    var a, b := ScaleOf(st, raw), ScaleOf(st, Shift(raw, c));
    forall s | s in order ensures PercentileOf(st, b, inverse, shifted[s]) == PercentileOf(st, a, inverse, values[s]) {
      assert Clamp(shifted[s], b.low, b.high) - b.mean == Clamp(values[s], a.low, a.high) - a.mean;
    }
  }

  // ---------- quantiles ----------

  /** A quantile interpolates between the two values its position falls between; the 1st and 99th percentile bound the band. */
  lemma QuantileInterpolates(values: seq<real>, k: nat, t: real)
    requires k + 1 < |values| && 0.0 <= t < 1.0
    ensures var s := Sorted(values); var n := (|values| - 1) as real;
      && (0.01 * n == k as real + t ==> Low(values) == (1.0 - t) * s[k] + t * s[k + 1])
      && (0.99 * n == k as real + t ==> High(values) == (1.0 - t) * s[k] + t * s[k + 1])
  {
    hide StableSort;
    var s, n := Sorted(values), (|values| - 1) as real;
    if 0.01 * n == k as real + t {
      assert PositionOf(s, 0.01).Floor == k;
      Mix(s[k], s[k + 1], t);
    }
    if 0.99 * n == k as real + t {
      assert PositionOf(s, 0.99).Floor == k;
      Mix(s[k], s[k + 1], t);
    }
  }

  lemma Mix(a: real, b: real, t: real)
    ensures Between(a, b, t) == (1.0 - t) * a + t * b
  {}
}
