/** Rounding to a fixed number of decimals, half to even. */
module Rounding {
  function HalfEven(y: real): int {
    var below := y.Floor;
    var rest := y - below as real;
    if rest < 0.5 || (rest == 0.5 && below % 2 == 0) then below else below + 1
  }

  /** The nearest whole number, and of two equally near ones the even one. */
  lemma HalfEvenIsNearest(y: real, k: int)
    ensures HalfEven(y) == k <==> -0.5 <= k as real - y <= 0.5 && (k as real - y == 0.5 || k as real - y == -0.5 ==> k % 2 == 0)
  {
    var below := y.Floor;
    assert below as real <= y < (below + 1) as real;
    assert (below + 1) % 2 != below % 2;
  }

  lemma HalfEvenMonotone(x: real, y: real)
    requires x <= y
    ensures HalfEven(x) <= HalfEven(y)
  {
    if x.Floor < y.Floor {
      assert x.Floor + 1 <= y.Floor;
    }
  }

  function Round3(x: real): real { HalfEven(x * 1000.0) as real / 1000.0 }

  function Round4(x: real): real { HalfEven(x * 10000.0) as real / 10000.0 }

  lemma Round3Facts(x: real)
    ensures -0.0005 <= Round3(x) - x <= 0.0005
    ensures forall y :: x <= y ==> Round3(x) <= Round3(y)
    ensures Round3(0.0) == 0.0 && Round3(100.0) == 100.0
  {
    forall y | x <= y ensures Round3(x) <= Round3(y) {
      HalfEvenMonotone(x * 1000.0, y * 1000.0);
    }
  }

  lemma Round4Facts(x: real)
    ensures -0.00005 <= Round4(x) - x <= 0.00005
    ensures forall y :: x <= y ==> Round4(x) <= Round4(y)
    ensures Round4(0.70) == 0.70 && Round4(0.30) == 0.30
  {
    forall y | x <= y ensures Round4(x) <= Round4(y) {
      HalfEvenMonotone(x * 10000.0, y * 10000.0);
    }
  }
}

/** One metric across one cohort: winsorize, standardize, and map through the normal distribution function. */
module CrossSection {
  import opened Arithmetic
  import opened Domain
  import opened Sizing
  import opened Sorting
  import opened Rounding

  const NEUTRAL := 50.0

  // ---------- quantiles and winsorizing ----------

  function Identity(x: real): real { x }

  function Sorted(values: seq<real>): seq<real> { StableSort(values, Identity) }

  function Between(a: real, b: real, frac: real): real { a + frac * (b - a) }

  /** The value at a fractional position of ascending values. */
  function At(ordered: seq<real>, pos: real): real
    requires ordered != [] && pos >= 0.0
  {
    var lo := pos.Floor;
    if lo + 1 >= |ordered| then ordered[|ordered| - 1]
    else Between(ordered[lo], ordered[lo + 1], pos - lo as real)
  }

  /** Linear-interpolation quantile of ascending values. */
  function Quantile(ordered: seq<real>, q: real): real
    requires ordered != [] && q >= 0.0
  {
    if |ordered| == 1 then ordered[0] else At(ordered, PositionOf(ordered, q))
  }

  function PositionOf(ordered: seq<real>, q: real): (pos: real)
    requires ordered != [] && q >= 0.0
    ensures pos >= 0.0
  {
    MulMono(q, 0.0, (|ordered| - 1) as real);
    q * (|ordered| - 1) as real
  }

  lemma BetweenBounds(a: real, b: real, s: real, t: real)
    requires a <= b && 0.0 <= s <= t <= 1.0
    ensures a <= Between(a, b, s) <= Between(a, b, t) <= b
  {
    MulMono(b - a, 0.0, s);
    MulMono(b - a, s, t);
    MulMono(b - a, t, 1.0);
  }

  /** A position's value lies between its two neighbours. */
  lemma AtNeighbours(ordered: seq<real>, pos: real)
    requires ordered != [] && SortedBy(ordered, Identity) && pos >= 0.0
    ensures pos.Floor + 1 < |ordered| ==> ordered[pos.Floor] <= At(ordered, pos) <= ordered[pos.Floor + 1]
    ensures ordered[0] <= At(ordered, pos) <= ordered[|ordered| - 1]
  {
    hide Between;
    Ascending(ordered);
    if pos.Floor + 1 < |ordered| {
      BetweenBounds(ordered[pos.Floor], ordered[pos.Floor + 1], 0.0, pos - pos.Floor as real);
      BetweenBounds(ordered[pos.Floor], ordered[pos.Floor + 1], pos - pos.Floor as real, 1.0);
    }
  }

  lemma Ascending(ordered: seq<real>)
    requires SortedBy(ordered, Identity)
    ensures forall i, j :: 0 <= i <= j < |ordered| ==> ordered[i] <= ordered[j]
  {
    forall i, j | 0 <= i <= j < |ordered| ensures ordered[i] <= ordered[j] {
      assert i < j ==> Identity(ordered[i]) <= Identity(ordered[j]);
    }
  }

  lemma AtMonotone(ordered: seq<real>, x: real, y: real)
    requires ordered != [] && SortedBy(ordered, Identity) && 0.0 <= x <= y
    ensures At(ordered, x) <= At(ordered, y)
  {
    hide Between;
    AtNeighbours(ordered, x);
    AtNeighbours(ordered, y);
    if y.Floor + 1 < |ordered| {
      if x.Floor == y.Floor {
        BetweenBounds(ordered[x.Floor], ordered[x.Floor + 1], x - x.Floor as real, y - y.Floor as real);
      } else {
        Ascending(ordered);
        assert x.Floor + 1 <= y.Floor;
      }
    }
  }

  /** Quantiles of ascending values rise with the fraction and stay inside the data. */
  lemma QuantileMonotone(ordered: seq<real>, p: real, q: real)
    requires ordered != [] && SortedBy(ordered, Identity) && 0.0 <= p <= q
    ensures ordered[0] <= Quantile(ordered, p) <= Quantile(ordered, q) <= ordered[|ordered| - 1]
  {
    hide At;
    MulMono((|ordered| - 1) as real, p, q);
    AtMonotone(ordered, PositionOf(ordered, p), PositionOf(ordered, q));
    AtNeighbours(ordered, PositionOf(ordered, p));
    AtNeighbours(ordered, PositionOf(ordered, q));
  }

  function Clamp(v: real, low: real, high: real): real { Min(Max(v, low), high) }

  function Low(values: seq<real>): real
    requires values != []
  {
    Quantile(Sorted(values), 0.01)
  }

  function High(values: seq<real>): real
    requires values != []
  {
    Quantile(Sorted(values), 0.99)
  }

  function Winsorize(values: seq<real>): seq<real>
    requires values != []
  {
    seq(|values|, i requires 0 <= i < |values| => Clamp(values[i], Low(values), High(values)))
  }

  /** Winsorizing keeps the order of the values, moves only those outside the band between the 1st and 99th percentile,
      and moves them to its nearer edge. */
  lemma WinsorizeClips(values: seq<real>)
    requires values != []
    ensures Low(values) <= High(values)
    ensures var w := Winsorize(values);
      && |w| == |values|
      && (forall i :: 0 <= i < |w| ==> Low(values) <= w[i] <= High(values))
      && (forall i, j :: 0 <= i < |w| && 0 <= j < |w| && values[i] <= values[j] ==> w[i] <= w[j])
      && (forall i :: 0 <= i < |w| ==> (w[i] == values[i] <==> Low(values) <= values[i] <= High(values)))
  {
    QuantileMonotone(Sorted(values), 0.01, 0.99);
  }

  // ---------- mean and standard deviation ----------

  function Mean(xs: seq<real>): real
    requires xs != []
  {
    Total(xs) / |xs| as real
  }

  function Square(x: real): real { Amount(x, x) }

  function SquaredErrors(xs: seq<real>, around: real): real {
    if xs == [] then 0.0 else SquaredErrors(xs[..|xs| - 1], around) + Square(xs[|xs| - 1] - around)
  }

  /** The two library functions, as parameters: the normal distribution function and the population standard deviation. */
  datatype Stats = Stats(cdf: real -> real, sd: seq<real> -> real)

  ghost predicate IsRoot(r: real, squared: real) { r >= 0.0 && Square(r) == squared }

  ghost predicate Proper(st: Stats) {
    && (forall x, y :: x <= y ==> st.cdf(x) <= st.cdf(y))
    && (forall x :: 0.0 <= st.cdf(x) <= 1.0)
    && (forall xs: seq<real> :: xs != [] ==> IsRoot(st.sd(xs), SquaredErrors(xs, Mean(xs)) / |xs| as real))
  }

  lemma {:induction false} NoErrorMeansConstant(xs: seq<real>, around: real)
    ensures SquaredErrors(xs, around) >= 0.0
    ensures SquaredErrors(xs, around) == 0.0 <==> forall i :: 0 <= i < |xs| ==> xs[i] == around
  {
    if xs != [] {
      var n := |xs| - 1;
      NoErrorMeansConstant(xs[..n], around);
      SquareSign(xs[n] - around);
      assert xs == xs[..n] + [xs[n]];
    }
  }

  lemma SquareSign(x: real)
    ensures Square(x) >= 0.0 && (Square(x) == 0.0 <==> x == 0.0)
  {
    hide Square;
    SquareOfZero();
    SquareEven(x);
    if x > 0.0 {
      SquarePositive(x);
    }
    if x < 0.0 {
      SquarePositive(-x);
    }
  }

  lemma SquareOfZero()
    ensures Square(0.0) == 0.0
  {}

  lemma SquareEven(x: real)
    ensures Square(-x) == Square(x)
  {
    NegatedProduct(x, x);
  }

  lemma NegatedProduct(a: real, b: real)
    ensures Amount(-a, -b) == Amount(a, b)
  {}

  lemma SquarePositive(x: real)
    requires x > 0.0
    ensures Square(x) > 0.0
  {
    PositiveProduct(x, x);
  }

  lemma PositiveProduct(a: real, b: real)
    requires a > 0.0 && b > 0.0
    ensures Amount(a, b) > 0.0
  {}

  /** The degenerate cohort: the deviation is zero exactly when all values are equal. */
  lemma ZeroDeviationIffConstant(st: Stats, xs: seq<real>)
    requires Proper(st) && xs != []
    ensures st.sd(xs) >= 0.0
    ensures st.sd(xs) == 0.0 <==> forall i :: 0 <= i < |xs| ==> xs[i] == xs[0]
  {
    var n := |xs| as real;
    var e := SquaredErrors(xs, Mean(xs));
    assert IsRoot(st.sd(xs), e / n);
    NoErrorMeansConstant(xs, Mean(xs));
    RootOfQuotient(st.sd(xs), e, n);
    if forall i :: 0 <= i < |xs| ==> xs[i] == xs[0] {
      ConstantTotal(xs, xs[0]);
      assert Mean(xs) == xs[0] by { ProductQuotient(n, xs[0]); }
    }
  }

  lemma RootOfQuotient(r: real, e: real, n: real)
    requires n > 0.0 && IsRoot(r, e / n)
    ensures r == 0.0 <==> e == 0.0
  {
    SquareSign(r);
    assert e / n * n == e by { DivMul(e, n); }
  }

  lemma ProductQuotient(n: real, x: real)
    requires n > 0.0
    ensures n * x / n == x
  {}

  lemma {:induction false} TotalBounds(xs: seq<real>, low: real, high: real)
    requires forall i :: 0 <= i < |xs| ==> low <= xs[i] <= high
    ensures |xs| as real * low <= Total(xs) <= |xs| as real * high
  {
    if xs != [] {
      TotalBounds(xs[..|xs| - 1], low, high);
    }
  }

  lemma MeanBounds(xs: seq<real>, low: real, high: real)
    requires xs != [] && forall i :: 0 <= i < |xs| ==> low <= xs[i] <= high
    ensures low <= Mean(xs) <= high
  {
    hide Total;
    TotalBounds(xs, low, high);
    QuotientBetween(Total(xs), |xs| as real, low, high);
  }

  lemma QuotientBetween(t: real, n: real, low: real, high: real)
    requires n > 0.0 && n * low <= t <= n * high
    ensures low <= t / n <= high
  {
    QuotientMonotone(n * low, t, n);
    QuotientMonotone(t, n * high, n);
    ProductQuotient(n, low);
    ProductQuotient(n, high);
  }

  lemma QuotientMonotone(a: real, b: real, c: real)
    requires c > 0.0 && a <= b
    ensures a / c <= b / c
  {
    DivMul(a, c);
    QuotientBound(a / c, b, c);
  }

  // ---------- percentiles ----------

  /** What a cohort measures its values against. */
  datatype Scale = Scale(low: real, high: real, mean: real, sd: real)

  function ScaleOf(st: Stats, values: seq<real>): Scale
    requires values != []
  {
    var w := Winsorize(values);
    Scale(Low(values), High(values), Mean(w), st.sd(w))
  }

  function Standardized(scale: Scale, v: real): real
    requires scale.sd != 0.0
  {
    (Clamp(v, scale.low, scale.high) - scale.mean) / scale.sd
  }

  function PercentileOf(st: Stats, scale: Scale, inverse: bool, v: real): real {
    if scale.sd == 0.0 then NEUTRAL
    else
      var z := Standardized(scale, v);
      Round3(st.cdf(if inverse then -z else z) * 100.0)
  }

  function Along(order: seq<Symbol>, values: map<Symbol, real>): seq<real>
    requires forall s :: s in order ==> s in values
  {
    seq(|order|, i requires 0 <= i < |order| => values[order[i]])
  }

  /** One metric, one cohort: the percentile of every symbol. */
  function PercentileRank(st: Stats, order: seq<Symbol>, values: map<Symbol, real>, inverse: bool): map<Symbol, real>
    requires order != [] && forall s :: s in order ==> s in values
  {
    map s | s in order :: PercentileOf(st, ScaleOf(st, Along(order, values)), inverse, values[s])
  }

  method RankCohort(st: Stats, order: seq<Symbol>, values: map<Symbol, real>,
                    inverse: bool) returns (out: map<Symbol, real>)
    requires order != [] && forall s :: s in order ==> s in values
    ensures out == PercentileRank(st, order, values, inverse)
  {
    hide Low, High, Mean;
    var raw := Along(order, values);
    var winsorized := Winsorize(raw);
    var mean, sd := Mean(winsorized), st.sd(winsorized);
    if sd == 0.0 {
      return map s | s in order :: NEUTRAL;
    }
    ghost var scale := ScaleOf(st, raw);
    out := map[];
    for i := 0 to |order|
      invariant out.Keys == set s | s in order[..i]
      invariant forall s :: s in out ==> s in values && out[s] == PercentileOf(st, scale, inverse, values[s])
    {
      var z := (winsorized[i] - mean) / sd;
      if inverse {
        z := -z;
      }
      out := out[order[i] := Round3(st.cdf(z) * 100.0)];
      assert order[..i + 1] == order[..i] + [order[i]];
    }
    assert order[..|order|] == order;
  }

  /** Within a cohort the percentile follows the raw value, or runs against it for an inverse metric. */
  lemma PercentileMonotone(st: Stats, scale: Scale, inverse: bool, a: real, b: real)
    requires Proper(st) && scale.sd >= 0.0 && a <= b
    ensures var p, q := PercentileOf(st, scale, inverse, a), PercentileOf(st, scale, inverse, b);
      if inverse then p >= q else p <= q
  {
    if scale.sd > 0.0 {
      QuotientMonotone(Clamp(a, scale.low, scale.high) - scale.mean, Clamp(b, scale.low, scale.high) - scale.mean, scale.sd);
      var y, z := Standardized(scale, a), Standardized(scale, b);
      assert y <= z;
      if inverse {
        Round3Facts(st.cdf(-z) * 100.0);
      } else {
        Round3Facts(st.cdf(y) * 100.0);
      }
    }
  }

  lemma PercentileInRange(st: Stats, scale: Scale, inverse: bool, v: real)
    requires Proper(st)
    ensures 0.0 <= PercentileOf(st, scale, inverse, v) <= 100.0
  {
    if scale.sd != 0.0 {
      var z := Standardized(scale, v);
      var x := st.cdf(if inverse then -z else z) * 100.0;
      Round3Facts(x);
      Round3Facts(0.0);
      assert 0.0 <= x <= 100.0;
    }
  }

  /** The percentiles of a cohort: in range, ordered like the values, and all neutral when the winsorized values coincide. */
  lemma PercentileRankOrders(st: Stats, order: seq<Symbol>, values: map<Symbol, real>, inverse: bool)
    requires Proper(st) && order != [] && forall s :: s in order ==> s in values
    ensures var p := PercentileRank(st, order, values, inverse);
      && (forall s :: s in order ==> 0.0 <= p[s] <= 100.0)
      && (forall s, u :: s in order && u in order && values[s] <= values[u] ==> if inverse then p[s] >= p[u] else p[s] <= p[u])
      && ((forall i, j :: 0 <= i < j < |order| ==> values[order[i]] == values[order[j]]) ==> forall s :: s in order ==> p[s] == 50.0)
  {
    hide PercentileOf, Winsorize, Low, High, Mean, Proper;
    var raw := Along(order, values);
    var scale := ScaleOf(st, raw);
    WinsorizeClips(raw);
    ZeroDeviationIffConstant(st, Winsorize(raw));
    var p := PercentileRank(st, order, values, inverse);
    forall s | s in order ensures 0.0 <= p[s] <= 100.0 {
      PercentileInRange(st, scale, inverse, values[s]);
    }
    forall s, u | s in order && u in order && values[s] <= values[u] ensures if inverse then p[s] >= p[u] else p[s] <= p[u] {
      PercentileMonotone(st, scale, inverse, values[s], values[u]);
    }
    if forall i, j :: 0 <= i < j < |order| ==> values[order[i]] == values[order[j]] {
      var w := Winsorize(raw);
      forall i | 0 <= i < |w| ensures w[i] == w[0] {
        assert raw[i] == values[order[i]] && raw[0] == values[order[0]];
      }
      forall s | s in order ensures p[s] == 50.0 {
        DegenerateIsNeutral(st, scale, inverse, values[s]);
      }
    }
  }

  lemma DegenerateIsNeutral(st: Stats, scale: Scale, inverse: bool, v: real)
    requires scale.sd == 0.0
    ensures PercentileOf(st, scale, inverse, v) == 50.0
  {}
}
