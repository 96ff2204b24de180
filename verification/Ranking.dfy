/** What the ranking guarantees: ranks, gates, coverage, bounds and attribution agree with one another. */
module Ranking {
  import opened Wrappers
  import opened Domain
  import opened Sums
  import opened Sorting
  import opened Rounding
  import opened CrossSection
  import opened Regimes
  import opened Strategy

  // ---------- the order of the results ----------

  lemma {:induction false} WithKeyMembers<T>(xs: seq<T>, key: T -> real, k: real)
    ensures forall i :: 0 <= i < |WithKey(xs, key, k)| ==> WithKey(xs, key, k)[i] in xs
  {
    if xs != [] {
      var n := |xs| - 1;
      assert xs == xs[..n] + [xs[n]];
      WithKeyMembers(xs[..n], key, k);
    }
  }

  /** Selecting by one key keeps the order by another. */
  lemma {:induction false} WithKeySorted<T>(xs: seq<T>, key: T -> real, k: real, other: T -> real)
    requires SortedBy(xs, other)
    ensures SortedBy(WithKey(xs, key, k), other)
  {
    if xs != [] {
      var n := |xs| - 1;
      WithKeySorted(xs[..n], key, k, other);
      WithKeyMembers(xs[..n], key, k);
      var kept := WithKey(xs[..n], key, k);
      forall i | 0 <= i < |kept| ensures other(kept[i]) <= other(xs[n]) {
        assert kept[i] in xs[..n];
        var j :| 0 <= j < n && xs[..n][j] == kept[i];
        assert other(xs[j]) <= other(xs[n]);
      }
    }
  }

  lemma {:induction false} AllZerosKept(xs: seq<StrategyScore>)
    requires forall i :: 0 <= i < |xs| ==> NullLast(xs[i]) == 0.0
    ensures WithKey(xs, NullLast, 0.0) == xs
  {
    if xs != [] {
      AllZerosKept(xs[..|xs| - 1]);
      assert xs == xs[..|xs| - 1] + [xs[|xs| - 1]];
    }
  }

  /** In a list sorted by a zero-or-one key the zeros are a prefix. */
  lemma {:induction false} ZerosFirst(xs: seq<StrategyScore>)
    requires SortedBy(xs, NullLast)
    ensures var zeros := WithKey(xs, NullLast, 0.0);
      && |zeros| <= |xs| && xs[..|zeros|] == zeros
      && forall i :: 0 <= i < |xs| ==> (xs[i].composite.Some? <==> i < |zeros|)
  {
    hide WithKey;
    if xs == [] {
      AllZerosKept(xs);
    } else {
      var n := |xs| - 1;
      if xs[n].composite.Some? {
        forall i | 0 <= i < |xs| ensures NullLast(xs[i]) == 0.0 {
          assert i < n ==> NullLast(xs[i]) <= NullLast(xs[n]);
        }
        AllZerosKept(xs);
      } else {
        ZerosFirst(xs[..n]);
        LastDropped(xs);
        var zeros := WithKey(xs[..n], NullLast, 0.0);
        assert xs[..n][..|zeros|] == xs[..|zeros|];
      }
    }
  }

  lemma LastDropped(xs: seq<StrategyScore>)
    requires xs != [] && NullLast(xs[|xs| - 1]) != 0.0
    ensures WithKey(xs, NullLast, 0.0) == WithKey(xs[..|xs| - 1], NullLast, 0.0)
  {}

  /** The number of results with a composite. */
  function ScoredCount(results: seq<StrategyScore>): nat { |WithKey(Ordered(results), NullLast, 0.0)| }

  /** Scored names first, by composite from best to worst; the same results, rearranged. */
  lemma OrderedBestFirst(results: seq<StrategyScore>)
    ensures var o := Ordered(results); var k := ScoredCount(results);
      && |o| == |results| && multiset(o) == multiset(results) && k <= |o|
      && (forall i :: 0 <= i < |o| ==> (o[i].composite.Some? <==> i < k))
      && (forall i, j :: 0 <= i < j < k ==> o[i].composite.value >= o[j].composite.value)
  {
    hide StableSort, WithKey, SortedBy;
    var first := StableSort(results, BestFirst);
    var o := Ordered(results);
    ZerosFirst(o);
    StableSortStable(first, NullLast, 0.0);
    WithKeySorted(first, NullLast, 0.0, BestFirst);
    var zeros := WithKey(o, NullLast, 0.0);
    PrefixSorted(o, zeros);
  }

  lemma PrefixSorted(o: seq<StrategyScore>, zeros: seq<StrategyScore>)
    requires |zeros| <= |o| && o[..|zeros|] == zeros && SortedBy(zeros, BestFirst)
    requires forall i :: 0 <= i < |zeros| ==> o[i].composite.Some?
    ensures forall i, j :: 0 <= i < j < |zeros| ==> o[i].composite.value >= o[j].composite.value
  {
    forall i, j | 0 <= i < j < |zeros| ensures o[i].composite.value >= o[j].composite.value {
      assert zeros[i] == o[i] && zeros[j] == o[j];
      assert BestFirst(zeros[i]) <= BestFirst(zeros[j]);
    }
  }

  // ---------- ranks, percentiles and the gate ----------

  ghost predicate DistinctSymbols(results: seq<StrategyScore>) {
    forall i, j :: 0 <= i < j < |results| ==> results[i].symbol != results[j].symbol
  }

  lemma {:induction false} NotFiled(results: seq<StrategyScore>, s: Symbol)
    requires forall i :: 0 <= i < |results| ==> results[i].symbol != s
    ensures s !in Composites(results).1
  {
    if results != [] {
      NotFiled(results[..|results| - 1], s);
    }
  }

  /** A composite is filed under its own symbol. */
  lemma {:induction false} CompositeFiled(results: seq<StrategyScore>, k: nat)
    requires DistinctSymbols(results) && k < |results|
    ensures var values := Composites(results).1;
      && (results[k].symbol in values <==> results[k].composite.Some?)
      && (results[k].composite.Some? ==> values[results[k].symbol] == results[k].composite.value)
  {
    var n := |results| - 1;
    if k < n {
      CompositeFiled(results[..n], k);
    } else {
      NotFiled(results[..n], results[n].symbol);
    }
  }

  /** Two scored results compare by percentile as they do by composite. */
  lemma PercentileFollowsComposite(st: Stats, results: seq<StrategyScore>, a: StrategyScore, b: StrategyScore)
    requires Proper(st) && DistinctSymbols(results) && a in results && b in results
    requires a.composite.Some? && b.composite.Some? && a.composite.value >= b.composite.value
    ensures var pct := Percentiles(st, results);
      a.symbol in pct && b.symbol in pct && 0.0 <= pct[b.symbol] <= pct[a.symbol] <= 100.0
  {
    hide PercentileRank, Proper, Composites;
    var (order, values) := Composites(results);
    var i :| 0 <= i < |results| && results[i] == a;
    var j :| 0 <= j < |results| && results[j] == b;
    CompositeFiled(results, i);
    CompositeFiled(results, j);
    assert a.symbol in order && b.symbol in order;
    PercentileRankOrders(st, order, values, false);
    assert PercentileRank(st, order, values, false).Keys == set s | s in order by { RankKeys(st, order, values); }
  }

  lemma RankKeys(st: Stats, order: seq<Symbol>, values: map<Symbol, real>)
    requires order != [] && forall s :: s in order ==> s in values
    ensures PercentileRank(st, order, values, false).Keys == set s | s in order
  {}

  lemma UnscoredHasNone(st: Stats, results: seq<StrategyScore>, a: StrategyScore)
    requires DistinctSymbols(results) && a in results && a.composite.None?
    ensures a.symbol !in Percentiles(st, results)
  {
    hide PercentileOf, Composites;
    var i :| 0 <= i < |results| && results[i] == a;
    CompositeFiled(results, i);
  }

  /** Ranks are dense 1..k, in nonincreasing composite order, and exactly the scored names are ranked. */
  lemma RanksAreDense(results: seq<StrategyScore>, pct: map<Symbol, real>)
    ensures var r := Ranked(results, pct); var k := ScoredCount(results);
      && |r| == |results| && k <= |r|
      && (forall i :: 0 <= i < |r| ==> r[i].rank == (if i < k then Some(i + 1) else None))
      && (forall i :: 0 <= i < |r| ==> (r[i].composite.Some? <==> i < k))
      && (forall i, j :: 0 <= i < j < k ==> r[i].composite.value >= r[j].composite.value)
  {
    hide Ordered, ScoredCount;
    OrderedBestFirst(results);
    var o, r := Ordered(results), Ranked(results, pct);
    assert forall i :: 0 <= i < |r| ==> r[i] == Placed(o[i], i, pct);
  }

  /** Every ranked entry is one of the results, placed. */
  lemma RankedFrom(results: seq<StrategyScore>, pct: map<Symbol, real>, i: nat) returns (j: nat)
    requires i < |results|
    ensures |Ranked(results, pct)| == |results| && j < |results| && Ranked(results, pct)[i] == Placed(results[j], i, pct)
  {
    hide Ordered;
    OrderedBestFirst(results);
    var o := Ordered(results);
    assert o[i] in multiset(o);
    j :| 0 <= j < |results| && results[j] == o[i];
  }

  predicate PassesGate(s: StrategyScore) {
    s.compositePercentile.Some? && s.compositePercentile.value >= 70.0
  }

  /** The percentile never rises with the rank, so the names that pass the percentile gate are a prefix of the ranking. */
  lemma RankAndGateAgree(st: Stats, results: seq<StrategyScore>)
    requires Proper(st) && DistinctSymbols(results)
    ensures var r := Ranked(results, Percentiles(st, results));
      && (forall i :: 0 <= i < |r| ==> (r[i].rank.Some? <==> r[i].compositePercentile.Some?))
      && (forall i, j :: 0 <= i < j < |r| && r[j].rank.Some? ==>
            r[i].rank.Some? && 0.0 <= r[j].compositePercentile.value <= r[i].compositePercentile.value <= 100.0)
      && (forall i, j :: 0 <= i < j < |r| && PassesGate(r[j]) ==> PassesGate(r[i]))
  {
    hide Ordered, ScoredCount, Percentiles, Proper, DistinctSymbols;
    var pct := Percentiles(st, results);
    RanksAreDense(results, pct);
    OrderedBestFirst(results);
    var o, r := Ordered(results), Ranked(results, pct);
    forall i | 0 <= i < |o| ensures o[i] in results && (o[i].composite.Some? <==> o[i].symbol in pct) {
      assert o[i] in multiset(o);
      if o[i].composite.Some? {
        PercentileFollowsComposite(st, results, o[i], o[i]);
      } else {
        UnscoredHasNone(st, results, o[i]);
      }
    }
    forall i, j | 0 <= i < j < |r| && r[j].rank.Some?
      ensures r[i].rank.Some? && 0.0 <= r[j].compositePercentile.value <= r[i].compositePercentile.value <= 100.0
    {
      PercentileFollowsComposite(st, results, o[i], o[j]);
    }
  }

  // ---------- coverage ----------

  lemma SumFive(w: map<Family, real>)
    ensures Sum(FAMILIES, w) == Weight(w, Valuation) + Weight(w, Fundamentals) + Weight(w, Momentum) + Weight(w, Technical) + Weight(w, Risk)
  {
    assert FAMILIES[..4] == [Valuation, Fundamentals, Momentum, Technical];
    assert FAMILIES[..4][..3] == [Valuation, Fundamentals, Momentum];
    assert FAMILIES[..4][..3][..2] == [Valuation, Fundamentals];
    assert FAMILIES[..4][..3][..2][..1] == [Valuation];
    assert FAMILIES[..4][..3][..2][..1][..0] == [];
    assert Sum([Valuation][..0], w) == 0.0;
    assert Sum([Valuation], w) == Weight(w, Valuation);
    assert Sum([Valuation, Fundamentals], w) == Weight(w, Valuation) + Weight(w, Fundamentals);
    assert Sum([Valuation, Fundamentals, Momentum], w) == Weight(w, Valuation) + Weight(w, Fundamentals) + Weight(w, Momentum);
  }

  /** Present and missing weights split the whole. */
  lemma WeightsSplit(families: Families, weights: Weights)
    requires families.Keys == weights.Keys == ALL_FAMILIES
    ensures Sum(FAMILIES, PresentWeights(families, weights)) + Sum(FAMILIES, MissingWeights(families, weights)) == Sum(FAMILIES, weights)
  {
    hide Sum;
    SumFive(PresentWeights(families, weights));
    SumFive(MissingWeights(families, weights));
    SumFive(weights);
  }

  /** The regime weights are twentieths that add up to one. */
  lemma RegimeWeights(regime: Regime)
    ensures WeightsFor(regime).Keys == ALL_FAMILIES && Sum(FAMILIES, WeightsFor(regime)) == 1.0
    ensures forall f :: f in ALL_FAMILIES ==> WeightsFor(regime)[f] > 0.0
  {
    hide Sum;
    SumFive(WeightsFor(regime));
  }

  /** No subset of the regime weights adds up to something strictly between 0.30 and 0.35. */
  lemma MissingIsCoarse(families: Families, regime: Regime)
    requires families.Keys == ALL_FAMILIES
    ensures var m := Sum(FAMILIES, MissingWeights(families, WeightsFor(regime))); m <= 0.30 || m >= 0.35
  {
    hide Sum;
    var m := MissingWeights(families, WeightsFor(regime));
    SumFive(m);
    forall f | f in ALL_FAMILIES ensures Weight(m, f) == 0.0 || Weight(m, f) == WeightsFor(regime)[f] {}
    FiveTwentieths(Weight(m, Valuation), Weight(m, Fundamentals), Weight(m, Momentum), Weight(m, Technical), Weight(m, Risk), regime);
  }

  lemma FiveTwentieths(v: real, f: real, m: real, t: real, r: real, regime: Regime)
    requires v == 0.0 || v == WeightsFor(regime)[Valuation]
    requires f == 0.0 || f == WeightsFor(regime)[Fundamentals]
    requires m == 0.0 || m == WeightsFor(regime)[Momentum]
    requires t == 0.0 || t == WeightsFor(regime)[Technical]
    requires r == 0.0 || r == WeightsFor(regime)[Risk]
    ensures v + f + m + t + r <= 0.30 || v + f + m + t + r >= 0.35
  {}

  /** A name is imputed too heavily exactly when less than 0.70 of its weight was observed. */
  lemma CoverageIffImputation(families: Families, regime: Regime)
    requires families.Keys == ALL_FAMILIES
    ensures ImputedWeight(families, WeightsFor(regime)) <= 0.30
            <==> WeightCovered(families, WeightsFor(regime)) >= 0.70
    ensures WeightCovered(families, WeightsFor(regime)) >= 0.70
            ==> Sum(FAMILIES, PresentWeights(families, WeightsFor(regime))) >= 0.69
  {
    hide Sum, Round4, WeightsFor;
    var w := WeightsFor(regime);
    RegimeWeights(regime);
    WeightsSplit(families, w);
    MissingIsCoarse(families, regime);
    var m, p := Sum(FAMILIES, MissingWeights(families, w)), Sum(FAMILIES, PresentWeights(families, w));
    Round4Facts(m);
    Round4Facts(p);
    Round4Facts(0.70);
    Round4Facts(0.30);
  }

  lemma FillingOnlyAdds(families: Families, sector: Sector, medians: Medians, weights: Weights)
    requires families.Keys == weights.Keys == ALL_FAMILIES && forall f :: f in weights ==> weights[f] >= 0.0
    ensures Sum(FAMILIES, PresentWeights(Filled(families, sector, medians), weights)) >= Sum(FAMILIES, PresentWeights(families, weights))
  {
    hide Sum;
    var a, b := PresentWeights(families, weights), PresentWeights(Filled(families, sector, medians), weights);
    SumFive(a);
    SumFive(b);
    forall f | f in ALL_FAMILIES ensures Weight(a, f) <= Weight(b, f) {}
  }

  lemma NothingPresent(families: Families, weights: Weights)
    requires forall f :: f in families ==> families[f].None?
    ensures Sum(FAMILIES, PresentWeights(families, weights)) == 0.0
  {
    SumFive(PresentWeights(families, weights));
  }

  lemma ScoredIffCovered(observed: Families, coverage: (nat, nat), medians: Medians, regime: Regime, c: StrategyCompany)
    requires observed.Keys == ALL_FAMILIES
    ensures var s := Scored(observed, coverage, medians, WeightsFor(regime), c);
      s.composite.Some? <==> s.weightCovered >= 0.70
  {
    hide Sum, Filled, WeightsFor, ImputedWeight, WeightCovered, Completeness, WeightedScores, PresentWeights;
    var w := WeightsFor(regime);
    CoverageIffImputation(observed, regime);
    RegimeWeights(regime);
    FillingOnlyAdds(observed, c.sector, medians, w);
    var filled := Filled(observed, c.sector, medians);
    if forall f :: f in filled ==> filled[f].None? {
      NothingPresent(filled, w);
    }
  }

  lemma {:induction false} ObservedIsFull(st: Stats, companies: seq<StrategyCompany>, n: nat)
    requires n <= |companies|
    ensures var o := ObservedAll(st, companies, n);
      && (forall i :: 0 <= i < n ==> companies[i].symbol in o)
      && (forall s :: s in o ==> exists i :: 0 <= i < n && companies[i].symbol == s && o[s] == ObservedFamilies(st, companies, companies[i]))
  {
    hide ObservedFamilies;
    if n > 0 {
      ObservedIsFull(st, companies, n - 1);
    }
  }

  /** What each entry of the ranking was computed from. */
  lemma FusedFrom(st: Stats, companies: seq<StrategyCompany>, weights: Weights, i: nat) returns (j: nat, k: nat)
    requires i < |companies|
    ensures j < |companies| && k < |companies| && |Fuse(st, companies, weights)| == |companies|
    ensures Fuse(st, companies, weights)[i]
            == Placed(Scored(ObservedFamilies(st, companies, companies[k]),
                             CoverageFor(CoverageAll(st, companies, |companies|), companies[j].symbol),
                             MediansOf(companies, ObservedAll(st, companies, |companies|)), weights, companies[j]),
                      i, Percentiles(st, Results(st, companies, weights)))
  {
    hide ObservedFamilies, CoverageAll, MediansOf, Scored, Percentiles, Ranked, Placed;
    var results := Results(st, companies, weights);
    var observed := ObservedAll(st, companies, |companies|);
    j := RankedFrom(results, Percentiles(st, results), i);
    ObservedIsFull(st, companies, |companies|);
    k :| 0 <= k < |companies| && observed[companies[j].symbol] == ObservedFamilies(st, companies, companies[k]);
  }

  /** Under the regime weights a name is ranked exactly when at least 0.70 of the weight was observed, so the buy gate on
      coverage never turns down a ranked name. */
  lemma RankedIffCovered(st: Stats, companies: seq<StrategyCompany>, regime: Regime)
    ensures var r := Fuse(st, companies, WeightsFor(regime));
      forall i :: 0 <= i < |r| ==> (r[i].rank.Some? <==> r[i].weightCovered >= 0.70)
  {
    hide ObservedFamily, CoverageAll, MediansOf, Percentiles, WeightsFor, Scored, ObservedAll, Results, Fuse;
    var w := WeightsFor(regime);
    var r := Fuse(st, companies, w);
    FusedLength(st, companies, w);
    forall i | 0 <= i < |r| ensures r[i].rank.Some? <==> r[i].weightCovered >= 0.70 {
      var j, k := FusedFrom(st, companies, w, i);
      var medians := MediansOf(companies, ObservedAll(st, companies, |companies|));
      ScoredIffCovered(ObservedFamilies(st, companies, companies[k]),
                       CoverageFor(CoverageAll(st, companies, |companies|), companies[j].symbol), medians, regime, companies[j]);
    }
  }

  lemma FusedLength(st: Stats, companies: seq<StrategyCompany>, weights: Weights)
    ensures |Fuse(st, companies, weights)| == |companies|
  {
    hide Percentiles, MediansOf, ObservedAll, CoverageAll, Scored, Placed, StableSort;
  }

  /** The whole fusion: dense ranks in composite order, percentiles that never rise with rank, and a gate that cuts a prefix. */
  lemma FusionRanks(st: Stats, companies: seq<StrategyCompany>, weights: Weights)
    requires Proper(st) && forall i, j :: 0 <= i < j < |companies| ==> companies[i].symbol != companies[j].symbol
    ensures var r := Fuse(st, companies, weights);
      && |r| == |companies|
      && (forall i :: 0 <= i < |r| && r[i].rank.Some? ==> r[i].rank.value == i + 1)
      && (forall i, j :: 0 <= i < j < |r| && r[j].rank.Some? ==>
            && r[i].rank.Some? && r[i].composite.Some? && r[j].composite.Some?
            && r[i].composite.value >= r[j].composite.value
            && 0.0 <= r[j].compositePercentile.GetOr(0.0) <= r[i].compositePercentile.GetOr(0.0) <= 100.0)
      && (forall i, j :: 0 <= i < j < |r| && PassesGate(r[j]) ==> PassesGate(r[i]) && r[i].rank.Some?)
  {
    hide Percentiles, Scored, ObservedAll, CoverageAll, MediansOf, Proper, Ordered, ScoredCount, Ranked, Placed;
    var results := Results(st, companies, weights);
    assert DistinctSymbols(results) by {
      forall i, j | 0 <= i < j < |results| ensures results[i].symbol != results[j].symbol {
        ScoredSymbol(st, companies, weights, i);
        ScoredSymbol(st, companies, weights, j);
      }
    }
    RanksAreDense(results, Percentiles(st, results));
    RankAndGateAgree(st, results);
  }

  lemma ScoredSymbol(st: Stats, companies: seq<StrategyCompany>, weights: Weights, i: nat)
    requires i < |companies|
    ensures Results(st, companies, weights)[i].symbol == companies[i].symbol
  {
    hide Filled, ImputedWeight, Composite, WeightCovered, ObservedAll, CoverageAll, MediansOf;
  }
}
