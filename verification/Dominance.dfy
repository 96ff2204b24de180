/** The ranking respects dominance: a company at least as good on every metric never scores lower. */
module Dominance {
  import opened Wrappers
  import opened Domain
  import opened Sums
  import opened Counting
  import opened Sorting
  import opened Rounding
  import opened CrossSection
  import opened Strategy
  import opened Ranking
  import opened CompositeScore

  ghost predicate DistinctCompanies(companies: seq<StrategyCompany>) {
    forall i, j :: 0 <= i < j < |companies| ==> companies[i].symbol != companies[j].symbol
  }

  /** At least as good a raw value: no lower, or for an inverse metric no higher. */
  predicate AsGood(m: string, a: real, b: real) { if m in INVERSE_METRICS then a <= b else a >= b }

  ghost predicate DominatesOn(a: StrategyCompany, b: StrategyCompany, f: Family, m: string) {
    var x, y := Metric(a.signals, f, m), Metric(b.signals, f, m);
    (x.Some? <==> y.Some?) && (x.Some? ==> AsGood(m, x.value, y.value))
  }

  /** Same sector, same metrics reported, and at least as good on each. */
  ghost predicate Dominates(a: StrategyCompany, b: StrategyCompany) {
    a.sector == b.sector && forall f: Family, m: string :: DominatesOn(a, b, f, m)
  }

  // ---------- one metric ----------

  lemma {:induction false} CohortKeeps(companies: seq<StrategyCompany>, f: Family, sector: Sector)
    requires DistinctCompanies(companies)
    ensures DistinctCompanies(Cohort(companies, f, sector))
    ensures forall c :: c in Cohort(companies, f, sector) ==> c in companies
    ensures forall c :: c in companies && c.sector == sector ==> c in Cohort(companies, f, sector)
  {
    if companies != [] {
      var n := |companies| - 1;
      CohortKeeps(companies[..n], f, sector);
      var group := Cohort(companies[..n], f, sector);
      assert companies == companies[..n] + [companies[n]];
      forall i | 0 <= i < |group| ensures group[i].symbol != companies[n].symbol {
        assert group[i] in group && group[i] in companies[..n];
      }
    }
  }

  lemma {:induction false} NotReported(group: seq<StrategyCompany>, f: Family, m: string, s: Symbol)
    requires forall i :: 0 <= i < |group| ==> group[i].symbol != s
    ensures s !in Reported(group, f, m).1
  {
    hide Metric;
    if group != [] {
      NotReported(group[..|group| - 1], f, m, s);
    }
  }

  /** A cohort's reported values are each company's own. */
  lemma {:induction false} ReportedValue(group: seq<StrategyCompany>, f: Family, m: string, k: nat)
    requires DistinctCompanies(group) && k < |group|
    ensures var values := Reported(group, f, m).1; var own := Metric(group[k].signals, f, m);
      (group[k].symbol in values <==> own.Some?) && (own.Some? ==> values[group[k].symbol] == own.value)
  {
    hide Metric;
    var n := |group| - 1;
    if k < n {
      ReportedValue(group[..n], f, m, k);
    } else {
      NotReported(group[..n], f, m, group[n].symbol);
    }
  }

  ghost predicate NoLower(x: Option<real>, y: Option<real>) {
    (x.Some? <==> y.Some?) && (x.Some? ==> x.value >= y.value)
  }

  lemma MetricDominates(st: Stats, companies: seq<StrategyCompany>, a: StrategyCompany, b: StrategyCompany, f: Family,
                        m: string)
    requires Proper(st) && DistinctCompanies(companies) && a in companies && b in companies
    requires a.sector == b.sector && DominatesOn(a, b, f, m)
    ensures NoLower(MetricScore(st, companies, a, f, m), MetricScore(st, companies, b, f, m))
  {
    hide Reported, Cohort, PercentileOf, ScaleOf, Proper, Metric;
    CohortKeeps(companies, f, a.sector);
    var group := Cohort(companies, f, a.sector);
    var j :| 0 <= j < |group| && group[j] == a;
    var k :| 0 <= k < |group| && group[k] == b;
    ReportedValue(group, f, m, j);
    ReportedValue(group, f, m, k);
    var (order, values) := Reported(group, f, m);
    if a.symbol in values {
      PercentileRankOrders(st, order, values, m in INVERSE_METRICS);
    }
  }

  // ---------- one family ----------

  ghost predicate Above(xs: seq<real>, ys: seq<real>) {
    |xs| == |ys| && forall i :: 0 <= i < |xs| ==> xs[i] >= ys[i]
  }

  lemma AboveAppend(xs: seq<real>, ys: seq<real>, x: real, y: real)
    requires Above(xs, ys) && x >= y
    ensures Above(xs + [x], ys + [y])
  {}

  lemma {:induction false} ScoresDominate(st: Stats, companies: seq<StrategyCompany>, a: StrategyCompany,
                                          b: StrategyCompany,
                                          f: Family, metrics: seq<string>)
    requires Proper(st) && DistinctCompanies(companies) && a in companies && b in companies && Dominates(a, b)
    ensures Above(Scores(st, companies, a, f, metrics), Scores(st, companies, b, f, metrics))
  {
    hide MetricScore, Proper, DistinctCompanies, DominatesOn;
    if metrics != [] {
      var n := |metrics| - 1;
      ScoresDominate(st, companies, a, b, f, metrics[..n]);
      assert DominatesOn(a, b, f, metrics[n]);
      MetricDominates(st, companies, a, b, f, metrics[n]);
      var x, y := MetricScore(st, companies, a, f, metrics[n]), MetricScore(st, companies, b, f, metrics[n]);
      var xs, ys := Scores(st, companies, a, f, metrics[..n]), Scores(st, companies, b, f, metrics[..n]);
      if x.Some? {
        AboveAppend(xs, ys, x.value, y.value);
      } else {
        assert xs + [] == xs && ys + [] == ys;
      }
    }
  }

  lemma {:induction false} TotalAbove(xs: seq<real>, ys: seq<real>)
    requires Above(xs, ys)
    ensures Total(xs) >= Total(ys)
  {
    if xs != [] {
      TotalAbove(xs[..|xs| - 1], ys[..|ys| - 1]);
    }
  }

  lemma MeanAbove(xs: seq<real>, ys: seq<real>, applicable: nat)
    requires Above(xs, ys)
    ensures NoLower(FamilyMean(xs, applicable), FamilyMean(ys, applicable))
  {
    if xs != [] {
      hide Round3;
      TotalAbove(xs, ys);
      QuotientMonotone(Total(ys), Total(xs), |xs| as real);
      Round3Facts(Mean(ys));
    }
  }

  lemma FamiliesDominate(st: Stats, companies: seq<StrategyCompany>, a: StrategyCompany, b: StrategyCompany)
    requires Proper(st) && DistinctCompanies(companies) && a in companies && b in companies && Dominates(a, b)
    ensures AllNoLower(ObservedFamilies(st, companies, a), ObservedFamilies(st, companies, b))
  {
    hide Scores, LiveCount, Cohort, MetricsOf, FamilyMean, Proper, DistinctCompanies, NoLower;
    assert a.sector == b.sector;
    forall f: Family ensures NoLower(ObservedFamily(st, companies, a, f), ObservedFamily(st, companies, b, f)) {
      ScoresDominate(st, companies, a, b, f, MetricsOf(f));
      MeanAbove(Scores(st, companies, a, f, MetricsOf(f)), Scores(st, companies, b, f, MetricsOf(f)),
                LiveCount(Cohort(companies, f, a.sector), f, MetricsOf(f)));
    }
  }

  ghost predicate AllNoLower(x: Families, y: Families) {
    x.Keys == y.Keys && forall f :: f in x ==> NoLower(x[f], y[f])
  }

  // ---------- the composite ----------

  lemma FilledNoLower(x: Families, y: Families, sector: Sector, medians: Medians)
    requires AllNoLower(x, y)
    ensures AllNoLower(Filled(x, sector, medians), Filled(y, sector, medians))
  {}

  lemma SameWeights(x: Families, y: Families, weights: Weights)
    requires AllNoLower(x, y)
    ensures PresentWeights(x, weights) == PresentWeights(y, weights) && MissingWeights(x, weights) == MissingWeights(y, weights)
  {}

  lemma ProductAbove(a: real, b: real, weight: real)
    requires a >= b && weight >= 0.0
    ensures Product(a, weight) >= Product(b, weight)
  {
    SlackProduct(a - b, weight);
    assert (a - b) * weight == a * weight - b * weight;
  }

  /** The composite rises with every family score. */
  lemma CompositeMonotone(x: Families, y: Families, weights: Weights)
    requires AllNoLower(x, y) && forall f :: f in weights ==> weights[f] >= 0.0
    ensures NoLower(Composite(x, weights), Composite(y, weights))
  {
    hide Sum, Round3, Product, PresentWeights;
    SameWeights(x, y, weights);
    var total := Sum(FAMILIES, PresentWeights(x, weights));
    var p, q := WeightedScores(x, weights), WeightedScores(y, weights);
    SumFive(p);
    SumFive(q);
    forall f: Family ensures Weight(p, f) >= Weight(q, f) {
      if f in x && x[f].Some? && f in weights {
        ProductAbove(x[f].value, y[f].value, weights[f]);
      }
    }
    TotalWeight(x, weights);
    if total > 0.0 {
      QuotientMonotone(Sum(FAMILIES, q), Sum(FAMILIES, p), total);
      Round3Facts(Sum(FAMILIES, q) / total);
    }
  }

  lemma TotalWeight(x: Families, weights: Weights)
    requires forall f :: f in weights ==> weights[f] >= 0.0
    ensures Sum(FAMILIES, PresentWeights(x, weights)) >= 0.0
  {
    hide Sum;
    SumFive(PresentWeights(x, weights));
  }

  /** A company that dominates another is scored whenever the other is, and no lower, in composite and in percentile. */
  lemma DominanceIsRespected(st: Stats, companies: seq<StrategyCompany>, weights: Weights, i: nat, j: nat)
    requires Proper(st) && DistinctCompanies(companies) && i < |companies| && j < |companies|
    requires Dominates(companies[i], companies[j]) && forall f :: f in weights ==> weights[f] >= 0.0
    ensures var r := Results(st, companies, weights); var pct := Percentiles(st, r);
      && NoLower(r[i].composite, r[j].composite)
      && (r[j].composite.Some? ==>
            r[i].symbol in pct && r[j].symbol in pct && pct[r[i].symbol] >= pct[r[j].symbol])
  {
    hide ObservedFamilies, ObservedAll, MediansOf, Percentiles, Filled, Composite, AllNoLower, Proper, Dominates,
         CoverageAll, Completeness, WeightCovered;
    var a, b := companies[i], companies[j];
    var observed := ObservedAll(st, companies, |companies|);
    var medians := MediansOf(companies, observed);
    OwnFamilies(st, companies, i);
    OwnFamilies(st, companies, j);
    assert a in companies && b in companies;
    FamiliesDominate(st, companies, a, b);
    assert a.sector == b.sector by { SameSector(a, b); }
    var x, y := ObservedFamilies(st, companies, a), ObservedFamilies(st, companies, b);
    assert MissingWeights(x, weights) == MissingWeights(y, weights) by { SameWeights(x, y, weights); }
    FilledNoLower(x, y, a.sector, medians);
    CompositeMonotone(Filled(x, a.sector, medians), Filled(y, a.sector, medians), weights);
    var r := Results(st, companies, weights);
    assert NoLower(r[i].composite, r[j].composite);
    if r[j].composite.Some? {
      ResultsDistinct(st, companies, weights);
      assert r[i] in r && r[j] in r;
      PercentileFollowsComposite(st, r, r[i], r[j]);
    }
  }

  lemma SameSector(a: StrategyCompany, b: StrategyCompany)
    requires Dominates(a, b)
    ensures a.sector == b.sector
  {}

  lemma OwnFamilies(st: Stats, companies: seq<StrategyCompany>, i: nat)
    requires DistinctCompanies(companies) && i < |companies|
    ensures var observed := ObservedAll(st, companies, |companies|);
      companies[i].symbol in observed && observed[companies[i].symbol] == ObservedFamilies(st, companies, companies[i])
  {
    hide ObservedFamilies, ObservedAll;
    ObservedIsFull(st, companies, |companies|);
  }

  lemma ResultsDistinct(st: Stats, companies: seq<StrategyCompany>, weights: Weights)
    requires DistinctCompanies(companies)
    ensures DistinctSymbols(Results(st, companies, weights))
  {
    hide Scored, ObservedAll, CoverageAll, MediansOf;
    var results := Results(st, companies, weights);
    forall i, j | 0 <= i < j < |results| ensures results[i].symbol != results[j].symbol {
      ScoredSymbol(st, companies, weights, i);
      ScoredSymbol(st, companies, weights, j);
    }
  }

  // ---------- data completeness and medians ----------

  lemma {:induction false} PresentIsLive(st: Stats, companies: seq<StrategyCompany>, c: StrategyCompany, f: Family,
                                         metrics: seq<string>)
    ensures PresentCount(st, companies, c, f, metrics) <= LiveCount(Cohort(companies, f, c.sector), f, metrics)
  {
    hide MetricScore, Applicable, Cohort;
    if metrics != [] {
      PresentIsLive(st, companies, c, f, metrics[..|metrics| - 1]);
    }
  }

  lemma {:induction false} PresentIsScored(st: Stats, companies: seq<StrategyCompany>, c: StrategyCompany, f: Family,
                                           metrics: seq<string>)
    ensures PresentCount(st, companies, c, f, metrics) <= |Scores(st, companies, c, f, metrics)|
  {
    hide MetricScore, Applicable, Cohort;
    if metrics != [] {
      PresentIsScored(st, companies, c, f, metrics[..|metrics| - 1]);
    }
  }

  /** A family is kept exactly when the company has a score on at least half as many metrics as its cohort can be judged on, and
      the cohort can be judged on any; so reporting half of the applicable metrics is always enough. */
  lemma FamilyIsKept(st: Stats, companies: seq<StrategyCompany>, c: StrategyCompany, f: Family)
    ensures var live := LiveCount(Cohort(companies, f, c.sector), f, MetricsOf(f));
      var kept := ObservedFamily(st, companies, c, f).Some?;
      && (kept <==> 0 < live <= 2 * |Scores(st, companies, c, f, MetricsOf(f))|)
      && (0 < live <= 2 * PresentCount(st, companies, c, f, MetricsOf(f)) ==> kept)
  {
    hide Scores, PresentCount, LiveCount, Cohort, MetricsOf, Round3, Mean;
    PresentIsScored(st, companies, c, f, MetricsOf(f));
  }

  /** The companies of one sector. */
  function OfSector(companies: seq<StrategyCompany>, sector: Sector): seq<StrategyCompany> {
    if companies == [] then []
    else
      var n := |companies| - 1;
      OfSector(companies[..n], sector) + if companies[n].sector == sector then [companies[n]] else []
  }

  lemma {:induction false} SectorCohort(companies: seq<StrategyCompany>, f: Family, sector: Sector)
    requires SectorRelative(f)
    ensures Cohort(companies, f, sector) == OfSector(companies, sector)
  {
    if companies != [] {
      SectorCohort(companies[..|companies| - 1], f, sector);
    }
  }

  lemma {:induction false} ScoresFromCohort(st: Stats, xs: seq<StrategyCompany>, ys: seq<StrategyCompany>, c: StrategyCompany, f: Family,
                                            metrics: seq<string>)
    requires Cohort(xs, f, c.sector) == Cohort(ys, f, c.sector)
    ensures Scores(st, xs, c, f, metrics) == Scores(st, ys, c, f, metrics)
  {
    hide Cohort, Reported, PercentileRank;
    if metrics != [] {
      ScoresFromCohort(st, xs, ys, c, f, metrics[..|metrics| - 1]);
    }
  }

  /** Valuation and fundamentals are judged against the company's own sector only: the rest of the universe cannot move them. */
  lemma SectorFamiliesAreLocal(st: Stats, xs: seq<StrategyCompany>, ys: seq<StrategyCompany>, c: StrategyCompany, f: Family)
    requires SectorRelative(f) && OfSector(xs, c.sector) == OfSector(ys, c.sector)
    ensures ObservedFamily(st, xs, c, f) == ObservedFamily(st, ys, c, f)
  {
    hide Scores, LiveCount, Cohort, MetricsOf, FamilyMean;
    SectorCohort(xs, f, c.sector);
    SectorCohort(ys, f, c.sector);
    ScoresFromCohort(st, xs, ys, c, f, MetricsOf(f));
  }

  lemma {:induction false} PresentTotalIsLive(st: Stats, companies: seq<StrategyCompany>, c: StrategyCompany,
                                              families: seq<Family>)
    ensures PresentTotal(st, companies, c, families) <= LiveTotal(companies, c.sector, families)
  {
    hide PresentCount, LiveCount, Cohort, MetricsOf;
    if families != [] {
      PresentTotalIsLive(st, companies, c, families[..|families| - 1]);
      PresentIsLive(st, companies, c, families[|families| - 1], MetricsOf(families[|families| - 1]));
    }
  }

  lemma CompletenessInRange(present: nat, applicable: nat)
    requires present <= applicable
    ensures 0.0 <= Completeness(present, applicable) <= 1.0
  {
    if applicable > 0 {
      var n := applicable as real;
      QuotientMonotone(0.0, present as real, n);
      QuotientMonotone(present as real, n, n);
      ProductQuotient(n, 0.0);
      ProductQuotient(n, 1.0);
      assert Round4(0.0) == 0.0 && Round4(1.0) == 1.0;
      Round4Facts(0.0);
      Round4Facts(present as real / applicable as real);
    }
  }

  lemma CoverageOfIsFraction(st: Stats, companies: seq<StrategyCompany>, c: StrategyCompany)
    ensures CoverageOf(st, companies, c).0 <= CoverageOf(st, companies, c).1
  {
    hide PresentTotal, LiveTotal;
    PresentTotalIsLive(st, companies, c, FAMILIES);
  }

  lemma {:induction false} CoverageIsFraction(st: Stats, companies: seq<StrategyCompany>, n: nat, s: Symbol)
    requires n <= |companies|
    ensures var coverage := CoverageFor(CoverageAll(st, companies, n), s); coverage.0 <= coverage.1
  {
    hide CoverageOf;
    if n > 0 {
      CoverageIsFraction(st, companies, n - 1, s);
      CoverageOfIsFraction(st, companies, companies[n - 1]);
    }
  }

  /** A name's data completeness is a fraction, because rare metrics never enter its numerator. */
  lemma CompletenessIsFraction(st: Stats, companies: seq<StrategyCompany>, weights: Weights)
    ensures var r := Results(st, companies, weights); forall i :: 0 <= i < |r| ==> 0.0 <= r[i].dataCompleteness <= 1.0
  {
    hide ObservedAll, CoverageAll, MediansOf, Filled, Composite, ImputedWeight, WeightCovered, Completeness;
    var r, coverage := Results(st, companies, weights), CoverageAll(st, companies, |companies|);
    forall i | 0 <= i < |r| ensures 0.0 <= r[i].dataCompleteness <= 1.0 {
      CoverageIsFraction(st, companies, |companies|, companies[i].symbol);
      var (present, applicable) := CoverageFor(coverage, companies[i].symbol);
      CompletenessInRange(present, applicable);
    }
  }

  function AtMost(v: real): real -> bool { x => x <= v }

  function AtLeast(v: real): real -> bool { x => x >= v }

  /** The value that stands in for a missing family is typical of its sector: at least half of the observed scores are no higher
      and at least half are no lower. */
  lemma MedianSplits(xs: seq<real>)
    requires xs != []
    ensures 2 * Count(xs, AtMost(Median(xs))) >= |xs| && 2 * Count(xs, AtLeast(Median(xs))) >= |xs|
  {
    hide StableSort, Count;
    var s, m, n := Sorted(xs), Median(xs), |xs|;
    assert forall i, j :: 0 <= i <= j < n ==> s[i] <= s[j] by { CrossSection.Ascending(s); }
    CountAtLeast(s, AtMost(m), 0, (n + 1) / 2);
    CountAtLeast(s, AtLeast(m), n / 2, n);
    CountPermutes(s, xs, AtMost(m));
    CountPermutes(s, xs, AtLeast(m));
  }
}
