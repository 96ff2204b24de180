/** What the numbers of the ranking mean: cohorts, metric scores, family scores, composites and coverage, from the signals up. */
module FusionMeaning {
  import opened Wrappers
  import opened Domain
  import opened Keys
  import opened Sums
  import opened Sorting
  import opened Rounding
  import opened CrossSection
  import opened Regimes
  import opened Strategy
  import opened Ranking
  import opened Dominance
  import opened Fusion

  // ---------- who is compared with whom ----------

  /** Valuation and fundamentals compare a company with its own sector, the other families with everybody. */
  lemma {:induction false} CohortIs(companies: seq<StrategyCompany>, f: Family, sector: Sector, c: StrategyCompany)
    ensures multiset(Cohort(companies, f, sector))[c]
            == if f in {Momentum, Technical, Risk} || c.sector == sector then multiset(companies)[c] else 0
  {
    if companies != [] {
      var n := |companies| - 1;
      CohortIs(companies[..n], f, sector, c);
      CountLast(companies, c);
      CohortNext(companies, f, sector);
      if f in {Momentum, Technical, Risk} || companies[n].sector == sector {
        CountLast(Cohort(companies, f, sector), c);
      }
    }
  }

  lemma CohortNext(companies: seq<StrategyCompany>, f: Family, sector: Sector)
    requires companies != []
    ensures var n := |companies| - 1; var before, after := Cohort(companies[..n], f, sector), Cohort(companies, f, sector);
      if f in {Momentum, Technical, Risk} || companies[n].sector == sector
      then |after| == |before| + 1 && after[..|before|] == before && after[|before|] == companies[n]
      else after == before
  {}

  /** The raw value a company reports for a metric. */
  ghost predicate Reports(c: StrategyCompany, f: Family, m: string, v: real) {
    f in c.signals && m in c.signals[f] && c.signals[f][m] == Some(v)
  }

  ghost predicate HasMetric(c: StrategyCompany, f: Family, m: string) { exists v :: Reports(c, f, m, v) }

  lemma ReportsIs(c: StrategyCompany, f: Family, m: string, v: real)
    ensures Reports(c, f, m, v) <==> Metric(c.signals, f, m) == Some(v)
  {}

  /** The position of the member that a value comes from. */
  ghost predicate ReportedBy(group: seq<StrategyCompany>, f: Family, m: string, s: Symbol, v: real, k: int) {
    0 <= k < |group| && group[k].symbol == s && Reports(group[k], f, m, v)
  }

  /** A metric is ranked among exactly the members that report it, each with its own value. */
  lemma {:induction false} ReportedIs(group: seq<StrategyCompany>, f: Family, m: string)
    requires DistinctCompanies(group)
    ensures var (order, values) := Reported(group, f, m);
      && NoDup(order)
      && (forall s :: s in values ==> exists k :: ReportedBy(group, f, m, s, values[s], k))
      && (forall k, v :: 0 <= k < |group| && ReportedBy(group, f, m, group[k].symbol, v, k) ==>
            group[k].symbol in values && values[group[k].symbol] == v)
  {
    hide Reports, Metric;
    if group != [] {
      var n := |group| - 1;
      var init, last := group[..n], group[n];
      ReportedIs(init, f, m);
      var before, after := Reported(init, f, m).1, Reported(group, f, m).1;
      var x := Metric(last.signals, f, m);
      assert after == if x.None? then before else before[last.symbol := x.value];
      forall s | s in before ensures s != last.symbol {
        var k :| ReportedBy(init, f, m, s, before[s], k);
        assert group[k].symbol == s;
      }
      if x.Some? { ReportsIs(last, f, m, x.value); }
      forall s | s in after ensures exists k :: ReportedBy(group, f, m, s, after[s], k) {
        if x.Some? && s == last.symbol {
          assert ReportedBy(group, f, m, s, after[s], n);
        } else {
          var k :| ReportedBy(init, f, m, s, before[s], k);
          assert ReportedBy(group, f, m, s, after[s], k);
        }
      }
      forall k, v | 0 <= k < |group| && ReportedBy(group, f, m, group[k].symbol, v, k)
        ensures group[k].symbol in after && after[group[k].symbol] == v
      {
        if k == n {
          ReportsIs(last, f, m, v);
        } else {
          assert ReportedBy(init, f, m, init[k].symbol, v, k);
        }
      }
    }
  }

  /** For these metrics less is better. */
  ghost predicate LessIsBetter(m: string) {
    m in {"ev_ebitda", "forward_pe", "peg", "price_to_book", "debt_to_equity", "atr_pct",
          "beta_distance", "vol_90d", "corr_to_holdings", "days_to_earnings"}
  }

  lemma InverseIsLess(m: string)
    ensures m in INVERSE_METRICS <==> LessIsBetter(m)
  {}

  /** A company scores on a metric exactly when it reports it, with its percentile among the members of its cohort that do. */
  lemma MetricScoreIs(st: Stats, companies: seq<StrategyCompany>, c: StrategyCompany, f: Family, m: string)
    returns (order: seq<Symbol>, values: map<Symbol, real>)
    requires DistinctCompanies(companies) && c in companies
    ensures NoDup(order) && (forall s :: s in order <==> s in values)
    ensures forall o, v :: o in companies && (f in {Momentum, Technical, Risk} || o.sector == c.sector) && Reports(o, f, m, v)
              ==> o.symbol in values && values[o.symbol] == v
    ensures forall s :: s in values ==>
              exists o :: o in companies && o.symbol == s && (f in {Momentum, Technical, Risk} || o.sector == c.sector)
                          && Reports(o, f, m, values[s])
    ensures MetricScore(st, companies, c, f, m).Some? <==> HasMetric(c, f, m)
    ensures MetricScore(st, companies, c, f, m).Some? ==>
              && c.symbol in order
              && MetricScore(st, companies, c, f, m).value == PercentileRank(st, order, values, LessIsBetter(m))[c.symbol]
  {
    hide Cohort, PercentileOf, ScaleOf, Reported;
    var group := Cohort(companies, f, c.sector);
    var r := Reported(group, f, m);
    order, values := r.0, r.1;
    forall o ensures o in group <==> o in companies && (f in {Momentum, Technical, Risk} || o.sector == c.sector) {
      CohortIs(companies, f, c.sector, o);
      assert o in group <==> multiset(group)[o] > 0;
      assert o in companies <==> multiset(companies)[o] > 0;
    }
    CohortDistinct(companies, f, c.sector);
    ReportedIs(group, f, m);
    InverseIsLess(m);
    forall o, v | o in group && Reports(o, f, m, v) ensures o.symbol in values && values[o.symbol] == v {
      var k :| 0 <= k < |group| && group[k] == o;
      assert ReportedBy(group, f, m, group[k].symbol, v, k);
    }
    forall s | s in values ensures exists o :: o in group && o.symbol == s && Reports(o, f, m, values[s]) {
      var k :| ReportedBy(group, f, m, s, values[s], k);
      assert group[k] in group;
    }
    if c.symbol in values {
      var o :| o in group && o.symbol == c.symbol && Reports(o, f, m, values[c.symbol]);
      SameCompany(companies, o, c);
    }
  }

  lemma SameCompany(companies: seq<StrategyCompany>, o: StrategyCompany, c: StrategyCompany)
    requires DistinctCompanies(companies) && o in companies && c in companies && o.symbol == c.symbol
    ensures o == c
  {
    var i :| 0 <= i < |companies| && companies[i] == o;
    var j :| 0 <= j < |companies| && companies[j] == c;
    assert i == j;
  }

  lemma {:induction false} CohortDistinct(companies: seq<StrategyCompany>, f: Family, sector: Sector)
    requires DistinctCompanies(companies)
    ensures DistinctCompanies(Cohort(companies, f, sector)) && forall c :: c in Cohort(companies, f, sector) ==> c in companies
  {
    if companies != [] {
      var n := |companies| - 1;
      CohortDistinct(companies[..n], f, sector);
      var init := Cohort(companies[..n], f, sector);
      forall i | 0 <= i < |init| ensures init[i].symbol != companies[n].symbol {
        assert init[i] in init;
      }
    }
  }

  // ---------- which metrics count ----------

  ghost function Reporters(group: seq<StrategyCompany>, f: Family, m: string): set<nat> {
    set i: nat | i < |group| && HasMetric(group[i], f, m)
  }

  lemma MetricIsReported(c: StrategyCompany, f: Family, m: string)
    ensures Metric(c.signals, f, m).Some? <==> HasMetric(c, f, m)
  {
    var v := Metric(c.signals, f, m);
    assert v.Some? ==> Reports(c, f, m, v.value);
  }

  lemma {:induction false} CoveredIs(group: seq<StrategyCompany>, f: Family, m: string)
    ensures Covered(group, f, m) == |Reporters(group, f, m)|
  {
    hide HasMetric, Metric;
    if group == [] {
      assert Reporters(group, f, m) == {};
    } else {
      var n := |group| - 1;
      CoveredIs(group[..n], f, m);
      MetricIsReported(group[n], f, m);
      var before, after := Reporters(group[..n], f, m), Reporters(group, f, m);
      assert forall k: nat :: k in after <==> k in before || (k == n && HasMetric(group[n], f, m));
      OneMore(before, after, n, HasMetric(group[n], f, m));
    }
  }

  /** A metric applies to a cohort when at least a fifth of its members report it. */
  lemma AppliesIff(group: seq<StrategyCompany>, f: Family, m: string)
    ensures Applicable(group, f, m) <==> group != [] && 5 * |Reporters(group, f, m)| >= |group|
  {
    CoveredIs(group, f, m);
    if group != [] {
      FifthOf(Covered(group, f, m), |group|);
    }
  }

  lemma FifthOf(covered: nat, n: nat)
    requires n > 0
    ensures covered as real / n as real >= 0.20 <==> 5 * covered >= n
  {
    var q := covered as real / n as real;
    assert q * n as real == covered as real;
    if q >= 0.20 {
      assert (q - 0.20) * n as real >= 0.0;
    } else {
      assert (0.20 - q) * n as real > 0.0;
    }
  }

  // ---------- family scores ----------

  function MetricScores(st: Stats, companies: seq<StrategyCompany>, c: StrategyCompany, f: Family, metrics: seq<string>): map<string, real>
  {
    map m | m in metrics && MetricScore(st, companies, c, f, m).Some? :: MetricScore(st, companies, c, f, m).value
  }

  lemma {:induction false} ScoresAre(st: Stats, companies: seq<StrategyCompany>, c: StrategyCompany, f: Family, metrics: seq<string>,
                                     own: map<string, real>)
    requires forall m :: m in metrics ==>
               if MetricScore(st, companies, c, f, m).Some? then m in own && own[m] == MetricScore(st, companies, c, f, m).value
               else m !in own
    ensures var scores := Scores(st, companies, c, f, metrics);
      && Total(scores) == Sum(metrics, own)
      && |scores| as real == Sum(metrics, map m | m in own :: 1.0)
  {
    hide MetricScore, Total;
    if metrics == [] {
      TotalOfNone();
    } else {
      var n := |metrics| - 1;
      var init, score := Scores(st, companies, c, f, metrics[..n]), MetricScore(st, companies, c, f, metrics[n]);
      ScoresAre(st, companies, c, f, metrics[..n], own);
      assert metrics[n] in metrics;
      if score.Some? {
        TotalAppend(init, score.value);
      } else {
        assert init + [] == init;
      }
    }
  }

  lemma TotalOfNone()
    ensures Total([]) == 0.0
  {}

  lemma TotalAppend(xs: seq<real>, x: real)
    ensures Total(xs + [x]) == Total(xs) + x
  {
    assert (xs + [x])[..|xs|] == xs;
  }

  /** A family score is the mean of the company's scores on the family's metrics, to three decimals. */
  lemma FamilyScoreIs(st: Stats, companies: seq<StrategyCompany>, c: StrategyCompany, f: Family)
    requires ObservedFamily(st, companies, c, f).Some?
    ensures var scores := MetricScores(st, companies, c, f, MetricsOf(f));
      var n := Sum(MetricsOf(f), map m | m in scores :: 1.0);
      && n > 0.0
      && -0.0005 <= ObservedFamily(st, companies, c, f).value - Sum(MetricsOf(f), scores) / n <= 0.0005
  {
    hide Scores, MetricScore, LiveCount, Cohort, MetricsOf, Round3, Total, Sum;
    var scores := Scores(st, companies, c, f, MetricsOf(f));
    ScoresAre(st, companies, c, f, MetricsOf(f), MetricScores(st, companies, c, f, MetricsOf(f)));
    Round3Facts(Mean(scores));
  }

  // ---------- imputation ----------

  /** The median: the middle value, or halfway between the two in the middle. */
  lemma MedianIsMiddle(xs: seq<real>)
    requires xs != []
    ensures |Sorted(xs)| == |xs| && multiset(Sorted(xs)) == multiset(xs)
    ensures 2.0 * Median(xs) == Sorted(xs)[(|xs| - 1) / 2] + Sorted(xs)[|xs| / 2]
  {
    hide StableSort;
  }

  ghost predicate ScoresExactly(c: StrategyCompany, observed: map<Symbol, Families>, key: (Sector, Family), x: real) {
    && c.sector == key.0 && c.symbol in observed && key.1 in observed[c.symbol] && observed[c.symbol][key.1] == Some(x)
  }

  ghost function Holders(companies: seq<StrategyCompany>, observed: map<Symbol, Families>, key: (Sector, Family), x: real): set<nat> {
    set i: nat | i < |companies| && ScoresExactly(companies[i], observed, key, x)
  }

  lemma ContributionIs(c: StrategyCompany, observed: map<Symbol, Families>, key: (Sector, Family), x: real)
    ensures multiset(Contribution(c, observed, key))[x] == if ScoresExactly(c, observed, key, x) then 1 else 0
  {}

  /** The values a median is taken of: the observed scores of the sector's companies, each as often as it occurs. */
  lemma {:induction false} BucketIs(companies: seq<StrategyCompany>, observed: map<Symbol, Families>, key: (Sector, Family), x: real)
    ensures multiset(Bucket(companies, observed, key))[x] == |Holders(companies, observed, key, x)|
  {
    hide ScoresExactly, Contribution;
    if companies == [] {
      assert Holders(companies, observed, key, x) == {};
    } else {
      var n := |companies| - 1;
      BucketIs(companies[..n], observed, key, x);
      ContributionIs(companies[n], observed, key, x);
      var before, after := Holders(companies[..n], observed, key, x), Holders(companies, observed, key, x);
      assert forall k: nat :: k in after <==> k in before || (k == n && ScoresExactly(companies[n], observed, key, x));
      OneMore(before, after, n, ScoresExactly(companies[n], observed, key, x));
    }
  }

  /** A missing family stands at the sector's median, to three decimals, where the sector has one. */
  lemma FilledIs(families: Families, sector: Sector, medians: Medians, f: Family)
    requires f in families
    ensures var filled := Filled(families, sector, medians);
      && f in filled
      && (families[f].Some? ==> filled[f] == families[f])
      && (families[f].None? && (sector, f) !in medians ==> filled[f] == None)
      && (families[f].None? && (sector, f) in medians ==>
            filled[f].Some? && -0.0005 <= filled[f].value - medians[(sector, f)] <= 0.0005)
  {
    hide Round3;
    if (sector, f) in medians {
      Round3Facts(medians[(sector, f)]);
    }
  }

  // ---------- weights and composite ----------

  /** The weight a present family carries. */
  function Carries(families: Families, weights: Weights, f: Family): real {
    if f in families && families[f].Some? && f in weights then weights[f] else 0.0
  }

  /** The weight a missing family would have carried. */
  function Lacks(families: Families, weights: Weights, f: Family): real {
    if f in families && families[f].None? && f in weights then weights[f] else 0.0
  }

  function Counts(families: Families, weights: Weights, f: Family): real {
    if f in families && families[f].Some? && f in weights then families[f].value * weights[f] else 0.0
  }

  /** Coverage is the weight of the observed families and imputation that of the missing ones, to four decimals. */
  lemma WeightsAre(families: Families, weights: Weights)
    ensures var present := Carries(families, weights, Valuation) + Carries(families, weights, Fundamentals)
                           + Carries(families, weights, Momentum) + Carries(families, weights, Technical)
                           + Carries(families, weights, Risk);
      -0.00005 <= WeightCovered(families, weights) - present <= 0.00005
    ensures var missing := Lacks(families, weights, Valuation) + Lacks(families, weights, Fundamentals)
                           + Lacks(families, weights, Momentum) + Lacks(families, weights, Technical)
                           + Lacks(families, weights, Risk);
      -0.00005 <= ImputedWeight(families, weights) - missing <= 0.00005
  {
    hide Round4, Sum;
    SumFive(PresentWeights(families, weights));
    SumFive(MissingWeights(families, weights));
    Round4Facts(Sum(FAMILIES, PresentWeights(families, weights)));
    Round4Facts(Sum(FAMILIES, MissingWeights(families, weights)));
  }

  /** The composite is the weighted mean of the present families, to three decimals; there is none without weight on any. */
  lemma CompositeIs(families: Families, weights: Weights)
    ensures var total := Carries(families, weights, Valuation) + Carries(families, weights, Fundamentals)
                         + Carries(families, weights, Momentum) + Carries(families, weights, Technical)
                         + Carries(families, weights, Risk);
      var sum := Counts(families, weights, Valuation) + Counts(families, weights, Fundamentals)
                 + Counts(families, weights, Momentum) + Counts(families, weights, Technical)
                 + Counts(families, weights, Risk);
      && (Composite(families, weights).Some? <==> total != 0.0)
      && (total != 0.0 ==> -0.0005 <= Composite(families, weights).value - sum / total <= 0.0005)
  {
    hide Round3, Sum, Product;
    var p, q := PresentWeights(families, weights), WeightedScores(families, weights);
    SumFive(p);
    SumFive(q);
    forall f: Family ensures Weight(p, f) == Carries(families, weights, f) && Weight(q, f) == Counts(families, weights, f) {
      if f in families && families[f].Some? && f in weights {
        ProductIs(families[f].value, weights[f]);
      }
    }
    if Sum(FAMILIES, p) != 0.0 {
      Round3Facts(Sum(FAMILIES, q) / Sum(FAMILIES, p));
    }
  }

  lemma ProductIs(a: real, b: real)
    ensures Product(a, b) == a * b
  {}

  /** A company is scored from its own observations: its families are the observed ones filled from its sector, it has a composite
      only when less than 30% of the weight had to be filled in, and coverage is that of the observed families. */
  lemma ScoreIs(observed: Families, coverage: (nat, nat), medians: Medians, weights: Weights, c: StrategyCompany)
    ensures var s := Scored(observed, coverage, medians, weights, c);
      && s.symbol == c.symbol && s.families == Filled(observed, c.sector, medians) && s.rank == None && s.compositePercentile == None
      && s.composite == (if ImputedWeight(observed, weights) <= 0.30 then Composite(s.families, weights) else None)
      && s.weightCovered == WeightCovered(observed, weights)
      && (coverage.1 == 0 ==> s.dataCompleteness == 0.0)
      && (coverage.1 > 0 ==> -0.00005 <= s.dataCompleteness - coverage.0 as real / coverage.1 as real <= 0.00005)
  {
    hide Round4, Filled, ImputedWeight, Composite, WeightCovered;
    if coverage.1 > 0 {
      Round4Facts(coverage.0 as real / coverage.1 as real);
    }
  }

  /** The weight of each family in each regime, in percent. */
  lemma PublishedWeights(r: Regime)
    ensures var w := WeightsFor(r); var percent := match r
      case RiskOn => [20.0, 15.0, 40.0, 15.0, 10.0]
      case Neutral => [25.0, 20.0, 30.0, 15.0, 10.0]
      case RiskOff => [20.0, 20.0, 25.0, 10.0, 25.0];
      && w.Keys == {Valuation, Fundamentals, Momentum, Technical, Risk}
      && [w[Valuation], w[Fundamentals], w[Momentum], w[Technical], w[Risk]] == seq(5, i requires 0 <= i < 5 => percent[i] / 100.0)
  {}

  // ---------- one company's line in the ranking ----------

  ghost function Positions(metrics: seq<string>, on: string -> bool): set<nat> {
    set k: nat | k < |metrics| && on(metrics[k])
  }

  lemma NextPosition(metrics: seq<string>, on: string -> bool)
    requires metrics != []
    ensures var n := |metrics| - 1; |Positions(metrics, on)| == |Positions(metrics[..n], on)| + if on(metrics[n]) then 1 else 0
  {
    var n := |metrics| - 1;
    var before, after := Positions(metrics[..n], on), Positions(metrics, on);
    assert forall k: nat :: k in after <==> k in before || (k == n && on(metrics[n]));
    OneMore(before, after, n, on(metrics[n]));
  }

  /** Applicable metrics of a family, and those of them on which the company has a score. */
  lemma {:induction false} CountsAre(st: Stats, companies: seq<StrategyCompany>, c: StrategyCompany, f: Family, metrics: seq<string>)
    ensures var group := Cohort(companies, f, c.sector);
      && LiveCount(group, f, metrics) == |Positions(metrics, m => Applicable(group, f, m))|
      && PresentCount(st, companies, c, f, metrics)
         == |Positions(metrics, m => Applicable(group, f, m) && MetricScore(st, companies, c, f, m).Some?)|
  {
    hide MetricScore, Applicable, Cohort, Positions;
    var group := Cohort(companies, f, c.sector);
    var live := m => Applicable(group, f, m);
    var both := m => Applicable(group, f, m) && MetricScore(st, companies, c, f, m).Some?;
    if metrics == [] {
      NoPositions(metrics, live);
      NoPositions(metrics, both);
    } else {
      CountsAre(st, companies, c, f, metrics[..|metrics| - 1]);
      NextPosition(metrics, live);
      NextPosition(metrics, both);
    }
  }

  lemma NoPositions(metrics: seq<string>, on: string -> bool)
    requires metrics == []
    ensures |Positions(metrics, on)| == 0
  {
    assert Positions(metrics, on) == {};
  }

  /** A company's coverage adds up its five families: metrics present and applicable, and metrics applicable. */
  lemma CoverageAddsUp(st: Stats, companies: seq<StrategyCompany>, c: StrategyCompany)
    ensures var (present, applicable) := CoverageOf(st, companies, c);
      && present == PresentIn(st, companies, c, Valuation) + PresentIn(st, companies, c, Fundamentals)
                    + PresentIn(st, companies, c, Momentum) + PresentIn(st, companies, c, Technical) + PresentIn(st, companies, c, Risk)
      && applicable == LiveIn(companies, c, Valuation) + LiveIn(companies, c, Fundamentals)
                       + LiveIn(companies, c, Momentum) + LiveIn(companies, c, Technical) + LiveIn(companies, c, Risk)
  {
    hide PresentCount, LiveCount, Cohort, MetricsOf;
    var f := FAMILIES;
    assert f[..4][..3] == f[..3] && f[..3][..2] == f[..2] && f[..2][..1] == f[..1] && f[..1][..0] == [];
    TotalsNext(st, companies, c, f);
    TotalsNext(st, companies, c, f[..4]);
    TotalsNext(st, companies, c, f[..3]);
    TotalsNext(st, companies, c, f[..2]);
    TotalsNext(st, companies, c, f[..1]);
  }

  function PresentIn(st: Stats, companies: seq<StrategyCompany>, c: StrategyCompany, f: Family): nat {
    PresentCount(st, companies, c, f, MetricsOf(f))
  }

  function LiveIn(companies: seq<StrategyCompany>, c: StrategyCompany, f: Family): nat {
    LiveCount(Cohort(companies, f, c.sector), f, MetricsOf(f))
  }

  lemma TotalsNext(st: Stats, companies: seq<StrategyCompany>, c: StrategyCompany, families: seq<Family>)
    requires families != []
    ensures var n := |families| - 1; var f := families[n];
      && PresentTotal(st, companies, c, families) == PresentTotal(st, companies, c, families[..n]) + PresentIn(st, companies, c, f)
      && LiveTotal(companies, c.sector, families) == LiveTotal(companies, c.sector, families[..n]) + LiveIn(companies, c, f)
    ensures PresentTotal(st, companies, c, []) == 0 && LiveTotal(companies, c.sector, []) == 0
  {
    hide PresentCount, LiveCount, Cohort, MetricsOf;
  }

  /** In a universe of distinct companies every result is made of the company's own observations and counts, and of the medians
      of what all companies were observed at. */
  lemma ResultIsOwn(st: Stats, companies: seq<StrategyCompany>, weights: Weights, i: nat)
    requires DistinctCompanies(companies) && i < |companies|
    ensures var c := companies[i]; var observed := ObservedAll(st, companies, |companies|);
      && (forall k :: 0 <= k < |companies| ==>
            companies[k].symbol in observed && observed[companies[k].symbol] == ObservedFamilies(st, companies, companies[k]))
      && Results(st, companies, weights)[i]
         == Scored(ObservedFamilies(st, companies, c), CoverageOf(st, companies, c), MediansOf(companies, observed), weights, c)
  {
    hide ObservedFamilies, ObservedAll, CoverageOf, CoverageAll, MediansOf, Scored;
    ObservedIsFull(st, companies, |companies|);
    OwnFamilies(st, companies, i);
    OwnCoverage(st, companies, |companies|, i);
    forall k | 0 <= k < |companies|
      ensures companies[k].symbol in ObservedAll(st, companies, |companies|)
      ensures ObservedAll(st, companies, |companies|)[companies[k].symbol] == ObservedFamilies(st, companies, companies[k])
    {
      OwnFamilies(st, companies, k);
    }
  }

  lemma {:induction false} OwnCoverage(st: Stats, companies: seq<StrategyCompany>, n: nat, i: nat)
    requires DistinctCompanies(companies) && i < n <= |companies|
    ensures var coverage := CoverageAll(st, companies, n);
      companies[i].symbol in coverage && coverage[companies[i].symbol] == CoverageOf(st, companies, companies[i])
  {
    hide CoverageOf;
    if i < n - 1 {
      OwnCoverage(st, companies, n - 1, i);
    }
  }

  /** The gated percentile of a scored company is its percentile among all composites, higher being better. */
  lemma PercentileIsOfComposites(st: Stats, results: seq<StrategyScore>, s: StrategyScore)
    requires DistinctSymbols(results) && s in results && s.composite.Some?
    ensures var (order, values) := Composites(results);
      && s.symbol in order && values[s.symbol] == s.composite.value
      && (forall u :: u in values ==> exists k :: ComesFrom(results, u, values[u], k))
      && (forall r :: r in results && r.composite.Some? ==> r.symbol in values && values[r.symbol] == r.composite.value)
      && s.symbol in Percentiles(st, results)
      && Percentiles(st, results)[s.symbol] == PercentileRank(st, order, values, false)[s.symbol]
  {
    hide PercentileOf, ScaleOf, DistinctSymbols, Composites;
    CompositesAre(results);
  }

  /** The position of the result that a composite comes from. */
  ghost predicate ComesFrom(results: seq<StrategyScore>, u: Symbol, x: real, k: int) {
    0 <= k < |results| && results[k].symbol == u && results[k].composite == Some(x)
  }

  lemma {:induction false} CompositesAre(results: seq<StrategyScore>)
    requires DistinctSymbols(results)
    ensures var (order, values) := Composites(results);
      && (forall u :: u in values ==> exists k :: ComesFrom(results, u, values[u], k))
      && forall r :: r in results && r.composite.Some? ==> r.symbol in values && values[r.symbol] == r.composite.value
  {
    if results != [] {
      var n := |results| - 1;
      var init, last := results[..n], results[n];
      CompositesAre(init);
      assert results == init + [last];
      forall r | r in init ensures r.symbol != last.symbol {
        var k :| 0 <= k < n && init[k] == r;
      }
      var before, after := Composites(init).1, Composites(results).1;
      assert after == if last.composite.None? then before else before[last.symbol := last.composite.value];
      forall u | u in after ensures exists k :: ComesFrom(results, u, after[u], k) {
        if last.composite.Some? && u == last.symbol {
          assert ComesFrom(results, u, after[u], n);
        } else {
          var k :| ComesFrom(init, u, before[u], k);
          assert ComesFrom(results, u, after[u], k);
        }
      }
    }
  }

  // ---------- ties, places and attribution ----------

  function Tied(rs: seq<StrategyScore>, x: real): seq<StrategyScore> {
    if rs == [] then [] else Tied(rs[..|rs| - 1], x) + if rs[|rs| - 1].composite == Some(x) then [rs[|rs| - 1]] else []
  }

  lemma TiedAppend(rs: seq<StrategyScore>, r: StrategyScore, x: real)
    ensures Tied(rs + [r], x) == Tied(rs, x) + if r.composite == Some(x) then [r] else []
  {
    assert (rs + [r])[..|rs|] == rs;
  }

  lemma {:induction false} TiedWithKey(rs: seq<StrategyScore>, key: StrategyScore -> real, k: real, x: real)
    requires forall r: StrategyScore :: r.composite == Some(x) ==> key(r) == k
    ensures Tied(WithKey(rs, key, k), x) == Tied(rs, x)
  {
    if rs != [] {
      var n := |rs| - 1;
      TiedWithKey(rs[..n], key, k, x);
      if key(rs[n]) == k {
        TiedAppend(WithKey(rs[..n], key, k), rs[n], x);
      } else {
        assert WithKey(rs, key, k) == WithKey(rs[..n], key, k);
      }
    }
  }

  /** Companies with equal composites are ranked in the order they were listed. */
  lemma TiesKeepOrder(results: seq<StrategyScore>, x: real)
    ensures Tied(Ordered(results), x) == Tied(results, x)
  {
    hide StableSort, WithKey, Tied;
    var first := StableSort(results, BestFirst);
    StableSortStable(results, BestFirst, -x);
    StableSortStable(first, NullLast, 0.0);
    TiedWithKey(results, BestFirst, -x, x);
    TiedWithKey(first, BestFirst, -x, x);
    TiedWithKey(first, NullLast, 0.0, x);
    TiedWithKey(Ordered(results), NullLast, 0.0, x);
  }

  /** A place in the ranking is one of the results, with its rank when it has a composite and its percentile when it has one. */
  lemma PlaceIs(results: seq<StrategyScore>, pct: map<Symbol, real>, i: nat) returns (j: nat)
    requires i < |results|
    ensures j < |results| && |Ranked(results, pct)| == |results|
    ensures var r, s := Ranked(results, pct)[i], results[j];
      && r.symbol == s.symbol && r.families == s.families && r.composite == s.composite
      && r.dataCompleteness == s.dataCompleteness && r.weightCovered == s.weightCovered
      && r.rank == (if s.composite.Some? then Some(i + 1) else None)
      && r.compositePercentile == (if s.symbol in pct then Some(pct[s.symbol]) else None)
  {
    hide Ordered;
    j := RankedFrom(results, pct, i);
  }

  /** One family's line in the attribution: its score, its share of the present weight, and how far that share moves the composite
      from fifty. */
  ghost predicate Attributes(c: FamilyContribution, families: Families, weights: Weights, total: real)
    requires total != 0.0
  {
    && c.family in families && families[c.family] == Some(c.score) && c.family in weights
    && -0.00005 <= c.weight - weights[c.family] / total <= 0.00005
    && -0.0005 <= c.contribution - weights[c.family] / total * (c.score - 50.0) <= 0.0005
  }

  lemma {:induction false} ContributionsAre(families: Families, weights: Weights, total: real, order: seq<Family>)
    requires total != 0.0
    ensures var cs := Contributions(families, weights, total, order);
      && (forall c :: c in cs ==> Attributes(c, families, weights, total))
      && forall f :: f in order && f in families && families[f].Some? && f in weights ==> exists c :: c in cs && c.family == f
  {
    hide Round3, Round4;
    if order != [] {
      var n := |order| - 1;
      var f := order[n];
      ContributionsAre(families, weights, total, order[..n]);
      assert order == order[..n] + [f];
      if f in families && families[f].Some? && f in weights {
        Round4Facts(weights[f] / total);
        Round3Facts(Pull(total, weights[f], families[f].value));
        var last := Contributions(families, weights, total, order)[|Contributions(families, weights, total, order)| - 1];
        assert last.family == f && last in Contributions(families, weights, total, order);
      }
    }
  }

  /** The attribution has a line for every family that carries weight, and each line is that family's. */
  lemma AttributionIs(families: Families, weights: Weights)
    ensures var total := Carries(families, weights, Valuation) + Carries(families, weights, Fundamentals)
                         + Carries(families, weights, Momentum) + Carries(families, weights, Technical)
                         + Carries(families, weights, Risk);
      var a := Attribution(families, weights);
      if total == 0.0 then a == []
      else
        && (forall c :: c in a ==> Attributes(c, families, weights, total))
        && forall f: Family :: f in families && families[f].Some? && f in weights ==> exists c :: c in a && c.family == f
  {
    hide Contributions, StableSort, Sum, Attributes, PresentWeights, Carries;
    var total := Sum(FAMILIES, PresentWeights(families, weights));
    TotalCarried(families, weights);
    if total != 0.0 {
      var cs, a := Contributions(families, weights, total, FAMILIES), Attribution(families, weights);
      ContributionsAre(families, weights, total, FAMILIES);
      SameMembers(a, cs);
      forall f: Family ensures f in FAMILIES { EveryFamily(f); }
    }
  }

  lemma SameMembers<T>(a: seq<T>, b: seq<T>)
    requires multiset(a) == multiset(b)
    ensures forall x :: x in a <==> x in b
  {
    assert forall x :: x in a <==> x in multiset(a);
    assert forall x :: x in b <==> x in multiset(b);
  }

  lemma TotalCarried(families: Families, weights: Weights)
    ensures Sum(FAMILIES, PresentWeights(families, weights))
            == Carries(families, weights, Valuation) + Carries(families, weights, Fundamentals)
               + Carries(families, weights, Momentum) + Carries(families, weights, Technical) + Carries(families, weights, Risk)
  {
    hide Sum;
    SumFive(PresentWeights(families, weights));
  }

  /** The weighting that is used: an explicit one unless it is missing or empty, else the regime's. */
  lemma ChosenIs(regime: Regime, override: Option<Weights>)
    ensures Chosen(regime, override)
            == match override case Some(w) => (if w == map[] then WeightsFor(regime) else w) case None => WeightsFor(regime)
  {}

  /** Each metric belongs to one family, and within it counts once. */
  lemma PublishedMetrics(f: Family, m: string)
    ensures NoDup(MetricsOf(f))
    ensures m in MetricsOf(f) <==> m in match f
      case Valuation => {"ev_ebitda", "forward_pe", "peg", "price_to_book", "fcf_yield"}
      case Fundamentals => {"revenue_growth_3y", "eps_growth_3y", "ebit_growth_3y", "gross_margin", "operating_margin", "roic",
                            "roe", "debt_to_equity", "interest_coverage"}
      case Momentum => {"ma_stack", "pct_above_200dma", "rs_vs_spy", "ret_12_1", "breakout_strength"}
      case Technical => {"rsi_14", "macd_hist", "volume_spike", "atr_pct", "sr_position", "candle_signal"}
      case Risk => {"beta_distance", "vol_90d", "max_drawdown_1y", "corr_to_holdings", "days_to_earnings"}
  {}
}
