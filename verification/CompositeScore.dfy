/** Every composite is a score between 0 and 100, and the attribution accounts for it. */
module CompositeScore {
  import opened Arithmetic
  import opened Domain
  import opened Sums
  import opened Sorting
  import opened Rounding
  import opened CrossSection
  import opened Strategy
  import opened Ranking

  // ---------- bounds ----------

  predicate Score(x: real) { 0.0 <= x <= 100.0 }

  ghost predicate AllScores(families: Families) {
    forall f :: f in families && families[f].Some? ==> Score(families[f].value)
  }

  ghost predicate Each(xs: seq<real>) {
    forall i :: 0 <= i < |xs| ==> Score(xs[i])
  }

  ghost predicate AllFamilies(observed: map<Symbol, Families>) {
    forall s :: s in observed ==> AllScores(observed[s])
  }

  lemma RoundedScore(x: real)
    requires Score(x)
    ensures Score(Round3(x))
  {
    Round3Facts(0.0);
    Round3Facts(x);
  }

  lemma MetricScoreInRange(st: Stats, companies: seq<StrategyCompany>, c: StrategyCompany, f: Family, m: string)
    requires Proper(st)
    ensures var s := MetricScore(st, companies, c, f, m); s.Some? ==> Score(s.value)
  {
    hide Reported, Cohort, PercentileOf, ScaleOf, Proper;
    var (order, values) := Reported(Cohort(companies, f, c.sector), f, m);
    if c.symbol in values {
      PercentileInRange(st, ScaleOf(st, Along(order, values)), m in INVERSE_METRICS, values[c.symbol]);
    }
  }

  lemma EachAppend(xs: seq<real>, x: real)
    requires Each(xs) && Score(x)
    ensures Each(xs + [x])
  {}

  lemma {:induction false} ScoresInRange(st: Stats, companies: seq<StrategyCompany>, c: StrategyCompany, f: Family,
                                         metrics: seq<string>)
    requires Proper(st)
    ensures Each(Scores(st, companies, c, f, metrics))
  {
    hide MetricScore, Proper, Score;
    if metrics != [] {
      var n := |metrics| - 1;
      ScoresInRange(st, companies, c, f, metrics[..n]);
      MetricScoreInRange(st, companies, c, f, metrics[n]);
      var init, score := Scores(st, companies, c, f, metrics[..n]), MetricScore(st, companies, c, f, metrics[n]);
      if score.Some? {
        EachAppend(init, score.value);
      } else {
        assert init + [] == init;
      }
    }
  }

  lemma FamilyMeanInRange(scores: seq<real>, applicable: nat)
    requires Each(scores)
    ensures var s := FamilyMean(scores, applicable); s.Some? ==> Score(s.value)
  {
    hide Mean, Round3;
    if scores != [] {
      MeanBounds(scores, 0.0, 100.0);
      RoundedScore(Mean(scores));
    }
  }

  lemma ObservedInRange(st: Stats, companies: seq<StrategyCompany>, c: StrategyCompany)
    requires Proper(st)
    ensures AllScores(ObservedFamilies(st, companies, c))
  {
    hide Scores, LiveCount, Cohort, MetricsOf, FamilyMean, Proper;
    forall f | f in ALL_FAMILIES
      ensures ObservedFamily(st, companies, c, f).Some? ==> Score(ObservedFamily(st, companies, c, f).value)
    {
      ScoresInRange(st, companies, c, f, MetricsOf(f));
      FamilyMeanInRange(Scores(st, companies, c, f, MetricsOf(f)), LiveCount(Cohort(companies, f, c.sector), f, MetricsOf(f)));
    }
  }

  lemma {:induction false} BucketInRange(companies: seq<StrategyCompany>, observed: map<Symbol, Families>,
                                         key: (Sector, Family))
    requires AllFamilies(observed)
    ensures Each(Bucket(companies, observed, key))
  {
    if companies != [] {
      BucketInRange(companies[..|companies| - 1], observed, key);
    }
  }

  lemma MedianInRange(xs: seq<real>)
    requires xs != [] && Each(xs)
    ensures Score(Median(xs))
  {
    hide StableSort;
    var s := Sorted(xs);
    forall i | 0 <= i < |s| ensures Score(s[i]) {
      assert s[i] in multiset(s);
      assert s[i] in xs;
    }
  }

  lemma FilledInRange(families: Families, sector: Sector, medians: Medians)
    requires AllScores(families) && forall k :: k in medians ==> Score(medians[k])
    ensures AllScores(Filled(families, sector, medians))
  {
    hide Round3, Score;
    forall k | k in medians ensures Score(Round3(medians[k])) {
      RoundedScore(medians[k]);
    }
  }

  /** The weighted mean of scores is a score. */
  lemma CompositeInRange(families: Families, weights: Weights)
    requires AllScores(families) && forall f :: f in weights ==> weights[f] >= 0.0
    ensures Composite(families, weights).Some? ==> Score(Composite(families, weights).value)
  {
    hide Sum, Round3, Product;
    var p, q := PresentWeights(families, weights), WeightedScores(families, weights);
    SumFive(p);
    SumFive(q);
    forall f: Family ensures 0.0 <= Weight(p, f) && 0.0 <= Weight(q, f) <= 100.0 * Weight(p, f) {
      if f in families && families[f].Some? && f in weights {
        ProductBounds(families[f].value, weights[f]);
      }
    }
    var total, sum := Sum(FAMILIES, p), Sum(FAMILIES, q);
    if total != 0.0 {
      QuotientInRange(sum, total);
      RoundedScore(sum / total);
    }
  }

  lemma ProductBounds(score: real, weight: real)
    requires Score(score) && weight >= 0.0
    ensures 0.0 <= Product(score, weight) <= 100.0 * weight
  {
    MulMono(weight, 0.0, score);
    SlackProduct(100.0 - score, weight);
    assert (100.0 - score) * weight == 100.0 * weight - score * weight;
  }

  lemma SlackProduct(a: real, b: real)
    requires a >= 0.0 && b >= 0.0
    ensures a * b >= 0.0
  {}

  lemma QuotientInRange(sum: real, total: real)
    requires total > 0.0 && 0.0 <= sum <= 100.0 * total
    ensures Score(sum / total)
  {
    QuotientMonotone(0.0, sum, total);
    QuotientMonotone(sum, 100.0 * total, total);
    ProductQuotient(total, 100.0);
  }

  lemma MediansInRange(companies: seq<StrategyCompany>, observed: map<Symbol, Families>)
    requires AllFamilies(observed)
    ensures forall k :: k in MediansOf(companies, observed) ==> Score(MediansOf(companies, observed)[k])
  {
    hide Bucket, Median, AllScores, AllFamilies, Each;
    forall k | k in MediansOf(companies, observed) ensures Score(MediansOf(companies, observed)[k]) {
      BucketInRange(companies, observed, k);
      MedianInRange(Bucket(companies, observed, k));
    }
  }

  /** Every composite and every family score, observed or imputed, lies in [0, 100], for any nonnegative weighting. */
  lemma FusionInRange(st: Stats, companies: seq<StrategyCompany>, weights: Weights)
    requires Proper(st) && forall f :: f in weights ==> weights[f] >= 0.0
    ensures var r := Fuse(st, companies, weights);
      forall i :: 0 <= i < |r| ==> AllScores(r[i].families) && (r[i].composite.Some? ==> Score(r[i].composite.value))
  {
    hide ObservedFamilies, ObservedAll, MediansOf, Percentiles, Results, Fuse, Filled, Composite, AllScores, AllFamilies, Proper,
         ImputedWeight, WeightCovered, CoverageAll, Completeness;
    var r := Fuse(st, companies, weights);
    var observed := ObservedAll(st, companies, |companies|);
    FusedLength(st, companies, weights);
    AllObservedInRange(st, companies);
    MediansInRange(companies, observed);
    forall i | 0 <= i < |r| ensures AllScores(r[i].families) && (r[i].composite.Some? ==> Score(r[i].composite.value)) {
      var j, k := FusedFrom(st, companies, weights, i);
      ObservedInRange(st, companies, companies[k]);
      var families := ObservedFamilies(st, companies, companies[k]);
      FilledInRange(families, companies[j].sector, MediansOf(companies, observed));
      CompositeInRange(Filled(families, companies[j].sector, MediansOf(companies, observed)), weights);
    }
  }

  lemma AllObservedInRange(st: Stats, companies: seq<StrategyCompany>)
    requires Proper(st)
    ensures AllFamilies(ObservedAll(st, companies, |companies|))
  {
    hide ObservedFamilies, AllScores, Proper, ObservedAll;
    ObservedIsFull(st, companies, |companies|);
    var o := ObservedAll(st, companies, |companies|);
    forall s | s in o ensures AllScores(o[s]) {
      var i :| 0 <= i < |companies| && companies[i].symbol == s && o[s] == ObservedFamilies(st, companies, companies[i]);
      ObservedInRange(st, companies, companies[i]);
    }
  }

  // ---------- attribution ----------

  /** The pull of a list of contributions. */
  function PullOf(cs: seq<FamilyContribution>): real {
    if cs == [] then 0.0 else PullOf(cs[..|cs| - 1]) + cs[|cs| - 1].contribution
  }

  function Pulls(cs: seq<FamilyContribution>): map<FamilyContribution, real> {
    map c | c in cs :: c.contribution
  }

  lemma {:induction false} PullIsSum(cs: seq<FamilyContribution>, w: map<FamilyContribution, real>)
    requires forall c :: c in cs ==> Weight(w, c) == c.contribution
    ensures PullOf(cs) == Sum(cs, w)
  {
    if cs != [] {
      PullIsSum(cs[..|cs| - 1], w);
    }
  }

  lemma PullPermutes(a: seq<FamilyContribution>, b: seq<FamilyContribution>)
    requires multiset(a) == multiset(b)
    ensures PullOf(a) == PullOf(b)
  {
    hide Sum, PullOf;
    forall c | c in b ensures c in a {
      assert c in multiset(b);
    }
    PullIsSum(a, Pulls(a));
    PullIsSum(b, Pulls(a));
    SumPermutation(a, b, Pulls(a));
  }

  /** The unrounded pull of one family; zero for an absent one. */
  function ExactPull(families: Families, weights: Weights, total: real, f: Family): real
    requires total != 0.0
  {
    if f in families && families[f].Some? && f in weights then Pull(total, weights[f], families[f].value) else 0.0
  }

  function ExactPulls(families: Families, weights: Weights, total: real): map<Family, real>
    requires total != 0.0
  {
    map f | f in ALL_FAMILIES :: ExactPull(families, weights, total, f)
  }

  /** Rounding each contribution moves the total by at most half a thousandth apiece. */
  lemma {:induction false} RoundedPulls(families: Families, weights: Weights, total: real, order: seq<Family>)
    requires total != 0.0 && forall f :: f in order ==> f in ALL_FAMILIES
    ensures var cs := Contributions(families, weights, total, order);
      var gap := PullOf(cs) - Sum(order, ExactPulls(families, weights, total));
      -0.0005 * |order| as real <= gap <= 0.0005 * |order| as real
  {
    if order != [] {
      hide Pull, Round3, Round4;
      var n := |order| - 1;
      var f := order[n];
      RoundedPulls(families, weights, total, order[..n]);
      var cs := Contributions(families, weights, total, order[..n]);
      assert f in order;
      if f in families && families[f].Some? && f in weights {
        var c := FamilyContribution(f, families[f].value, Round4(weights[f] / total), Round3(Pull(total, weights[f], families[f].value)));
        assert Contributions(families, weights, total, order) == cs + [c];
        assert (cs + [c])[..|cs|] == cs;
        Round3Facts(Pull(total, weights[f], families[f].value));
      } else {
        assert Contributions(families, weights, total, order) == cs;
      }
    }
  }

  lemma PullTimes(total: real, weight: real, score: real)
    requires total != 0.0
    ensures Pull(total, weight, score) * total == Product(score, weight) - 50.0 * weight
  {
    var share := weight / total;
    assert share * total == weight;
    assert share * (score - NEUTRAL) * total == share * total * (score - NEUTRAL);
    assert weight * (score - NEUTRAL) == score * weight - NEUTRAL * weight;
  }

  /** Exactly, the pulls add up to the weighted mean less fifty. */
  lemma ExactPullsSum(families: Families, weights: Weights)
    requires Sum(FAMILIES, PresentWeights(families, weights)) != 0.0
    ensures var total := Sum(FAMILIES, PresentWeights(families, weights));
      Sum(FAMILIES, ExactPulls(families, weights, total)) == Sum(FAMILIES, WeightedScores(families, weights)) / total - 50.0
  {
    hide Sum, Pull, Product, PresentWeights, WeightedScores, ExactPulls;
    var p, q := PresentWeights(families, weights), WeightedScores(families, weights);
    var total := Sum(FAMILIES, p);
    var e := ExactPulls(families, weights, total);
    SumFive(p);
    SumFive(q);
    SumFive(e);
    PullsMatch(families, weights, total);
    FiveTimes(Weight(e, Valuation), Weight(e, Fundamentals), Weight(e, Momentum), Weight(e, Technical), Weight(e, Risk), total);
    QuotientFromProduct(Sum(FAMILIES, e), Sum(FAMILIES, q), total);
  }

  lemma PullsMatch(families: Families, weights: Weights, total: real)
    requires total != 0.0
    ensures forall f :: f in ALL_FAMILIES ==>
      Amount(Weight(ExactPulls(families, weights, total), f), total)
      == Weight(WeightedScores(families, weights), f) - 50.0 * Weight(PresentWeights(families, weights), f)
  {
    hide Pull, Product;
    var e := ExactPulls(families, weights, total);
    forall f | f in ALL_FAMILIES
      ensures Amount(Weight(e, f), total)
              == Weight(WeightedScores(families, weights), f) - 50.0 * Weight(PresentWeights(families, weights), f)
    {
      if f in families && families[f].Some? && f in weights {
        PullTimes(total, weights[f], families[f].value);
      } else {
        assert Amount(0.0, total) == 0.0;
      }
    }
  }

  lemma FiveTimes(a: real, b: real, c: real, d: real, e: real, total: real)
    ensures Amount(a + b + c + d + e, total)
            == Amount(a, total) + Amount(b, total) + Amount(c, total) + Amount(d, total) + Amount(e, total)
  {}

  lemma QuotientFromProduct(x: real, q: real, total: real)
    requires total != 0.0 && Amount(x, total) == q - 50.0 * total
    ensures x == q / total - 50.0
  {
    var y := x + 50.0;
    assert y * total == q;
    Cancel(y, total);
  }

  lemma Cancel(y: real, total: real)
    requires total != 0.0
    ensures y * total / total == y
  {}

  /** The attribution of any composite adds up to the composite less fifty, within 0.003 after all the rounding, and lists the
      worst family first. */
  lemma AttributionAddsUp(families: Families, weights: Weights)
    ensures var a := Attribution(families, weights);
      && SortedBy(a, ByContribution)
      && (Composite(families, weights).Some? ==>
            var gap := PullOf(a) - (Composite(families, weights).value - 50.0); -0.003 <= gap <= 0.003)
  {
    hide Contributions, PresentWeights, WeightedScores, StableSort, Round3, PullOf, Sum;
    var total := Sum(FAMILIES, PresentWeights(families, weights));
    if total != 0.0 {
      var cs := Contributions(families, weights, total, FAMILIES);
      PullPermutes(cs, Attribution(families, weights));
      RoundedPulls(families, weights, total, FAMILIES);
      ExactPullsSum(families, weights);
      Round3Facts(Sum(FAMILIES, WeightedScores(families, weights)) / total);
    }
  }
}
