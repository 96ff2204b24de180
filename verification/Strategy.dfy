/** Strategy fusion: raw signals to a regime-weighted, imputed composite and a universe-wide ranking. */
module Strategy {
  import opened Wrappers
  import opened Domain
  import opened Sums
  import opened Sorting
  import opened Rounding
  import opened CrossSection
  import opened Regimes

  const FAMILIES: seq<Family> := [Valuation, Fundamentals, Momentum, Technical, Risk]
  const ALL_FAMILIES: set<Family> := {Valuation, Fundamentals, Momentum, Technical, Risk}

  const METRIC_APPLICABILITY_MIN := 0.20
  const IMPUTED_WEIGHT_MAX := 0.30

  function MetricsOf(f: Family): seq<string> {
    match f
    case Valuation => ["ev_ebitda", "forward_pe", "peg", "price_to_book", "fcf_yield"]
    case Fundamentals => ["revenue_growth_3y", "eps_growth_3y", "ebit_growth_3y", "gross_margin", "operating_margin",
                          "roic", "roe", "debt_to_equity", "interest_coverage"]
    case Momentum => ["ma_stack", "pct_above_200dma", "rs_vs_spy", "ret_12_1", "breakout_strength"]
    case Technical => ["rsi_14", "macd_hist", "volume_spike", "atr_pct", "sr_position", "candle_signal"]
    case Risk => ["beta_distance", "vol_90d", "max_drawdown_1y", "corr_to_holdings", "days_to_earnings"]
  }

  const INVERSE_METRICS: set<string> := {
    "ev_ebitda", "forward_pe", "peg", "price_to_book", "debt_to_equity", "atr_pct",
    "beta_distance", "vol_90d", "corr_to_holdings", "days_to_earnings"
  }

  predicate SectorRelative(f: Family) { f in {Valuation, Fundamentals} }

  type Weights = map<Family, real>

  function WeightsFor(regime: Regime): Weights {
    match regime
    case RiskOn => map[Valuation := 0.20, Fundamentals := 0.15, Momentum := 0.40, Technical := 0.15, Risk := 0.10]
    case Neutral => map[Valuation := 0.25, Fundamentals := 0.20, Momentum := 0.30, Technical := 0.15, Risk := 0.10]
    case RiskOff => map[Valuation := 0.20, Fundamentals := 0.20, Momentum := 0.25, Technical := 0.10, Risk := 0.25]
  }

  // ---------- cohorts and metric scores ----------

  function Cohort(companies: seq<StrategyCompany>, f: Family, sector: Sector): seq<StrategyCompany> {
    if companies == [] then []
    else
      var n := |companies| - 1;
      Cohort(companies[..n], f, sector) +
      (if !SectorRelative(f) || companies[n].sector == sector then [companies[n]] else [])
  }

  /** The symbols of a group that report a metric, in order, and their values. */
  function Reported(group: seq<StrategyCompany>, f: Family, m: string): (r: (seq<Symbol>, map<Symbol, real>))
    ensures forall s :: s in r.0 <==> s in r.1
  {
    if group == [] then ([], map[])
    else
      var n := |group| - 1;
      var (order, values) := Reported(group[..n], f, m);
      var v := Metric(group[n].signals, f, m);
      if v.None? then (order, values)
      else (if group[n].symbol in values then order else order + [group[n].symbol], values[group[n].symbol := v.value])
  }

  function MetricScore(st: Stats, companies: seq<StrategyCompany>, c: StrategyCompany, f: Family,
                       m: string): Option<real> {
    var (order, values) := Reported(Cohort(companies, f, c.sector), f, m);
    if c.symbol in values then Some(PercentileRank(st, order, values, m in INVERSE_METRICS)[c.symbol]) else None
  }

  function Scores(st: Stats, companies: seq<StrategyCompany>, c: StrategyCompany, f: Family,
                  metrics: seq<string>): seq<real> {
    if metrics == [] then []
    else
      var n := |metrics| - 1;
      var score := MetricScore(st, companies, c, f, metrics[n]);
      Scores(st, companies, c, f, metrics[..n]) + (if score.Some? then [score.value] else [])
  }

  // ---------- which metrics a cohort can be judged on ----------

  function Covered(group: seq<StrategyCompany>, f: Family, m: string): nat {
    if group == [] then 0
    else
      var n := |group| - 1;
      Covered(group[..n], f, m) + if Metric(group[n].signals, f, m).Some? then 1 else 0
  }

  predicate Applicable(group: seq<StrategyCompany>, f: Family, m: string) {
    group != [] && Covered(group, f, m) as real / |group| as real >= METRIC_APPLICABILITY_MIN
  }

  function LiveCount(group: seq<StrategyCompany>, f: Family, metrics: seq<string>): nat {
    if metrics == [] then 0
    else
      var n := |metrics| - 1;
      LiveCount(group, f, metrics[..n]) + if Applicable(group, f, metrics[n]) then 1 else 0
  }

  /** Applicable metrics on which the company has a score. */
  function PresentCount(st: Stats, companies: seq<StrategyCompany>, c: StrategyCompany, f: Family,
                        metrics: seq<string>): nat {
    if metrics == [] then 0
    else
      var n := |metrics| - 1;
      PresentCount(st, companies, c, f, metrics[..n]) +
      if MetricScore(st, companies, c, f, metrics[n]).Some? && Applicable(Cohort(companies, f, c.sector), f, metrics[n]) then 1 else 0
  }

  // ---------- family scores ----------

  /** A family counts only when at least half of its applicable metrics are present. */
  function FamilyMean(scores: seq<real>, applicable: nat): Option<real> {
    if applicable == 0 || |scores| * 2 < applicable || scores == [] then None else Some(Round3(Mean(scores)))
  }

  function ObservedFamily(st: Stats, companies: seq<StrategyCompany>, c: StrategyCompany, f: Family): Option<real> {
    FamilyMean(Scores(st, companies, c, f, MetricsOf(f)), LiveCount(Cohort(companies, f, c.sector), f, MetricsOf(f)))
  }

  function ObservedFamilies(st: Stats, companies: seq<StrategyCompany>, c: StrategyCompany): Families {
    map f | f in ALL_FAMILIES :: ObservedFamily(st, companies, c, f)
  }

  function PresentTotal(st: Stats, companies: seq<StrategyCompany>, c: StrategyCompany, families: seq<Family>): nat {
    if families == [] then 0
    else
      var f := families[|families| - 1];
      PresentTotal(st, companies, c, families[..|families| - 1]) + PresentCount(st, companies, c, f, MetricsOf(f))
  }

  function LiveTotal(companies: seq<StrategyCompany>, sector: Sector, families: seq<Family>): nat {
    if families == [] then 0
    else
      var f := families[|families| - 1];
      LiveTotal(companies, sector, families[..|families| - 1]) + LiveCount(Cohort(companies, f, sector), f, MetricsOf(f))
  }

  function Completeness(present: nat, applicable: nat): real {
    if applicable == 0 then 0.0 else Round4(present as real / applicable as real)
  }

  // ---------- imputation ----------

  type Buckets = map<(Sector, Family), seq<real>>

  /** The observed scores of one family across one sector. */
  function Bucket(companies: seq<StrategyCompany>, observed: map<Symbol, Families>, key: (Sector, Family)): seq<real> {
    if companies == [] then []
    else
      var n := |companies| - 1;
      Bucket(companies[..n], observed, key) + Contribution(companies[n], observed, key)
  }

  function Contribution(c: StrategyCompany, observed: map<Symbol, Families>, key: (Sector, Family)): seq<real> {
    if c.sector == key.0 && c.symbol in observed && key.1 in observed[c.symbol] && observed[c.symbol][key.1].Some?
    then [observed[c.symbol][key.1].value] else []
  }

  function Median(xs: seq<real>): real
    requires xs != []
  {
    var s := Sorted(xs);
    var n := |s|;
    if n % 2 == 1 then s[n / 2] else (s[n / 2 - 1] + s[n / 2]) / 2.0
  }

  type Medians = map<(Sector, Family), real>

  function MediansOf(companies: seq<StrategyCompany>, observed: map<Symbol, Families>): Medians {
    map c, f | c in companies && f in ALL_FAMILIES && Bucket(companies, observed, (c.sector, f)) != []
      :: (c.sector, f) := Median(Bucket(companies, observed, (c.sector, f)))
  }

  /** Missing families at their sector's median, where it has one. */
  function Filled(families: Families, sector: Sector, medians: Medians): Families {
    map f | f in families :: FilledFamily(families[f], medians, (sector, f))
  }

  function FilledFamily(score: Option<real>, medians: Medians, key: (Sector, Family)): Option<real> {
    if score.Some? then score else if key in medians then Some(Round3(medians[key])) else None
  }

  function PresentWeights(families: Families, weights: Weights): map<Family, real> {
    map f | f in families && families[f].Some? && f in weights :: weights[f]
  }

  function MissingWeights(families: Families, weights: Weights): map<Family, real> {
    map f | f in families && families[f].None? && f in weights :: weights[f]
  }

  function ImputedWeight(families: Families, weights: Weights): real {
    Round4(Sum(FAMILIES, MissingWeights(families, weights)))
  }

  function WeightCovered(families: Families, weights: Weights): real {
    Round4(Sum(FAMILIES, PresentWeights(families, weights)))
  }

  // ---------- the composite ----------

  function Product(a: real, b: real): real { a * b }

  function WeightedScores(families: Families, weights: Weights): map<Family, real> {
    map f | f in families && families[f].Some? && f in weights :: Product(families[f].value, weights[f])
  }

  function Composite(families: Families, weights: Weights): Option<real> {
    if forall f :: f in families ==> families[f].None? then None
    else
      var total := Sum(FAMILIES, PresentWeights(families, weights));
      if total == 0.0 then None
      else Some(Round3(Sum(FAMILIES, WeightedScores(families, weights)) / total))
  }

  function Scored(observed: Families, coverage: (nat, nat), medians: Medians, weights: Weights, c: StrategyCompany): StrategyScore {
    var filled := Filled(observed, c.sector, medians);
    StrategyScore(
      c.symbol, filled,
      if ImputedWeight(observed, weights) > IMPUTED_WEIGHT_MAX then None else Composite(filled, weights),
      None, Completeness(coverage.0, coverage.1), None, WeightCovered(observed, weights))
  }

  // ---------- the ranking ----------

  function NullLast(s: StrategyScore): real { if s.composite.None? then 1.0 else 0.0 }

  function BestFirst(s: StrategyScore): real { -s.composite.GetOr(0.0) }

  /** Sorted by (composite missing, composite descending): a stable sort by the minor key, then one by the major key. */
  function Ordered(results: seq<StrategyScore>): seq<StrategyScore> {
    StableSort(StableSort(results, BestFirst), NullLast)
  }

  /** The composites that exist, in order and by symbol. */
  function Composites(results: seq<StrategyScore>): (r: (seq<Symbol>, map<Symbol, real>))
    ensures forall s :: s in r.0 <==> s in r.1
  {
    if results == [] then ([], map[])
    else
      var n := |results| - 1;
      var (order, values) := Composites(results[..n]);
      var s := results[n];
      if s.composite.None? then (order, values)
      else (if s.symbol in values then order else order + [s.symbol], values[s.symbol := s.composite.value])
  }

  function Percentiles(st: Stats, results: seq<StrategyScore>): map<Symbol, real> {
    var (order, values) := Composites(results);
    if order == [] then map[] else PercentileRank(st, order, values, false)
  }

  function Placed(s: StrategyScore, i: nat, pct: map<Symbol, real>): StrategyScore {
    s.(rank := if s.composite.Some? then Some(i + 1) else None,
       compositePercentile := if s.symbol in pct then Some(pct[s.symbol]) else None)
  }

  function Ranked(results: seq<StrategyScore>, pct: map<Symbol, real>): seq<StrategyScore> {
    var ordered := Ordered(results);
    seq(|ordered|, i requires 0 <= i < |ordered| => Placed(ordered[i], i, pct))
  }

  function ObservedAll(st: Stats, companies: seq<StrategyCompany>, n: nat): map<Symbol, Families>
    requires n <= |companies|
  {
    if n == 0 then map[]
    else ObservedAll(st, companies, n - 1)[companies[n - 1].symbol := ObservedFamilies(st, companies, companies[n - 1])]
  }

  /** Present and applicable metrics of one company. */
  function CoverageOf(st: Stats, companies: seq<StrategyCompany>, c: StrategyCompany): (nat, nat) {
    (PresentTotal(st, companies, c, FAMILIES), LiveTotal(companies, c.sector, FAMILIES))
  }

  function CoverageAll(st: Stats, companies: seq<StrategyCompany>, n: nat): map<Symbol, (nat, nat)>
    requires n <= |companies|
  {
    if n == 0 then map[]
    else CoverageAll(st, companies, n - 1)[companies[n - 1].symbol := CoverageOf(st, companies, companies[n - 1])]
  }

  function FamiliesOf(observed: map<Symbol, Families>, s: Symbol): Families {
    if s in observed then observed[s] else map[]
  }

  function CoverageFor(coverage: map<Symbol, (nat, nat)>, s: Symbol): (nat, nat) {
    if s in coverage then coverage[s] else (0, 0)
  }

  /** The second pass. Both tables are keyed by symbol, so a symbol listed twice is looked up as last observed. */
  function Results(st: Stats, companies: seq<StrategyCompany>, weights: Weights): seq<StrategyScore> {
    var observed := ObservedAll(st, companies, |companies|);
    var coverage := CoverageAll(st, companies, |companies|);
    var medians := MediansOf(companies, observed);
    seq(|companies|, i requires 0 <= i < |companies| =>
      Scored(FamiliesOf(observed, companies[i].symbol), CoverageFor(coverage, companies[i].symbol), medians, weights, companies[i]))
  }

  function Fuse(st: Stats, companies: seq<StrategyCompany>, weights: Weights): seq<StrategyScore> {
    var results := Results(st, companies, weights);
    Ranked(results, Percentiles(st, results))
  }

  /** An explicit nonempty weighting replaces the regime's own. */
  function Chosen(regime: Regime, override: Option<Weights>): Weights {
    if override.Some? && override.value != map[] then override.value else WeightsFor(regime)
  }

  // ---------- attribution ----------

  datatype FamilyContribution = FamilyContribution(family: Family, score: real, weight: real, contribution: real)

  function Pull(total: real, weight: real, score: real): real
    requires total != 0.0
  {
    weight / total * (score - NEUTRAL)
  }

  function Contributions(families: Families, weights: Weights, total: real, order: seq<Family>): seq<FamilyContribution>
    requires total != 0.0
  {
    if order == [] then []
    else
      var n := |order| - 1;
      var f := order[n];
      Contributions(families, weights, total, order[..n]) +
      (if f in families && families[f].Some? && f in weights
       then [FamilyContribution(f, families[f].value, Round4(weights[f] / total), Round3(Pull(total, weights[f], families[f].value)))]
       else [])
  }

  function ByContribution(c: FamilyContribution): real { c.contribution }

  /** Each family's pull on the composite, worst first. */
  function Attribution(families: Families, weights: Weights): seq<FamilyContribution> {
    var total := Sum(FAMILIES, PresentWeights(families, weights));
    if total == 0.0 then [] else StableSort(Contributions(families, weights, total, FAMILIES), ByContribution)
  }
}
