/** The fusion as the program runs it: two passes over the companies, filling dictionaries, then the ranking. */
module Fusion {
  import opened Wrappers
  import opened Domain
  import opened Sums
  import opened Rounding
  import opened CrossSection
  import opened Regimes
  import opened Strategy
  import opened Ranking

  lemma EveryFamily(f: Family)
    ensures f in ALL_FAMILIES && f in FAMILIES
  {
    assert FAMILIES[0] == Valuation && FAMILIES[1] == Fundamentals && FAMILIES[2] == Momentum && FAMILIES[3] == Technical
           && FAMILIES[4] == Risk;
    match f
    case Valuation => assert FAMILIES[0] == f;
    case Fundamentals => assert FAMILIES[1] == f;
    case Momentum => assert FAMILIES[2] == f;
    case Technical => assert FAMILIES[3] == f;
    case Risk => assert FAMILIES[4] == f;
  }

  lemma FamilyPrefix(k: nat)
    requires k < 5
    ensures |FAMILIES| == 5 && FAMILIES[..k + 1] == FAMILIES[..k] + [FAMILIES[k]] && FAMILIES[k] !in FAMILIES[..k]
    ensures FAMILIES[..5] == FAMILIES && forall f :: f in ALL_FAMILIES && f in FAMILIES
  {
    assert FAMILIES[0] == Valuation && FAMILIES[1] == Fundamentals && FAMILIES[2] == Momentum && FAMILIES[3] == Technical
           && FAMILIES[4] == Risk;
    forall f ensures f in ALL_FAMILIES && f in FAMILIES {
      EveryFamily(f);
    }
  }

  /** The missing families that a median can stand in for, in order. */
  function Imputable(families: Families, sector: Sector, medians: Medians, order: seq<Family>): seq<Family> {
    if order == [] then []
    else
      var n := |order| - 1;
      var f := order[n];
      Imputable(families, sector, medians, order[..n]) +
      if f in families && families[f].None? && (sector, f) in medians then [f] else []
  }

  /** The families with the first few of them filled. */
  function FilledSoFar(families: Families, sector: Sector, medians: Medians, done: seq<Family>): Families {
    map f | f in families :: if f in done then FilledFamily(families[f], medians, (sector, f)) else families[f]
  }

  lemma FillNext(families: Families, sector: Sector, medians: Medians, done: seq<Family>, f: Family)
    requires f in families && f !in done
    ensures FilledSoFar(families, sector, medians, done)[f := FilledFamily(families[f], medians, (sector, f))]
            == FilledSoFar(families, sector, medians, done + [f])
    ensures FilledFamily(families[f], medians, (sector, f)) == families[f]
            ==> FilledSoFar(families, sector, medians, done) == FilledSoFar(families, sector, medians, done + [f])
    ensures Imputable(families, sector, medians, done + [f])
            == Imputable(families, sector, medians, done)
               + if families[f].None? && (sector, f) in medians then [f] else []
  {
    hide FilledFamily;
    assert (done + [f])[..|done|] == done;
  }

  lemma FillEnds(families: Families, sector: Sector, medians: Medians)
    requires families.Keys == ALL_FAMILIES
    ensures FilledSoFar(families, sector, medians, FAMILIES[..0]) == families
    ensures FilledSoFar(families, sector, medians, FAMILIES) == Filled(families, sector, medians)
  {
    hide FilledFamily;
    FamilyPrefix(0);
  }

  /** Fill the missing families of one company from its sector's medians, and weigh what was missing. */
  method Impute(families: Families, sector: Sector, medians: Medians, weights: Weights)
    returns (filled: Families, imputed: seq<Family>, imputedWeight: real)
    requires families.Keys == ALL_FAMILIES
    ensures filled == Filled(families, sector, medians) && imputedWeight == ImputedWeight(families, weights)
    ensures imputed == Imputable(families, sector, medians, FAMILIES)
  {
    hide Sum, Round4, Round3, FilledSoFar, Filled, Imputable;
    filled, imputed := families, [];
    var total := 0.0;
    SumNone(MissingWeights(families, weights));
    FillEnds(families, sector, medians);
    FamilyPrefix(0);
    assert Imputable(families, sector, medians, FAMILIES[..0]) == [] by { ImputableNone(families, sector, medians); }
    for k := 0 to |FAMILIES|
      invariant total == Sum(FAMILIES[..k], MissingWeights(families, weights))
      invariant filled == FilledSoFar(families, sector, medians, FAMILIES[..k])
      invariant imputed == Imputable(families, sector, medians, FAMILIES[..k])
    {
      var f := FAMILIES[k];
      FamilyPrefix(k);
      SumNext(FAMILIES[..k], f, MissingWeights(families, weights));
      FillNext(families, sector, medians, FAMILIES[..k], f);
      if families[f].None? {
        total := total + if f in weights then weights[f] else 0.0;
        if (sector, f) in medians {
          filled := filled[f := Some(Round3(medians[(sector, f)]))];
          imputed := imputed + [f];
        }
      }
    }
    imputedWeight := Round4(total);
  }

  lemma ImputableNone(families: Families, sector: Sector, medians: Medians)
    ensures Imputable(families, sector, medians, FAMILIES[..0]) == []
  {}

  lemma SumNone(w: map<Family, real>)
    ensures Sum(FAMILIES[..0], w) == 0.0
  {}

  lemma SumNext(order: seq<Family>, f: Family, w: map<Family, real>)
    ensures Sum(order + [f], w) == Sum(order, w) + Weight(w, f)
  {
    assert (order + [f])[..|order|] == order;
  }

  /** Group the observed family scores by sector and take each group's median. */
  method SectorMedians(companies: seq<StrategyCompany>, observed: map<Symbol, Families>) returns (medians: Medians)
    requires forall c :: c in companies ==> c.symbol in observed && observed[c.symbol].Keys == ALL_FAMILIES
    ensures medians == MediansOf(companies, observed)
  {
    hide Median, Bucket, Extra, Contribution, Collected, PartlyCollected;
    var buckets: Buckets := map[];
    NothingCollected(observed);
    for i := 0 to |companies|
      invariant Collected(buckets, companies[..i], observed)
    {
      var c := companies[i];
      assert c in companies;
      assert companies[..i + 1] == companies[..i] + [c];
      FamilyPrefix(0);
      StartCollecting(buckets, companies[..i], c, observed);
      for k := 0 to |FAMILIES|
        invariant PartlyCollected(buckets, companies[..i], c, FAMILIES[..k], observed)
      {
        var f := FAMILIES[k];
        FamilyPrefix(k);
        ghost var before := buckets;
        if observed[c.symbol][f].Some? {
          var key := (c.sector, f);
          buckets := buckets[key := (if key in buckets then buckets[key] else []) + [observed[c.symbol][f].value]];
        }
        CollectOne(before, buckets, companies[..i], c, FAMILIES[..k], f, observed);
      }
      CollectAll(buckets, companies[..i], c, observed);
    }
    assert companies[..|companies|] == companies;
    medians := map key | key in buckets && buckets[key] != [] :: Median(buckets[key]);
    MediansCollected(buckets, medians, companies, observed);
  }

  function InBucket(buckets: Buckets, key: (Sector, Family)): seq<real> { if key in buckets then buckets[key] else [] }

  /** The buckets hold the scores of these companies. */
  ghost predicate Collected(buckets: Buckets, companies: seq<StrategyCompany>, observed: map<Symbol, Families>) {
    forall key :: InBucket(buckets, key) == Bucket(companies, observed, key)
  }

  /** What `c` adds to a bucket when only these families have been seen. */
  function Extra(c: StrategyCompany, families: seq<Family>, observed: map<Symbol, Families>,
                 key: (Sector, Family)): seq<real> {
    if key.1 in families then Contribution(c, observed, key) else []
  }

  ghost predicate PartlyCollected(buckets: Buckets, companies: seq<StrategyCompany>, c: StrategyCompany,
                                  families: seq<Family>,
                                  observed: map<Symbol, Families>)
  {
    forall key :: InBucket(buckets, key) == Bucket(companies, observed, key) + Extra(c, families, observed, key)
  }

  lemma CollectOne(before: Buckets, after: Buckets, companies: seq<StrategyCompany>, c: StrategyCompany,
                   families: seq<Family>, f: Family,
                   observed: map<Symbol, Families>)
    requires PartlyCollected(before, companies, c, families, observed) && f !in families
    requires c.symbol in observed && f in observed[c.symbol]
    requires if observed[c.symbol][f].Some?
             then after == before[(c.sector, f) := InBucket(before, (c.sector, f)) + [observed[c.symbol][f].value]] else after == before
    ensures PartlyCollected(after, companies, c, families + [f], observed)
  {
    hide Bucket, Extra, InBucket, PartlyCollected;
    forall key: (Sector, Family)
      ensures InBucket(after, key) == Bucket(companies, observed, key) + Extra(c, families + [f], observed, key)
    {
      PartlyAt(before, companies, c, families, observed, key);
      ExtraNext(c, families, f, observed, key);
      BucketPut(before, after, c, f, observed, key);
    }
    assert PartlyCollected(after, companies, c, families + [f], observed) by {
      PartlyFrom(after, companies, c, families + [f], observed);
    }
  }

  lemma NothingCollected(observed: map<Symbol, Families>)
    ensures Collected(map[], [], observed)
  {}

  lemma StartCollecting(buckets: Buckets, companies: seq<StrategyCompany>, c: StrategyCompany,
                        observed: map<Symbol, Families>)
    requires Collected(buckets, companies, observed)
    ensures PartlyCollected(buckets, companies, c, FAMILIES[..0], observed)
  {}

  lemma PartlyAt(buckets: Buckets, companies: seq<StrategyCompany>, c: StrategyCompany, families: seq<Family>,
                 observed: map<Symbol, Families>, key: (Sector, Family))
    requires PartlyCollected(buckets, companies, c, families, observed)
    ensures InBucket(buckets, key) == Bucket(companies, observed, key) + Extra(c, families, observed, key)
  {}

  lemma PartlyFrom(buckets: Buckets, companies: seq<StrategyCompany>, c: StrategyCompany, families: seq<Family>,
                   observed: map<Symbol, Families>)
    requires forall key :: InBucket(buckets, key) == Bucket(companies, observed, key) + Extra(c, families, observed, key)
    ensures PartlyCollected(buckets, companies, c, families, observed)
  {}

  /** The scores that family `f` of `c` adds. */
  function Added(c: StrategyCompany, f: Family, observed: map<Symbol, Families>, key: (Sector, Family)): seq<real> {
    if key == (c.sector, f) then Contribution(c, observed, key) else []
  }

  lemma ExtraNext(c: StrategyCompany, families: seq<Family>, f: Family, observed: map<Symbol, Families>,
                  key: (Sector, Family))
    requires f !in families
    ensures Extra(c, families + [f], observed, key) == Extra(c, families, observed, key) + Added(c, f, observed, key)
  {}

  lemma BucketPut(before: Buckets, after: Buckets, c: StrategyCompany, f: Family, observed: map<Symbol, Families>,
                  key: (Sector, Family))
    requires c.symbol in observed && f in observed[c.symbol]
    requires if observed[c.symbol][f].Some?
             then after == before[(c.sector, f) := InBucket(before, (c.sector, f)) + [observed[c.symbol][f].value]] else after == before
    ensures InBucket(after, key) == InBucket(before, key) + Added(c, f, observed, key)
  {}

  lemma CollectAll(buckets: Buckets, companies: seq<StrategyCompany>, c: StrategyCompany,
                   observed: map<Symbol, Families>)
    requires PartlyCollected(buckets, companies, c, FAMILIES[..|FAMILIES|], observed)
    ensures Collected(buckets, companies + [c], observed)
  {
    hide Contribution;
    FamilyPrefix(0);
    assert (companies + [c])[..|companies|] == companies;
    forall key: (Sector, Family) ensures InBucket(buckets, key) == Bucket(companies + [c], observed, key) {
      EveryFamily(key.1);
      assert Extra(c, FAMILIES[..|FAMILIES|], observed, key) == Contribution(c, observed, key);
    }
  }

  lemma {:induction false} BucketSource(companies: seq<StrategyCompany>, observed: map<Symbol, Families>,
                                        key: (Sector, Family))
    requires Bucket(companies, observed, key) != []
    ensures exists c :: c in companies && c.sector == key.0
  {
    var n := |companies| - 1;
    if companies[n].sector == key.0 {
      assert companies[n] in companies;
    } else {
      BucketSource(companies[..n], observed, key);
    }
  }

  lemma MediansCollected(buckets: Buckets, medians: Medians, companies: seq<StrategyCompany>,
                         observed: map<Symbol, Families>)
    requires Collected(buckets, companies, observed)
    requires medians == map key | key in buckets && buckets[key] != [] :: Median(buckets[key])
    ensures medians == MediansOf(companies, observed)
  {
    hide Bucket, Median, MediansOf, Collected;
    forall key: (Sector, Family)
      ensures key in medians <==> Bucket(companies, observed, key) != []
      ensures key in medians ==> medians[key] == Median(Bucket(companies, observed, key))
    {
      CollectedAt(buckets, companies, observed, key);
    }
    var spec := MediansOf(companies, observed);
    forall key: (Sector, Family)
      ensures key in spec <==> Bucket(companies, observed, key) != []
      ensures key in spec ==> spec[key] == Median(Bucket(companies, observed, key))
    {
      MedianAt(companies, observed, key);
    }
  }

  lemma CollectedAt(buckets: Buckets, companies: seq<StrategyCompany>, observed: map<Symbol, Families>,
                    key: (Sector, Family))
    requires Collected(buckets, companies, observed)
    ensures InBucket(buckets, key) == Bucket(companies, observed, key)
  {}

  /** A (sector, family) has a median exactly when some company of the sector has an observed score. */
  lemma MedianAt(companies: seq<StrategyCompany>, observed: map<Symbol, Families>, key: (Sector, Family))
    ensures key in MediansOf(companies, observed) <==> Bucket(companies, observed, key) != []
    ensures key in MediansOf(companies, observed) ==> MediansOf(companies, observed)[key] == Median(Bucket(companies, observed, key))
  {
    hide Bucket, Median;
    EveryFamily(key.1);
    if Bucket(companies, observed, key) != [] {
      BucketSource(companies, observed, key);
      var c :| c in companies && c.sector == key.0;
      assert key == (c.sector, key.1);
    }
  }

  /** Pass one: the observed family scores and the metric coverage of every company. */
  method ObserveFamilies(st: Stats, companies: seq<StrategyCompany>)
    returns (observed: map<Symbol, Families>, coverage: map<Symbol, (nat, nat)>)
    ensures observed == ObservedAll(st, companies, |companies|) && coverage == CoverageAll(st, companies, |companies|)
  {
    hide ObservedFamilies, CoverageOf;
    observed, coverage := map[], map[];
    for i := 0 to |companies|
      invariant observed == ObservedAll(st, companies, i) && coverage == CoverageAll(st, companies, i)
    {
      var c := companies[i];
      observed := observed[c.symbol := ObservedFamilies(st, companies, c)];
      coverage := coverage[c.symbol := CoverageOf(st, companies, c)];
    }
  }

  /** Pass two: impute and score every company. */
  method ScoreCompanies(companies: seq<StrategyCompany>, weights: Weights, observed: map<Symbol, Families>,
                        coverage: map<Symbol, (nat, nat)>, medians: Medians)
    returns (results: seq<StrategyScore>)
    requires forall c :: c in companies ==> c.symbol in observed && observed[c.symbol].Keys == ALL_FAMILIES && c.symbol in coverage
    ensures |results| == |companies| && forall k :: 0 <= k < |companies| ==>
      results[k] == Scored(FamiliesOf(observed, companies[k].symbol), CoverageFor(coverage, companies[k].symbol), medians, weights,
                           companies[k])
  {
    hide Filled, ImputedWeight, Composite, WeightCovered, Completeness;
    results := [];
    for i := 0 to |companies|
      invariant |results| == i
      invariant forall k :: 0 <= k < i ==>
        results[k] == Scored(FamiliesOf(observed, companies[k].symbol), CoverageFor(coverage, companies[k].symbol), medians, weights,
                             companies[k])
    {
      var c := companies[i];
      assert c in companies;
      var filled, imputed, imputedWeight := Impute(observed[c.symbol], c.sector, medians, weights);
      var (present, applicable) := coverage[c.symbol];
      var composite := if imputedWeight > IMPUTED_WEIGHT_MAX then None else Composite(filled, weights);
      results := results + [StrategyScore(c.symbol, filled, composite, None, Completeness(present, applicable), None,
                                          WeightCovered(observed[c.symbol], weights))];
    }
  }

  /** Rank the scored companies and rank their composites against each other. */
  method RankResults(st: Stats, results: seq<StrategyScore>) returns (ranked: seq<StrategyScore>)
    ensures ranked == Ranked(results, Percentiles(st, results))
  {
    hide Ordered, PercentileRank, Composites;
    var (order, values) := Composites(results);
    var pct: map<Symbol, real> := map[];
    if order != [] {
      pct := RankCohort(st, order, values, false);
    }
    var ordered := Ordered(results);
    ranked := [];
    for i := 0 to |ordered|
      invariant ranked == Ranked(results, pct)[..i]
    {
      var s := ordered[i];
      ranked := ranked + [s.(rank := if s.composite.Some? then Some(i + 1) else None,
                             compositePercentile := if s.symbol in pct then Some(pct[s.symbol]) else None)];
    }
  }

  lemma ObservedCovers(st: Stats, companies: seq<StrategyCompany>)
    ensures var o := ObservedAll(st, companies, |companies|);
      forall c :: c in companies ==> c.symbol in o && o[c.symbol].Keys == ALL_FAMILIES
  {
    hide ObservedFamily, ObservedAll;
    ObservedIsFull(st, companies, |companies|);
  }

  lemma {:induction false} CoverageCovers(st: Stats, companies: seq<StrategyCompany>, n: nat)
    requires n <= |companies|
    ensures forall i :: 0 <= i < n ==> companies[i].symbol in CoverageAll(st, companies, n)
  {
    hide CoverageOf;
    if n > 0 {
      CoverageCovers(st, companies, n - 1);
    }
  }

  /** Rank a universe, with the regime's weights or an explicit weighting, which must cover every family. */
  method FuseScores(st: Stats, companies: seq<StrategyCompany>, regime: Regime, override: Option<Weights>)
    returns (ranked: seq<StrategyScore>)
    requires override.Some? && override.value != map[] ==> override.value.Keys == ALL_FAMILIES
    ensures ranked == Fuse(st, companies, Chosen(regime, override))
  {
    hide Scored, MediansOf, WeightsFor, Ranked, Percentiles, ObservedAll, CoverageAll;
    var weights := Chosen(regime, override);
    var observed, coverage := ObserveFamilies(st, companies);
    ObservedCovers(st, companies);
    CoverageCovers(st, companies, |companies|);
    var medians := SectorMedians(companies, observed);
    var results := ScoreCompanies(companies, weights, observed, coverage, medians);
    assert results == Results(st, companies, weights);
    ranked := RankResults(st, results);
  }
}
