/** The market-regime classifier and its two-day confirmation rule. */
module Regimes {
  import opened Wrappers
  import opened Domain

  datatype Regime = RiskOn | Neutral | RiskOff

  const VIX_ELEVATED := 20.0
  const BREADTH_WEAK := 0.50
  const DMA_LONG := 200

  datatype RegimeFeatures = RegimeFeatures(
    vixLevel: Option<real>, vixSlope10d: Option<real>, t10y2y: Option<real>, spyVs200dma: Option<real>,
    breadth: Option<real>)

  function BuildFeatures(vix: seq<real>, t10y2y: Option<real>, spy: seq<real>, breadth: Option<real>): RegimeFeatures {
    var spy200 := Sma(spy, DMA_LONG);
    RegimeFeatures(
      if vix != [] then Some(vix[|vix| - 1]) else None,
      if |vix| >= 11 then Some(vix[|vix| - 1] - vix[|vix| - 11]) else None,
      t10y2y,
      if spy200.Some? && spy200.value != 0.0 && spy != [] then Some(spy[|spy| - 1] / spy200.value - 1.0) else None,
      breadth)
  }

  function One(b: bool): nat { if b then 1 else 0 }

  predicate VixRising(f: RegimeFeatures) {
    (f.vixLevel.Some? && f.vixLevel.value > VIX_ELEVATED) || (f.vixSlope10d.Some? && f.vixSlope10d.value > 3.0)
  }

  predicate CurveInverted(f: RegimeFeatures) { f.t10y2y.Some? && f.t10y2y.value < 0.0 }

  predicate SpyBelow(f: RegimeFeatures) { f.spyVs200dma.Some? && f.spyVs200dma.value < 0.0 }

  predicate BreadthWeak(f: RegimeFeatures) { f.breadth.Some? && f.breadth.value < BREADTH_WEAK }

  function BearishCount(f: RegimeFeatures): nat {
    One(VixRising(f)) + One(CurveInverted(f)) + One(SpyBelow(f)) + One(BreadthWeak(f))
  }

  function ClassifyRaw(f: RegimeFeatures): Regime {
    var count := BearishCount(f);
    if count >= 3 then RiskOff else if count <= 1 then RiskOn else Neutral
  }

  /** Under a positive total, which is the only kind prices have; over a negative one. */
  predicate Under(last: real, total: real) { if total > 0.0 then last < total else total < 0.0 && last > total }

  /** The four bearish signs, read off the series: volatility above 20 or up by more than 3 over ten readings, an inverted yield
      curve, the index under the average of its last 200 closes, and fewer than half of the names above theirs. A series too
      short for a sign does not show it. */
  function Signs(vix: seq<real>, t10y2y: Option<real>, spy: seq<real>, breadth: Option<real>): seq<bool> {
    [vix != [] && (vix[|vix| - 1] > 20.0 || (|vix| >= 11 && vix[|vix| - 1] > vix[|vix| - 11] + 3.0)),
     t10y2y.Some? && t10y2y.value < 0.0,
     |spy| >= 200 && Under(spy[|spy| - 1] * 200.0, Total(spy[|spy| - 200..])),
     breadth.Some? && breadth.value < 0.5]
  }

  /** Three signs make the market risk-off, at most one leaves it risk-on. */
  lemma LabelIff(vix: seq<real>, t10y2y: Option<real>, spy: seq<real>, breadth: Option<real>)
    ensures var raw := ClassifyRaw(BuildFeatures(vix, t10y2y, spy, breadth)); var s := Signs(vix, t10y2y, spy, breadth);
      && (raw == RiskOff <==> (s[0] && s[1] && s[2]) || (s[0] && s[1] && s[3]) || (s[0] && s[2] && s[3]) || (s[1] && s[2] && s[3]))
      && (raw == RiskOn <==> (!s[0] && !s[1] && !s[2]) || (!s[0] && !s[1] && !s[3]) || (!s[0] && !s[2] && !s[3])
                               || (!s[1] && !s[2] && !s[3]))
  {
    if |spy| >= 200 {
      var total := Total(spy[|spy| - 200..]);
      if total != 0.0 { IndexBelow(spy[|spy| - 1], total); }
    }
  }

  lemma IndexBelow(last: real, total: real)
    requires total != 0.0
    ensures total / 200.0 != 0.0 && (last / (total / 200.0) - 1.0 < 0.0 <==> Under(last * 200.0, total))
  {
    var mean := total / 200.0;
    var ratio := last / mean;
    assert ratio * mean == last;
    RatioBelow(ratio, mean);
  }

  lemma RatioBelow(ratio: real, mean: real)
    requires mean != 0.0
    ensures mean > 0.0 ==> (ratio < 1.0 <==> ratio * mean < mean)
    ensures mean < 0.0 ==> (ratio < 1.0 <==> ratio * mean > mean)
  {
    assert (ratio - 1.0) * mean == ratio * mean - mean;
    if ratio < 1.0 {
      assert mean > 0.0 ==> (1.0 - ratio) * mean > 0.0;
      assert mean < 0.0 ==> (1.0 - ratio) * -mean > 0.0;
    } else {
      assert mean > 0.0 ==> (ratio - 1.0) * mean >= 0.0;
      assert mean < 0.0 ==> (ratio - 1.0) * -mean >= 0.0;
    }
  }

  /** Feature by feature at least as bearish; a missing value is never bearish. */
  predicate AsBearish(f: RegimeFeatures, g: RegimeFeatures) {
    && Higher(f.vixLevel, g.vixLevel) && Higher(f.vixSlope10d, g.vixSlope10d)
    && Lower(f.t10y2y, g.t10y2y) && Lower(f.spyVs200dma, g.spyVs200dma) && Lower(f.breadth, g.breadth)
  }

  predicate Higher(x: Option<real>, y: Option<real>) { y.Some? ==> x.Some? && x.value >= y.value }

  predicate Lower(x: Option<real>, y: Option<real>) { y.Some? ==> x.Some? && x.value <= y.value }

  function Caution(r: Regime): nat {
    match r
    case RiskOn => 0
    case Neutral => 1
    case RiskOff => 2
  }

  /** More bearish features never give a less cautious label. */
  lemma ClassifierMonotone(f: RegimeFeatures, g: RegimeFeatures)
    requires AsBearish(f, g)
    ensures Caution(ClassifyRaw(f)) >= Caution(ClassifyRaw(g))
  {
    hide BearishCount;
    MoreBearish(f, g);
  }

  lemma MoreBearish(f: RegimeFeatures, g: RegimeFeatures)
    requires AsBearish(f, g)
    ensures BearishCount(f) >= BearishCount(g)
  {
    FlagsPersist(f, g);
    hide VixRising, CurveInverted, SpyBelow, BreadthWeak, AsBearish;
  }

  lemma FlagsPersist(f: RegimeFeatures, g: RegimeFeatures)
    requires AsBearish(f, g)
    ensures VixRising(g) ==> VixRising(f)
    ensures CurveInverted(g) ==> CurveInverted(f)
    ensures SpyBelow(g) ==> SpyBelow(f)
    ensures BreadthWeak(g) ==> BreadthWeak(f)
  {}

  function ConfirmedRegime(raws: seq<Regime>, prev: Option<Regime>): Regime {
    if prev.None? then (if raws != [] then raws[|raws| - 1] else Neutral)
    else if raws == [] then prev.value  // never reached: today's label is always appended first
    else if raws[|raws| - 1] == prev.value then prev.value
    else if |raws| >= 2 && raws[|raws| - 1] == raws[|raws| - 2] then raws[|raws| - 1]
    else prev.value
  }

  function LastFour(raws: seq<Regime>): seq<Regime> {
    if |raws| <= 4 then raws else raws[|raws| - 4..]
  }

  /** Folding the rule over a label history, keeping only the last four labels as the engine does. */
  function Confirmed(raws: seq<Regime>): Option<Regime> {
    if raws == [] then None
    else Some(ConfirmedRegime(LastFour(raws), Confirmed(raws[..|raws| - 1])))
  }

  /** The same fold over the whole history. */
  function ConfirmedFull(raws: seq<Regime>): Option<Regime> {
    if raws == [] then None
    else Some(ConfirmedRegime(raws, ConfirmedFull(raws[..|raws| - 1])))
  }

  /** The latest index that is the first or repeats its predecessor. */
  function LatestRepeat(raws: seq<Regime>): nat
    requires raws != []
  {
    var n := |raws| - 1;
    if n == 0 || raws[n] == raws[n - 1] then n else LatestRepeat(raws[..n])
  }

  /** The confirmed regime is the raw label at the latest index that is first or repeats its predecessor. */
  lemma {:induction false} ConfirmedIsLatestRepeat(raws: seq<Regime>)
    requires raws != []
    ensures LatestRepeat(raws) < |raws|
    ensures Confirmed(raws) == Some(raws[LatestRepeat(raws)])
  {
    if |raws| > 1 {
      ConfirmedIsLatestRepeat(raws[..|raws| - 1]);
      var four := LastFour(raws);
      assert four[|four| - 1] == raws[|raws| - 1] && four[|four| - 2] == raws[|raws| - 2];
    }
  }

  /** Keeping four labels loses nothing. */
  lemma {:induction false} FourLabelsSuffice(raws: seq<Regime>)
    ensures Confirmed(raws) == ConfirmedFull(raws)
  {
    if raws != [] {
      FourLabelsSuffice(raws[..|raws| - 1]);
      var four := LastFour(raws);
      assert four[|four| - 1] == raws[|raws| - 1];
      assert |raws| >= 2 ==> four[|four| - 2] == raws[|raws| - 2];
    }
  }

  /** No whipsaw: the confirmed label changes only onto a label printed twice in a row. */
  lemma SwitchNeedsTwoPrints(raws: seq<Regime>)
    requires |raws| >= 2 && Confirmed(raws) != Confirmed(raws[..|raws| - 1])
    ensures raws[|raws| - 1] == raws[|raws| - 2] && Confirmed(raws) == Some(raws[|raws| - 1])
  {
    ConfirmedIsLatestRepeat(raws);
    ConfirmedIsLatestRepeat(raws[..|raws| - 1]);
  }
}
