/** The pure cycle planner that both executors share. */
module Decision {
  import opened Wrappers
  import opened Domain
  import opened Keys
  import opened Sorting
  import opened Sizing
  import opened Rules
  import CandidatePool

  datatype ExitIntent = ExitIntent(symbol: Symbol, action: SellAction)

  datatype EntryIntent = EntryIntent(
    symbol: Symbol,
    shares: real,
    refPrice: real,
    stopPrice: real,
    targetPrice: real,
    atr: real,
    entryComposite: Option<real>,
    entryFundamentals: Option<real>,
    sector: Sector)

  /** The position a filled entry opens; `price` is what was paid. */
  function Opened(e: EntryIntent, price: real): Position {
    Position(e.symbol, price, e.shares, e.atr, e.stopPrice, e.targetPrice, e.entryComposite, e.entryFundamentals,
             false, e.refPrice, 0)
  }

  datatype SkipRecord = SkipRecord(symbol: Symbol, reason: Reason, kind: GateKind, rank: Option<nat>)

  datatype CyclePlan = CyclePlan(
    exits: seq<ExitIntent>, entries: seq<EntryIntent>, skips: seq<SkipRecord>, rankThreshold: nat)

  type Market = map<Symbol, CycleData>

  /** Every entry is filed under its own symbol. */
  ghost predicate Filed(data: Market) {
    forall s :: s in data ==> data[s].symbol == s
  }

  // ---------- flags ----------

  function LastPrice(d: CycleData): real {
    if d.closes != [] then d.closes[|d.closes| - 1] else d.bar.close
  }

  predicate Above50dma(d: CycleData) {
    var ma := Sma(d.closes, 50);
    ma.Some? && LastPrice(d) > ma.value
  }

  predicate Below50dma(d: CycleData) {
    var ma := Sma(d.closes, 50);
    ma.Some? && LastPrice(d) < ma.value
  }

  predicate MacdBullish(d: CycleData) {
    var m := Metric(d.signals, Technical, "macd_hist");
    m.Some? && m.value > 0.0
  }

  predicate MacdBearish(d: CycleData) {
    var m := Metric(d.signals, Technical, "macd_hist");
    m.Some? && m.value < 0.0
  }

  predicate FreshBreakout(d: CycleData) {
    var b := Metric(d.signals, Momentum, "breakout_strength");
    b.Some? && b.value > 0.0
  }

  function View(d: CycleData): ExitView {
    ExitView(d.score.compositePercentile, FamilyScore(d.score, Fundamentals), FamilyScore(d.score, Momentum),
             Metric(d.signals, Fundamentals, "interest_coverage"), Below50dma(d), MacdBearish(d))
  }

  /** A metric that is there, with a value. */
  predicate Shows(d: CycleData, f: Family, m: string) {
    f in d.signals && m in d.signals[f] && d.signals[f][m].Some?
  }

  /** The average of the last fifty closes, once there are that many. */
  predicate HasTrend(d: CycleData) { |d.closes| >= 50 }

  function TrendLine(d: CycleData): real
    requires HasTrend(d)
  {
    Total(d.closes[|d.closes| - 50..]) / 50.0
  }

  /** What the gates and the sell rules read of a name's data: the last close against the average of the last fifty, and the signs of
      two metrics. A missing value answers no to every question. */
  lemma FlagsRead(d: CycleData)
    ensures Above50dma(d) <==> HasTrend(d) && d.closes[|d.closes| - 1] > TrendLine(d)
    ensures Below50dma(d) <==> HasTrend(d) && d.closes[|d.closes| - 1] < TrendLine(d)
    ensures MacdBullish(d) <==> Shows(d, Technical, "macd_hist") && d.signals[Technical]["macd_hist"].value > 0.0
    ensures MacdBearish(d) <==> Shows(d, Technical, "macd_hist") && d.signals[Technical]["macd_hist"].value < 0.0
    ensures FreshBreakout(d)
            <==> Shows(d, Momentum, "breakout_strength") && d.signals[Momentum]["breakout_strength"].value > 0.0
  {}

  /** When a held position is sold for weakness or for a turning trend, in terms of its data. */
  lemma WeaknessOfData(pos: Position, d: CycleData)
    requires d.bar.low > pos.stopPrice && (pos.tookPartial || d.bar.high < pos.targetPrice)
    ensures var reason := SellFor(pos, d).reason;
      var weak :=
        || (pos.entryFundamentals.Some? && Fundamentals in d.score.families && d.score.families[Fundamentals].Some?
            && d.score.families[Fundamentals].value < pos.entryFundamentals.value - 20.0)
        || (d.score.compositePercentile.Some? && d.score.compositePercentile.value < 25.0)
        || (Shows(d, Fundamentals, "interest_coverage") && d.signals[Fundamentals]["interest_coverage"].value < 2.0);
      var turning :=
        && HasTrend(d) && d.closes[|d.closes| - 1] < TrendLine(d)
        && Shows(d, Technical, "macd_hist") && d.signals[Technical]["macd_hist"].value < 0.0
        && Momentum in d.score.families && d.score.families[Momentum].Some? && d.score.families[Momentum].value < 30.0;
      && (reason == FundamentalsDeteriorated <==> weak)
      && (reason == TrendReversal <==> !weak && turning && pos.reversalDays >= 1)
      && (reason == Hold <==> !weak && (turning ==> pos.reversalDays == 0))
  {
    hide EvaluateSell, Below50dma, MacdBearish, TrendLine;
    FlagsRead(d);
    SellRules(pos, d.bar, View(d));
  }

  // ---------- exits ----------

  function SellFor(pos: Position, d: CycleData): SellAction {
    EvaluateSell(pos, d.bar, View(d))
  }

  /** One intent for every held symbol that has a bar, in the order the book lists them. */
  function ExitsFor(order: seq<Symbol>, held: map<Symbol, Position>, data: Market): seq<ExitIntent> {
    if order == [] then []
    else
      var n := |order| - 1;
      var s := order[n];
      ExitsFor(order[..n], held, data) +
      (if s in held && s in data then [ExitIntent(s, SellFor(held[s], data[s]))] else [])
  }

  method PlanExits(order: seq<Symbol>, held: map<Symbol, Position>, data: Market) returns (intents: seq<ExitIntent>)
    requires Enumerates(order, held.Keys)
    ensures intents == ExitsFor(order, held, data)
  {
    intents := [];
    for i := 0 to |order|
      invariant intents == ExitsFor(order[..i], held, data)
    {
      assert order[..i + 1][..i] == order[..i];
      var sym := order[i];
      if sym in data {
        assert sym in order;
        intents := intents + [ExitIntent(sym, SellFor(held[sym], data[sym]))];
      }
    }
    assert order[..|order|] == order;
  }

  /** The planned exits are about distinct held symbols with data, one per such symbol. */
  lemma {:induction false} ExitsForEach(order: seq<Symbol>, held: map<Symbol, Position>, data: Market)
    requires NoDup(order)
    ensures var xs := ExitsFor(order, held, data);
      && |xs| <= |order|
      && (forall i :: 0 <= i < |xs| ==> xs[i].symbol in order && xs[i].symbol in held && xs[i].symbol in data
                                        && xs[i].action == SellFor(held[xs[i].symbol], data[xs[i].symbol]))
      && (forall i, j :: 0 <= i < j < |xs| ==> xs[i].symbol != xs[j].symbol)
      && (forall s :: s in order && s in held && s in data ==> ExitIntent(s, SellFor(held[s], data[s])) in xs)
  {
    if order != [] {
      var n := |order| - 1;
      assert order == order[..n] + [order[n]];
      ExitsForEach(order[..n], held, data);
      assert order[n] !in order[..n];
    }
  }

  // ---------- entries ----------

  function RankKey(d: CycleData): real {
    if d.score.rank.Some? && d.score.rank.value != 0 then d.score.rank.value as real else 1000000000.0
  }

  function Values(data: Market, order: seq<Symbol>): seq<CycleData>
    requires forall s :: s in order ==> s in data
  {
    seq(|order|, i requires 0 <= i < |order| => data[order[i]])
  }

  /** All names in rank order, the unranked ones last. `order` is the iteration order of the data. */
  function Candidates(data: Market, order: seq<Symbol>): seq<CycleData>
    requires forall s :: s in order ==> s in data
  {
    StableSort(Values(data, order), RankKey)
  }

  function RankedPart(cands: seq<CycleData>): seq<CycleData> {
    if cands == [] then []
    else
      var n := |cands| - 1;
      RankedPart(cands[..n]) + (if cands[n].score.rank.Some? then [cands[n]] else [])
  }

  function Labels(cands: seq<CycleData>): seq<CandidatePool.Ranked> {
    seq(|cands|, i requires 0 <= i < |cands| => CandidatePool.Ranked(cands[i].symbol, cands[i].sector))
  }

  /** The part of the planner's input that stays fixed while it walks the candidates. */
  datatype Frame = Frame(
    equity: real, held: set<Symbol>, entriesToday: nat, threshold: nat, pool: set<Symbol>, cappedOut: set<Symbol>)

  function FrameFor(cands: seq<CycleData>, equity: real, held: set<Symbol>, entriesToday: nat, nScored: int): Frame {
    var threshold := CandidatePool.CandidatePoolSize(nScored);
    var ranked := Labels(RankedPart(cands));
    Frame(equity, held, entriesToday, threshold,
          CandidatePool.Pool(ranked, threshold), CandidatePool.CappedOut(ranked, threshold))
  }

  /** What the planner has decided so far, with its running cash and sector notional. */
  datatype Tally = Tally(entries: seq<EntryIntent>, skips: seq<SkipRecord>, cash: real, sector: map<Sector, real>)

  function SectorOf(t: Tally, s: Sector): real { if s in t.sector then t.sector[s] else 0.0 }

  function Context(f: Frame, t: Tally, d: CycleData): BuyContext {
    BuyContext(
      d.score.composite, d.score.compositePercentile, d.score.rank, f.threshold,
      d.symbol in f.pool, d.symbol in f.cappedOut,
      d.score.dataCompleteness, d.score.weightCovered,
      Above50dma(d), FreshBreakout(d), MacdBullish(d), None,
      |f.held| + |t.entries|,
      if f.equity > 0.0 then SectorOf(t, d.sector) / f.equity else 0.0,
      f.entriesToday + |t.entries|, t.cash, false)
  }

  function EntryFor(d: CycleData, size: PositionSize, atr: real): EntryIntent {
    EntryIntent(d.symbol, size.shares, d.bar.close, size.stopPrice, size.targetPrice, atr,
                d.score.composite, FamilyScore(d.score, Fundamentals), d.sector)
  }

  datatype Verdict = Held | Skipped(reason: Reason) | Funded(size: PositionSize, atr: real)

  function Decide(f: Frame, t: Tally, d: CycleData): Verdict {
    if d.symbol in f.held then Held
    else
      var gate := EvaluateBuy(Context(f, t, d));
      if gate.Some? then Skipped(gate.value)
      else if d.atr.None? || d.atr.value <= 0.0 then Skipped(NoAtr)
      else
        var size := SizePosition(f.equity, d.bar.close, d.atr.value, t.cash);
        if size.None? then Skipped(SizeTooSmall) else Funded(size.value, d.atr.value)
  }

  function Record(t: Tally, d: CycleData, v: Verdict): Tally {
    match v
    case Held => t
    case Skipped(reason) => t.(skips := t.skips + [SkipRecord(d.symbol, reason, reason.Kind(), d.score.rank)])
    case Funded(size, atr) =>
      Tally(t.entries + [EntryFor(d, size, atr)], t.skips, t.cash - size.notional,
            t.sector[d.sector := SectorOf(t, d.sector) + size.notional])
  }

  function Step(f: Frame, t: Tally, d: CycleData): Tally {
    Record(t, d, Decide(f, t, d))
  }

  function Walk(f: Frame, start: Tally, cands: seq<CycleData>): Tally {
    if cands == [] then start
    else Step(f, Walk(f, start, cands[..|cands| - 1]), cands[|cands| - 1])
  }

  function EntriesFor(data: Market, order: seq<Symbol>, equity: real, cash: real, held: set<Symbol>,
                      sector: map<Sector, real>, entriesToday: nat, nScored: int): Tally
    requires forall s :: s in order ==> s in data
  {
    var cands := Candidates(data, order);
    Walk(FrameFor(cands, equity, held, entriesToday, nScored), Tally([], [], cash, sector), cands)
  }

  /** What one step does, case by case. */
  lemma StepCases(f: Frame, t: Tally, d: CycleData)
    ensures d.symbol in f.held ==> Step(f, t, d) == t
    ensures d.symbol !in f.held ==>
      var verdict := EvaluateBuy(Context(f, t, d));
      var size := if verdict.None? && d.atr.Some? && d.atr.value > 0.0
                  then SizePosition(f.equity, d.bar.close, d.atr.value, t.cash) else None;
      var reason := if verdict.Some? then verdict.value
                    else if d.atr.None? || d.atr.value <= 0.0 then NoAtr else SizeTooSmall;
      if size.Some?
      then Step(f, t, d) == Tally(t.entries + [EntryFor(d, size.value, d.atr.value)], t.skips, t.cash - size.value.notional,
                                  t.sector[d.sector := SectorOf(t, d.sector) + size.value.notional])
      else Step(f, t, d) == t.(skips := t.skips + [SkipRecord(d.symbol, reason, reason.Kind(), d.score.rank)])
  {
    hide EvaluateBuy, SizePosition, Context;
  }

  /** The entry loop: fund the strongest candidates first from one running budget. */
  method FundInRankOrder(f: Frame, candidates: seq<CycleData>, cash: real, sectorNotional: map<Sector, real>)
    returns (entries: seq<EntryIntent>, skips: seq<SkipRecord>, runningCash: real, runningSector: map<Sector, real>)
    ensures Tally(entries, skips, runningCash, runningSector) == Walk(f, Tally([], [], cash, sectorNotional), candidates)
  {
    hide EvaluateBuy, SizePosition, Context, Step;
    ghost var start := Tally([], [], cash, sectorNotional);
    entries, skips, runningCash, runningSector := [], [], cash, sectorNotional;
    for i := 0 to |candidates|
      invariant Tally(entries, skips, runningCash, runningSector) == Walk(f, start, candidates[..i])
    {
      assert candidates[..i + 1][..i] == candidates[..i];
      var d := candidates[i];
      StepCases(f, Tally(entries, skips, runningCash, runningSector), d);
      if d.symbol !in f.held {
        var t := Tally(entries, skips, runningCash, runningSector);
        var verdict := EvaluateBuy(Context(f, t, d));
        var size := if verdict.None? && d.atr.Some? && d.atr.value > 0.0
                    then SizePosition(f.equity, d.bar.close, d.atr.value, runningCash) else None;
        if size.Some? {
          entries := entries + [EntryFor(d, size.value, d.atr.value)];
          runningCash := runningCash - size.value.notional;
          runningSector := runningSector[d.sector := SectorOf(t, d.sector) + size.value.notional];
        } else {
          var reason := if verdict.Some? then verdict.value
                        else if d.atr.None? || d.atr.value <= 0.0 then NoAtr else SizeTooSmall;
          skips := skips + [SkipRecord(d.symbol, reason, reason.Kind(), d.score.rank)];
        }
      }
    }
    assert candidates[..|candidates|] == candidates;
  }

  method PlanEntries(data: Market, order: seq<Symbol>, equity: real, cash: real, held: set<Symbol>,
                     sectorNotional: map<Sector, real>, entriesToday: nat, nScored: int)
    returns (entries: seq<EntryIntent>, skips: seq<SkipRecord>, rankThreshold: nat)
    requires Filed(data) && Enumerates(order, data.Keys)
    ensures var t := EntriesFor(data, order, equity, cash, held, sectorNotional, entriesToday, nScored);
      entries == t.entries && skips == t.skips && rankThreshold == CandidatePool.CandidatePoolSize(nScored)
  {
    rankThreshold := CandidatePool.CandidatePoolSize(nScored);
    var candidates := Candidates(data, order);
    CandidatesDistinct(data, order);
    RankedDistinct(candidates);
    var pool, cappedOut := CandidatePool.BuildCandidatePool(Labels(RankedPart(candidates)), rankThreshold);
    var frame := Frame(equity, held, entriesToday, rankThreshold, pool, cappedOut);
    var runningCash, runningSector;
    entries, skips, runningCash, runningSector := FundInRankOrder(frame, candidates, cash, sectorNotional);
  }

  ghost predicate DistinctNames(cands: seq<CycleData>) {
    forall i, j :: 0 <= i < j < |cands| ==> cands[i].symbol != cands[j].symbol
  }

  /** The candidates are the data, once each. */
  lemma CandidatesDistinct(data: Market, order: seq<Symbol>)
    requires Filed(data) && Enumerates(order, data.Keys)
    ensures var cands := Candidates(data, order);
      && DistinctNames(cands)
      && (forall d :: d in cands <==> d.symbol in data && data[d.symbol] == d)
  {
    hide StableSort, RankKey;
    var vals, cands := Values(data, order), Candidates(data, order);
    ValuesDistinct(data, order);
    PermutedNoDup(vals, cands);
    forall i, j | 0 <= i < j < |cands| ensures cands[i].symbol != cands[j].symbol {
      assert cands[i] in cands && cands[j] in cands;
    }
  }

  lemma ValuesDistinct(data: Market, order: seq<Symbol>)
    requires Filed(data) && Enumerates(order, data.Keys)
    ensures var vals := Values(data, order);
      NoDup(vals) && forall d :: d in vals <==> d.symbol in data && data[d.symbol] == d
  {
    var vals := Values(data, order);
    assert forall i :: 0 <= i < |order| ==> order[i] in order;
    forall i, j | 0 <= i < j < |vals| ensures vals[i] != vals[j] {
      assert vals[i].symbol == order[i] && vals[j].symbol == order[j];
    }
    forall d ensures d in vals <==> d.symbol in data && data[d.symbol] == d {
      if d.symbol in data && data[d.symbol] == d {
        var i :| 0 <= i < |order| && order[i] == d.symbol;
        assert vals[i] == d;
      }
    }
  }

  lemma {:induction false} RankedDistinct(cands: seq<CycleData>)
    requires DistinctNames(cands)
    ensures DistinctNames(RankedPart(cands))
    ensures forall d :: d in RankedPart(cands) <==> d in cands && d.score.rank.Some?
  {
    if cands != [] {
      var n := |cands| - 1;
      assert cands == cands[..n] + [cands[n]];
      RankedDistinct(cands[..n]);
      var r := RankedPart(cands[..n]);
      assert forall i :: 0 <= i < |r| ==> r[i] in r;
    }
  }

  // ---------- the cycle ----------

  function CycleFor(data: Market, order: seq<Symbol>, positions: map<Symbol, Position>, listed: seq<Symbol>,
                    equity: real, cash: real, sector: map<Sector, real>, entriesToday: nat, nScored: int): CyclePlan
    requires forall s :: s in order ==> s in data
  {
    var t := EntriesFor(data, order, equity, cash, positions.Keys, sector, entriesToday, nScored);
    CyclePlan(ExitsFor(listed, positions, data), t.entries, t.skips, CandidatePool.CandidatePoolSize(nScored))
  }

  method PlanCycle(data: Market, order: seq<Symbol>, positions: map<Symbol, Position>, listed: seq<Symbol>,
                   equity: real, cash: real, sectorNotional: map<Sector, real>, entriesToday: nat, nScored: int)
    returns (plan: CyclePlan)
    requires Filed(data) && Enumerates(order, data.Keys) && Enumerates(listed, positions.Keys)
    ensures plan == CycleFor(data, order, positions, listed, equity, cash, sectorNotional, entriesToday, nScored)
  {
    var exits := PlanExits(listed, positions, data);
    var entries, skips, threshold :=
      PlanEntries(data, order, equity, cash, positions.Keys, sectorNotional, entriesToday, nScored);
    plan := CyclePlan(exits, entries, skips, threshold);
  }
}
