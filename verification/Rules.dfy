/** Buy gates and the priority-ordered sell rules. */
module Rules {
  import opened Wrappers
  import opened Arithmetic
  import opened Domain
  import opened Sizing

  const MAX_POSITIONS := 40
  const MAX_ENTRIES_PER_DAY := 8
  const MAX_SECTOR_PCT := 0.25
  const EARNINGS_BLACKOUT_DAYS := 5

  const FUND_SCORE_DROP := 20.0
  const COMPOSITE_EXIT := 25.0
  const MIN_INTEREST_COVERAGE := 2.0
  const MOMENTUM_WEAK := 30.0
  const TREND_CONFIRM_DAYS := 2

  const MIN_COMPOSITE_PERCENTILE := 70.0
  const MIN_WEIGHT_COVERAGE := 0.70
  const MIN_DATA_COMPLETENESS := 0.50

  datatype GateKind = ScoreThreshold | HardRule | PortfolioLimit

  datatype Reason =
    | CompositeBelowMin | OutsideCandidatePool
    | InsufficientData | Below50Dma | NoTechnicalTrigger | EarningsProximity | NoAtr
    | SectorPoolCap | AlreadyHeld | MaxPositions | SectorCap | DailyEntryCap
    | InsufficientCash | SizeTooSmall
  {
    function Kind(): GateKind {
      match this
      case CompositeBelowMin | OutsideCandidatePool => ScoreThreshold
      case InsufficientData | Below50Dma | NoTechnicalTrigger | EarningsProximity | NoAtr => HardRule
      case _ => PortfolioLimit
    }
  }

  datatype BuyContext = BuyContext(
    composite: Option<real>,
    compositePercentile: Option<real>,
    rank: Option<nat>,
    rankThreshold: nat,
    inCandidatePool: bool,
    sectorPoolFull: bool,
    dataCompleteness: real,
    weightCovered: real,
    priceAbove50dma: bool,
    freshBreakout: bool,
    macdBullish: bool,
    daysToEarnings: Option<int>,
    positionsHeld: nat,
    sectorWeight: real,
    entriesToday: nat,
    cashAvailable: real,
    alreadyHeld: bool)

  /** None when every gate passes, else the first gate that failed. */
  function EvaluateBuy(ctx: BuyContext): Option<Reason> {
    if ctx.alreadyHeld then Some(AlreadyHeld)
    else if ctx.composite.None? || ctx.compositePercentile.None? then Some(InsufficientData)
    else if ctx.weightCovered < MIN_WEIGHT_COVERAGE then Some(InsufficientData)
    else if ctx.dataCompleteness < MIN_DATA_COMPLETENESS then Some(InsufficientData)
    else if ctx.compositePercentile.value < MIN_COMPOSITE_PERCENTILE then Some(CompositeBelowMin)
    else if ctx.sectorPoolFull then Some(SectorPoolCap)
    else if ctx.rank.None? || ctx.rank.value > ctx.rankThreshold || !ctx.inCandidatePool then Some(OutsideCandidatePool)
    else if !ctx.priceAbove50dma then Some(Below50Dma)
    else if !(ctx.freshBreakout || ctx.macdBullish) then Some(NoTechnicalTrigger)
    else if ctx.daysToEarnings.Some? && ctx.daysToEarnings.value <= EARNINGS_BLACKOUT_DAYS then Some(EarningsProximity)
    else if ctx.positionsHeld >= MAX_POSITIONS then Some(MaxPositions)
    else if ctx.sectorWeight >= MAX_SECTOR_PCT then Some(SectorCap)
    else if ctx.entriesToday >= MAX_ENTRIES_PER_DAY then Some(DailyEntryCap)
    else if ctx.cashAvailable <= 0.0 then Some(InsufficientCash)
    else None
  }

  /** What a buy needs, in no particular order. */
  predicate Eligible(ctx: BuyContext) {
    && !ctx.alreadyHeld
    && ctx.composite.Some? && ctx.compositePercentile.Some? && ctx.compositePercentile.value >= 70.0
    && ctx.weightCovered >= 0.70 && ctx.dataCompleteness >= 0.50
    && ctx.inCandidatePool && !ctx.sectorPoolFull && ctx.rank.Some? && ctx.rank.value <= ctx.rankThreshold
    && ctx.priceAbove50dma && (ctx.freshBreakout || ctx.macdBullish)
    && (ctx.daysToEarnings.Some? ==> ctx.daysToEarnings.value > 5)
    && ctx.positionsHeld < 40 && ctx.sectorWeight < 0.25 && ctx.entriesToday < 8
    && ctx.cashAvailable > 0.0
  }

  /** The name itself passes: it is new, scored, and covered well enough. The sector pool is looked at right after this. */
  predicate Qualifies(ctx: BuyContext) {
    && !ctx.alreadyHeld
    && ctx.composite.Some? && ctx.compositePercentile.Some? && ctx.compositePercentile.value >= 70.0
    && ctx.weightCovered >= 0.70 && ctx.dataCompleteness >= 0.50
  }

  /** A candidate is bought exactly when it is eligible, and each portfolio limit is named in exactly these cases. Cash, the daily
      cap, the sector cap and the position cap are named only for a name that would be bought were that limit, and those checked
      after it, lifted. The sector pool is named before the trend and trigger gates are looked at, so it says nothing about them. */
  lemma BuyIffEligible(ctx: BuyContext)
    ensures EvaluateBuy(ctx).None? <==> Eligible(ctx)
    ensures EvaluateBuy(ctx) == Some(InsufficientCash) <==> Eligible(ctx.(cashAvailable := 1.0)) && ctx.cashAvailable <= 0.0
    ensures EvaluateBuy(ctx) == Some(DailyEntryCap)
            <==> Eligible(ctx.(cashAvailable := 1.0, entriesToday := 0)) && ctx.entriesToday >= 8
    ensures EvaluateBuy(ctx) == Some(SectorCap)
            <==> Eligible(ctx.(cashAvailable := 1.0, entriesToday := 0, sectorWeight := 0.0)) && ctx.sectorWeight >= 0.25
    ensures EvaluateBuy(ctx) == Some(MaxPositions)
            <==> Eligible(ctx.(cashAvailable := 1.0, entriesToday := 0, sectorWeight := 0.0, positionsHeld := 0))
                 && ctx.positionsHeld >= 40
    ensures EvaluateBuy(ctx) == Some(SectorPoolCap) <==> Qualifies(ctx) && ctx.sectorPoolFull
    ensures EvaluateBuy(ctx) == Some(AlreadyHeld) <==> ctx.alreadyHeld
    ensures EvaluateBuy(ctx).Some? && EvaluateBuy(ctx).value.Kind() == PortfolioLimit ==>
              EvaluateBuy(ctx).value in {InsufficientCash, DailyEntryCap, SectorCap, MaxPositions, SectorPoolCap, AlreadyHeld}
  {}

  /** The other refusals, in the order the program looks for them: too little data, a percentile under 70, a rank outside the pool,
      no uptrend, no trigger, earnings within five days. */
  lemma BuyRefusals(ctx: BuyContext)
    ensures var r := EvaluateBuy(ctx);
      var thin := ctx.composite.None? || ctx.compositePercentile.None? || ctx.weightCovered < 0.70 || ctx.dataCompleteness < 0.50;
      var fits := ctx.rank.Some? && ctx.rank.value <= ctx.rankThreshold && ctx.inCandidatePool && !ctx.sectorPoolFull;
      && (r == Some(InsufficientData) <==> !ctx.alreadyHeld && thin)
      && (r == Some(CompositeBelowMin) <==> !ctx.alreadyHeld && !thin && ctx.compositePercentile.value < 70.0)
      && (r == Some(OutsideCandidatePool) <==> Qualifies(ctx) && !fits && !ctx.sectorPoolFull)
      && (r == Some(Below50Dma) <==> Qualifies(ctx) && fits && !ctx.priceAbove50dma)
      && (r == Some(NoTechnicalTrigger)
          <==> Qualifies(ctx) && fits && ctx.priceAbove50dma && !ctx.freshBreakout && !ctx.macdBullish)
      && (r == Some(EarningsProximity)
          <==> Qualifies(ctx) && fits && ctx.priceAbove50dma && (ctx.freshBreakout || ctx.macdBullish)
               && ctx.daysToEarnings.Some? && ctx.daysToEarnings.value <= 5)
      && r != Some(NoAtr) && r != Some(SizeTooSmall)
  {}

  /** How the journal files a refusal. */
  lemma RefusalKinds(r: Reason)
    ensures r.Kind() == ScoreThreshold <==> r in {CompositeBelowMin, OutsideCandidatePool}
    ensures r.Kind() == PortfolioLimit
            <==> r in {SectorPoolCap, AlreadyHeld, MaxPositions, SectorCap, DailyEntryCap, InsufficientCash, SizeTooSmall}
  {}

  datatype ExitReason = StopGap | StopLoss | TargetPartial | FundamentalsDeteriorated | TrendReversal | Hold

  /** Why an order or a trade exists: an entry, or the sell rule that fired. */
  datatype TradeReason = Entry | Exit(reason: ExitReason)

  datatype SellAction = SellAction(
    fraction: real,
    reason: ExitReason,
    exitPrice: real,
    newStop: real,
    newHighestClose: real,
    reversalDays: nat)

  /** What the sell rules see besides the bar. */
  datatype ExitView = ExitView(
    compositePercentile: Option<real>,
    fundamentalsScore: Option<real>,
    momentumScore: Option<real>,
    interestCoverage: Option<real>,
    priceBelow50dma: bool,
    macdBearish: bool)

  function TrailingStop(pos: Position, close: real): real {
    var initialRisk := STOP_ATR_MULT * pos.atrAtEntry;
    var highest := Max(pos.highestClose, close);
    if close >= pos.entryPrice + initialRisk
    then Max(Max(pos.stopPrice, pos.entryPrice), highest - TRAIL_ATR_MULT * pos.atrAtEntry)
    else pos.stopPrice
  }

  predicate Deteriorated(pos: Position, view: ExitView) {
    || (pos.entryFundamentals.Some? && view.fundamentalsScore.Some?
        && pos.entryFundamentals.value - view.fundamentalsScore.value > FUND_SCORE_DROP)
    || (view.compositePercentile.Some? && view.compositePercentile.value < COMPOSITE_EXIT)
    || (view.interestCoverage.Some? && view.interestCoverage.value < MIN_INTEREST_COVERAGE)
  }

  predicate Reversing(view: ExitView) {
    view.priceBelow50dma && view.macdBearish
    && view.momentumScore.Some? && view.momentumScore.value < MOMENTUM_WEAK
  }

  function EvaluateSell(pos: Position, bar: Bar, view: ExitView): SellAction {
    var highest := Max(pos.highestClose, bar.close);
    if bar.low <= pos.stopPrice then
      if bar.open < pos.stopPrice
      then SellAction(1.0, StopGap, Min(bar.open, pos.stopPrice), pos.stopPrice, highest, 0)
      else SellAction(1.0, StopLoss, pos.stopPrice, pos.stopPrice, highest, 0)
    else if !pos.tookPartial && bar.high >= pos.targetPrice then
      SellAction(0.5, TargetPartial, pos.targetPrice, Max(pos.stopPrice, pos.entryPrice), highest, 0)
    else if Deteriorated(pos, view) then
      SellAction(1.0, FundamentalsDeteriorated, bar.close, pos.stopPrice, highest, 0)
    else if Reversing(view) then
      if pos.reversalDays + 1 >= TREND_CONFIRM_DAYS
      then SellAction(1.0, TrendReversal, bar.close, pos.stopPrice, highest, 0)
      else SellAction(0.0, Hold, bar.close, TrailingStop(pos, bar.close), highest, pos.reversalDays + 1)
    else SellAction(0.0, Hold, bar.close, TrailingStop(pos, bar.close), highest, 0)
  }

  // ---------- which rule fires, from the inputs alone ----------

  /** The rules in order of priority. A low at or under the stop closes the position, as a gap when the open was already under it.
      Otherwise the first touch of the target trims it. Otherwise it is sold when its fundamentals score lost more than 20
      points since entry, its composite percentile is under 25, or its interest coverage is under 2. Otherwise a day below the
      50-day average with bearish MACD and momentum under 30 is counted, and the second such day in a row sells. */
  lemma SellRules(pos: Position, bar: Bar, view: ExitView)
    ensures var reason := EvaluateSell(pos, bar, view).reason;
      var stopped := bar.low <= pos.stopPrice;
      var trims := !stopped && !pos.tookPartial && bar.high >= pos.targetPrice;
      var weak :=
        || (pos.entryFundamentals.Some? && view.fundamentalsScore.Some?
            && view.fundamentalsScore.value < pos.entryFundamentals.value - 20.0)
        || (view.compositePercentile.Some? && view.compositePercentile.value < 25.0)
        || (view.interestCoverage.Some? && view.interestCoverage.value < 2.0);
      var turning := view.priceBelow50dma && view.macdBearish && view.momentumScore.Some? && view.momentumScore.value < 30.0;
      && (reason == StopGap <==> stopped && bar.open < pos.stopPrice)
      && (reason == StopLoss <==> stopped && bar.open >= pos.stopPrice)
      && (reason == TargetPartial <==> trims)
      && (reason == FundamentalsDeteriorated <==> !stopped && !trims && weak)
      && (reason == TrendReversal <==> !stopped && !trims && !weak && turning && pos.reversalDays >= 1)
      && (reason == Hold <==> !stopped && !trims && !weak && (turning ==> pos.reversalDays == 0))
  {}

  /** What the reason means for the position: how much is sold and at which price, where the stop goes, and how many reversing
      days are on the count. */
  lemma SellTerms(pos: Position, bar: Bar, view: ExitView)
    ensures var a := EvaluateSell(pos, bar, view);
      var turning := view.priceBelow50dma && view.macdBearish && view.momentumScore.Some? && view.momentumScore.value < 30.0;
      && a.fraction == (match a.reason case Hold => 0.0 case TargetPartial => 0.5 case _ => 1.0)
      && a.exitPrice == (match a.reason
                         case StopGap => bar.open
                         case StopLoss => pos.stopPrice
                         case TargetPartial => pos.targetPrice
                         case _ => bar.close)
      && a.newHighestClose >= pos.highestClose && a.newHighestClose >= bar.close
      && (a.newHighestClose == pos.highestClose || a.newHighestClose == bar.close)
      && a.reversalDays == (if a.reason == Hold && turning then 1 else 0)
      && (a.reason == TargetPartial ==> a.newStop == if pos.entryPrice > pos.stopPrice then pos.entryPrice else pos.stopPrice)
      && (a.reason == Hold && bar.close < pos.entryPrice + 2.5 * pos.atrAtEntry ==> a.newStop == pos.stopPrice)
      && (a.reason == Hold && bar.close >= pos.entryPrice + 2.5 * pos.atrAtEntry ==>
            && a.newStop >= pos.stopPrice && a.newStop >= pos.entryPrice && a.newStop >= a.newHighestClose - 3.0 * pos.atrAtEntry
            && a.newStop in {pos.stopPrice, pos.entryPrice, a.newHighestClose - 3.0 * pos.atrAtEntry})
      && (a.fraction == 1.0 ==> a.newStop == pos.stopPrice)
  {
    SellRules(pos, bar, view);
  }

  /** What an executor leaves of a position after carrying out an action; None when it is closed. */
  function AfterAction(pos: Position, a: SellAction): Option<Position> {
    if a.fraction >= 1.0 then None
    else
      var kept := if a.fraction > 0.0
                  then pos.(shares := pos.shares - pos.shares * a.fraction, tookPartial := true)
                  else pos;
      Some(kept.(stopPrice := a.newStop, highestClose := a.newHighestClose, reversalDays := a.reversalDays))
  }
}
