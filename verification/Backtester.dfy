/** The backtester's loops over its mutable portfolio, proved against the engine's state functions. */
module Backtester {
  import opened Wrappers
  import opened Domain
  import opened Keys
  import opened Rules
  import opened Decision
  import opened CostModel
  import opened Books
  import opened Portfolio
  import opened Regimes
  import opened DataWindow
  import opened Engine
  import opened BookLimits
  import opened PlanLimits

  /** Carry out one exit intent: sell, then advance the trail of a position that stays open. */
  method ExecuteExit(portfolio: SimPortfolio, x: ExitIntent, data: Market, day: Day)
    requires portfolio.Valid() && x.symbol in portfolio.positions && x.symbol in data
    modifies portfolio, portfolio.positions[x.symbol]
    ensures portfolio.Valid()
    ensures portfolio.positions.Values <= old(portfolio.positions.Values)
    ensures portfolio.Contents() == ExitBook(old(portfolio.Contents()), x, data, day, FillPrice)
  {
    hide Fraction, Gain, Without, Enumerates, FillPrice, SellBook, ExitBook;
    ghost var before := portfolio.Contents();
    var a := x.action;
    if a.fraction > 0.0 {
      var price := FillPrice(a.exitPrice, Sell, VolumeRatio(data[x.symbol]));
      portfolio.Sell(x.symbol, day, a.fraction, price, Exit(a.reason));
    }
    ghost var sold := portfolio.Contents();
    ExitUnfolds(before, x, data, day, FillPrice, sold);
    if x.symbol in portfolio.positions {
      var held := portfolio.positions[x.symbol];
      held.stopPrice := a.newStop;
      held.highestClose := a.newHighestClose;
      held.reversalDays := a.reversalDays;
      assert held.Value() == Trail(sold.held[x.symbol], a);
      assert portfolio.Held() == sold.held[x.symbol := held.Value()];
    }
  }

  method ExecuteEntry(portfolio: SimPortfolio, e: EntryIntent, data: Market, day: Day)
    requires portfolio.Valid() && e.symbol in data
    modifies portfolio
    ensures portfolio.Valid()
    ensures portfolio.Contents() == EntryBook(old(portfolio.Contents()), e, data, day, FillPrice)
    ensures fresh(portfolio.positions.Values - old(portfolio.positions.Values))
  {
    hide FillPrice, Enumerates;
    var price := FillPrice(e.refPrice, Buy, VolumeRatio(data[e.symbol]));
    var state := new PositionState(Opened(e, price));
    portfolio.Buy(e.symbol, day, e.shares, price, state);
  }

  /** Exits first, which frees cash, then entries. */
  method ExecutePlan(portfolio: SimPortfolio, plan: CyclePlan, data: Market, day: Day)
    requires portfolio.Valid() && PlannedFor(plan.exits, portfolio.Held(), data) && Priced(plan.entries, data)
    modifies portfolio, portfolio.positions.Values
    ensures portfolio.Valid()
    ensures portfolio.Contents() == Execute(old(portfolio.Contents()), plan, data, day, FillPrice)
    ensures fresh(portfolio.positions.Values - old(portfolio.positions.Values))
  {
    hide ExitBook, EntryBook, FillPrice, WellFormed, SellFor;
    ghost var b0 := portfolio.Contents();
    var i := 0;
    while i < |plan.exits|
      invariant 0 <= i <= |plan.exits|
      invariant portfolio.Valid() && portfolio.positions.Values <= old(portfolio.positions.Values)
      invariant PlannedFor(plan.exits[i..], portfolio.Held(), data)
      invariant Exits(b0, plan.exits, data, day, FillPrice) == Exits(portfolio.Contents(), plan.exits[i..], data, day, FillPrice)
    {
      ghost var b, rest := portfolio.Contents(), plan.exits[i..];
      assert rest[1..] == plan.exits[i + 1..];
      PlannedRest(b, rest, data, day, FillPrice);
      ExecuteExit(portfolio, plan.exits[i], data, day);
      i := i + 1;
    }
    ghost var b1 := portfolio.Contents();
    var j := 0;
    while j < |plan.entries|
      invariant 0 <= j <= |plan.entries|
      invariant portfolio.Valid() && fresh(portfolio.positions.Values - old(portfolio.positions.Values))
      invariant Entries(b1, plan.entries, data, day, FillPrice) == Entries(portfolio.Contents(), plan.entries[j..], data, day, FillPrice)
    {
      assert plan.entries[j..][1..] == plan.entries[j + 1..];
      ExecuteEntry(portfolio, plan.entries[j], data, day);
      j := j + 1;
    }
  }

  lemma SignalsStart(env: Env, w: Window)
    ensures SignalsOf(env, w, []) == map[]
  {}

  lemma SignalsNext(env: Env, w: Window, symbols: seq<Symbol>, s: Symbol)
    ensures var before := SignalsOf(env, w, symbols);
      SignalsOf(env, w, symbols + [s]) == if Scorable(w, s) then before[s := env.compute(w.inputs[s])] else before
  {}

  /** The per-symbol pass of a session: signals, companies and the breadth counters. */
  method ScoreUniverse(env: Env, w: Window)
    returns (companies: seq<StrategyCompany>, signals: map<Symbol, Signals>, breadth: Option<real>)
    ensures companies == CompaniesOf(env, w, w.symbols)
    ensures signals == SignalsOf(env, w, w.symbols)
    ensures breadth == Breadth(BreadthCounts(w, w.symbols))
  {
    hide SignalsOf, Sma;
    companies, signals := [], map[];
    SignalsStart(env, w);
    var above, below := 0, 0;
    for i := 0 to |w.symbols|
      invariant companies == CompaniesOf(env, w, w.symbols[..i])
      invariant signals == SignalsOf(env, w, w.symbols[..i])
      invariant (above, below) == BreadthCounts(w, w.symbols[..i])
    {
      var sym := w.symbols[i];
      assert w.symbols[..i + 1] == w.symbols[..i] + [sym] && w.symbols[..i + 1][..i] == w.symbols[..i];
      SignalsNext(env, w, w.symbols[..i], sym);
      if sym in w.inputs && |w.inputs[sym].closes| >= WARMUP_BARS {
        var inputs := w.inputs[sym];
        var sig := env.compute(inputs);
        signals := signals[sym := sig];
        companies := companies + [StrategyCompany(sym, inputs.sector, sig)];
        var ma200 := Sma(inputs.closes, 200);
        if ma200.Some? {
          if inputs.closes[|inputs.closes| - 1] > ma200.value {
            above := above + 1;
          } else {
            below := below + 1;
          }
        }
      }
    }
    assert w.symbols[..|w.symbols|] == w.symbols;
    breadth := Breadth((above, below));
  }

  method SectorTotals(portfolio: SimPortfolio, sectors: map<Symbol, Sector>, marks: map<Symbol, real>)
    returns (out: map<Sector, real>)
    requires portfolio.Valid()
    ensures out == SectorNotional(portfolio.order, portfolio.Held(), sectors, marks)
  {
    hide Holding, SectorFor;
    out := map[];
    for i := 0 to |portfolio.order|
      invariant out == SectorNotional(portfolio.order[..i], portfolio.Held(), sectors, marks)
    {
      assert portfolio.order[..i + 1][..i] == portfolio.order[..i];
      var sym := portfolio.order[i];
      assert sym in portfolio.order && sym in portfolio.positions;
      var pos := portfolio.Held()[sym];
      var sector := SectorFor(sectors, sym);
      out := out[sector := (if sector in out then out[sector] else 0.0) + Holding(pos, marks, sym)];
    }
    assert portfolio.order[..|portfolio.order|] == portfolio.order;
  }

  lemma SnapshotIsFiled(env: Env, w: Window, st: RunState)
    requires Iterates(env)
    ensures var snap := SnapshotFor(env, w, st); Filed(snap.data) && Enumerates(snap.order, snap.data.Keys)
  {
    var snap := SnapshotFor(env, w, st);
    var names := SignalsOf(env, w, w.symbols).Keys + st.book.held.Keys;
    assert Enumerates(env.iterate(names), names);
    assert forall s :: s in snap.data ==> s in names;
  }

  lemma SnapshotUnfolds(env: Env, w: Window, st: RunState, companies: seq<StrategyCompany>,
                        signals: map<Symbol, Signals>,
                        raw: Regime, regime: Regime, snap: Snapshot)
    requires companies == CompaniesOf(env, w, w.symbols) && signals == SignalsOf(env, w, w.symbols)
    requires raw == ClassifyRaw(BuildFeatures(w.vixSeries, w.t10y2y, w.spyCloses, Breadth(BreadthCounts(w, w.symbols))))
    requires regime == ConfirmedRegime(LastFour(st.raws + [raw]), st.confirmed)
    requires var scores := env.fuse(companies, regime); var names := signals.Keys + st.book.held.Keys;
      var data := DataFor(w, signals, scores);
      snap == Snapshot(|companies|, raw, regime, data, Keep(env.iterate(names), data.Keys), MarksFor(w, scores, names))
    ensures snap == SnapshotFor(env, w, st)
  {}

  lemma SessionUnfolds(env: Env, w: Window, st: RunState, snap: Snapshot, book: Book, point: EquityPoint)
    requires CompaniesOf(env, w, w.symbols) != [] && snap == SnapshotFor(env, w, st)
    requires book == Execute(st.book, PlanFor(w, snap, st.book), snap.data, w.asOf, FillPrice)
    requires point == EquityPoint(w.asOf, Equity(book, snap.marks), book.cash, snap.regime, |book.order|)
    ensures SessionStep(env, w, st) ==
            RunState(book, Some(snap.regime), st.raws + [snap.raw], st.curve + [point],
                     st.regimeDays[snap.regime := (if snap.regime in st.regimeDays then st.regimeDays[snap.regime] else 0) + 1])
  {
    hide Execute, PlanFor, SnapshotFor, Equity, CompaniesOf;
  }

  lemma PlanFits(data: Market, order: seq<Symbol>, b: Book, equity: real, sector: map<Sector, real>, nScored: int)
    requires Filed(data) && Enumerates(order, data.Keys) && WellFormed(b)
    ensures var plan := CycleFor(data, order, b.held, b.order, equity, b.cash, sector, 0, nScored);
      PlannedFor(plan.exits, b.held, data) && Priced(plan.entries, data)
  {
    hide CycleFor, PlannedFor, Sized;
    PlanIsPlannedFrom(data, order, b, equity, sector, 0, nScored);
  }

  /** One session with at least one scorable company: decide, execute, record. */
  method RunSession(env: Env, w: Window, portfolio: SimPortfolio, companies: seq<StrategyCompany>,
                    signals: map<Symbol, Signals>, raw: Regime, regime: Regime, ghost st: RunState)
    returns (point: EquityPoint)
    requires Iterates(env) && portfolio.Valid() && st.book == portfolio.Contents() && companies != []
    requires companies == CompaniesOf(env, w, w.symbols) && signals == SignalsOf(env, w, w.symbols)
    requires raw == ClassifyRaw(BuildFeatures(w.vixSeries, w.t10y2y, w.spyCloses, Breadth(BreadthCounts(w, w.symbols))))
    requires regime == ConfirmedRegime(LastFour(st.raws + [raw]), st.confirmed)
    modifies portfolio, portfolio.positions.Values
    ensures portfolio.Valid()
    ensures fresh(portfolio.positions.Values - old(portfolio.positions.Values))
    ensures SessionStep(env, w, st) ==
            RunState(portfolio.Contents(), Some(regime), st.raws + [raw], st.curve + [point],
                     st.regimeDays[regime := (if regime in st.regimeDays then st.regimeDays[regime] else 0) + 1])
  {
    hide Execute, CycleFor, SnapshotFor, Equity, SectorNotional, DataFor, MarksFor, Keep, CompaniesOf, SignalsOf,
         BuildFeatures, ClassifyRaw, BreadthCounts, LastFour, ConfirmedRegime, Enumerates, SessionStep,
         PlannedFor, Priced, Filed;
    ghost var b := portfolio.Contents();
    var scores := env.fuse(companies, regime);
    var cycleData := DataFor(w, signals, scores);
    assert portfolio.positions.Keys == b.held.Keys;
    var names := signals.Keys + portfolio.positions.Keys;
    var marks := MarksFor(w, scores, names);
    var order := Keep(env.iterate(names), cycleData.Keys);
    ghost var snap := Snapshot(|companies|, raw, regime, cycleData, order, marks);
    SnapshotUnfolds(env, w, st, companies, signals, raw, regime, snap);
    SnapshotIsFiled(env, w, st);
    var equity := Equity(portfolio.Contents(), marks);
    var sectorNotional := SectorTotals(portfolio, w.sectors, marks);
    var plan := PlanCycle(cycleData, order, portfolio.Held(), portfolio.order, equity, portfolio.cash,
                          sectorNotional, 0, |companies|);
    assert plan == PlanFor(w, snap, b);
    PlanFits(cycleData, order, b, equity, sectorNotional, |companies|);
    ExecutePlan(portfolio, plan, cycleData, w.asOf);
    equity := Equity(portfolio.Contents(), marks);
    point := EquityPoint(w.asOf, equity, portfolio.cash, regime, |portfolio.order|);
    SessionUnfolds(env, w, st, snap, portfolio.Contents(), point);
  }

  /** The session loop over the calendar. */
  method RunBacktest(env: Env, data: BacktestData, config: BacktestConfig)
    returns (curve: seq<EquityPoint>, trades: seq<Trade>, regimeDays: map<Regime, nat>)
    requires Loaded(data) && Iterates(env)
    ensures var end := Run(env, data, config);
      curve == end.curve && trades == end.book.trades && regimeDays == end.regimeDays
  {
    hide SessionStep, WellFormed, CompaniesOf, SignalsOf, BuildFeatures, ClassifyRaw, BreadthCounts, Observe, LastFour,
         ConfirmedRegime;
    var calendar := Calendar(data.spyDates, config);
    var portfolio := new SimPortfolio(config.initialCash);
    var prevConfirmed: Option<Regime>, rawHistory: seq<Regime> := None, [];
    curve, regimeDays := [], map[];
    for i := 0 to |calendar|
      invariant portfolio.Valid() && fresh(portfolio) && fresh(portfolio.positions.Values)
      invariant RunState(portfolio.Contents(), prevConfirmed, rawHistory, curve, regimeDays)
                == RunAfter(env, data, config, calendar, i)
    {
      if i >= WARMUP_BARS {
        var w := Observe(data, calendar[i]);
        ghost var st := RunAfter(env, data, config, calendar, i);
        var companies, signals, breadth := ScoreUniverse(env, w);
        if companies == [] {
          NoCompaniesNoSession(env, w, st);
        } else {
          var todayRaw := ClassifyRaw(BuildFeatures(w.vixSeries, w.t10y2y, w.spyCloses, breadth));
          rawHistory := rawHistory + [todayRaw];
          var regime := ConfirmedRegime(LastFour(rawHistory), prevConfirmed);
          prevConfirmed := Some(regime);
          regimeDays := regimeDays[regime := (if regime in regimeDays then regimeDays[regime] else 0) + 1];
          var point := RunSession(env, w, portfolio, companies, signals, todayRaw, regime, st);
          curve := curve + [point];
        }
      }
    }
    trades := portfolio.trades;
  }

  lemma NoCompaniesNoSession(env: Env, w: Window, st: RunState)
    requires CompaniesOf(env, w, w.symbols) == []
    ensures SessionStep(env, w, st) == st
  {}
}
