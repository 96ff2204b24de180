/** The event-driven daily backtest: one session after another over the same planner the live engine uses. */
module Engine {
  import opened Wrappers
  import opened Domain
  import opened Keys
  import opened Sums
  import opened Decision
  import opened CostModel
  import opened Books
  import opened Regimes
  import opened DataWindow

  const WARMUP_BARS := 200

  /** The pure parts the session calls into, and the order in which the runtime iterates a set. */
  datatype Env = Env(
    compute: SignalInputs -> Signals,
    fuse: (seq<StrategyCompany>, Regime) -> map<Symbol, StrategyScore>,
    iterate: set<Symbol> -> seq<Symbol>)

  ghost predicate Iterates(env: Env) {
    forall names: set<Symbol> :: Enumerates(env.iterate(names), names)
  }

  datatype BacktestConfig = BacktestConfig(start: Day, end: Day, initialCash: real)

  datatype EquityPoint = EquityPoint(day: Day, equity: real, cash: real, regime: Regime, positions: nat)

  datatype RunState = RunState(
    book: Book, confirmed: Option<Regime>, raws: seq<Regime>, curve: seq<EquityPoint>, regimeDays: map<Regime, nat>)

  // ---------- signals and breadth ----------

  predicate Scorable(w: Window, s: Symbol) {
    s in w.inputs && |w.inputs[s].closes| >= WARMUP_BARS
  }

  function CompaniesOf(env: Env, w: Window, symbols: seq<Symbol>): seq<StrategyCompany> {
    if symbols == [] then []
    else
      var n := |symbols| - 1;
      var s := symbols[n];
      CompaniesOf(env, w, symbols[..n]) +
      (if Scorable(w, s) then [StrategyCompany(s, w.inputs[s].sector, env.compute(w.inputs[s]))] else [])
  }

  function SignalsOf(env: Env, w: Window, symbols: seq<Symbol>): map<Symbol, Signals> {
    map s | s in symbols && Scorable(w, s) :: env.compute(w.inputs[s])
  }

  /** How many scorable names close above their 200-day average, and how many do not. */
  function BreadthCounts(w: Window, symbols: seq<Symbol>): (nat, nat) {
    if symbols == [] then (0, 0)
    else
      var n := |symbols| - 1;
      var (above, below) := BreadthCounts(w, symbols[..n]);
      var s := symbols[n];
      if !Scorable(w, s) then (above, below)
      else
        var closes := w.inputs[s].closes;
        var ma := Sma(closes, 200);
        if ma.None? then (above, below)
        else if closes[|closes| - 1] > ma.value then (above + 1, below)
        else (above, below + 1)
  }

  function Breadth(counts: (nat, nat)): Option<real> {
    var all := counts.0 + counts.1;
    if all == 0 then None else Some(counts.0 as real / all as real)
  }

  // ---------- the snapshot the planner consumes ----------

  function AtrOf(signals: Signals, close: real): Option<real> {
    var pct := Metric(signals, Technical, "atr_pct");
    if pct.Some? && pct.value > 0.0 then Some(Amount(pct.value, close)) else None
  }

  function DataFor(w: Window, signals: map<Symbol, Signals>, scores: map<Symbol, StrategyScore>): Market {
    map s | s in signals && s in w.bars && s in scores && s in w.inputs ::
      CycleData(s, w.inputs[s].sector, Bar(w.bars[s].open, w.bars[s].high, w.bars[s].low, w.bars[s].close),
                w.inputs[s].closes, signals[s], scores[s], AtrOf(signals[s], w.bars[s].close))
  }

  function MarksFor(w: Window, scores: map<Symbol, StrategyScore>, names: set<Symbol>): map<Symbol, real> {
    map s | s in names && s in w.bars && s in scores :: w.bars[s].close
  }

  // ---------- the book seen by the planner ----------

  function MarkOf(pos: Position, marks: map<Symbol, real>, s: Symbol): real {
    if s in marks then marks[s] else pos.entryPrice
  }

  function Holding(pos: Position, marks: map<Symbol, real>, s: Symbol): real {
    Amount(pos.shares, MarkOf(pos, marks, s))
  }

  function HoldingValues(held: map<Symbol, Position>, marks: map<Symbol, real>): map<Symbol, real> {
    map s | s in held :: Holding(held[s], marks, s)
  }

  function Equity(b: Book, marks: map<Symbol, real>): real {
    b.cash + Sum(b.order, HoldingValues(b.held, marks))
  }

  function SectorNotional(order: seq<Symbol>, held: map<Symbol, Position>, sectors: map<Symbol, Sector>,
                          marks: map<Symbol, real>): map<Sector, real> {
    if order == [] then map[]
    else
      var n := |order| - 1;
      var out := SectorNotional(order[..n], held, sectors, marks);
      var s := order[n];
      if s !in held then out
      else
        var sector := SectorFor(sectors, s);
        out[sector := (if sector in out then out[sector] else 0.0) + Holding(held[s], marks, s)]
  }

  /** The holdings of one sector. */
  function SectorWeights(held: map<Symbol, Position>, sectors: map<Symbol, Sector>, marks: map<Symbol, real>,
                         k: Sector): map<Symbol, real> {
    map s | s in held && SectorFor(sectors, s) == k :: Holding(held[s], marks, s)
  }

  predicate Represents(order: seq<Symbol>, held: map<Symbol, Position>, sectors: map<Symbol, Sector>, k: Sector) {
    exists j :: 0 <= j < |order| && order[j] in held && SectorFor(sectors, order[j]) == k
  }

  /** Each sector's total is the sum of its holdings. */
  lemma {:induction false} SectorTotal(order: seq<Symbol>, held: map<Symbol, Position>, sectors: map<Symbol, Sector>,
                                       marks: map<Symbol, real>, k: Sector)
    ensures var out := SectorNotional(order, held, sectors, marks);
      && (k in out <==> Represents(order, held, sectors, k))
      && (if k in out then out[k] else 0.0) == Sum(order, SectorWeights(held, sectors, marks, k))
  {
    if order != [] {
      hide Holding;
      var n := |order| - 1;
      SectorTotal(order[..n], held, sectors, marks, k);
      assert Represents(order, held, sectors, k) <==>
             Represents(order[..n], held, sectors, k) || (order[n] in held && SectorFor(sectors, order[n]) == k) by {
        if Represents(order[..n], held, sectors, k) {
          var j :| 0 <= j < n && order[..n][j] in held && SectorFor(sectors, order[..n][j]) == k;
          assert order[j] == order[..n][j];
        }
        if Represents(order, held, sectors, k) && !(order[n] in held && SectorFor(sectors, order[n]) == k) {
          var j :| 0 <= j < |order| && order[j] in held && SectorFor(sectors, order[j]) == k;
          assert order[..n][j] == order[j];
        }
      }
    }
  }

  // ---------- one session ----------

  datatype Snapshot = Snapshot(
    nScored: nat, raw: Regime, regime: Regime, data: Market, order: seq<Symbol>, marks: map<Symbol, real>)

  function SnapshotFor(env: Env, w: Window, st: RunState): (snap: Snapshot)
    ensures forall s :: s in snap.order ==> s in snap.data
  {
    var companies := CompaniesOf(env, w, w.symbols);
    var signals := SignalsOf(env, w, w.symbols);
    var raw := ClassifyRaw(BuildFeatures(w.vixSeries, w.t10y2y, w.spyCloses, Breadth(BreadthCounts(w, w.symbols))));
    var regime := ConfirmedRegime(LastFour(st.raws + [raw]), st.confirmed);
    var scores := env.fuse(companies, regime);
    var data := DataFor(w, signals, scores);
    var names := signals.Keys + st.book.held.Keys;
    Snapshot(|companies|, raw, regime, data, Keep(env.iterate(names), data.Keys), MarksFor(w, scores, names))
  }

  function PlanFor(w: Window, snap: Snapshot, b: Book): CyclePlan
    requires forall s :: s in snap.order ==> s in snap.data
  {
    CycleFor(snap.data, snap.order, b.held, b.order, Equity(b, snap.marks), b.cash,
             SectorNotional(b.order, b.held, w.sectors, snap.marks), 0, snap.nScored)
  }

  function SessionStep(env: Env, w: Window, st: RunState): RunState {
    if CompaniesOf(env, w, w.symbols) == [] then st
    else
      var snap := SnapshotFor(env, w, st);
      var book := Execute(st.book, PlanFor(w, snap, st.book), snap.data, w.asOf, FillPrice);
      RunState(book, Some(snap.regime), st.raws + [snap.raw],
               st.curve + [EquityPoint(w.asOf, Equity(book, snap.marks), book.cash, snap.regime, |book.order|)],
               st.regimeDays[snap.regime := (if snap.regime in st.regimeDays then st.regimeDays[snap.regime] else 0) + 1])
  }

  // ---------- the run ----------

  function Calendar(dates: seq<Day>, config: BacktestConfig): seq<Day> {
    if dates == [] then []
    else
      var n := |dates| - 1;
      Calendar(dates[..n], config) + (if config.start <= dates[n] <= config.end then [dates[n]] else [])
  }

  function Start(config: BacktestConfig): RunState {
    RunState(Book(config.initialCash, map[], [], []), None, [], [], map[])
  }

  /** The state after the first n calendar days; the first 200 only warm up. */
  function RunAfter(env: Env, data: BacktestData, config: BacktestConfig, calendar: seq<Day>, n: nat): RunState
    requires Loaded(data) && n <= |calendar|
  {
    if n == 0 then Start(config)
    else
      var st := RunAfter(env, data, config, calendar, n - 1);
      if n - 1 < WARMUP_BARS then st else SessionStep(env, Observe(data, calendar[n - 1]), st)
  }

  function Run(env: Env, data: BacktestData, config: BacktestConfig): RunState
    requires Loaded(data)
  {
    var calendar := Calendar(data.spyDates, config);
    RunAfter(env, data, config, calendar, |calendar|)
  }
}
