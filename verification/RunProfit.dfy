/** What the trade log of a run records of one position, and the risk budget after costs. */
module RunProfit {
  import opened Wrappers
  import opened Arithmetic
  import opened Domain
  import opened Keys
  import opened Rules
  import opened Decision
  import opened PlanLimits
  import opened CostModel
  import opened Books
  import opened Lifecycle
  import opened DataWindow
  import opened Engine
  import opened BacktestRuns
  import opened RunHistory

  /** All the profit the log records on one symbol. */
  function Earned(trades: seq<Trade>, s: Symbol): real {
    if trades == [] then 0.0
    else
      var last := trades[|trades| - 1];
      Earned(trades[..|trades| - 1], s) + if last.symbol == s then last.realizedPnl else 0.0
  }

  lemma EarnedAppend(trades: seq<Trade>, t: Trade, s: Symbol)
    ensures Earned(trades + [t], s) == Earned(trades, s) + if t.symbol == s then t.realizedPnl else 0.0
  {
    assert (trades + [t])[..|trades|] == trades;
  }

  // ---------- what a life records ----------

  /** The profit recorded on a sale: its fill against the price the position was opened at. */
  function SaleGain(pos: Position, a: SellAction, volume: Option<real>): real {
    Gain(Fraction(pos.shares, a.fraction), FillPrice(a.exitPrice, Sell, volume), pos.entryPrice)
  }

  function SessionGain(life: Life, s: Session): real {
    if life.Closed? then 0.0 else SaleGain(life.pos, EvaluateSell(life.pos, s.bar, s.view), s.volume)
  }

  /** The profit recorded on all sales of a life. */
  function Booked(p: Position, ref: real, ss: seq<Session>): real {
    if ss == [] then 0.0
    else
      var n := |ss| - 1;
      Booked(p, ref, ss[..n]) + SessionGain(Live(p, ref, ss[..n]), ss[n])
  }

  lemma BookedShown(p: Position, ref: real, past: seq<Session>, shown: seq<Session>)
    requires |shown| <= 1
    ensures Booked(p, ref, past + shown)
            == Booked(p, ref, past) + if shown == [] then 0.0 else SessionGain(Live(p, ref, past), shown[0])
  {
    hide Live, SessionGain;
    if shown == [] {
      assert past + shown == past;
    } else {
      assert (past + shown)[..|past|] == past;
    }
  }

  // ---------- what a session records ----------

  /** What an exit records on the symbols it is not about, and on its own. */
  lemma ExitEarns(b: Book, x: ExitIntent, data: Market, day: Day, s: Symbol)
    requires x.symbol in b.held && x.symbol in data && x.action.fraction >= 0.0
    ensures Earned(ExitBook(b, x, data, day, FillPrice).trades, s)
            == Earned(b.trades, s)
               + if x.symbol == s then SaleGain(b.held[s], x.action, VolumeRatio(data[s])) else 0.0
  {
    hide FillPrice, VolumeRatio, Amount, Without, Earned, Fraction, Gain, Trail;
    var a := x.action;
    if a.fraction > 0.0 {
      var price := FillPrice(a.exitPrice, Sell, VolumeRatio(data[x.symbol]));
      var sold := SellBook(b, x.symbol, day, a.fraction, price, Exit(a.reason));
      SellFields(b, x.symbol, day, a.fraction, price, Exit(a.reason));
      EarnedAppend(b.trades, sold.trades[|b.trades|], s);
    } else {
      NothingSold(b.held[x.symbol].shares, FillPrice(a.exitPrice, Sell, VolumeRatio(data[x.symbol])), b.held[x.symbol].entryPrice);
    }
  }

  lemma NothingSold(shares: real, price: real, entryPrice: real)
    ensures Gain(Fraction(shares, 0.0), price, entryPrice) == 0.0
  {}

  lemma {:induction false} ExitsEarn(b: Book, xs: seq<ExitIntent>, data: Market, day: Day, s: Symbol)
    requires WellFormed(b) && PlannedFor(xs, b.held, data)
    ensures Earned(Exits(b, xs, data, day, FillPrice).trades, s)
            == Earned(b.trades, s)
               + if s in Touched(xs) then SaleGain(b.held[s], SellFor(b.held[s], data[s]), VolumeRatio(data[s])) else 0.0
    decreases |xs|
  {
    hide SellFor, VolumeRatio, SaleGain, Earned, ExitBook, AfterAction, WellFormed;
    if xs != [] {
      var rest := ExitBook(b, xs[0], data, day, FillPrice);
      SellForFraction(b.held[xs[0].symbol], data[xs[0].symbol]);
      ExitEarns(b, xs[0], data, day, s);
      PlannedRest(b, xs, data, day, FillPrice);
      ExitsEarn(rest, xs[1..], data, day, s);
    }
  }

  lemma {:induction false} EntriesEarnNothing(b: Book, es: seq<EntryIntent>, data: Market, day: Day, s: Symbol)
    ensures Earned(Entries(b, es, data, day, FillPrice).trades, s) == Earned(b.trades, s)
    decreases |es|
  {
    hide FillPrice, VolumeRatio, Amount, Earned;
    if es != [] {
      var first := EntryBook(b, es[0], data, day, FillPrice);
      if es[0].symbol in data {
        EarnedAppend(b.trades, first.trades[|b.trades|], s);
      }
      EntriesEarnNothing(first, es[1..], data, day, s);
    }
  }

  /** A session records on a held symbol exactly its own sale. */
  lemma SessionEarns(env: Env, w: Window, st: RunState, s: Symbol)
    requires Iterates(env) && WellFormed(st.book) && s in st.book.held
    ensures var shown := Shown(env, w, st, s); var pos := st.book.held[s];
      Earned(SessionStep(env, w, st).book.trades, s)
        == Earned(st.book.trades, s)
           + if shown == [] then 0.0 else SaleGain(pos, EvaluateSell(pos, shown[0].bar, shown[0].view), shown[0].volume)
  {
    hide Equity, SectorNotional, EntriesFor, ExitsFor, SnapshotFor, EvaluateSell, CompaniesOf, SaleGain, Earned, Exits, Entries,
         VolumeRatio, WellFormed, EntriesFromData;
    var snap := SnapshotFor(env, w, st);
    var plan := PlanFor(w, snap, st.book);
    SessionPlanned(env, w, st);
    TouchedHeld(st.book, snap.data);
    ExitsEarn(st.book, plan.exits, snap.data, w.asOf, s);
    EntriesEarnNothing(Exits(st.book, plan.exits, snap.data, w.asOf, FillPrice), plan.entries, snap.data, w.asOf, s);
  }

  lemma TouchedHeld(b: Book, data: Market)
    requires WellFormed(b)
    ensures forall s :: s in Touched(ExitsFor(b.order, b.held, data)) <==> s in b.held && s in data
  {
    TouchedIs(b.order, b.held, data);
  }

  // ---------- what a run records ----------

  /** In any run, what the log records on a symbol from day m on is exactly what the position's life books, up to and
      including the session that closes it. */
  lemma {:induction false} RunRecordsLife(env: Env, data: BacktestData, config: BacktestConfig, calendar: seq<Day>, m: nat, n: nat,
                                          s: Symbol, ref: real)
    requires Iterates(env) && Loaded(data) && m < n <= |calendar|
    requires s in RunAfter(env, data, config, calendar, m).book.held
    requires Live(RunAfter(env, data, config, calendar, m).book.held[s], ref,
                  Observed(env, data, config, calendar, m, n - 1, s)).Open?
    ensures var before := RunAfter(env, data, config, calendar, m).book;
      Earned(RunAfter(env, data, config, calendar, n).book.trades, s)
        == Earned(before.trades, s) + Booked(before.held[s], ref, Observed(env, data, config, calendar, m, n, s))
  {
    hide SessionStep, Shown, Observe, Live, WellFormed, Imbalance, Earned, SessionGain;
    var p := RunAfter(env, data, config, calendar, m).book.held[s];
    var past := Observed(env, data, config, calendar, m, n - 1, s);
    var shown := ShownOn(env, data, config, calendar, n - 1, s);
    if n - 1 > m {
      ShownOnAtMostOnce(env, data, config, calendar, n - 2, s);
      OpenBefore(p, ref, Observed(env, data, config, calendar, m, n - 2, s), ShownOn(env, data, config, calendar, n - 2, s));
      RunRecordsLife(env, data, config, calendar, m, n - 1, s, ref);
    }
    ShownOnAtMostOnce(env, data, config, calendar, n - 1, s);
    BookedShown(p, ref, past, shown);
    DayEarns(env, data, config, calendar, m, n, s, ref);
  }

  lemma DayEarns(env: Env, data: BacktestData, config: BacktestConfig, calendar: seq<Day>, m: nat, n: nat, s: Symbol, ref: real)
    requires Iterates(env) && Loaded(data) && m < n <= |calendar|
    requires s in RunAfter(env, data, config, calendar, m).book.held
    requires Live(RunAfter(env, data, config, calendar, m).book.held[s], ref,
                  Observed(env, data, config, calendar, m, n - 1, s)).Open?
    ensures var life := Live(RunAfter(env, data, config, calendar, m).book.held[s], ref,
                             Observed(env, data, config, calendar, m, n - 1, s));
      var shown := ShownOn(env, data, config, calendar, n - 1, s);
      Earned(RunAfter(env, data, config, calendar, n).book.trades, s)
        == Earned(RunAfter(env, data, config, calendar, n - 1).book.trades, s)
           + if shown == [] then 0.0 else SessionGain(life, shown[0])
  {
    hide SessionStep, Shown, Observe, Live, WellFormed, Imbalance, Earned, SaleGain, Observed, EvaluateSell;
    PositionLivesItsLife(env, data, config, calendar, m, n - 1, s, ref);
    RunKeepsBook(env, data, config, calendar, n - 1);
    if n - 1 >= WARMUP_BARS {
      SessionEarns(env, Observe(data, calendar[n - 1]), RunAfter(env, data, config, calendar, n - 1), s);
    }
  }

  // ---------- costs over a life ----------

  ghost predicate Quoted(bar: Bar) { bar.open > 0.0 && bar.low > 0.0 && bar.close > 0.0 }

  function SoldShares(p: Position, life: Life): real {
    if life.Closed? then p.shares else p.shares - life.pos.shares
  }

  /** What the sales of a life raised before costs. */
  function Raised(p: Position, ref: real, life: Life): real { life.pnl + Amount(SoldShares(p, life), ref) }

  lemma ExitAboveZero(pos: Position, bar: Bar, view: ExitView)
    requires pos.targetPrice > 0.0 && Quoted(bar)
    ensures EvaluateSell(pos, bar, view).exitPrice > 0.0 && 0.0 <= EvaluateSell(pos, bar, view).fraction <= 1.0
  {}

  lemma SaleBand(sold: real, mid: real, fill: real, entryPrice: real)
    requires sold >= 0.0 && mid * 0.9984 <= fill <= mid * 0.9993
    ensures 0.9984 * Amount(sold, mid) - Amount(sold, entryPrice) <= Gain(sold, fill, entryPrice)
            <= 0.9993 * Amount(sold, mid) - Amount(sold, entryPrice)
  {
    MulMono(sold, mid * 0.9984, fill);
    MulMono(sold, fill, mid * 0.9993);
  }

  ghost predicate WithinCosts(p: Position, ref: real, life: Life, booked: real) {
    var taken, cost := Raised(p, ref, life), Amount(SoldShares(p, life), p.entryPrice);
    0.9984 * taken - cost <= booked <= 0.9993 * taken - cost
  }

  lemma AmountAdds(a: real, b: real, price: real)
    ensures Amount(a + b, price) == Amount(a, price) + Amount(b, price)
  {}

  lemma AmountShift(sold: real, price: real, ref: real)
    ensures sold * (price - ref) == Amount(sold, price) - Amount(sold, ref)
  {}

  /** What one session adds to the sold shares and to what they raised. */
  lemma SessionRaises(p: Position, ref: real, q: Position, pnl: real, s: Session)
    requires 0.0 <= EvaluateSell(q, s.bar, s.view).fraction <= 1.0
    ensures var a := EvaluateSell(q, s.bar, s.view); var sold := Fraction(q.shares, a.fraction);
      var before, after := Open(q, pnl), LiveOn(q, pnl, ref, s);
      && SoldShares(p, after) == SoldShares(p, before) + sold
      && Raised(p, ref, after) == Raised(p, ref, before) + Amount(sold, a.exitPrice)
  {
    hide EvaluateSell, Amount;
    var a := EvaluateSell(q, s.bar, s.view);
    var sold := Fraction(q.shares, a.fraction);
    AmountShift(sold, a.exitPrice, ref);
    AmountAdds(p.shares - q.shares, sold, ref);
    assert SoldShares(p, LiveOn(q, pnl, ref, s)) == p.shares - q.shares + sold;
    assert LiveOn(q, pnl, ref, s).pnl == pnl + sold * (a.exitPrice - ref);
    assert Amount(SoldShares(p, LiveOn(q, pnl, ref, s)), ref) == Amount(p.shares - q.shares + sold, ref);
  }

  lemma SessionWithinCosts(p: Position, ref: real, q: Position, pnl: real, s: Session, booked: real)
    requires q.shares > 0.0 && q.targetPrice > 0.0 && q.entryPrice == p.entryPrice && Quoted(s.bar)
    requires WithinCosts(p, ref, Open(q, pnl), booked)
    ensures WithinCosts(p, ref, LiveOn(q, pnl, ref, s), booked + SessionGain(Open(q, pnl), s))
  {
    hide EvaluateSell, Amount, LiveOn, Raised, SoldShares, FillPrice, Gain;
    var a := EvaluateSell(q, s.bar, s.view);
    ExitAboveZero(q, s.bar, s.view);
    SessionRaises(p, ref, q, pnl, s);
    CostBand(a.exitPrice, s.volume);
    SaleBand(Fraction(q.shares, a.fraction), a.exitPrice, FillPrice(a.exitPrice, Sell, s.volume), q.entryPrice);
    AmountAdds(SoldShares(p, Open(q, pnl)), Fraction(q.shares, a.fraction), p.entryPrice);
  }

  /** Over a whole life the recorded profit is what the sales raised, less between 7 and 16 basis points of it, less what
      the sold shares cost. */
  lemma {:induction false} LifeWithinCosts(p: Position, ref: real, ss: seq<Session>)
    requires p.shares > 0.0 && p.targetPrice > 0.0 && forall i :: 0 <= i < |ss| ==> Quoted(ss[i].bar)
    ensures WithinCosts(p, ref, Live(p, ref, ss), Booked(p, ref, ss))
  {
    hide LiveOn, SaleGain;
    if ss != [] {
      var n := |ss| - 1;
      LifeWithinCosts(p, ref, ss[..n]);
      if Live(p, ref, ss[..n]).Open? {
        TrailIsHistory(p, ref, ss[..n]);
        SessionWithinCosts(p, ref, Live(p, ref, ss[..n]).pos, Live(p, ref, ss[..n]).pnl, ss[n], Booked(p, ref, ss[..n]));
      }
    }
  }

  // ---------- the risk budget after costs ----------

  /** The opening price of the last session keeps a planned position within its budget. */
  ghost predicate OpensInBudget(e: EntryIntent, equity: real, price: real, ss: seq<Session>)
    requires ss != [] && e.shares > 0.0
  {
    var p := Opened(e, price);
    ss[|ss| - 1].bar.open >= WorstOpen(p, e.refPrice, 0.004 * equity, TrimmedBy(p, ss[..|ss| - 1]))
  }

  lemma BudgetMoney(booked: real, pnl: real, notional: real, cost: real, equity: real)
    requires 0.9984 * (pnl + notional) - cost <= booked <= 0.9993 * (pnl + notional) - cost
    requires notional * 1.0007 <= cost <= notional * 1.0016 && 0.0 <= notional <= 0.025 * equity
    ensures pnl >= -0.004 * equity ==> booked >= -0.0040736 * equity
    ensures pnl < -0.004 * equity ==> booked < -0.0039972 * equity
  {}

  /** With all costs, a planned position that its last session closes loses at most 0.40736% of the equity it was sized on
      if that session opens within the budget, and more than 0.39972% if it does not. */
  lemma ClosedAfterCosts(e: EntryIntent, d: CycleData, equity: real, price: real, ss: seq<Session>)
    requires Sized(e, d, equity) && e.refPrice * 1.0007 <= price <= e.refPrice * 1.0016
    requires ss != [] && (forall i :: 0 <= i < |ss| ==> Coherent(ss[i].bar) && Quoted(ss[i].bar))
    requires Live(Opened(e, price), e.refPrice, ss[..|ss| - 1]).Open? && Live(Opened(e, price), e.refPrice, ss).Closed?
    ensures var booked := Booked(Opened(e, price), e.refPrice, ss);
      if OpensInBudget(e, equity, price, ss) then booked >= -0.0040736 * equity else booked < -0.0039972 * equity
  {
    hide Live, Booked, TrimmedBy, WorstOpen, Amount, Sized, FreshFrom, Coherent, Quoted;
    var p := Opened(e, price);
    OpenedMoney(e, d, equity, price);
    ClosedWithinBudgetIff(p, e.refPrice, 0.004 * equity, ss);
    LifeWithinCosts(p, e.refPrice, ss);
    BudgetMoney(Booked(p, e.refPrice, ss), Live(p, e.refPrice, ss).pnl, Amount(e.shares, e.refPrice), Amount(e.shares, price),
                equity);
  }

  lemma OpenedMoney(e: EntryIntent, d: CycleData, equity: real, price: real)
    requires Sized(e, d, equity) && e.refPrice * 1.0007 <= price <= e.refPrice * 1.0016
    ensures var p := Opened(e, price);
      FreshFrom(p, e.refPrice) && p.shares > 0.0 && p.targetPrice > 0.0
      && p.shares * (2.5 * p.atrAtEntry) <= 0.004 * equity
    ensures Amount(e.shares, e.refPrice) * 1.0007 <= Amount(e.shares, price) <= Amount(e.shares, e.refPrice) * 1.0016
    ensures 0.0 <= Amount(e.shares, e.refPrice) <= 0.025 * equity
  {
    hide Amount;
    AmountMono(e.shares, e.refPrice * 1.0007, price);
    AmountMono(e.shares, price, e.refPrice * 1.0016);
    AmountScales(e.shares, e.refPrice, 1.0007);
    AmountScales(e.shares, e.refPrice, 1.0016);
    AmountIs(e.shares, e.refPrice);
  }

  lemma AmountMono(shares: real, low: real, high: real)
    requires shares > 0.0 && low <= high
    ensures Amount(shares, low) <= Amount(shares, high)
  {
    MulMono(shares, low, high);
  }

  lemma AmountScales(shares: real, price: real, factor: real)
    ensures Amount(shares, price * factor) == Amount(shares, price) * factor
  {}

  lemma AmountIs(shares: real, price: real)
    ensures Amount(shares, price) == shares * price
  {}

  /** Every bar of the loaded history lies within its own range. */
  ghost predicate CoherentHistory(data: BacktestData)
    requires Loaded(data)
  {
    forall s, i :: s in data.series && 0 <= i < |data.series[s].dates| ==>
      var x := data.series[s];
      x.lows[i] <= x.opens[i] <= x.highs[i] && x.lows[i] <= x.rawCloses[i] <= x.highs[i]
  }

  lemma BarsAreCoherent(data: BacktestData, asOf: Day, s: Symbol)
    requires Loaded(data) && PositiveHistory(data) && CoherentHistory(data) && s in Observe(data, asOf).bars
    ensures var b := Observe(data, asOf).bars[s]; var bar := Bar(b.open, b.high, b.low, b.close); Coherent(bar) && Quoted(bar)
  {
    var x := data.series[s];
    var i := BisectRight(x.dates, asOf) - 1;
    assert x.opens[i] > 0.0 && x.lows[i] > 0.0 && x.rawCloses[i] > 0.0;
  }

  lemma ShownIsCoherent(env: Env, data: BacktestData, asOf: Day, st: RunState, s: Symbol)
    requires Loaded(data) && PositiveHistory(data) && CoherentHistory(data)
    ensures forall x :: x in Shown(env, Observe(data, asOf), st, s) ==> Coherent(x.bar) && Quoted(x.bar)
  {
    hide Coherent, Quoted, CoherentHistory, PositiveHistory, Observe, VolumeRatio, View;
    if Shown(env, Observe(data, asOf), st, s) != [] {
      BarsAreCoherent(data, asOf, s);
    }
  }

  lemma {:induction false} ObservedIsCoherent(env: Env, data: BacktestData, config: BacktestConfig, calendar: seq<Day>, m: nat,
                                              n: nat, s: Symbol)
    requires Loaded(data) && PositiveHistory(data) && CoherentHistory(data) && m <= n <= |calendar|
    ensures forall x :: x in Observed(env, data, config, calendar, m, n, s) ==> Coherent(x.bar) && Quoted(x.bar)
  {
    hide Coherent, Quoted, CoherentHistory, PositiveHistory, Observe, Shown, RunAfter;
    if n > m {
      ObservedIsCoherent(env, data, config, calendar, m, n - 1, s);
      ShownIsCoherent(env, data, calendar[n - 1], RunAfter(env, data, config, calendar, n - 1), s);
    }
  }

  /** An entry that a session of a run makes, as that session planned it. */
  ghost predicate EntersOn(env: Env, data: BacktestData, config: BacktestConfig, calendar: seq<Day>, j: nat, e: EntryIntent)
    requires Loaded(data) && j < |calendar|
  {
    var w, st := Observe(data, calendar[j]), RunAfter(env, data, config, calendar, j);
    j >= WARMUP_BARS && CompaniesOf(env, w, w.symbols) != [] && e in PlanFor(w, SnapshotFor(env, w, st), st.book).entries
  }

  /** The equity that session sized it on. */
  function EquityOn(env: Env, data: BacktestData, config: BacktestConfig, calendar: seq<Day>, j: nat): real
    requires Loaded(data) && j < |calendar|
  {
    var w, st := Observe(data, calendar[j]), RunAfter(env, data, config, calendar, j);
    Equity(st.book, SnapshotFor(env, w, st).marks)
  }

  /** The entry is on the book after its session, at a price that costs between 7 and 16 basis points. */
  lemma EntryIsHeld(env: Env, data: BacktestData, config: BacktestConfig, calendar: seq<Day>, j: nat, e: EntryIntent)
    returns (d: CycleData, price: real)
    requires Iterates(env) && Loaded(data) && j < |calendar| && EntersOn(env, data, config, calendar, j, e)
    ensures Sized(e, d, EquityOn(env, data, config, calendar, j)) && e.refPrice * 1.0007 <= price <= e.refPrice * 1.0016
    ensures var held := RunAfter(env, data, config, calendar, j + 1).book.held;
      e.symbol in held && held[e.symbol] == Opened(e, price)
  {
    hide Equity, SectorNotional, EntriesFor, ExitsFor, SnapshotFor, CompaniesOf, FillPrice, Observe, Sized, Exits, Entries,
         VolumeRatio, WellFormed, Imbalance, Notional;
    var w, st := Observe(data, calendar[j]), RunAfter(env, data, config, calendar, j);
    var snap := SnapshotFor(env, w, st);
    var plan := PlanFor(w, snap, st.book);
    var k :| 0 <= k < |plan.entries| && plan.entries[k] == e;
    RunKeepsBook(env, data, config, calendar, j);
    SessionPlanned(env, w, st);
    var sold := Exits(st.book, plan.exits, snap.data, w.asOf, FillPrice);
    ExitsAreAfterActions(st.book, plan.exits, snap.data, w.asOf, FillPrice);
    EntryOpens(sold, plan.entries, snap.data, w.asOf, FillPrice, k);
    d := snap.data[e.symbol];
    price := FillPrice(e.refPrice, Buy, VolumeRatio(d));
    SizedPositive(e, d, Equity(st.book, snap.marks));
    CostBand(e.refPrice, VolumeRatio(d));
  }

  lemma SizedPositive(e: EntryIntent, d: CycleData, equity: real)
    requires Sized(e, d, equity)
    ensures e.refPrice > 0.0 && e.shares > 0.0
  {}

  /** The risk budget in every backtest: a position that a run enters on day j and that a session closes loses at most 0.40736%
      of the equity it was sized on, all costs included, if that session opens within the budget, and more than 0.39972%
      if it opens below it; the symbol is then off the book. */
  lemma RunRiskBudget(env: Env, data: BacktestData, config: BacktestConfig, calendar: seq<Day>, j: nat, n: nat, e: EntryIntent)
    returns (price: real)
    requires Iterates(env) && Loaded(data) && PositiveHistory(data) && CoherentHistory(data) && j + 1 < n <= |calendar|
    requires EntersOn(env, data, config, calendar, j, e)
    requires var held := RunAfter(env, data, config, calendar, j + 1).book.held;
      e.symbol in held ==>
        && Live(held[e.symbol], e.refPrice, Observed(env, data, config, calendar, j + 1, n - 1, e.symbol)).Open?
        && Live(held[e.symbol], e.refPrice, Observed(env, data, config, calendar, j + 1, n, e.symbol)).Closed?
    ensures var before, after := RunAfter(env, data, config, calendar, j + 1).book, RunAfter(env, data, config, calendar, n).book;
      var seen := Observed(env, data, config, calendar, j + 1, n, e.symbol);
      var equity := EquityOn(env, data, config, calendar, j);
      var earned := Earned(after.trades, e.symbol) - Earned(before.trades, e.symbol);
      && e.symbol in before.held && before.held[e.symbol] == Opened(e, price) && e.symbol !in after.held
      && e.shares > 0.0 && seen != []
      && if OpensInBudget(e, equity, price, seen) then earned >= -0.0040736 * equity else earned < -0.0039972 * equity
  {
    hide Live, Booked, TrimmedBy, WorstOpen, RunAfter, Observed, EquityOn, EntersOn, Sized, Earned, Coherent, Quoted;
    var d;
    d, price := EntryIsHeld(env, data, config, calendar, j, e);
    var seen := Observed(env, data, config, calendar, j + 1, n, e.symbol);
    SizedPositive(e, d, EquityOn(env, data, config, calendar, j));
    ObservedIsCoherent(env, data, config, calendar, j + 1, n, e.symbol);
    RunRecordsLife(env, data, config, calendar, j + 1, n, e.symbol, e.refPrice);
    ClosedLeavesBook(env, data, config, calendar, j + 1, n, e.symbol, e.refPrice);
    LastShown(env, data, config, calendar, j + 1, n, e.symbol, Opened(e, price), e.refPrice);
    ClosedAfterCosts(e, d, EquityOn(env, data, config, calendar, j), price, seen);
  }

  /** A life that a day closes was closed by what that day showed. */
  lemma LastShown(env: Env, data: BacktestData, config: BacktestConfig, calendar: seq<Day>, m: nat, n: nat, s: Symbol,
                  p: Position, ref: real)
    requires Loaded(data) && m < n <= |calendar|
    requires Live(p, ref, Observed(env, data, config, calendar, m, n - 1, s)).Open?
    requires Live(p, ref, Observed(env, data, config, calendar, m, n, s)).Closed?
    ensures var seen := Observed(env, data, config, calendar, m, n, s);
      seen != [] && seen[..|seen| - 1] == Observed(env, data, config, calendar, m, n - 1, s)
  {
    hide Live, ShownOn;
    var past := Observed(env, data, config, calendar, m, n - 1, s);
    ShownOnAtMostOnce(env, data, config, calendar, n - 1, s);
    assert past + [] == past;
  }
}
