/** What holds of every backtest run, from the first session to the last. */
module BacktestRuns {
  import opened Arithmetic
  import opened Domain
  import opened Keys
  import opened Decision
  import opened PlanOrder
  import opened CostModel
  import opened Books
  import opened BookLimits
  import opened Regimes
  import opened DataWindow
  import opened Engine
  import Backtester

  // ---------- the book equation and the size of the book ----------

  lemma SessionPlanned(env: Env, w: Window, st: RunState)
    requires Iterates(env) && WellFormed(st.book)
    ensures var snap := SnapshotFor(env, w, st);
      && Filed(snap.data) && Enumerates(snap.order, snap.data.Keys)
      && PlannedFrom(PlanFor(w, snap, st.book), st.book, snap.data, Equity(st.book, snap.marks))
  {
    hide SnapshotFor, Equity, SectorNotional, CycleFor;
    var snap := SnapshotFor(env, w, st);
    Backtester.SnapshotIsFiled(env, w, st);
    PlanIsPlannedFrom(snap.data, snap.order, st.book, Equity(st.book, snap.marks),
                      SectorNotional(st.book.order, st.book.held, w.sectors, snap.marks), 0, snap.nScored);
  }

  /** A session either does nothing or executes its plan and records one point. */
  lemma SessionShape(env: Env, w: Window, st: RunState)
    ensures var st' := SessionStep(env, w, st); var snap := SnapshotFor(env, w, st);
      || st' == st
      || (st'.book == Execute(st.book, PlanFor(w, snap, st.book), snap.data, w.asOf, FillPrice)
          && |st'.curve| == |st.curve| + 1 && st'.curve[..|st.curve|] == st.curve
          && st'.curve[|st.curve|].day == w.asOf && st'.curve[|st.curve|].cash == st'.book.cash
          && st'.curve[|st.curve|].positions == |st'.book.order|)
  {
    hide SnapshotFor, Equity, SectorNotional, CycleFor, Execute, CompaniesOf;
  }

  ghost predicate SoundBook(st: RunState, initialCash: real) {
    && WellFormed(st.book) && |st.book.order| <= 40 && Imbalance(st.book) == initialCash
    && forall i :: 0 <= i < |st.curve| ==> st.curve[i].positions <= 40
  }

  /** In every run, after every session: cash plus the cost of what is held equals the initial cash plus all realized profit,
      and at most forty positions are open. */
  lemma {:induction false} RunKeepsBook(env: Env, data: BacktestData, config: BacktestConfig, calendar: seq<Day>,
                                        n: nat)
    requires Iterates(env) && Loaded(data) && n <= |calendar|
    ensures SoundBook(RunAfter(env, data, config, calendar, n), config.initialCash)
  {
    hide SessionStep, SnapshotFor, Imbalance, WellFormed, Execute, Observe, PlanFor;
    if n == 0 {
      StartIsSound(config);
    } else {
      var st := RunAfter(env, data, config, calendar, n - 1);
      RunKeepsBook(env, data, config, calendar, n - 1);
      if n - 1 >= WARMUP_BARS {
        SessionKeepsBook(env, Observe(data, calendar[n - 1]), st, config.initialCash);
      }
    }
  }

  lemma StartIsSound(config: BacktestConfig)
    ensures SoundBook(Start(config), config.initialCash)
  {}

  lemma SessionKeepsBook(env: Env, w: Window, st: RunState, initialCash: real)
    requires Iterates(env) && SoundBook(st, initialCash)
    ensures SoundBook(SessionStep(env, w, st), initialCash)
  {
    hide SessionStep, SnapshotFor, Imbalance, WellFormed, Execute, PlannedFrom, PlanFor;
    var snap, st' := SnapshotFor(env, w, st), SessionStep(env, w, st);
    SessionPlanned(env, w, st);
    SessionShape(env, w, st);
    BookStaysBounded(st.book, PlanFor(w, snap, st.book), snap.data, w.asOf, Equity(st.book, snap.marks), FillPrice);
    if st' != st {
      assert forall i :: 0 <= i < |st.curve| ==> st'.curve[i] == st'.curve[..|st.curve|][i];
    }
  }

  // ---------- how negative cash can get ----------

  ghost predicate PositiveHistory(data: BacktestData) {
    forall s :: s in data.series ==>
      var x := data.series[s];
      && (forall i :: 0 <= i < |x.opens| ==> x.opens[i] > 0.0)
      && (forall i :: 0 <= i < |x.lows| ==> x.lows[i] > 0.0)
      && (forall i :: 0 <= i < |x.rawCloses| ==> x.rawCloses[i] > 0.0)
  }

  lemma SnapshotPositive(env: Env, data: BacktestData, asOf: Day, st: RunState)
    requires Loaded(data) && PositiveHistory(data)
    ensures PositivePrices(SnapshotFor(env, Observe(data, asOf), st).data)
  {
    var w := Observe(data, asOf);
    forall s | s in w.bars ensures w.bars[s].open > 0.0 && w.bars[s].low > 0.0 && w.bars[s].close > 0.0 {
      assert s in data.series;
    }
  }

  /** The most cash the run has held so far, counting the start. */
  function PeakCash(initial: real, curve: seq<EquityPoint>): real {
    if curve == [] then initial else Max(PeakCash(initial, curve[..|curve| - 1]), curve[|curve| - 1].cash)
  }

  ghost predicate CashAbove(st: RunState, initial: real) {
    && Sellable(st.book.held)
    && st.book.cash == (if st.curve == [] then initial else st.curve[|st.curve| - 1].cash)
    && forall i :: 0 <= i < |st.curve| ==> st.curve[i].cash >= -0.0016 * PeakCash(initial, st.curve[..i])
  }

  lemma {:induction false} PeakBounds(initial: real, curve: seq<EquityPoint>)
    ensures initial <= PeakCash(initial, curve)
    ensures curve != [] ==> curve[|curve| - 1].cash <= PeakCash(initial, curve)
    ensures curve != [] ==> PeakCash(initial, curve[..|curve| - 1]) <= PeakCash(initial, curve)
  {
    if curve != [] { PeakBounds(initial, curve[..|curve| - 1]); }
  }

  /** Starting from a nonnegative cash balance, no session of any run leaves cash below -0.16% of the most cash held before. */
  lemma {:induction false} RunCashFloor(env: Env, data: BacktestData, config: BacktestConfig, calendar: seq<Day>,
                                        n: nat)
    requires Iterates(env) && Loaded(data) && PositiveHistory(data) && n <= |calendar| && config.initialCash >= 0.0
    ensures CashAbove(RunAfter(env, data, config, calendar, n), config.initialCash)
  {
    hide SessionStep, SnapshotFor, SoundBook, Execute, Observe, CashAbove;
    if n == 0 {
      StartCash(config);
    } else {
      var st := RunAfter(env, data, config, calendar, n - 1);
      RunCashFloor(env, data, config, calendar, n - 1);
      RunKeepsBook(env, data, config, calendar, n - 1);
      if n - 1 >= WARMUP_BARS {
        SessionCashFloor(env, data, calendar[n - 1], st, config.initialCash);
      }
    }
  }

  lemma StartCash(config: BacktestConfig)
    ensures CashAbove(Start(config), config.initialCash)
  {}

  lemma SessionCashFloor(env: Env, data: BacktestData, asOf: Day, st: RunState, initial: real)
    requires Iterates(env) && Loaded(data) && PositiveHistory(data) && initial >= 0.0
    requires SoundBook(st, initial) && CashAbove(st, initial)
    ensures CashAbove(SessionStep(env, Observe(data, asOf), st), initial)
  {
    hide SessionStep, SnapshotFor, Imbalance, WellFormed, Execute, PlannedFrom, PlanFor, Sellable, Observe;
    var w := Observe(data, asOf);
    var snap, st' := SnapshotFor(env, w, st), SessionStep(env, w, st);
    SessionPlanned(env, w, st);
    SnapshotPositive(env, data, asOf, st);
    SessionShape(env, w, st);
    CashFloor(st.book, PlanFor(w, snap, st.book), snap.data, w.asOf, Equity(st.book, snap.marks));
    if st' != st {
      PointKeepsCash(initial, st, st');
    }
  }

  lemma PointKeepsCash(initial: real, st: RunState, st': RunState)
    requires initial >= 0.0 && CashAbove(st, initial) && Sellable(st'.book.held)
    requires |st'.curve| == |st.curve| + 1 && st'.curve[..|st.curve|] == st.curve
    requires st'.curve[|st.curve|].cash == st'.book.cash >= Min(st.book.cash, -0.0016 * st.book.cash)
    ensures CashAbove(st', initial)
  {
    hide Sellable;
    PeakBounds(initial, st.curve);
    LastCash(initial, st);
    forall i | 0 <= i < |st.curve|
      ensures st'.curve[i] == st.curve[i] && st'.curve[..i] == st.curve[..i]
    {
      assert st'.curve[i] == st'.curve[..|st.curve|][i];
      assert st'.curve[..i] == st'.curve[..|st.curve|][..i];
    }
  }

  /** Cash in hand is at most the peak and at least the floor set by it. */
  lemma LastCash(initial: real, st: RunState)
    requires initial >= 0.0 && CashAbove(st, initial)
    ensures st.book.cash <= PeakCash(initial, st.curve)
    ensures st.book.cash >= -0.0016 * PeakCash(initial, st.curve)
  {
    PeakBounds(initial, st.curve);
    if st.curve != [] {
      var m := |st.curve| - 1;
      assert st.curve[m].cash >= -0.0016 * PeakCash(initial, st.curve[..m]);
    }
  }

  // ---------- no lookahead ----------

  function PointsUpto(curve: seq<EquityPoint>, t: Day): seq<EquityPoint> {
    if curve == [] then []
    else PointsUpto(curve[..|curve| - 1], t) + (if curve[|curve| - 1].day <= t then [curve[|curve| - 1]] else [])
  }

  function TradesUpto(trades: seq<Trade>, t: Day): seq<Trade> {
    if trades == [] then []
    else TradesUpto(trades[..|trades| - 1], t) + (if trades[|trades| - 1].day <= t then [trades[|trades| - 1]] else [])
  }

  lemma {:induction false} PointsAppend(a: seq<EquityPoint>, b: seq<EquityPoint>, t: Day)
    requires forall i :: 0 <= i < |b| ==> b[i].day > t
    ensures PointsUpto(a + b, t) == PointsUpto(a, t)
  {
    if b == [] {
      assert a + b == a;
    } else {
      assert (a + b)[..|a + b| - 1] == a + b[..|b| - 1];
      PointsAppend(a, b[..|b| - 1], t);
    }
  }

  lemma {:induction false} TradesAppend(a: seq<Trade>, b: seq<Trade>, t: Day)
    requires forall i :: 0 <= i < |b| ==> b[i].day > t
    ensures TradesUpto(a + b, t) == TradesUpto(a, t)
  {
    if b == [] {
      assert a + b == a;
    } else {
      assert (a + b)[..|a + b| - 1] == a + b[..|b| - 1];
      TradesAppend(a, b[..|b| - 1], t);
    }
  }

  /** Executing a plan only appends trades, all dated that day. */
  ghost predicate Extends(before: seq<Trade>, after: seq<Trade>, day: Day) {
    before <= after && forall i :: |before| <= i < |after| ==> after[i].day == day
  }

  lemma {:induction false} ExitsExtend(b: Book, xs: seq<ExitIntent>, data: Market, day: Day, pricing: Pricing)
    ensures Extends(b.trades, Exits(b, xs, data, day, pricing).trades, day)
    decreases |xs|
  {
    if xs != [] {
      hide SellFor;
      ExitsExtend(ExitBook(b, xs[0], data, day, pricing), xs[1..], data, day, pricing);
    }
  }

  lemma {:induction false} EntriesExtend(b: Book, es: seq<EntryIntent>, data: Market, day: Day, pricing: Pricing)
    ensures Extends(b.trades, Entries(b, es, data, day, pricing).trades, day)
    decreases |es|
  {
    if es != [] {
      EntriesExtend(EntryBook(b, es[0], data, day, pricing), es[1..], data, day, pricing);
    }
  }

  lemma SessionExtends(env: Env, w: Window, st: RunState)
    ensures Extends(st.book.trades, SessionStep(env, w, st).book.trades, w.asOf)
  {
    hide SessionStep, SnapshotFor, PlanFor, Exits, Entries;
    SessionShape(env, w, st);
    var snap := SnapshotFor(env, w, st);
    var plan := PlanFor(w, snap, st.book);
    ExitsExtend(st.book, plan.exits, snap.data, w.asOf, FillPrice);
    EntriesExtend(Exits(st.book, plan.exits, snap.data, w.asOf, FillPrice), plan.entries, snap.data, w.asOf, FillPrice);
  }

  lemma {:induction false} CalendarUpto(dates: seq<Day>, config: BacktestConfig)
    requires Ascending(dates)
    ensures Ascending(Calendar(dates, config))
    ensures forall d :: d in Calendar(dates, config) ==> d in dates
  {
    if dates != [] {
      var n := |dates| - 1;
      CalendarUpto(dates[..n], config);
      assert forall i :: 0 <= i < n ==> dates[i] <= dates[n];
      var c := Calendar(dates[..n], config);
      assert forall i :: 0 <= i < |c| ==> c[i] in c;
    }
  }

  lemma {:induction false} CalendarCut(dates: seq<Day>, config: BacktestConfig, t: Day)
    requires Ascending(dates)
    ensures SliceUpto(Calendar(dates, config), Calendar(dates, config), t) == Calendar(SliceUpto(dates, dates, t), config)
  {
    hide SliceUpto;
    if dates != [] && dates[|dates| - 1] > t {
      var n := |dates| - 1;
      CalendarCut(dates[..n], config, t);
      LateDateCut(dates[..n], dates[n], t);
      assert dates == dates[..n] + [dates[n]];
      var init := Calendar(dates[..n], config);
      LateDateCut(init, dates[n], t);
      assert init + [] == init;
    } else {
      CalendarUpto(dates, config);
      var c := Calendar(dates, config);
      AllEarly(dates, t);
      assert c != [] ==> c[|c| - 1] in c && c[|c| - 1] in dates;
      assert forall d :: d in dates ==> d <= t by {
        assert forall i :: 0 <= i < |dates| - 1 ==> dates[i] <= dates[|dates| - 1];
      }
      AllEarly(c, t);
    }
  }

  /** A date after t adds nothing to what is dated up to t. */
  lemma LateDateCut(dates: seq<Day>, d: Day, t: Day)
    requires d > t
    ensures SliceUpto(dates + [d], dates + [d], t) == SliceUpto(dates, dates, t)
  {
    assert (dates + [d])[..|dates|] == dates;
    assert BisectRight(dates + [d], t) == BisectRight(dates, t);
  }

  lemma AllEarly(dates: seq<Day>, t: Day)
    requires dates == [] || dates[|dates| - 1] <= t
    ensures SliceUpto(dates, dates, t) == dates
  {}

  /** Runs over data that agree up to t are the same as long as the calendar has not passed t. */
  lemma {:induction false} SamePast(env: Env, a: BacktestData, b: BacktestData, config: BacktestConfig,
                                    ca: seq<Day>, cb: seq<Day>, n: nat, t: Day)
    requires Loaded(a) && Loaded(b) && AgreeUpto(a, b, t)
    requires n <= |ca| && n <= |cb| && ca[..n] == cb[..n] && forall i :: 0 <= i < n ==> ca[i] <= t
    ensures RunAfter(env, a, config, ca, n) == RunAfter(env, b, config, cb, n)
  {
    hide SessionStep, Observe, AgreeUpto, Loaded;
    if n > 0 {
      assert ca[..n - 1] == ca[..n][..n - 1] && cb[..n - 1] == cb[..n][..n - 1];
      assert ca[n - 1] == ca[..n][n - 1] == cb[..n][n - 1] == cb[n - 1];
      SamePast(env, a, b, config, ca, cb, n - 1, t);
      WindowsAgree(a, b, t, ca[n - 1]);
    }
  }

  /** Sessions dated after t leave everything dated at or before t alone. */
  lemma {:induction false} FutureOnlyAppends(env: Env, data: BacktestData, config: BacktestConfig, calendar: seq<Day>,
                                             k: nat, n: nat, t: Day)
    requires Loaded(data) && k <= n <= |calendar| && forall i :: k <= i < n ==> calendar[i] > t
    ensures var early, late := RunAfter(env, data, config, calendar, k), RunAfter(env, data, config, calendar, n);
      && PointsUpto(late.curve, t) == PointsUpto(early.curve, t)
      && TradesUpto(late.book.trades, t) == TradesUpto(early.book.trades, t)
  {
    hide SessionStep, Observe, Loaded, SnapshotFor, PlanFor, Execute;
    if k < n {
      FutureOnlyAppends(env, data, config, calendar, k, n - 1, t);
      if n - 1 >= WARMUP_BARS {
        SessionAppends(env, Observe(data, calendar[n - 1]), RunAfter(env, data, config, calendar, n - 1), t);
      }
    }
  }

  lemma SessionAppends(env: Env, w: Window, st: RunState, t: Day)
    requires w.asOf > t
    ensures var st' := SessionStep(env, w, st);
      PointsUpto(st'.curve, t) == PointsUpto(st.curve, t) && TradesUpto(st'.book.trades, t) == TradesUpto(st.book.trades, t)
  {
    hide SessionStep, SnapshotFor, PlanFor, Execute;
    var st' := SessionStep(env, w, st);
    SessionShape(env, w, st);
    SessionExtends(env, w, st);
    var m := |st.book.trades|;
    assert st'.book.trades == st.book.trades + st'.book.trades[m..];
    TradesAppend(st.book.trades, st'.book.trades[m..], t);
    if st' != st {
      assert st'.curve == st.curve + [st'.curve[|st.curve|]];
      PointsAppend(st.curve, [st'.curve[|st.curve|]], t);
    }
  }

  /** No lookahead, for whole runs: data sets that agree on every row dated at or before t, and on every statement dated at
      or before t minus 45 days, give the same equity points and the same trades dated at or before t. */
  lemma NoLookahead(env: Env, a: BacktestData, b: BacktestData, config: BacktestConfig, t: Day)
    requires Loaded(a) && Loaded(b) && AgreeUpto(a, b, t)
    ensures PointsUpto(Run(env, a, config).curve, t) == PointsUpto(Run(env, b, config).curve, t)
    ensures TradesUpto(Run(env, a, config).book.trades, t) == TradesUpto(Run(env, b, config).book.trades, t)
  {
    hide SessionStep, Observe;
    var ca, cb := Calendar(a.spyDates, config), Calendar(b.spyDates, config);
    CalendarUpto(a.spyDates, config);
    CalendarUpto(b.spyDates, config);
    CalendarCut(a.spyDates, config, t);
    CalendarCut(b.spyDates, config, t);
    var k := |SliceUpto(ca, ca, t)|;
    BisectSplits(ca, t);
    BisectSplits(cb, t);
    assert SliceUpto(ca, ca, t) == ca[..k] && SliceUpto(cb, cb, t) == cb[..k];
    SamePast(env, a, b, config, ca, cb, k, t);
    FutureOnlyAppends(env, a, config, ca, k, |ca|, t);
    FutureOnlyAppends(env, b, config, cb, k, |cb|, t);
  }

  // ---------- set iteration order ----------

  ghost predicate FusesDistinctly(env: Env) {
    forall cs: seq<StrategyCompany>, r: Regime ::
      var scores := env.fuse(cs, r);
      && (forall s :: s in scores && scores[s].rank.Some? ==> scores[s].rank.value >= 1)
      && (forall s, u :: s in scores && u in scores && s != u && scores[s].rank.Some? ==> scores[s].rank != scores[u].rank)
  }

  lemma SnapshotRanks(env: Env, w: Window, st: RunState)
    requires FusesDistinctly(env)
    ensures DistinctRanks(SnapshotFor(env, w, st).data)
  {
    var snap := SnapshotFor(env, w, st);
    var scores := env.fuse(CompaniesOf(env, w, w.symbols), snap.regime);
    assert forall s :: s in snap.data ==> s in scores && snap.data[s].score == scores[s];
  }

  lemma SessionOrderFree(e1: Env, e2: Env, w: Window, st: RunState)
    requires Iterates(e1) && Iterates(e2) && FusesDistinctly(e1) && e1.compute == e2.compute && e1.fuse == e2.fuse
    requires WellFormed(st.book)
    ensures SessionStep(e1, w, st) == SessionStep(e2, w, st)
  {
    hide CompaniesOf, SignalsOf, DataFor, MarksFor, Keep, Equity, SectorNotional, EntriesFor, ExitsFor, Execute;
    SameEnvScores(e1, e2, w, w.symbols);
    var s1, s2 := SnapshotFor(e1, w, st), SnapshotFor(e2, w, st);
    Backtester.SnapshotIsFiled(e1, w, st);
    Backtester.SnapshotIsFiled(e2, w, st);
    SnapshotRanks(e1, w, st);
    PlanIsOrderIndependent(s1.data, s1.order, s2.order, Equity(st.book, s1.marks), st.book.cash, st.book.held.Keys,
                           SectorNotional(st.book.order, st.book.held, w.sectors, s1.marks), 0, s1.nScored);
    var p1, p2 := PlanFor(w, s1, st.book), PlanFor(w, s2, st.book);
    assert p1.exits == p2.exits && p1.entries == p2.entries;
    SkipsDoNotExecute(st.book, p1, p2, s1.data, w.asOf);
  }

  lemma SkipsDoNotExecute(b: Book, p1: CyclePlan, p2: CyclePlan, data: Market, day: Day)
    requires p1.exits == p2.exits && p1.entries == p2.entries
    ensures Execute(b, p1, data, day, FillPrice) == Execute(b, p2, data, day, FillPrice)
  {}

  lemma {:induction false} SameEnvScores(e1: Env, e2: Env, w: Window, symbols: seq<Symbol>)
    requires e1.compute == e2.compute
    ensures CompaniesOf(e1, w, symbols) == CompaniesOf(e2, w, symbols)
    ensures SignalsOf(e1, w, symbols) == SignalsOf(e2, w, symbols)
  {
    if symbols != [] { SameEnvScores(e1, e2, w, symbols[..|symbols| - 1]); }
  }

  /** Whatever order the runtime iterates sets in, the whole run comes out the same. */
  lemma {:induction false} RunIsOrderFree(e1: Env, e2: Env, data: BacktestData, config: BacktestConfig,
                                          calendar: seq<Day>, n: nat)
    requires Iterates(e1) && Iterates(e2) && FusesDistinctly(e1) && e1.compute == e2.compute && e1.fuse == e2.fuse
    requires Loaded(data) && n <= |calendar|
    ensures RunAfter(e1, data, config, calendar, n) == RunAfter(e2, data, config, calendar, n)
  {
    hide SessionStep, Observe, FusesDistinctly, Iterates;
    if n > 0 {
      RunIsOrderFree(e1, e2, data, config, calendar, n - 1);
      RunKeepsBook(e1, data, config, calendar, n - 1);
      if n - 1 >= WARMUP_BARS {
        SessionOrderFree(e1, e2, Observe(data, calendar[n - 1]), RunAfter(e1, data, config, calendar, n - 1));
      }
    }
  }
}
