/** What a backtest session decides on, in terms of the loaded history. */
module SessionData {
  import opened Wrappers
  import opened Domain
  import opened Keys
  import opened Sums
  import opened Decision
  import opened Books
  import opened Lifecycle
  import opened Regimes
  import opened DataWindow
  import opened Engine
  import opened RunHistory
  import Backtester

  // ---------- one name ----------

  /** Row i of a symbol's history as the bar it is. */
  ghost predicate IsRow(x: SymbolSeries, day: Day, bar: Bar, i: nat)
    requires Aligned(x)
  {
    i < |x.dates| && x.dates[i] == day && bar == Bar(x.opens[i], x.highs[i], x.lows[i], x.rawCloses[i])
  }

  /** The average true range of a row: the signal's percentage of the raw close, when there is one above zero. */
  ghost predicate IsAtr(x: SymbolSeries, i: nat, signals: Signals, atr: Option<real>)
    requires Aligned(x) && i < |x.dates|
  {
    if Technical in signals && "atr_pct" in signals[Technical] && signals[Technical]["atr_pct"].Some?
       && signals[Technical]["atr_pct"].value > 0.0
    then atr.Some? && atr.value == signals[Technical]["atr_pct"].value * x.rawCloses[i]
    else atr == None
  }

  /** Unfolding the snapshot for one name. */
  lemma SnapshotOf(env: Env, w: Window, st: RunState, s: Symbol)
    ensures var snap := SnapshotFor(env, w, st);
      var scores := env.fuse(CompaniesOf(env, w, w.symbols), snap.regime);
      && (s in snap.data <==> s in w.symbols && Scorable(w, s) && s in w.bars && s in scores)
      && (s in snap.data ==>
            var d, b := snap.data[s], w.bars[s];
            && d.symbol == s && d.sector == w.inputs[s].sector && d.bar == Bar(b.open, b.high, b.low, b.close)
            && d.closes == w.inputs[s].closes && d.signals == env.compute(w.inputs[s]) && d.score == scores[s]
            && d.atr == AtrOf(d.signals, b.close))
  {
    hide CompaniesOf, BuildFeatures, ClassifyRaw, BreadthCounts, ConfirmedRegime, LastFour, Keep, MarksFor, AtrOf, Breadth;
  }

  lemma WindowOf(data: BacktestData, day: Day, s: Symbol)
    requires Loaded(data)
    ensures var w := Observe(data, day);
      && w.symbols == data.symbols && w.asOf == day && w.sectors == data.sectors
      && (s in w.inputs ==> s in data.series && w.inputs[s].sector == SectorFor(data.sectors, s))
      && (s in w.bars ==> s in data.series)
  {
    hide BarOf, SliceUpto, ScalarUpto, FiledUpto;
  }

  /** A session decides on a name exactly when the name is in the universe, has at least 200 rows up to the day, one of them on the
      day itself, and got a score. Its bar is then that row, its closes are the adjusted closes up to the day, and its signals
      are computed from what the window shows of it. */
  lemma SessionShows(env: Env, data: BacktestData, day: Day, st: RunState, s: Symbol) returns (i: nat)
    requires Loaded(data)
    ensures var w := Observe(data, day); var snap := SnapshotFor(env, w, st);
      var scores := env.fuse(CompaniesOf(env, w, w.symbols), snap.regime);
      && (s in snap.data <==>
            s in data.symbols && s in data.series && s in scores && day in data.series[s].dates
            && |data.series[s].dates| >= 200 && data.series[s].dates[199] <= day)
      && (s in snap.data ==>
            var x, d := data.series[s], snap.data[s];
            && IsRow(x, day, d.bar, i) && IsAtr(x, i, d.signals, d.atr) && UpTo(x.dates, x.closes, d.closes, day)
            && d.symbol == s && d.score == scores[s] && d.sector == (if s in data.sectors then data.sectors[s] else "Unknown")
            && s in w.inputs && d.signals == env.compute(w.inputs[s]))
  {
    hide PastInputs, UpTo, Aligned, CompaniesOf, SnapshotFor, Observe, Scorable, AtrOf, IsAtr, Ascending;
    var w := Observe(data, day);
    i := 0;
    SnapshotOf(env, w, st, s);
    WindowOf(data, day, s);
    assert Scorable(w, s) ==> s in w.inputs by { ScorableHasInputs(w, s); }
    if s in data.series {
      var x := data.series[s];
      WindowIsPast(data, day, s);
      LongEnough(x, w, s, day);
      if s in w.bars {
        i := BarRow(x, w.bars[s], day);
        if s in SnapshotFor(env, w, st).data {
          AtrOfRow(x, i, env.compute(w.inputs[s]));
        }
      }
    }
  }

  lemma ScorableHasInputs(w: Window, s: Symbol)
    ensures Scorable(w, s) ==> s in w.inputs
  {}

  lemma BarRow(x: SymbolSeries, bar: OHLC, day: Day) returns (i: nat)
    requires Aligned(x)
    requires exists k :: 0 <= k < |x.dates| && x.dates[k] == day
               && bar == OHLC(x.opens[k], x.highs[k], x.lows[k], x.rawCloses[k], x.volumes[k])
    ensures IsRow(x, day, Bar(bar.open, bar.high, bar.low, bar.close), i) && bar.close == x.rawCloses[i]
  {
    i :| 0 <= i < |x.dates| && x.dates[i] == day
         && bar == OHLC(x.opens[i], x.highs[i], x.lows[i], x.rawCloses[i], x.volumes[i]);
  }

  lemma AtrOfRow(x: SymbolSeries, i: nat, signals: Signals)
    requires Aligned(x) && i < |x.dates|
    ensures IsAtr(x, i, signals, AtrOf(signals, x.rawCloses[i]))
  {}

  lemma LongEnough(x: SymbolSeries, w: Window, s: Symbol, day: Day)
    requires Aligned(x) && (s in w.inputs <==> exists i :: 0 <= i < |x.dates| && x.dates[i] <= day)
    requires s in w.inputs ==> PastInputs(x, w.inputs[s], day)
    ensures Scorable(w, s) <==> |x.dates| >= 200 && x.dates[199] <= day
    ensures s in w.inputs ==> UpTo(x.dates, x.closes, w.inputs[s].closes, day)
  {}

  // ---------- the rows a position has lived through ----------

  /** Each session seen is a row of the history, on its own calendar day from m on, in order. */
  ghost predicate Rows(x: SymbolSeries, calendar: seq<Day>, m: nat, n: nat, seen: seq<Session>, rows: seq<nat>, days: seq<nat>)
    requires Aligned(x) && m <= n <= |calendar|
  {
    && |rows| == |days| == |seen|
    && (forall k :: 0 <= k < |seen| ==> m <= days[k] < n && IsRow(x, calendar[days[k]], seen[k].bar, rows[k]))
    && (forall j, k :: 0 <= j < k < |seen| ==> days[j] < days[k])
  }

  lemma {:induction false} ObservedRows(env: Env, data: BacktestData, config: BacktestConfig, calendar: seq<Day>, m: nat, n: nat,
                                        s: Symbol) returns (rows: seq<nat>, days: seq<nat>)
    requires Loaded(data) && m <= n <= |calendar| && s in data.series
    ensures Rows(data.series[s], calendar, m, n, Observed(env, data, config, calendar, m, n, s), rows, days)
  {
    hide ShownOn, RunAfter, Aligned, IsRow;
    rows, days := [], [];
    if m < n {
      var past, shown := Observed(env, data, config, calendar, m, n - 1, s), ShownOn(env, data, config, calendar, n - 1, s);
      rows, days := ObservedRows(env, data, config, calendar, m, n - 1, s);
      ShownOnAtMostOnce(env, data, config, calendar, n - 1, s);
      if shown == [] {
        assert past + shown == past;
      } else {
        var i := RowShown(env, data, config, calendar, n - 1, s);
        rows, days := rows + [i], days + [n - 1];
      }
    }
  }

  lemma RowShown(env: Env, data: BacktestData, config: BacktestConfig, calendar: seq<Day>, k: nat, s: Symbol) returns (i: nat)
    requires Loaded(data) && k < |calendar| && s in data.series && ShownOn(env, data, config, calendar, k, s) != []
    ensures IsRow(data.series[s], calendar[k], ShownOn(env, data, config, calendar, k, s)[0].bar, i)
  {
    hide Shown, RunAfter, Aligned, Observe, SnapshotFor, IsRow, IsAtr, UpTo, CompaniesOf;
    var st := RunAfter(env, data, config, calendar, k);
    ShownIs(env, Observe(data, calendar[k]), st, s);
    i := SessionShows(env, data, calendar[k], st, s);
  }

  lemma ShownIs(env: Env, w: Window, st: RunState, s: Symbol)
    ensures var snap := SnapshotFor(env, w, st); var shown := Shown(env, w, st, s);
      shown != [] ==> s in snap.data && shown[0].bar == snap.data[s].bar && |shown| == 1
  {
    hide SnapshotFor, CompaniesOf;
  }

  lemma {:induction false} HighWaterIsMax(start: real, ss: seq<Session>)
    ensures var h := HighWater(start, ss);
      && h >= start && (forall k :: 0 <= k < |ss| ==> h >= ss[k].bar.close)
      && (h == start || exists k :: 0 <= k < |ss| && h == ss[k].bar.close)
  {
    if ss != [] {
      var n := |ss| - 1;
      HighWaterIsMax(start, ss[..n]);
      assert ss == ss[..n] + [ss[n]];
    }
  }

  lemma {:induction false} TouchedIff(target: real, ss: seq<Session>)
    ensures FirstTouch(target, ss) < |ss| <==> exists k :: 0 <= k < |ss| && ss[k].bar.high >= target
  {
    if ss != [] {
      var n := |ss| - 1;
      TouchedIff(target, ss[..n]);
      FirstTouchBound(target, ss[..n]);
      assert ss == ss[..n] + [ss[n]];
    }
  }

  /** In any run, an open position is what the raw rows since day m made of it: its high-water mark is the highest raw close among
      them, it is trimmed exactly when one of their highs reached the target, and its stop is the closed form of these bars. */
  lemma StopIsHistoryInRows(env: Env, data: BacktestData, config: BacktestConfig, calendar: seq<Day>, m: nat, n: nat, s: Symbol)
    returns (seen: seq<Session>, rows: seq<nat>, days: seq<nat>)
    requires Iterates(env) && Loaded(data) && m <= n <= |calendar| && s in data.series
    requires s in RunAfter(env, data, config, calendar, m).book.held
    requires Live(RunAfter(env, data, config, calendar, m).book.held[s], 0.0,
                  Observed(env, data, config, calendar, m, n, s)).Open?
    ensures var p, x := RunAfter(env, data, config, calendar, m).book.held[s], data.series[s];
      var held := RunAfter(env, data, config, calendar, n).book.held;
      && seen == Observed(env, data, config, calendar, m, n, s) && Rows(x, calendar, m, n, seen, rows, days)
      && s in held && held[s].stopPrice == TrailFromHistory(p, seen)
      && held[s].highestClose >= p.highestClose
      && (forall k :: 0 <= k < |rows| ==> held[s].highestClose >= x.rawCloses[rows[k]])
      && (held[s].highestClose == p.highestClose || exists k :: 0 <= k < |rows| && held[s].highestClose == x.rawCloses[rows[k]])
      && (held[s].tookPartial <==> p.tookPartial || exists k :: 0 <= k < |rows| && x.highs[rows[k]] >= p.targetPrice)
  {
    hide SessionStep, Observed, RunAfter, TrailFromHistory, HighWater, Live, FirstTouch;
    var p := RunAfter(env, data, config, calendar, m).book.held[s];
    seen := Observed(env, data, config, calendar, m, n, s);
    rows, days := ObservedRows(env, data, config, calendar, m, n, s);
    StopIsHistoryInRuns(env, data, config, calendar, m, n, s);
    HighWaterIsMax(p.highestClose, seen);
    TouchedIff(p.targetPrice, seen);
    RowsAreBars(data.series[s], calendar, m, n, seen, rows, days);
  }

  lemma RowsAreBars(x: SymbolSeries, calendar: seq<Day>, m: nat, n: nat, seen: seq<Session>, rows: seq<nat>, days: seq<nat>)
    requires Aligned(x) && m <= n <= |calendar| && Rows(x, calendar, m, n, seen, rows, days)
    ensures forall k :: 0 <= k < |seen| ==>
              rows[k] < |x.dates| && seen[k].bar.close == x.rawCloses[rows[k]] && seen[k].bar.high == x.highs[rows[k]]
  {
    forall k | 0 <= k < |seen|
      ensures rows[k] < |x.dates| && seen[k].bar.close == x.rawCloses[rows[k]] && seen[k].bar.high == x.highs[rows[k]]
    {
      assert IsRow(x, calendar[days[k]], seen[k].bar, rows[k]);
    }
  }

  // ---------- the money a session sees ----------

  /** A name is marked at the raw close of the day's row, when it has one and a score and is in the universe or held. */
  lemma MarksShow(env: Env, data: BacktestData, day: Day, st: RunState, s: Symbol) returns (i: nat)
    requires Loaded(data)
    ensures var w := Observe(data, day); var snap := SnapshotFor(env, w, st);
      var scores := env.fuse(CompaniesOf(env, w, w.symbols), snap.regime);
      && (s in snap.marks <==>
            && s in data.series && day in data.series[s].dates && s in scores
            && (s in st.book.held || (s in data.symbols && |data.series[s].dates| >= 200 && data.series[s].dates[199] <= day)))
      && (s in snap.marks ==>
            && i < |data.series[s].dates| && data.series[s].dates[i] == day
            && snap.marks[s] == data.series[s].rawCloses[i])
  {
    hide PastInputs, Aligned, CompaniesOf, SnapshotFor, Observe, Scorable, Ascending;
    var w := Observe(data, day);
    i := 0;
    MarksOf(env, w, st, s);
    WindowOf(data, day, s);
    assert Scorable(w, s) ==> s in w.inputs by { ScorableHasInputs(w, s); }
    if s in data.series {
      WindowIsPast(data, day, s);
      LongEnough(data.series[s], w, s, day);
      if s in w.bars {
        i := BarRow(data.series[s], w.bars[s], day);
      }
    }
  }

  lemma MarksOf(env: Env, w: Window, st: RunState, s: Symbol)
    ensures var snap := SnapshotFor(env, w, st);
      var scores := env.fuse(CompaniesOf(env, w, w.symbols), snap.regime);
      && (s in snap.marks <==> ((s in w.symbols && Scorable(w, s)) || s in st.book.held) && s in w.bars && s in scores)
      && (s in snap.marks ==> snap.marks[s] == w.bars[s].close)
  {
    hide CompaniesOf, BuildFeatures, ClassifyRaw, BreadthCounts, ConfirmedRegime, LastFour, Keep, DataFor, Breadth;
  }

  /** What each holding is worth: its shares at the day's mark, or at their entry price when there is none. */
  ghost predicate Worths(held: map<Symbol, Position>, marks: map<Symbol, real>, worth: map<Symbol, real>) {
    && worth.Keys == held.Keys
    && forall s :: s in held ==> worth[s] == held[s].shares * (if s in marks then marks[s] else held[s].entryPrice)
  }

  lemma EquityIsWorth(b: Book, marks: map<Symbol, real>) returns (worth: map<Symbol, real>)
    ensures Worths(b.held, marks, worth) && Equity(b, marks) == b.cash + Sum(b.order, worth)
    ensures worth == HoldingValues(b.held, marks)
  {
    worth := HoldingValues(b.held, marks);
  }

  lemma SectorWorth(held: map<Symbol, Position>, sectors: map<Symbol, Sector>, marks: map<Symbol, real>, k: Sector,
                    worth: map<Symbol, real>)
    requires worth == HoldingValues(held, marks)
    ensures SectorWeights(held, sectors, marks, k) == map s | s in worth && SectorFor(sectors, s) == k :: worth[s]
  {
    hide Holding, SectorFor;
  }

  /** What a session plans on: its own cash, the equity that adds what the holdings are worth, for every sector the worth of the
      holdings filed under it, no entries made that day, and the number of companies scored. */
  lemma SessionPlans(env: Env, data: BacktestData, day: Day, st: RunState)
    returns (worth: map<Symbol, real>, equity: real, sector: map<Sector, real>)
    requires Iterates(env) && Loaded(data)
    ensures var w := Observe(data, day); var snap := SnapshotFor(env, w, st); var b := st.book; var plan := PlanFor(w, snap, b);
      && Enumerates(snap.order, snap.data.Keys) && Worths(b.held, snap.marks, worth)
      && equity == b.cash + Sum(b.order, worth)
      && (forall k :: (if k in sector then sector[k] else 0.0)
                      == Sum(b.order, map s | s in worth && SectorFor(data.sectors, s) == k :: worth[s]))
      && plan.exits == ExitsFor(b.order, b.held, snap.data)
      && plan.entries == EntriesFor(snap.data, snap.order, equity, b.cash, b.held.Keys, sector, 0,
                                    |CompaniesOf(env, w, w.symbols)|).entries
  {
    hide CompaniesOf, Observe, EntriesFor, ExitsFor, SectorNotional, Sum, Keep, MarksFor, BuildFeatures, ClassifyRaw, BreadthCounts,
         ConfirmedRegime, LastFour, DataFor, Represents;
    var w := Observe(data, day);
    var snap, b := SnapshotFor(env, w, st), st.book;
    Backtester.SnapshotIsFiled(env, w, st);
    WindowOf(data, day, "");
    worth := EquityIsWorth(b, snap.marks);
    equity := Equity(b, snap.marks);
    sector := SectorNotional(b.order, b.held, w.sectors, snap.marks);
    forall k ensures (if k in sector then sector[k] else 0.0)
                     == Sum(b.order, map s | s in worth && SectorFor(data.sectors, s) == k :: worth[s]) {
      SectorTotal(b.order, b.held, w.sectors, snap.marks, k);
      SectorWorth(b.held, data.sectors, snap.marks, k, worth);
    }
  }

  /** What a session adds to the curve: its day, the cash and the number of positions after trading, and the equity that these
      positions are worth at the day's marks. */
  lemma SessionPoint(env: Env, w: Window, st: RunState) returns (worth: map<Symbol, real>)
    requires CompaniesOf(env, w, w.symbols) != []
    ensures var st' := SessionStep(env, w, st); var snap := SnapshotFor(env, w, st); var n := |st.curve|;
      && |st'.curve| == n + 1 && st'.curve[..n] == st.curve
      && st'.curve[n].day == w.asOf && st'.curve[n].cash == st'.book.cash && st'.curve[n].positions == |st'.book.order|
      && st'.curve[n].regime == snap.regime
      && Worths(st'.book.held, snap.marks, worth)
      && st'.curve[n].equity == st'.book.cash + Sum(st'.book.order, worth)
  {
    hide CompaniesOf, SnapshotFor, Execute, PlanFor, Sum;
    worth := EquityIsWorth(SessionStep(env, w, st).book, SnapshotFor(env, w, st).marks);
  }

  // ---------- breadth and the raw label ----------

  /** A name of the universe with at least 200 closes, the last of them above the average of the last 200. */
  ghost predicate StandsAbove(w: Window, s: Symbol) {
    && s in w.inputs && |w.inputs[s].closes| >= 200
    && var closes := w.inputs[s].closes; closes[|closes| - 1] > Total(closes[|closes| - 200..]) / 200.0
  }

  ghost function Standing(w: Window, symbols: seq<Symbol>): set<nat> {
    set k: nat | k < |symbols| && StandsAbove(w, symbols[k])
  }

  ghost function Counted(w: Window, symbols: seq<Symbol>): set<nat> {
    set k: nat | k < |symbols| && symbols[k] in w.inputs && |w.inputs[symbols[k]].closes| >= 200
  }

  lemma BreadthNext(w: Window, symbols: seq<Symbol>)
    requires symbols != []
    ensures var n := |symbols| - 1; var s := symbols[n];
      var (a, b) := BreadthCounts(w, symbols[..n]); var (c, d) := BreadthCounts(w, symbols);
      && c == a + (if StandsAbove(w, s) then 1 else 0)
      && c + d == a + b + (if s in w.inputs && |w.inputs[s].closes| >= 200 then 1 else 0)
  {
    hide Total;
  }

  lemma StandingNext(w: Window, symbols: seq<Symbol>)
    requires symbols != []
    ensures var n := |symbols| - 1;
      |Standing(w, symbols)| == |Standing(w, symbols[..n])| + if StandsAbove(w, symbols[n]) then 1 else 0
  {
    hide StandsAbove;
    var n := |symbols| - 1;
    var before, after := Standing(w, symbols[..n]), Standing(w, symbols);
    assert forall k: nat :: k in after <==> k in before || (k == n && StandsAbove(w, symbols[n]));
    OneMore(before, after, n, StandsAbove(w, symbols[n]));
  }

  lemma CountedNext(w: Window, symbols: seq<Symbol>)
    requires symbols != []
    ensures var n := |symbols| - 1; var s := symbols[n];
      |Counted(w, symbols)| == |Counted(w, symbols[..n])| + if s in w.inputs && |w.inputs[s].closes| >= 200 then 1 else 0
  {
    var n := |symbols| - 1;
    var before, after, counts := Counted(w, symbols[..n]), Counted(w, symbols), symbols[n] in w.inputs && |w.inputs[symbols[n]].closes| >= 200;
    assert forall k: nat :: k in after <==> k in before || (k == n && counts);
    OneMore(before, after, n, counts);
  }

  lemma {:induction false} BreadthCounted(w: Window, symbols: seq<Symbol>)
    ensures var (above, below) := BreadthCounts(w, symbols);
      above == |Standing(w, symbols)| && above + below == |Counted(w, symbols)|
  {
    if symbols == [] {
      assert Standing(w, symbols) == {} && Counted(w, symbols) == {};
    } else {
      hide BreadthCounts, Standing, Counted, StandsAbove;
      BreadthCounted(w, symbols[..|symbols| - 1]);
      BreadthNext(w, symbols);
      StandingNext(w, symbols);
      CountedNext(w, symbols);
    }
  }

  /** Breadth is the share of the names with enough history that close above their own 200-day average. */
  lemma BreadthIsShare(w: Window)
    ensures var breadth := Breadth(BreadthCounts(w, w.symbols)); var counted := |Counted(w, w.symbols)|;
      && (breadth.None? <==> counted == 0)
      && (breadth.Some? ==> breadth.value * counted as real == |Standing(w, w.symbols)| as real)
  {
    BreadthCounted(w, w.symbols);
  }
}
