/** The no-lookahead seam: what a backtest session may read of the loaded history. */
module DataWindow {
  import opened Wrappers
  import opened Domain

  const FUNDAMENTALS_LAG_DAYS := 45

  type FundamentalSnapshot = map<string, Option<real>>

  datatype OHLC = OHLC(open: real, high: real, low: real, close: real, volume: real)

  datatype SymbolSeries = SymbolSeries(
    dates: seq<Day>, opens: seq<real>, highs: seq<real>, lows: seq<real>, closes: seq<real>, volumes: seq<real>,
    rawCloses: seq<real>, fundamentals: seq<(Day, FundamentalSnapshot)>)

  datatype BacktestData = BacktestData(
    symbols: seq<Symbol>, sectors: map<Symbol, Sector>, series: map<Symbol, SymbolSeries>,
    spyDates: seq<Day>, spyCloses: seq<real>, vixDates: seq<Day>, vixValues: seq<real>,
    t10Dates: seq<Day>, t10Values: seq<real>)

  datatype SignalInputs = SignalInputs(
    symbol: Symbol, sector: Sector, closes: seq<real>, highs: seq<real>, lows: seq<real>, volumes: seq<real>,
    opens: seq<real>, currentPrice: real, marketCloses: seq<real>, annual: seq<FundamentalSnapshot>)

  ghost predicate Ascending(dates: seq<Day>) {
    forall i, j :: 0 <= i < j < |dates| ==> dates[i] <= dates[j]
  }

  /** Insertion point after every date at or before `x`; on ascending dates, how many there are. */
  function BisectRight(dates: seq<Day>, x: Day): (cut: nat)
    ensures cut <= |dates|
  {
    if dates == [] || dates[|dates| - 1] <= x then |dates| else BisectRight(dates[..|dates| - 1], x)
  }

  function SliceUpto<T>(dates: seq<Day>, values: seq<T>, asOf: Day): seq<T> {
    var cut := BisectRight(dates, asOf);
    if cut <= |values| then values[..cut] else values
  }

  function ScalarUpto(dates: seq<Day>, values: seq<real>, asOf: Day): Option<real>
    requires |values| == |dates|
  {
    var cut := BisectRight(dates, asOf);
    if cut > 0 then Some(values[cut - 1]) else None
  }

  /** Statements dated at or before `cutoff`, in file order. */
  function FiledUpto(fs: seq<(Day, FundamentalSnapshot)>, cutoff: Day): seq<(Day, FundamentalSnapshot)> {
    if fs == [] then []
    else
      var n := |fs| - 1;
      FiledUpto(fs[..n], cutoff) + (if fs[n].0 <= cutoff then [fs[n]] else [])
  }

  function Snapshots(fs: seq<(Day, FundamentalSnapshot)>): seq<FundamentalSnapshot> {
    seq(|fs|, i requires 0 <= i < |fs| => fs[i].1)
  }

  ghost predicate Aligned(s: SymbolSeries) {
    && Ascending(s.dates)
    && |s.opens| == |s.highs| == |s.lows| == |s.closes| == |s.volumes| == |s.rawCloses| == |s.dates|
  }

  ghost predicate Loaded(d: BacktestData) {
    && (forall s :: s in d.series ==> Aligned(d.series[s]))
    && Ascending(d.spyDates) && |d.spyCloses| == |d.spyDates|
    && Ascending(d.vixDates) && |d.vixValues| == |d.vixDates|
    && Ascending(d.t10Dates) && |d.t10Values| == |d.t10Dates|
  }

  // ---------- the window's methods ----------

  function BarOf(s: SymbolSeries, asOf: Day): Option<OHLC>
    requires Aligned(s)
  {
    var i := BisectRight(s.dates, asOf) - 1;
    if i < 0 || s.dates[i] != asOf then None
    else Some(OHLC(s.opens[i], s.highs[i], s.lows[i], s.rawCloses[i], s.volumes[i]))
  }

  function InputsOf(symbol: Symbol, sector: Sector, s: SymbolSeries, spy: seq<real>, asOf: Day): Option<SignalInputs> {
    var closes := SliceUpto(s.dates, s.closes, asOf);
    if closes == [] then None
    else Some(SignalInputs(
      symbol, sector, closes, SliceUpto(s.dates, s.highs, asOf), SliceUpto(s.dates, s.lows, asOf),
      SliceUpto(s.dates, s.volumes, asOf), SliceUpto(s.dates, s.opens, asOf), closes[|closes| - 1], spy,
      Snapshots(FiledUpto(s.fundamentals, asOf - FUNDAMENTALS_LAG_DAYS))))
  }

  /** All that a session dated `asOf` can see. */
  datatype Window = Window(
    asOf: Day, symbols: seq<Symbol>, sectors: map<Symbol, Sector>,
    bars: map<Symbol, OHLC>, inputs: map<Symbol, SignalInputs>,
    spyCloses: seq<real>, vixSeries: seq<real>, t10y2y: Option<real>)

  function SectorFor(sectors: map<Symbol, Sector>, s: Symbol): Sector {
    if s in sectors then sectors[s] else "Unknown"
  }

  function Observe(d: BacktestData, asOf: Day): (w: Window)
    requires Loaded(d)
    ensures w.asOf == asOf
  {
    var spy := SliceUpto(d.spyDates, d.spyCloses, asOf);
    Window(
      asOf, d.symbols, d.sectors,
      map s | s in d.series && BarOf(d.series[s], asOf).Some? :: BarOf(d.series[s], asOf).value,
      map s | s in d.series && InputsOf(s, SectorFor(d.sectors, s), d.series[s], spy, asOf).Some? ::
        InputsOf(s, SectorFor(d.sectors, s), d.series[s], spy, asOf).value,
      spy,
      SliceUpto(d.vixDates, d.vixValues, asOf),
      ScalarUpto(d.t10Dates, d.t10Values, asOf))
  }

  // ---------- two data sets that agree on the past ----------

  ghost predicate SameColumn<T>(d1: seq<Day>, v1: seq<T>, d2: seq<Day>, v2: seq<T>, t: Day) {
    SliceUpto(d1, v1, t) == SliceUpto(d2, v2, t)
  }

  ghost predicate AgreeSeries(a: SymbolSeries, b: SymbolSeries, t: Day) {
    && SameColumn(a.dates, a.dates, b.dates, b.dates, t)
    && SameColumn(a.dates, a.opens, b.dates, b.opens, t)
    && SameColumn(a.dates, a.highs, b.dates, b.highs, t)
    && SameColumn(a.dates, a.lows, b.dates, b.lows, t)
    && SameColumn(a.dates, a.closes, b.dates, b.closes, t)
    && SameColumn(a.dates, a.volumes, b.dates, b.volumes, t)
    && SameColumn(a.dates, a.rawCloses, b.dates, b.rawCloses, t)
    && FiledUpto(a.fundamentals, t - 45) == FiledUpto(b.fundamentals, t - 45)
  }

  /** Same names and sectors, same rows dated at or before t, same statements dated at or before t minus 45 days. */
  ghost predicate AgreeUpto(a: BacktestData, b: BacktestData, t: Day) {
    && a.symbols == b.symbols && a.sectors == b.sectors && a.series.Keys == b.series.Keys
    && (forall s :: s in a.series ==> AgreeSeries(a.series[s], b.series[s], t))
    && SameColumn(a.spyDates, a.spyDates, b.spyDates, b.spyDates, t)
    && SameColumn(a.spyDates, a.spyCloses, b.spyDates, b.spyCloses, t)
    && SameColumn(a.vixDates, a.vixDates, b.vixDates, b.vixDates, t)
    && SameColumn(a.vixDates, a.vixValues, b.vixDates, b.vixValues, t)
    && SameColumn(a.t10Dates, a.t10Dates, b.t10Dates, b.t10Dates, t)
    && SameColumn(a.t10Dates, a.t10Values, b.t10Dates, b.t10Values, t)
  }

  /** On ascending dates the cut separates the dates at or before x from the later ones. */
  lemma {:induction false} BisectSplits(dates: seq<Day>, x: Day)
    requires Ascending(dates)
    ensures var cut := BisectRight(dates, x);
      && (forall i :: 0 <= i < cut ==> dates[i] <= x) && (forall i :: cut <= i < |dates| ==> dates[i] > x)
  {
    if dates != [] && dates[|dates| - 1] > x {
      BisectSplits(dates[..|dates| - 1], x);
    }
  }

  lemma CutUnique(dates: seq<Day>, x: Day, cut: nat)
    requires Ascending(dates) && cut <= |dates|
    requires (forall i :: 0 <= i < cut ==> dates[i] <= x) && (forall i :: cut <= i < |dates| ==> dates[i] > x)
    ensures BisectRight(dates, x) == cut
  {
    BisectSplits(dates, x);
    var c := BisectRight(dates, x);
    assert c < |dates| ==> dates[c] > x;
    assert cut < |dates| ==> dates[cut] > x;
  }

  /** An earlier cut is decided by the dates up to the later one. */
  lemma EarlierCut(dates: seq<Day>, t: Day, u: Day)
    requires Ascending(dates) && u <= t
    ensures BisectRight(dates, u) == BisectRight(SliceUpto(dates, dates, t), u)
  {
    BisectSplits(dates, t);
    BisectSplits(dates, u);
    var past := SliceUpto(dates, dates, t);
    var cut := BisectRight(dates, u);
    assert cut > 0 ==> dates[cut - 1] <= u;
    assert cut <= |past|;
    CutUnique(past, u, cut);
  }

  lemma EarlierColumn<T>(d1: seq<Day>, v1: seq<T>, d2: seq<Day>, v2: seq<T>, t: Day, u: Day)
    requires Ascending(d1) && Ascending(d2) && |v1| == |d1| && |v2| == |d2| && u <= t
    requires SameColumn(d1, d1, d2, d2, t) && SameColumn(d1, v1, d2, v2, t)
    ensures BisectRight(d1, u) == BisectRight(d2, u)
    ensures SameColumn(d1, v1, d2, v2, u)
  {
    EarlierCut(d1, t, u);
    EarlierCut(d2, t, u);
    var cut := BisectRight(d1, u);
    var p1, p2 := SliceUpto(d1, v1, t), SliceUpto(d2, v2, t);
    assert cut <= |SliceUpto(d1, d1, t)| == |p1|;
    assert v1[..cut] == p1[..cut] && v2[..cut] == p2[..cut];
  }

  lemma {:induction false} FiledTwice(fs: seq<(Day, FundamentalSnapshot)>, c: Day, e: Day)
    requires e <= c
    ensures FiledUpto(FiledUpto(fs, c), e) == FiledUpto(fs, e)
  {
    if fs != [] {
      var n := |fs| - 1;
      var init := FiledUpto(fs[..n], c);
      FiledTwice(fs[..n], c, e);
      if fs[n].0 <= c {
        assert FiledUpto(fs, c) == init + [fs[n]];
        assert (init + [fs[n]])[..|init|] == init;
      } else {
        assert FiledUpto(fs, c) == init;
      }
    }
  }

  lemma SeriesAgree(a: SymbolSeries, b: SymbolSeries, t: Day, u: Day)
    requires Aligned(a) && Aligned(b) && AgreeSeries(a, b, t) && u <= t
    ensures AgreeSeries(a, b, u) && BisectRight(a.dates, u) == BisectRight(b.dates, u)
  {
    EarlierColumn(a.dates, a.dates, b.dates, b.dates, t, u);
    EarlierColumn(a.dates, a.opens, b.dates, b.opens, t, u);
    EarlierColumn(a.dates, a.highs, b.dates, b.highs, t, u);
    EarlierColumn(a.dates, a.lows, b.dates, b.lows, t, u);
    EarlierColumn(a.dates, a.closes, b.dates, b.closes, t, u);
    EarlierColumn(a.dates, a.volumes, b.dates, b.volumes, t, u);
    EarlierColumn(a.dates, a.rawCloses, b.dates, b.rawCloses, t, u);
    FiledTwice(a.fundamentals, t - FUNDAMENTALS_LAG_DAYS, u - FUNDAMENTALS_LAG_DAYS);
    FiledTwice(b.fundamentals, t - FUNDAMENTALS_LAG_DAYS, u - FUNDAMENTALS_LAG_DAYS);
  }

  lemma LastOf<T>(d1: seq<Day>, v1: seq<T>, d2: seq<Day>, v2: seq<T>, u: Day)
    requires |v1| == |d1| && |v2| == |d2| && BisectRight(d1, u) == BisectRight(d2, u)
    requires SameColumn(d1, v1, d2, v2, u)
    ensures var i := BisectRight(d1, u) - 1; i >= 0 ==> v1[i] == v2[i]
  {
    var i := BisectRight(d1, u) - 1;
    if i >= 0 {
      assert SliceUpto(d1, v1, u)[i] == v1[i] && SliceUpto(d2, v2, u)[i] == v2[i];
    }
  }

  lemma BarsAgree(a: SymbolSeries, b: SymbolSeries, u: Day)
    requires Aligned(a) && Aligned(b) && AgreeSeries(a, b, u) && BisectRight(a.dates, u) == BisectRight(b.dates, u)
    ensures BarOf(a, u) == BarOf(b, u)
  {
    LastOf(a.dates, a.dates, b.dates, b.dates, u);
    LastOf(a.dates, a.opens, b.dates, b.opens, u);
    LastOf(a.dates, a.highs, b.dates, b.highs, u);
    LastOf(a.dates, a.lows, b.dates, b.lows, u);
    LastOf(a.dates, a.rawCloses, b.dates, b.rawCloses, u);
    LastOf(a.dates, a.volumes, b.dates, b.volumes, u);
  }

  lemma SeriesLookAlike(a: SymbolSeries, b: SymbolSeries, symbol: Symbol, sector: Sector, spy: seq<real>, t: Day,
                        u: Day)
    requires Aligned(a) && Aligned(b) && AgreeSeries(a, b, t) && u <= t
    ensures BarOf(a, u) == BarOf(b, u)
    ensures InputsOf(symbol, sector, a, spy, u) == InputsOf(symbol, sector, b, spy, u)
  {
    SeriesAgree(a, b, t, u);
    BarsAgree(a, b, u);
  }

  /** Data that agree up to t look the same through every window dated at or before t. */
  lemma WindowsAgree(a: BacktestData, b: BacktestData, t: Day, u: Day)
    requires Loaded(a) && Loaded(b) && AgreeUpto(a, b, t) && u <= t
    ensures Observe(a, u) == Observe(b, u)
  {
    hide BarOf, InputsOf, AgreeSeries;
    EarlierColumn(a.spyDates, a.spyCloses, b.spyDates, b.spyCloses, t, u);
    EarlierColumn(a.vixDates, a.vixValues, b.vixDates, b.vixValues, t, u);
    EarlierColumn(a.t10Dates, a.t10Values, b.t10Dates, b.t10Values, t, u);
    LastOf(a.t10Dates, a.t10Values, b.t10Dates, b.t10Values, u);
    var spy := SliceUpto(a.spyDates, a.spyCloses, u);
    forall s | s in a.series
      ensures BarOf(a.series[s], u) == BarOf(b.series[s], u)
      ensures InputsOf(s, SectorFor(a.sectors, s), a.series[s], spy, u) == InputsOf(s, SectorFor(a.sectors, s), b.series[s], spy, u)
    {
      SeriesLookAlike(a.series[s], b.series[s], s, SectorFor(a.sectors, s), spy, t, u);
    }
    assert Observe(a, u).bars == Observe(b, u).bars;
    assert Observe(a, u).inputs == Observe(b, u).inputs;
  }

  /** `seen` is exactly the part of a column dated at or before `asOf`. */
  ghost predicate UpTo<T>(dates: seq<Day>, values: seq<T>, seen: seq<T>, asOf: Day) {
    && |seen| <= |values| == |dates| && seen == values[..|seen|]
    && forall i :: 0 <= i < |dates| ==> (i < |seen| <==> dates[i] <= asOf)
  }

  lemma SliceIsUpTo<T>(dates: seq<Day>, values: seq<T>, asOf: Day)
    requires Ascending(dates) && |values| == |dates|
    ensures UpTo(dates, values, SliceUpto(dates, values, asOf), asOf)
  {
    hide BisectRight;
    BisectSplits(dates, asOf);
  }

  lemma {:induction false} FiledAreOld(fs: seq<(Day, FundamentalSnapshot)>, cutoff: Day)
    ensures forall x :: x in FiledUpto(fs, cutoff) <==> x in fs && x.0 <= cutoff
  {
    if fs != [] {
      var n := |fs| - 1;
      assert fs == fs[..n] + [fs[n]];
      FiledAreOld(fs[..n], cutoff);
    }
  }

  /** A bar is the row dated on the day itself. */
  lemma BarIsOfTheDay(x: SymbolSeries, asOf: Day)
    requires Aligned(x)
    ensures BarOf(x, asOf).Some? <==> asOf in x.dates
    ensures BarOf(x, asOf).Some? ==>
              exists i :: 0 <= i < |x.dates| && x.dates[i] == asOf
                && BarOf(x, asOf).value == OHLC(x.opens[i], x.highs[i], x.lows[i], x.rawCloses[i], x.volumes[i])
  {
    hide BisectRight;
    BisectSplits(x.dates, asOf);
    var n := BisectRight(x.dates, asOf);
    if asOf in x.dates {
      var i :| 0 <= i < |x.dates| && x.dates[i] == asOf;
      assert i < n && x.dates[n - 1] == asOf;
    }
  }

  /** The columns of a symbol's inputs stop at the day, and its statements are exactly those at least 45 days old. */
  ghost predicate PastInputs(x: SymbolSeries, inputs: SignalInputs, asOf: Day) {
    && UpTo(x.dates, x.closes, inputs.closes, asOf) && UpTo(x.dates, x.highs, inputs.highs, asOf)
    && UpTo(x.dates, x.lows, inputs.lows, asOf) && UpTo(x.dates, x.volumes, inputs.volumes, asOf)
    && UpTo(x.dates, x.opens, inputs.opens, asOf)
    && inputs.closes != [] && inputs.currentPrice == inputs.closes[|inputs.closes| - 1]
    && var visible := FiledUpto(x.fundamentals, asOf - 45);
       && inputs.annual == Snapshots(visible)
       && forall f :: f in visible <==> f in x.fundamentals && f.0 <= asOf - 45
  }

  lemma InputsArePast(x: SymbolSeries, symbol: Symbol, sector: Sector, spy: seq<real>, asOf: Day)
    requires Aligned(x)
    ensures var inputs := InputsOf(symbol, sector, x, spy, asOf);
      && (inputs.Some? <==> exists i :: 0 <= i < |x.dates| && x.dates[i] <= asOf)
      && (inputs.Some? ==> PastInputs(x, inputs.value, asOf) && inputs.value.marketCloses == spy)
  {
    hide SliceUpto, FiledUpto, Snapshots;
    SliceIsUpTo(x.dates, x.closes, asOf);
    SliceIsUpTo(x.dates, x.highs, asOf);
    SliceIsUpTo(x.dates, x.lows, asOf);
    SliceIsUpTo(x.dates, x.volumes, asOf);
    SliceIsUpTo(x.dates, x.opens, asOf);
    FiledAreOld(x.fundamentals, asOf - 45);
    SomethingSeen(x, SliceUpto(x.dates, x.closes, asOf), asOf);
  }

  lemma SomethingSeen(x: SymbolSeries, seen: seq<real>, asOf: Day)
    requires UpTo(x.dates, x.closes, seen, asOf)
    ensures seen != [] <==> exists i :: 0 <= i < |x.dates| && x.dates[i] <= asOf
  {
    if seen != [] {
      assert x.dates[0] <= asOf;
    }
  }

  /** The yield spread is the last value dated at or before the day. */
  lemma ScalarIsLatest(dates: seq<Day>, values: seq<real>, asOf: Day)
    requires Ascending(dates) && |values| == |dates|
    ensures var x, seen := ScalarUpto(dates, values, asOf), SliceUpto(dates, values, asOf);
      UpTo(dates, values, seen, asOf) && x == if seen == [] then None else Some(seen[|seen| - 1])
  {
    SliceIsUpTo(dates, values, asOf);
  }

  /** Nothing in a window is dated after its session: every column and market series stops exactly at it, a bar is the one of
      the day, the yield spread is the latest known, and statements are exactly those at least 45 days old. */
  lemma WindowIsPast(d: BacktestData, asOf: Day, s: Symbol)
    requires Loaded(d) && s in d.series
    ensures var w, x := Observe(d, asOf), d.series[s];
      && (s in w.inputs <==> exists i :: 0 <= i < |x.dates| && x.dates[i] <= asOf)
      && (s in w.inputs ==> PastInputs(x, w.inputs[s], asOf) && w.inputs[s].marketCloses == w.spyCloses)
      && (s in w.bars <==> asOf in x.dates)
      && (s in w.bars ==>
            exists i :: 0 <= i < |x.dates| && x.dates[i] == asOf
              && w.bars[s] == OHLC(x.opens[i], x.highs[i], x.lows[i], x.rawCloses[i], x.volumes[i]))
      && UpTo(d.spyDates, d.spyCloses, w.spyCloses, asOf) && UpTo(d.vixDates, d.vixValues, w.vixSeries, asOf)
      && exists seen :: UpTo(d.t10Dates, d.t10Values, seen, asOf)
           && w.t10y2y == if seen == [] then None else Some(seen[|seen| - 1])
  {
    hide InputsOf, BarOf, ScalarUpto, SliceUpto, PastInputs, UpTo, Aligned, Ascending;
    var x := d.series[s];
    BarIsOfTheDay(x, asOf);
    InputsArePast(x, s, SectorFor(d.sectors, s), SliceUpto(d.spyDates, d.spyCloses, asOf), asOf);
    SliceIsUpTo(d.spyDates, d.spyCloses, asOf);
    SliceIsUpTo(d.vixDates, d.vixValues, asOf);
    ScalarIsLatest(d.t10Dates, d.t10Values, asOf);
  }
}
