/** What a run reports: which days it covers, the regime of each, and how many days it spent in each regime. */
module RunRecords {
  import opened Wrappers
  import opened Domain
  import opened Keys
  import opened Books
  import opened Regimes
  import opened DataWindow
  import opened Engine
  import opened BacktestRuns
  import Backtester

  lemma {:induction false} CalendarMembers(dates: seq<Day>, config: BacktestConfig)
    ensures forall d :: d in Calendar(dates, config) <==> d in dates && config.start <= d <= config.end
  {
    if dates != [] {
      CalendarMembers(dates[..|dates| - 1], config);
      assert dates == dates[..|dates| - 1] + [dates[|dates| - 1]];
    }
  }

  lemma {:induction false} CalendarCounts(dates: seq<Day>, config: BacktestConfig, d: Day)
    ensures multiset(Calendar(dates, config))[d] == if config.start <= d <= config.end then multiset(dates)[d] else 0
  {
    if dates != [] {
      CalendarCounts(dates[..|dates| - 1], config, d);
      assert dates == dates[..|dates| - 1] + [dates[|dates| - 1]];
    }
  }

  /** The calendar is the trading days within the configured range, each as often as it is listed, in order. */
  lemma CalendarIsRange(dates: seq<Day>, config: BacktestConfig)
    requires Ascending(dates)
    ensures var days := Calendar(dates, config);
      && Ascending(days) && (forall d :: d in days <==> d in dates && config.start <= d <= config.end)
      && forall d :: multiset(days)[d] == if config.start <= d <= config.end then multiset(dates)[d] else 0
  {
    CalendarUpto(dates, config);
    CalendarMembers(dates, config);
    forall d ensures multiset(Calendar(dates, config))[d] == if config.start <= d <= config.end then multiset(dates)[d] else 0 {
      CalendarCounts(dates, config, d);
    }
  }

  /** How many of the reported points carry a regime. */
  function DaysIn(curve: seq<EquityPoint>, r: Regime): nat {
    if curve == [] then 0 else DaysIn(curve[..|curve| - 1], r) + if curve[|curve| - 1].regime == r then 1 else 0
  }

  /** The raw label of a day, from what the window of that day shows. */
  ghost function LabelOf(data: BacktestData, day: Day): Regime
    requires Loaded(data)
  {
    var w := Observe(data, day);
    ClassifyRaw(BuildFeatures(w.vixSeries, w.t10y2y, w.spyCloses, Breadth(BreadthCounts(w, w.symbols))))
  }

  ghost predicate Recorded(data: BacktestData, calendar: seq<Day>, n: nat, st: RunState, days: seq<nat>)
    requires Loaded(data) && n <= |calendar|
  {
    && |days| == |st.curve| == |st.raws|
    && (forall k :: 0 <= k < |days| ==>
          && 200 <= days[k] < n && st.curve[k].day == calendar[days[k]] && st.raws[k] == LabelOf(data, calendar[days[k]])
          && Some(st.curve[k].regime) == Confirmed(st.raws[..k + 1]))
    && (forall j, k :: 0 <= j < k < |days| ==> days[j] < days[k])
    && st.confirmed == Confirmed(st.raws)
    && forall r :: (if r in st.regimeDays then st.regimeDays[r] else 0) == DaysIn(st.curve, r)
  }

  /** In any run: the first 200 trading days only warm up; the points of the curve are dated on later days, in order; the regime
      of each is the confirmed one of the raw labels of these days, each read off its own day's window; and the regime days
      count the points. */
  lemma {:induction false} RunIsRecorded(env: Env, data: BacktestData, config: BacktestConfig, calendar: seq<Day>, n: nat)
    returns (days: seq<nat>)
    requires Loaded(data) && n <= |calendar|
    ensures Recorded(data, calendar, n, RunAfter(env, data, config, calendar, n), days)
  {
    hide SessionStep, Observe, LabelOf, CompaniesOf;
    days := [];
    if n > 0 {
      days := RunIsRecorded(env, data, config, calendar, n - 1);
      var w, st := Observe(data, calendar[n - 1]), RunAfter(env, data, config, calendar, n - 1);
      if n - 1 >= WARMUP_BARS && CompaniesOf(env, w, w.symbols) != [] {
        SessionRecords(env, data, calendar[n - 1], st);
        PointRecorded(data, calendar, n, st, SessionStep(env, w, st), days);
        days := days + [n - 1];
      } else if n - 1 >= WARMUP_BARS {
        Backtester.NoCompaniesNoSession(env, w, st);
      }
    }
  }

  /** What one session adds to the record. */
  ghost predicate Adds(data: BacktestData, day: Day, st: RunState, st': RunState)
    requires Loaded(data)
  {
    && |st'.curve| == |st.curve| + 1 && st'.curve[..|st.curve|] == st.curve && st'.curve[|st.curve|].day == day
    && st'.raws == st.raws + [LabelOf(data, day)]
    && st'.confirmed == Some(st'.curve[|st.curve|].regime)
    && st'.confirmed == Some(ConfirmedRegime(LastFour(st'.raws), st.confirmed))
    && var r := st'.curve[|st.curve|].regime;
       st'.regimeDays == st.regimeDays[r := (if r in st.regimeDays then st.regimeDays[r] else 0) + 1]
  }

  lemma SessionRecords(env: Env, data: BacktestData, day: Day, st: RunState)
    requires Loaded(data) && CompaniesOf(env, Observe(data, day), Observe(data, day).symbols) != []
    ensures Adds(data, day, st, SessionStep(env, Observe(data, day), st))
  {
    hide CompaniesOf, Observe, BuildFeatures, ClassifyRaw, BreadthCounts, ConfirmedRegime, LastFour, DataFor, MarksFor, Keep, Execute,
         Equity, PlanFor, Breadth, SignalsOf;
  }

  lemma PointRecorded(data: BacktestData, calendar: seq<Day>, n: nat, st: RunState, st': RunState, days: seq<nat>)
    requires Loaded(data) && 200 <= n - 1 < |calendar|
    requires Recorded(data, calendar, n - 1, st, days) && Adds(data, calendar[n - 1], st, st')
    ensures Recorded(data, calendar, n, st', days + [n - 1])
  {
    hide LabelOf, ConfirmedRegime, LastFour;
    var m, days' := |days|, days + [n - 1];
    assert st'.raws[..m] == st.raws && st'.raws[..m + 1] == st'.raws;
    forall k | 0 <= k < |days'|
      ensures 200 <= days'[k] < n && st'.curve[k].day == calendar[days'[k]] && st'.raws[k] == LabelOf(data, calendar[days'[k]])
              && Some(st'.curve[k].regime) == Confirmed(st'.raws[..k + 1])
    {
      if k < m {
        assert st'.curve[k] == st'.curve[..m][k] && st'.raws[..k + 1] == st.raws[..k + 1];
      }
    }
    forall r ensures (if r in st'.regimeDays then st'.regimeDays[r] else 0) == DaysIn(st'.curve, r) {}
  }
}
