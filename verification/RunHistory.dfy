/** The life of one position inside a whole backtest: what the lifecycle theorems say about real runs. */
module RunHistory {
  import opened Domain
  import opened Keys
  import opened Rules
  import opened Decision
  import opened PlanLimits
  import opened CostModel
  import opened Books
  import opened BookLimits
  import opened Lifecycle
  import opened DataWindow
  import opened Engine
  import opened BacktestRuns

  /** Exits touch exactly the held names that have data. */
  lemma TouchedIs(order: seq<Symbol>, held: map<Symbol, Position>, data: Market)
    requires Enumerates(order, held.Keys)
    ensures forall s :: s in Touched(ExitsFor(order, held, data)) <==> s in held && s in data
  {
    hide SellFor;
    ExitsForEach(order, held, data);
    var xs := ExitsFor(order, held, data);
    forall s | s in held && s in data ensures s in Touched(xs) {
      assert s in order;
      var i :| 0 <= i < |xs| && xs[i] == ExitIntent(s, SellFor(held[s], data[s]));
    }
  }

  /** One executed plan does to a held position exactly what its own sell action says, or nothing when it has no data. */
  lemma ExecuteOnSymbol(b: Book, plan: CyclePlan, data: Market, day: Day, equity: real, pricing: Pricing, s: Symbol)
    requires WellFormed(b) && PlannedFrom(plan, b, data, equity) && plan.exits == ExitsFor(b.order, b.held, data) && s in b.held
    ensures var c := Execute(b, plan, data, day, pricing);
      if s in data then Becomes(c.held, s, AfterAction(b.held[s], SellFor(b.held[s], data[s])))
      else s in c.held && c.held[s] == b.held[s]
  {
    hide Sized, SellFor, AfterAction, Exits, Entries, Notional, ExitsFor;
    ExitsAreAfterActions(b, plan.exits, data, day, pricing);
    TouchedIs(b.order, b.held, data);
    EntriesLeaveAlone(Exits(b, plan.exits, data, day, pricing), plan.entries, data, day, pricing, s);
  }

  /** What session `w` shows of a held symbol, if it has data. */
  function Shown(env: Env, w: Window, st: RunState, s: Symbol): seq<Session> {
    var snap := SnapshotFor(env, w, st);
    if CompaniesOf(env, w, w.symbols) != [] && s in snap.data
    then [Session(snap.data[s].bar, View(snap.data[s]), VolumeRatio(snap.data[s]))] else []
  }

  lemma SessionOnSymbol(env: Env, w: Window, st: RunState, s: Symbol)
    requires Iterates(env) && WellFormed(st.book) && s in st.book.held
    ensures var st' := SessionStep(env, w, st); var shown := Shown(env, w, st, s); var pos := st.book.held[s];
      if shown == [] then s in st'.book.held && st'.book.held[s] == pos
      else Becomes(st'.book.held, s, AfterAction(pos, EvaluateSell(pos, shown[0].bar, shown[0].view)))
  {
    hide Execute, Equity, SectorNotional, EntriesFor, ExitsFor, SnapshotFor, PlannedFrom, AfterAction, EvaluateSell, CompaniesOf, Becomes;
    var snap := SnapshotFor(env, w, st);
    SessionPlanned(env, w, st);
    ExecuteOnSymbol(st.book, PlanFor(w, snap, st.book), snap.data, w.asOf, Equity(st.book, snap.marks), FillPrice, s);
  }

  /** The sessions between calendar days m and n that show symbol s. */
  function Observed(env: Env, data: BacktestData, config: BacktestConfig, calendar: seq<Day>, m: nat, n: nat,
                    s: Symbol): seq<Session>
    requires Loaded(data) && m <= n <= |calendar|
  {
    if n == m then []
    else
      Observed(env, data, config, calendar, m, n - 1, s) + ShownOn(env, data, config, calendar, n - 1, s)
  }

  /** What calendar day k shows of symbol s: nothing while the run warms up. */
  function ShownOn(env: Env, data: BacktestData, config: BacktestConfig, calendar: seq<Day>, k: nat, s: Symbol): seq<Session>
    requires Loaded(data) && k < |calendar|
  {
    if k < WARMUP_BARS then [] else Shown(env, Observe(data, calendar[k]), RunAfter(env, data, config, calendar, k), s)
  }

  lemma ShownOnAtMostOnce(env: Env, data: BacktestData, config: BacktestConfig, calendar: seq<Day>, k: nat, s: Symbol)
    requires Loaded(data) && k < |calendar|
    ensures |ShownOn(env, data, config, calendar, k, s)| <= 1
  {}

  /** One more session advances a held position exactly as it advances the position's life: what is left is held, and a
      closed position is gone. */
  lemma LifeGoesOn(env: Env, w: Window, st: RunState, s: Symbol, p: Position, ref: real, past: seq<Session>)
    requires Iterates(env) && WellFormed(st.book) && Live(p, ref, past).Open?
    requires s in st.book.held && st.book.held[s] == Live(p, ref, past).pos
    ensures Mirrors(SessionStep(env, w, st).book.held, s, Live(p, ref, past + Shown(env, w, st, s)))
  {
    hide SessionStep, Shown, EvaluateSell, AfterAction, WellFormed;
    var shown := Shown(env, w, st, s);
    ShownAtMostOnce(env, w, st, s);
    if shown == [] {
      assert past + shown == past;
    } else {
      assert (past + shown)[..|past|] == past && (past + shown)[|past|] == shown[0];
    }
    SessionOnSymbol(env, w, st, s);
  }

  /** The book holds the symbol exactly as its life says. */
  ghost predicate Mirrors(held: map<Symbol, Position>, s: Symbol, life: Life) {
    if life.Open? then s in held && held[s] == life.pos else s !in held
  }

  /** An open life was open a session earlier. */
  lemma OpenBefore(p: Position, ref: real, past: seq<Session>, shown: seq<Session>)
    requires |shown| <= 1 && Live(p, ref, past + shown).Open?
    ensures Live(p, ref, past).Open?
  {
    hide LiveOn;
    if shown == [] {
      assert past + shown == past;
    } else {
      assert (past + shown)[..|past|] == past;
    }
  }

  /** A position held on day m lives exactly the life its observed sessions dictate, for as long as that life is open. */
  lemma {:induction false} PositionLivesItsLife(env: Env, data: BacktestData, config: BacktestConfig, calendar: seq<Day>,
                                                m: nat, n: nat, s: Symbol, ref: real)
    requires Iterates(env) && Loaded(data) && m <= n <= |calendar|
    requires s in RunAfter(env, data, config, calendar, m).book.held
    ensures var p := RunAfter(env, data, config, calendar, m).book.held[s];
      var life := Live(p, ref, Observed(env, data, config, calendar, m, n, s));
      var held := RunAfter(env, data, config, calendar, n).book.held;
      life.Open? ==> s in held && held[s] == life.pos
  {
    hide SessionStep, Shown, Observe, Live, WellFormed, Imbalance;
    if n == m {
      NoLifeYet(RunAfter(env, data, config, calendar, m).book.held[s], ref);
    } else {
      var p := RunAfter(env, data, config, calendar, m).book.held[s];
      var past := Observed(env, data, config, calendar, m, n - 1, s);
      var shown := ShownOn(env, data, config, calendar, n - 1, s);
      ShownOnAtMostOnce(env, data, config, calendar, n - 1, s);
      if Live(p, ref, past + shown).Open? {
        OpenBefore(p, ref, past, shown);
        PositionLivesItsLife(env, data, config, calendar, m, n - 1, s, ref);
        NextDay(env, data, config, calendar, m, n, s, ref);
      }
    }
  }

  lemma NoLifeYet(p: Position, ref: real)
    ensures Live(p, ref, []) == Open(p, 0.0)
  {}

  /** One more calendar day, for a position whose life is still open. */
  lemma NextDay(env: Env, data: BacktestData, config: BacktestConfig, calendar: seq<Day>, m: nat, n: nat, s: Symbol, ref: real)
    requires Iterates(env) && Loaded(data) && m < n <= |calendar|
    requires s in RunAfter(env, data, config, calendar, m).book.held
    requires var p := RunAfter(env, data, config, calendar, m).book.held[s];
      var life := Live(p, ref, Observed(env, data, config, calendar, m, n - 1, s));
      life.Open? && Mirrors(RunAfter(env, data, config, calendar, n - 1).book.held, s, life)
    ensures var p := RunAfter(env, data, config, calendar, m).book.held[s];
      Mirrors(RunAfter(env, data, config, calendar, n).book.held, s,
              Live(p, ref, Observed(env, data, config, calendar, m, n, s)))
  {
    hide SessionStep, Shown, Observe, Live, WellFormed, Imbalance;
    var p := RunAfter(env, data, config, calendar, m).book.held[s];
    var past := Observed(env, data, config, calendar, m, n - 1, s);
    RunKeepsBook(env, data, config, calendar, n - 1);
    if n - 1 < WARMUP_BARS {
      assert past + [] == past;
    } else {
      LifeGoesOn(env, Observe(data, calendar[n - 1]), RunAfter(env, data, config, calendar, n - 1), s, p, ref, past);
    }
  }

  /** The session that closes a position's life takes the symbol off the book. */
  lemma ClosedLeavesBook(env: Env, data: BacktestData, config: BacktestConfig, calendar: seq<Day>, m: nat, n: nat, s: Symbol,
                         ref: real)
    requires Iterates(env) && Loaded(data) && m < n <= |calendar|
    requires s in RunAfter(env, data, config, calendar, m).book.held
    requires var p := RunAfter(env, data, config, calendar, m).book.held[s];
      && Live(p, ref, Observed(env, data, config, calendar, m, n - 1, s)).Open?
      && Live(p, ref, Observed(env, data, config, calendar, m, n, s)).Closed?
    ensures s !in RunAfter(env, data, config, calendar, n).book.held
  {
    hide Live, Observed, RunAfter;
    PositionLivesItsLife(env, data, config, calendar, m, n - 1, s, ref);
    NextDay(env, data, config, calendar, m, n, s, ref);
  }

  lemma ShownAtMostOnce(env: Env, w: Window, st: RunState, s: Symbol)
    ensures |Shown(env, w, st, s)| <= 1
  {}

  /** In any run, the stop of a position that is still open is the closed form of the prices seen since day m. */
  lemma StopIsHistoryInRuns(env: Env, data: BacktestData, config: BacktestConfig, calendar: seq<Day>, m: nat, n: nat,
                            s: Symbol)
    requires Iterates(env) && Loaded(data) && m <= n <= |calendar|
    requires s in RunAfter(env, data, config, calendar, m).book.held
    requires Live(RunAfter(env, data, config, calendar, m).book.held[s], 0.0,
                  Observed(env, data, config, calendar, m, n, s)).Open?
    ensures var p := RunAfter(env, data, config, calendar, m).book.held[s];
      var seen := Observed(env, data, config, calendar, m, n, s);
      var held := RunAfter(env, data, config, calendar, n).book.held;
      && s in held && held[s].stopPrice == TrailFromHistory(p, seen) && held[s].highestClose == HighWater(p.highestClose, seen)
      && held[s].tookPartial == TrimmedBy(p, seen)
  {
    hide SessionStep, Observed, RunAfter, TrailFromHistory, HighWater, TrimmedBy, Live;
    PositionLivesItsLife(env, data, config, calendar, m, n, s, 0.0);
    TrailIsHistory(RunAfter(env, data, config, calendar, m).book.held[s], 0.0, Observed(env, data, config, calendar, m, n, s));
  }
}
