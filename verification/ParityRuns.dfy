/** Parity of the two executors over a whole cycle and over any sequence of cycles. */
module ParityRuns {
  import opened Arithmetic
  import opened Domain
  import opened Keys
  import opened Sums
  import opened Sizing
  import opened Rules
  import opened Decision
  import opened PlanLimits
  import opened CostModel
  import opened Books
  import opened BookLimits
  import opened Engine
  import opened Broker
  import opened LiveBook
  import opened LiveCycle
  import opened LiveRuns
  import opened Parity

  // ---------- the exits ----------

  /** The live side can carry out these exits of `held` at the planned prices. */
  ghost predicate Ready(w: World, i: Inputs, xs: seq<ExitIntent>, live: map<Symbol, real>,
                        held: map<Symbol, Position>) {
    forall k :: 0 <= k < |xs| ==> ReadyFor(w, i, xs[k], live, held)
  }

  ghost predicate ReadyFor(w: World, i: Inputs, x: ExitIntent, live: map<Symbol, real>, held: map<Symbol, Position>) {
    && x.symbol in held && Matches(w, x.symbol, held[x.symbol])
    && x.symbol in live && live[x.symbol] == held[x.symbol].shares
    && held[x.symbol].shares > (if held[x.symbol].tookPartial then DUST else 2.0 * DUST)
    && Unused(w, ClientOrderId(i.cycle, x.symbol, Sell))
    && (x.action.fraction > 0.0 ==> PriceOf(w.broker, x.symbol) == x.action.exitPrice)
  }

  lemma UntouchedMatches(w: World, v: World, s: Symbol)
    requires Untouched(w, v, s)
    ensures forall p :: Matches(w, s, p) <==> Matches(v, s, p)
    ensures Absent(w, s) <==> Absent(v, s)
    ensures forall left :: LeavesAt(w, s, left) <==> LeavesAt(v, s, left)
  {}

  lemma ReadyRest(w: World, v: World, i: Inputs, xs: seq<ExitIntent>, live: map<Symbol, real>,
                  held: map<Symbol, Position>, data: Market)
    requires xs != [] && Ready(w, i, xs, live, held) && PlannedFor(xs, held, data) && Adds(w, v, i, Sell)
    requires forall s :: s != xs[0].symbol ==> Untouched(w, v, s)
    requires forall id :: id != ClientOrderId(i.cycle, xs[0].symbol, Sell) && Unused(w, id) ==> Unused(v, id)
    ensures Ready(v, i, xs[1..], live, held) && PlannedFor(xs[1..], held, data)
    ensures xs[0].symbol !in Touched(xs[1..]) && Touched(xs) == {xs[0].symbol} + Touched(xs[1..])
  {
    hide Matches, SellFor;
    assert forall k :: 0 <= k < |xs| - 1 ==> xs[1..][k] == xs[k + 1];
    forall k | 0 <= k < |xs[1..]| ensures ReadyFor(v, i, xs[1..][k], live, held) {
      assert ReadyFor(w, i, xs[k + 1], live, held);
      UntouchedMatches(w, v, xs[k + 1].symbol);
    }
    TouchedRest(xs, held, data);
  }

  lemma AddsTrans(u: World, v: World, w: World, i: Inputs, side: Side)
    requires Adds(u, v, i, side) && Adds(v, w, i, side)
    ensures Adds(u, w, i, side)
  {}

  lemma UntouchedTrans(u: World, v: World, w: World, s: Symbol)
    requires Untouched(u, v, s) && Untouched(v, w, s)
    ensures Untouched(u, w, s)
  {}

  /** What a list of exits leaves of the live book. */
  ghost predicate LeftBy(w: World, v: World, xs: seq<ExitIntent>, held: map<Symbol, Position>, data: Market) {
    && (forall s :: s in Touched(xs) ==>
          s in held && s in data && LeavesAt(v, s, AfterAction(held[s], SellFor(held[s], data[s]))))
    && (forall s :: s !in Touched(xs) ==> Untouched(w, v, s))
  }

  lemma LeftByFirst(w: World, u: World, v: World, xs: seq<ExitIntent>, held: map<Symbol, Position>, data: Market)
    requires xs != [] && PlannedFor(xs, held, data) && LeftBy(u, v, xs[1..], held, data)
    requires xs[0].symbol !in Touched(xs[1..]) && Touched(xs) == {xs[0].symbol} + Touched(xs[1..])
    requires LeavesAt(u, xs[0].symbol, AfterAction(held[xs[0].symbol], xs[0].action))
    requires forall s :: s != xs[0].symbol ==> Untouched(w, u, s)
    ensures LeftBy(w, v, xs, held, data)
  {
    hide LeavesAt, SellFor, AfterAction, Untouched, Touched;
    UntouchedMatches(u, v, xs[0].symbol);
    forall s | s !in Touched(xs) ensures Untouched(w, v, s) {
      UntouchedTrans(w, u, v, s);
    }
  }

  lemma NothingLeft(w: World, xs: seq<ExitIntent>, held: map<Symbol, Position>, data: Market, i: Inputs)
    requires xs == []
    ensures LeftBy(w, w, xs, held, data) && Adds(w, w, i, Sell)
  {}

  /** `mirror` is what the engine loaded; only the live quantities size the sales. */
  lemma {:induction false} LiveExitsLeave(w: World, i: Inputs, xs: seq<ExitIntent>, live: map<Symbol, real>,
                                          mirror: map<Symbol, Position>, held: map<Symbol, Position>, data: Market)
    requires PlannedFor(xs, held, data) && Ready(w, i, xs, live, held)
    ensures var (v, ok) := LiveExits(w, i, xs, live, mirror);
      && ok && LeftBy(w, v, xs, held, data) && Adds(w, v, i, Sell)
      && v.broker.cash == w.broker.cash + Sum(Names(xs), ProceedsOf(held, data, MidPrice))
    decreases |xs|
  {
    hide LiveExit, Ready, SellFor, AfterAction, ProceedsOf, Proceeds, SalePrice, LeavesAt, Touched, LeftBy, Adds, Untouched, Sum,
         Unused;
    if xs == [] {
      NothingLeft(w, xs, held, data, i);
      SumOfNone(Names(xs), ProceedsOf(held, data, MidPrice));
    } else {
      var x := xs[0];
      assert ReadyFor(w, i, x, live, held) by { ReadyHead(w, i, xs, live, held); }
      LiveExitLeaves(w, i, x, live, mirror, held[x.symbol], data[x.symbol]);
      var u := LiveExit(w, i, x, live, mirror).0;
      ReadyRest(w, u, i, xs, live, held, data);
      LiveExitsLeave(u, i, xs[1..], live, mirror, held, data);
      var v := LiveExits(u, i, xs[1..], live, mirror).0;
      LeftByFirst(w, u, v, xs, held, data);
      AddsTrans(w, u, v, i, Sell);
      assert Names(xs)[1..] == Names(xs[1..]);
      SumHead(Names(xs), ProceedsOf(held, data, MidPrice));
      ProceedsAt(held, data, MidPrice, x.symbol);
      MidSale(held[x.symbol], data[x.symbol]);
    }
  }

  lemma ReadyHead(w: World, i: Inputs, xs: seq<ExitIntent>, live: map<Symbol, real>, held: map<Symbol, Position>)
    requires xs != [] && Ready(w, i, xs, live, held)
    ensures ReadyFor(w, i, xs[0], live, held)
  {}

  /** Two plans that exit the same symbols raise the same cash, in whatever order they list them. */
  lemma SameProceeds(a: seq<ExitIntent>, b: seq<ExitIntent>, held: map<Symbol, Position>, data: Market,
                     w: map<Symbol, real>)
    requires Executable(a, held, data) && Executable(b, held, data) && Touched(a) == Touched(b)
    ensures Sum(Names(a), w) == Sum(Names(b), w)
  {
    hide Sum;
    NamesEnumerate(a, held, data);
    NamesEnumerate(b, held, data);
    EnumerationsPermute(Names(a), Names(b), Touched(a));
    SumPermutation(Names(a), Names(b), w);
  }

  lemma NamesEnumerate(xs: seq<ExitIntent>, held: map<Symbol, Position>, data: Market)
    requires Executable(xs, held, data)
    ensures Enumerates(Names(xs), Touched(xs))
  {
    forall s ensures s in Names(xs) <==> s in Touched(xs) {
      if s in Names(xs) {
        var k :| 0 <= k < |Names(xs)| && Names(xs)[k] == s;
        assert xs[k].symbol == s;
      }
      if s in Touched(xs) {
        var k :| 0 <= k < |xs| && xs[k].symbol == s;
        assert Names(xs)[k] == s;
      }
    }
  }

  /** After the exit phase the two books agree again. */
  lemma ExitPhaseAgrees(b: Book, e: World, i: Inputs, sim: seq<ExitIntent>, xs: seq<ExitIntent>, mirror: map<Symbol, Position>)
    requires Agree(b, e) && PlannedFor(sim, b.held, i.data) && PlannedFor(xs, b.held, i.data) && Touched(sim) == Touched(xs)
    requires Ready(e, i, xs, LiveQty(e.broker), b.held)
    ensures var (v, ok) := LiveExits(e, i, xs, LiveQty(e.broker), mirror);
      ok && Agree(Exits(b, sim, i.data, i.day, MidPrice), v) && Adds(e, v, i, Sell)
  {
    hide LiveExits, Exits, Ready, SellFor, AfterAction, Sum, Adds;
    LiveExitsLeave(e, i, xs, LiveQty(e.broker), mirror, b.held, i.data);
    ExitsAreAfterActions(b, sim, i.data, i.day, MidPrice);
    SimExitsCash(b, sim, i.data, i.day, MidPrice);
    SameProceeds(sim, xs, b.held, i.data, ProceedsOf(b.held, i.data, MidPrice));
    var c, v := Exits(b, sim, i.data, i.day, MidPrice), LiveExits(e, i, xs, LiveQty(e.broker), mirror).0;
    SameHoldingsAgree(b, e, c, v, xs, i.data);
  }

  lemma SameHoldingsAgree(b: Book, e: World, c: Book, v: World, xs: seq<ExitIntent>, data: Market)
    requires Agree(b, e) && LeftBy(e, v, xs, b.held, data) && WellFormed(c) && v.broker.cash == c.cash
    requires c.held.Keys <= b.held.Keys
    requires forall s :: s in Touched(xs) ==>
               s in b.held && s in data && Becomes(c.held, s, AfterAction(b.held[s], SellFor(b.held[s], data[s])))
    requires forall s :: s in b.held && s !in Touched(xs) ==> s in c.held && c.held[s] == b.held[s]
    ensures Agree(c, v)
  {
    hide SellFor, AfterAction, Matches, Absent, Touched, Untouched, WellFormed;
    forall s ensures if s in c.held then Matches(v, s, c.held[s]) else Absent(v, s) {
      if s !in Touched(xs) {
        UntouchedMatches(e, v, s);
      }
    }
  }

  // ---------- the entries ----------

  lemma EntryAgrees(b: Book, w: World, i: Inputs, x: EntryIntent)
    requires Agree(b, w) && x.symbol !in b.held && x.symbol in i.data
    requires Unused(w, ClientOrderId(i.cycle, x.symbol, Buy)) && PriceOf(w.broker, x.symbol) == x.refPrice
    ensures var (v, ok) := LiveEntry(w, i, x);
      && ok && Agree(EntryBook(b, x, i.data, i.day, MidPrice), v) && Adds(w, v, i, Buy)
      && (forall id :: id != ClientOrderId(i.cycle, x.symbol, Buy) && Unused(w, id) ==> Unused(v, id))
  {
    hide Amount, VolumeRatio, Enumerates;
    var c, v := EntryBook(b, x, i.data, i.day, MidPrice), LiveEntry(w, i, x).0;
    assert WellFormed(c) by { BuyWellFormed(b, x.symbol, i.day, x.shares, x.refPrice, Opened(x, x.refPrice)); }
    assert Absent(w, x.symbol);
    assert Matches(v, x.symbol, c.held[x.symbol]);
  }

  /** The entries are new to the book and the broker quotes their planned prices. */
  ghost predicate Fundable(b: Book, w: World, i: Inputs, es: seq<EntryIntent>) {
    && NewNames(es, b.held.Keys, i.data)
    && forall k :: 0 <= k < |es| ==>
         Unused(w, ClientOrderId(i.cycle, es[k].symbol, Buy)) && PriceOf(w.broker, es[k].symbol) == es[k].refPrice
  }

  lemma FundableRest(b: Book, c: Book, w: World, v: World, i: Inputs, es: seq<EntryIntent>)
    requires es != [] && Fundable(b, w, i, es) && NewNames(es[1..], c.held.Keys, i.data) && Adds(w, v, i, Buy)
    requires forall id :: id != ClientOrderId(i.cycle, es[0].symbol, Buy) && Unused(w, id) ==> Unused(v, id)
    ensures Fundable(c, v, i, es[1..])
  {
    hide Unused;
    assert forall k :: 0 <= k < |es| - 1 ==> es[1..][k] == es[k + 1];
  }

  lemma NothingAdded(w: World, i: Inputs)
    ensures Adds(w, w, i, Buy)
  {}

  lemma {:induction false} EntryPhaseAgrees(b: Book, w: World, i: Inputs, es: seq<EntryIntent>)
    requires Agree(b, w) && Fundable(b, w, i, es)
    ensures var (v, ok) := LiveEntries(w, i, es);
      ok && Agree(Entries(b, es, i.data, i.day, MidPrice), v) && Adds(w, v, i, Buy)
    decreases |es|
  {
    hide Agree, LiveEntry, EntryBook, Adds, Unused, PriceOf;
    if es == [] {
      assert Adds(w, w, i, Buy) by { NothingAdded(w, i); }
    } else {
      EntryAgrees(b, w, i, es[0]);
      var c, v := EntryBook(b, es[0], i.data, i.day, MidPrice), LiveEntry(w, i, es[0]).0;
      NewNamesRest(b, es, i.data, i.day, MidPrice);
      FundableRest(b, c, w, v, i, es);
      EntryPhaseAgrees(c, v, i, es[1..]);
      AddsTrans(w, v, LiveEntries(v, i, es[1..]).0, i, Buy);
    }
  }

  // ---------- positions stay above the broker's dust ----------

  /** A position that is large enough stays so through any of its own sell actions. */
  lemma ActionKeepsSize(p: Position, d: CycleData)
    requires p.shares > if p.tookPartial then DUST else 2.0 * DUST
    ensures var left := AfterAction(p, SellFor(p, d));
      left.Some? ==> left.value.shares > if left.value.tookPartial then DUST else 2.0 * DUST
  {
    hide SellFor;
    ActionShape(p, d);
  }

  lemma ExitsKeepSize(b: Book, xs: seq<ExitIntent>, data: Market, day: Day)
    requires WellFormed(b) && PlannedFor(xs, b.held, data) && AboveDust(b.held)
    ensures AboveDust(Exits(b, xs, data, day, MidPrice).held)
  {
    hide Exits, SellFor, AfterAction, WellFormed, Touched;
    ExitsAreAfterActions(b, xs, data, day, MidPrice);
    var c := Exits(b, xs, data, day, MidPrice);
    forall s | s in c.held ensures c.held[s].shares > if c.held[s].tookPartial then DUST else 2.0 * DUST {
      if s in Touched(xs) {
        ActionKeepsSize(b.held[s], data[s]);
      }
    }
  }

  /** A hundred dollars buys more than twice the dust of anything priced below fifty billion. */
  lemma HundredDollars(shares: real, price: real)
    requires shares * price >= MIN_NOTIONAL && 0.0 < price < MAX_PRICE && shares > 0.0
    ensures shares > 2.0 * DUST
  {
    if shares <= 2.0 * DUST {
      MulMono(price, shares, 2.0 * DUST);
    }
  }

  ghost predicate Sizable(es: seq<EntryIntent>) {
    forall k :: 0 <= k < |es| ==> es[k].shares > 2.0 * DUST
  }

  lemma {:induction false} EntriesKeepSize(b: Book, es: seq<EntryIntent>, data: Market, day: Day)
    requires AboveDust(b.held) && Sizable(es)
    ensures AboveDust(Entries(b, es, data, day, MidPrice).held)
    ensures Entries(b, es, data, day, MidPrice).held.Keys <= b.held.Keys + data.Keys
    decreases |es|
  {
    if es != [] {
      hide Amount, VolumeRatio;
      assert forall k :: 0 <= k < |es| - 1 ==> es[1..][k] == es[k + 1];
      EntriesKeepSize(EntryBook(b, es[0], data, day, MidPrice), es[1..], data, day);
    }
  }

  // ---------- one cycle ----------

  /** The relation that the two executors keep. */
  ghost predicate Synced(b: Book, w: World) {
    Agree(b, w) && AboveDust(b.held) && w.local.mirror.Keys <= b.held.Keys
  }

  /** What the shared planner guarantees about a cycle's plan. */
  lemma PlanFacts(b: Book, i: Inputs)
    requires WellFormed(b) && Comparable(b, i)
    ensures var plan := LivePlanFor(b, i);
      && PlannedFor(plan.exits, b.held, i.data) && NewNames(plan.entries, b.held.Keys, i.data) && Sizable(plan.entries)
      && Touched(plan.exits) == b.held.Keys * i.data.Keys
      && ZeroCost(plan, i)
  {
    hide Sum, LiveSectorNotional, SellFor, EntriesFor, ExitsFor, Sized, ZeroCost, Touched;
    var plan := LivePlanFor(b, i);
    var equity := b.cash + Sum(b.order, QuotedValues(b.held, i.quotes));
    PlanIsPlannedFrom(i.data, i.order, b, equity, LiveSectorNotional(b.order, Mirrored(b.held, i.stored), i.data), 0, i.nScored);
    TouchesSeen(b.order, b.held, i.data);
    forall k | 0 <= k < |plan.entries| ensures plan.entries[k].shares > 2.0 * DUST {
      SizedIsSizable(plan.entries[k], i.data[plan.entries[k].symbol], equity);
    }
  }

  lemma SizedIsSizable(e: EntryIntent, d: CycleData, equity: real)
    requires Sized(e, d, equity) && d.bar.close < MAX_PRICE
    ensures e.shares > 2.0 * DUST
  {
    HundredDollars(e.shares, e.refPrice);
  }

  /** The exits are about exactly the holdings that have data. */
  lemma TouchesSeen(order: seq<Symbol>, held: map<Symbol, Position>, data: Market)
    requires Enumerates(order, held.Keys)
    ensures var xs := ExitsFor(order, held, data); PlannedFor(xs, held, data) && Touched(xs) == held.Keys * data.Keys
  {
    hide SellFor, ExitsFor;
    ExitsForEach(order, held, data);
    var xs := ExitsFor(order, held, data);
    forall s | s in held && s in data ensures s in Touched(xs) {
      assert s in order;
      var k :| 0 <= k < |xs| && xs[k] == ExitIntent(s, SellFor(held[s], data[s]));
      assert xs[k].symbol == s;
    }
  }

  /** A cycle keeps positions large. */
  lemma CycleKeepsSize(b: Book, i: Inputs)
    requires WellFormed(b) && AboveDust(b.held) && Comparable(b, i)
    ensures AboveDust(LivePlanned(b, i).held) && LivePlanned(b, i).held.Keys <= i.known
  {
    hide LivePlanFor, WellFormed, Exits, Entries, AboveDust, Sizable, PlannedFor, ZeroCost, Touched;
    var plan := LivePlanFor(b, i);
    PlanFacts(b, i);
    ExitsKeepSize(b, plan.exits, i.data, i.day);
    ExitsAreAfterActions(b, plan.exits, i.data, i.day, MidPrice);
    EntriesKeepSize(Exits(b, plan.exits, i.data, i.day, MidPrice), plan.entries, i.data, i.day);
  }

  /** Quotes do not enter the relation. */
  lemma AgreeIgnoresPrices(b: Book, w: World, prices: map<Symbol, real>)
    requires Agree(b, w)
    ensures Agree(b, w.(broker := w.broker.(prices := prices)))
  {}

  /** The live engine can carry out the shared exits at the planned prices. */
  lemma ReadyToExit(b: Book, e: World, i: Inputs, plan: CyclePlan, xs: seq<ExitIntent>, before: map<Symbol, real>)
    requires Agree(b, e) && AboveDust(b.held) && Behind(e, i.cycle, i.day) && e.broker.prices == before + i.fills
    requires PlannedFor(xs, b.held, i.data) && PlannedFor(plan.exits, b.held, i.data)
    requires Touched(plan.exits) == Touched(xs) && ZeroCost(plan, i)
    ensures Ready(e, i, xs, LiveQty(e.broker), b.held)
  {
    hide SellFor, WellFormed;
    var sim := plan.exits;
    forall k | 0 <= k < |xs| ensures ReadyFor(e, i, xs[k], LiveQty(e.broker), b.held) {
      assert xs[k].symbol in Touched(sim);
      var j :| 0 <= j < |sim| && sim[j].symbol == xs[k].symbol;
      assert sim[j].action == xs[k].action;
    }
  }

  lemma ReadyToEnter(b: Book, c: Book, e: World, v: World, i: Inputs, plan: CyclePlan, before: map<Symbol, real>)
    requires Behind(e, i.cycle, i.day) && e.broker.prices == before + i.fills && Adds(e, v, i, Sell)
    requires c.held.Keys <= b.held.Keys && NewNames(plan.entries, b.held.Keys, i.data) && ZeroCost(plan, i)
    ensures Fundable(c, v, i, plan.entries)
  {}

  lemma OrderInData(i: Inputs)
    requires Snapshotted(i)
    ensures forall s :: s in i.order ==> s in i.data
  {}

  lemma AddsStaysBehind(u: World, v: World, i: Inputs, side: Side, cycle: nat, day: Day)
    requires Behind(u, cycle, day) && Adds(u, v, i, side) && i.cycle < cycle && i.day < day
    ensures Behind(v, cycle, day)
  {}

  /** The execution half of a cycle. */
  lemma ExecutionAgrees(b: Book, p: World, i: Inputs, plan: CyclePlan)
    requires Agree(b, p) && AboveDust(b.held) && Comparable(b, i) && Behind(p, i.cycle, i.day)
    requires p.local.mirror.Keys <= b.held.Keys
    requires plan.entries == LivePlanFor(b, i).entries
    requires PlannedFor(plan.exits, b.held, i.data) && Touched(plan.exits) == b.held.Keys * i.data.Keys
    ensures var (v, ok) := ExecuteLive(Executing(p, i), i, plan);
      && ok && Agree(LivePlanned(b, i), v) && v.local.mirror.Keys <= LivePlanned(b, i).held.Keys
      && Behind(v, i.cycle + 1, i.day + 1)
  {
    hide LivePlanFor, LiveExits, LiveEntries, Reconciled, LivePositions, Agree, ZeroCost, PlannedFor, Touched, AboveDust, NewNames,
         Sizable, Ready, Behind, Fundable, Exits, Entries, Adds, Snapshotted;
    OrderInData(i);
    var e := Executing(p, i);
    var mirror := LivePositions(p.local);
    var own := LivePlanFor(b, i);
    AgreedPlanFacts(b, p, i);
    AgreeIgnoresPrices(b, p, p.broker.prices + i.fills);
    assert Behind(e, i.cycle, i.day) by { BehindIgnoresPrices(p, i.cycle, i.day, p.broker.prices + i.fills); }
    ReadyToExit(b, e, i, own, plan.exits, p.broker.prices);
    ExitPhaseAgrees(b, e, i, own.exits, plan.exits, mirror);
    var c, v := Exits(b, own.exits, i.data, i.day, MidPrice), LiveExits(e, i, plan.exits, LiveQty(e.broker), mirror).0;
    ExitsAreAfterActions(b, own.exits, i.data, i.day, MidPrice);
    ReadyToEnter(b, c, e, v, i, own, p.broker.prices);
    EntryPhaseAgrees(c, v, i, own.entries);
    var u := LiveEntries(v, i, own.entries).0;
    CycleKeepsSize(b, i);
    AddsKeepMirror(e, v, u, i);
    var d := LivePlanned(b, i);
    ReconciledAgrees(d, u, i, u.local);
    AgreeIgnoresMirror(d, u, Reconciled(u.local, u.broker.positions, i.known, i.stored));
    assert Behind(e, i.cycle + 1, i.day + 1) by { BehindLater(e, i.cycle, i.day); }
    AddsStaysBehind(e, v, i, Sell, i.cycle + 1, i.day + 1);
    AddsStaysBehind(v, u, i, Buy, i.cycle + 1, i.day + 1);
    assert Behind(u.(local := Reconciled(u.local, u.broker.positions, i.known, i.stored)), i.cycle + 1, i.day + 1) by {
      BehindIgnoresLocal(u, i.cycle + 1, i.day + 1, Reconciled(u.local, u.broker.positions, i.known, i.stored));
    }
  }

  lemma AgreedPlanFacts(b: Book, p: World, i: Inputs)
    requires Agree(b, p) && Comparable(b, i)
    ensures var plan := LivePlanFor(b, i);
      && WellFormed(b) && PlannedFor(plan.exits, b.held, i.data) && NewNames(plan.entries, b.held.Keys, i.data)
      && Sizable(plan.entries) && Touched(plan.exits) == b.held.Keys * i.data.Keys && ZeroCost(plan, i)
  {
    PlanFacts(b, i);
  }

  lemma BehindIgnoresPrices(w: World, cycle: nat, day: Day, prices: map<Symbol, real>)
    requires Behind(w, cycle, day)
    ensures Behind(w.(broker := w.broker.(prices := prices)), cycle, day)
  {}

  lemma BehindIgnoresLocal(w: World, cycle: nat, day: Day, local: LocalBook)
    requires Behind(w, cycle, day)
    ensures Behind(w.(local := local), cycle, day)
  {}

  lemma BehindLater(w: World, cycle: nat, day: Day)
    requires Behind(w, cycle, day)
    ensures Behind(w, cycle + 1, day + 1)
  {}

  lemma AddsKeepMirror(e: World, v: World, u: World, i: Inputs)
    requires Adds(e, v, i, Sell) && Adds(v, u, i, Buy)
    ensures u.local.mirror == e.local.mirror
  {}

  lemma AgreeIgnoresMirror(b: Book, w: World, local: LocalBook)
    requires Agree(b, w) && local.theses == w.local.theses
    ensures Agree(b, w.(local := local))
  {}

  /** One cycle: the live engine completes it, and leaves what its own plan leaves of the simulated book. */
  lemma CycleFollowsPlan(b: Book, w: World, i: Inputs)
    requires Synced(b, w) && Behind(w, i.cycle, i.day) && Comparable(b, i)
    ensures var (v, ok) := Cycle(w, i);
      ok && Synced(LivePlanned(b, i), v) && Behind(v, i.cycle + 1, i.day + 1)
  {
    hide Prepared, LivePlanFor, LivePlan, ExecuteLive, LivePlanned, Agree, ZeroCost, LivePositions, AboveDust, Behind, Touched,
         PlannedFor, WellFormed, Snapshotted, Mirrored;
    OrderInData(i);
    var p := Prepared(w, i);
    PreparedAgrees(b, w, i);
    LivePlanOnBook(b, w, i);
    TouchesSeen(Listed(p, i), b.held, i.data);
    assert Behind(p, i.cycle, i.day) by { PreparedBehind(w, p, i.cycle, i.day); }
    ExecutionAgrees(b, p, i, LivePlan(p, i));
    assert WellFormed(b) by { AgreedPlanFacts(b, p, i); }
    CycleKeepsSize(b, i);
  }

  /** Deciding the same entries is simulating the live plan: the exits are the same anyway. */
  lemma SamePlanSameCycle(b: Book, i: Inputs, sectors: map<Symbol, Sector>)
    requires (forall s :: s in i.order ==> s in i.data) && SameEntries(b, i, sectors)
    ensures SimCycle(b, i, sectors) == LivePlanned(b, i)
  {
    hide EntriesFor, ExitsFor, Exits, Entries, SectorNotional, LiveSectorNotional, Equity, Sum;
  }

  /** One cycle keeps parity when both engines decide the same entries. */
  lemma CycleKeepsParity(b: Book, w: World, i: Inputs, sectors: map<Symbol, Sector>)
    requires Synced(b, w) && Behind(w, i.cycle, i.day) && Comparable(b, i) && SameEntries(b, i, sectors)
    ensures var (v, ok) := Cycle(w, i);
      ok && Synced(SimCycle(b, i, sectors), v) && Behind(v, i.cycle + 1, i.day + 1)
  {
    hide Cycle, SimCycle, LivePlanned, Synced, Behind, ZeroCost, SameEntries;
    OrderInData(i);
    CycleFollowsPlan(b, w, i);
    SamePlanSameCycle(b, i, sectors);
  }

  lemma PreparedBehind(w: World, p: World, cycle: nat, day: Day)
    requires Behind(w, cycle, day) && p.ledger == w.ledger && p.broker.orders == w.broker.orders
    ensures Behind(p, cycle, day)
  {}

  // ---------- any sequence of cycles ----------

  /** The simulated book after a sequence of cycles. */
  ghost function SimCycles(b: Book, inputs: seq<Inputs>, sectors: map<Symbol, Sector>): Book
    requires Posed(inputs)
  {
    if inputs == [] then b
    else SimCycle(SimCycles(b, inputs[..|inputs| - 1], sectors), inputs[|inputs| - 1], sectors)
  }

  /** One plan per cycle id and per day, in order. */
  ghost predicate InOrder(inputs: seq<Inputs>) {
    forall j, k :: 0 <= j < k < |inputs| ==> inputs[j].cycle < inputs[k].cycle && inputs[j].day < inputs[k].day
  }

  ghost predicate AllComparable(b: Book, inputs: seq<Inputs>, sectors: map<Symbol, Sector>)
    requires Posed(inputs)
  {
    inputs != [] ==>
      var n := |inputs| - 1;
      && AllComparable(b, inputs[..n], sectors)
      && Comparable(SimCycles(b, inputs[..n], sectors), inputs[n]) && SameEntries(SimCycles(b, inputs[..n], sectors), inputs[n], sectors)
  }

  /** Where both sides stand after a sequence of cycles. */
  ghost predicate Level(b: Book, w: World, inputs: seq<Inputs>) {
    && Synced(b, w)
    && (inputs != [] ==> Behind(w, inputs[|inputs| - 1].cycle + 1, inputs[|inputs| - 1].day + 1))
  }

  lemma LevelIsBehind(b: Book, w: World, start: World, inputs: seq<Inputs>)
    requires inputs != [] && InOrder(inputs) && Level(b, w, inputs[..|inputs| - 1])
    requires |inputs| == 1 ==> w == start && Behind(start, inputs[0].cycle, inputs[0].day)
    ensures Synced(b, w) && Behind(w, inputs[|inputs| - 1].cycle, inputs[|inputs| - 1].day)
  {
    hide Synced;
    var n := |inputs| - 1;
    if n > 0 {
      assert inputs[..n][n - 1] == inputs[n - 1];
    }
  }

  /** Parity: over any sequence of comparable cycles the simulated and the live book stay the same, and every live cycle completes. */
  lemma {:induction false} ParityOverRuns(b: Book, w: World, inputs: seq<Inputs>, sectors: map<Symbol, Sector>)
    requires Posed(inputs) && Synced(b, w) && InOrder(inputs) && AllComparable(b, inputs, sectors)
    requires inputs != [] ==> Behind(w, inputs[0].cycle, inputs[0].day)
    ensures Level(SimCycles(b, inputs, sectors), Cycles(w, inputs), inputs)
    ensures inputs != [] ==> Cycle(Cycles(w, inputs[..|inputs| - 1]), inputs[|inputs| - 1]).1
  {
    hide Cycle, SimCycle, Synced, Comparable, SameEntries, Behind;
    if inputs != [] {
      var n := |inputs| - 1;
      var init := inputs[..n];
      ParityOverRuns(b, w, init, sectors);
      LevelIsBehind(SimCycles(b, init, sectors), Cycles(w, init), w, inputs);
      CycleKeepsParity(SimCycles(b, init, sectors), Cycles(w, init), inputs[n], sectors);
    }
  }
}
