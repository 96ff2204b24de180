/** Where parity stops: exactly when the simulated and the live book stay the same. */
module ParityLimits {
  import opened Domain
  import opened Keys
  import opened Sums
  import opened Rules
  import opened Decision
  import opened PlanOrder
  import opened CostModel
  import opened Books
  import opened BookLimits
  import opened Engine
  import opened Broker
  import opened LiveCycle
  import opened LiveRuns
  import opened Parity
  import opened ParityRuns

  // ---------- one trade ----------

  /** An entry keeps the two books equal exactly when the simulated fill price is the planned price. */
  lemma EntryParityIff(b: Book, w: World, i: Inputs, x: EntryIntent, pricing: Pricing)
    requires Agree(b, w) && x.symbol !in b.held && x.symbol in i.data
    requires Unused(w, ClientOrderId(i.cycle, x.symbol, Buy)) && PriceOf(w.broker, x.symbol) == x.refPrice
    ensures Agree(EntryBook(b, x, i.data, i.day, pricing), LiveEntry(w, i, x).0)
            <==> pricing(x.refPrice, Buy, VolumeRatio(i.data[x.symbol])) == x.refPrice
  {
    hide Amount, VolumeRatio, Enumerates, WellFormed, Absent;
    var c, v := EntryBook(b, x, i.data, i.day, pricing), LiveEntry(w, i, x).0;
    var price := pricing(x.refPrice, Buy, VolumeRatio(i.data[x.symbol]));
    EntryAgrees(b, w, i, x);
    if price == x.refPrice {
      assert c == EntryBook(b, x, i.data, i.day, MidPrice);
    } else {
      assert c.held[x.symbol].entryPrice == price;
      assert !Matches(v, x.symbol, c.held[x.symbol]);
    }
  }

  /** A sale keeps the two books equal exactly when it is paid its exit price, or sells nothing. */
  lemma ExitParityIff(b: Book, e: World, i: Inputs, x: ExitIntent, mirror: map<Symbol, Position>, pricing: Pricing)
    requires x.symbol in b.held && x.symbol in i.data
    requires Agree(b, e) && PlannedFor([x], b.held, i.data) && Ready(e, i, [x], LiveQty(e.broker), b.held)
    ensures Agree(ExitBook(b, x, i.data, i.day, pricing), LiveExit(e, i, x, LiveQty(e.broker), mirror).0)
            <==> (x.action.fraction > 0.0 ==>
                    pricing(x.action.exitPrice, Sell, VolumeRatio(i.data[x.symbol])) == x.action.exitPrice)
  {
    hide LiveExit, ExitBook, SellFor, AfterAction, Ready, WellFormed, VolumeRatio, Proceeds, Exits, Sum;
    assert [x][0] == x && [x][1..] == [];
    ReadyHead(e, i, [x], LiveQty(e.broker), b.held);
    var c, m := ExitBook(b, x, i.data, i.day, pricing), ExitBook(b, x, i.data, i.day, MidPrice);
    var v := LiveExit(e, i, x, LiveQty(e.broker), mirror).0;
    OneExit(b, x, i.data, i.day, pricing);
    OneExit(b, x, i.data, i.day, MidPrice);
    OneLiveExit(e, i, x, LiveQty(e.broker), mirror);
    ExitPhaseAgrees(b, e, i, [x], [x], mirror);
    PlannedRest(b, [x], i.data, i.day, pricing);
    PlannedRest(b, [x], i.data, i.day, MidPrice);
    ExitCash(b, x, i.data, i.day, pricing);
    ExitCash(b, x, i.data, i.day, MidPrice);
    SameHeldAfterExit(b, x, i.data, c, m);
    AgreeIff(m, c, v);
    ProceedsDiffer(b.held[x.symbol], x.action, i.data[x.symbol], pricing(x.action.exitPrice, Sell, VolumeRatio(i.data[x.symbol])));
  }

  lemma OneExit(b: Book, x: ExitIntent, data: Market, day: Day, pricing: Pricing)
    ensures Exits(b, [x], data, day, pricing) == ExitBook(b, x, data, day, pricing)
  {
    assert [x][1..] == [];
  }

  lemma OneLiveExit(e: World, i: Inputs, x: ExitIntent, live: map<Symbol, real>, mirror: map<Symbol, Position>)
    ensures LiveExits(e, i, [x], live, mirror).1 ==> LiveExits(e, i, [x], live, mirror).0 == LiveExit(e, i, x, live, mirror).0
  {
    hide LiveExit;
    assert [x][1..] == [];
  }

  lemma SameHeldAfterExit(b: Book, x: ExitIntent, data: Market, c: Book, m: Book)
    requires c.held.Keys <= b.held.Keys && m.held.Keys <= b.held.Keys && x.symbol in b.held
    requires forall s :: s in b.held && s != x.symbol ==> s in c.held && s in m.held && c.held[s] == m.held[s]
    requires exists left :: Becomes(c.held, x.symbol, left) && Becomes(m.held, x.symbol, left)
    ensures c.held == m.held
  {}

  lemma ProceedsDiffer(p: Position, a: SellAction, d: CycleData, paid: real)
    requires p.shares > 0.0 && a == SellFor(p, d)
    ensures Proceeds(p, a, paid) == Proceeds(p, a, a.exitPrice) <==> (a.fraction > 0.0 ==> paid == a.exitPrice)
  {
    hide SellFor;
    if a.fraction > 0.0 {
      PositiveShares(p.shares, a.fraction);
      AmountCancels(Fraction(p.shares, a.fraction), paid, a.exitPrice);
    }
  }

  lemma PositiveShares(shares: real, fraction: real)
    requires shares > 0.0 && fraction > 0.0
    ensures Fraction(shares, fraction) > 0.0
  {}

  lemma AmountCancels(shares: real, x: real, y: real)
    requires shares > 0.0
    ensures Amount(shares, x) == Amount(shares, y) <==> x == y
    ensures Amount(shares, x) < Amount(shares, y) <==> x < y
  {
    assert Amount(shares, y) - Amount(shares, x) == shares * (y - x);
    if x < y {
      assert shares * (y - x) > 0.0;
    } else if x > y {
      assert shares * (x - y) > 0.0;
    }
  }

  /** The relation fixes the book's cash and holdings, and nothing else of it. */
  lemma AgreeIff(m: Book, c: Book, v: World)
    requires Agree(m, v) && WellFormed(c)
    ensures Agree(c, v) <==> c.cash == m.cash && c.held == m.held
  {
    hide WellFormed;
    if Agree(c, v) {
      forall s ensures s in c.held <==> s in m.held
        ensures s in c.held && s in m.held ==> c.held[s] == m.held[s]
      {
        assert if s in c.held then Matches(v, s, c.held[s]) else Absent(v, s);
        assert if s in m.held then Matches(v, s, m.held[s]) else Absent(v, s);
      }
      assert c.held == m.held;
    }
  }

  // ---------- a whole cycle ----------

  /** Every entry is executed at its planned price. */
  ghost predicate EntriesAtPlan(es: seq<EntryIntent>, data: Market, pricing: Pricing)
    requires Priced(es, data)
  {
    forall k :: 0 <= k < |es| ==> pricing(es[k].refPrice, Buy, VolumeRatio(data[es[k].symbol])) == es[k].refPrice
  }

  /** What all the exits of a plan raise together. */
  function ExitTake(b: Book, xs: seq<ExitIntent>, data: Market, pricing: Pricing): real {
    Sum(Names(xs), ProceedsOf(b.held, data, pricing))
  }

  lemma SameHeldAfterExits(b: Book, xs: seq<ExitIntent>, data: Market, day: Day, p: Pricing, q: Pricing)
    requires WellFormed(b) && PlannedFor(xs, b.held, data)
    ensures Exits(b, xs, data, day, p).held == Exits(b, xs, data, day, q).held
  {
    hide Exits, SellFor, AfterAction, WellFormed, Touched;
    ExitsAreAfterActions(b, xs, data, day, p);
    ExitsAreAfterActions(b, xs, data, day, q);
    var c, m := Exits(b, xs, data, day, p), Exits(b, xs, data, day, q);
    forall s ensures s in c.held <==> s in m.held
      ensures s in c.held && s in m.held ==> c.held[s] == m.held[s]
    {
      if s in Touched(xs) {
        assert Becomes(c.held, s, AfterAction(b.held[s], SellFor(b.held[s], data[s])));
        assert Becomes(m.held, s, AfterAction(b.held[s], SellFor(b.held[s], data[s])));
      }
    }
  }

  /** Entries executed at plan change cash and holdings as at no cost. */
  lemma {:induction false} EntriesAtPlanAgree(c: Book, m: Book, es: seq<EntryIntent>, data: Market, day: Day, pricing: Pricing)
    requires c.held == m.held && Priced(es, data) && EntriesAtPlan(es, data, pricing)
    ensures var c', m' := Entries(c, es, data, day, pricing), Entries(m, es, data, day, MidPrice);
      c'.held == m'.held && c'.cash - c.cash == m'.cash - m.cash
    decreases |es|
  {
    hide Amount, VolumeRatio;
    if es != [] {
      assert forall k :: 0 <= k < |es| - 1 ==> es[1..][k] == es[k + 1];
      EntriesAtPlanAgree(EntryBook(c, es[0], data, day, pricing), EntryBook(m, es[0], data, day, MidPrice), es[1..], data, day, pricing);
    }
  }

  /** Entries open positions for their symbols, and for no others. */
  lemma {:induction false} EntriesOpenOnly(b: Book, es: seq<EntryIntent>, data: Market, day: Day, pricing: Pricing, s: Symbol)
    requires Priced(es, data)
    ensures s in Entries(b, es, data, day, pricing).held ==> s in b.held || exists k :: 0 <= k < |es| && es[k].symbol == s
    decreases |es|
  {
    hide Amount, VolumeRatio;
    if es != [] {
      EntriesOpenOnly(EntryBook(b, es[0], data, day, pricing), es[1..], data, day, pricing, s);
      assert forall k :: 0 <= k < |es| - 1 ==> es[1..][k] == es[k + 1];
    }
  }

  /** If two lists of entries leave the same holdings, each entry of the first is in the second, executed at the same price. */
  lemma SameOpenings(c: Book, m: Book, es: seq<EntryIntent>, fs: seq<EntryIntent>, data: Market, day: Day, p: Pricing, q: Pricing,
                     k: nat)
    requires NewNames(es, c.held.Keys, data) && NewNames(fs, m.held.Keys, data) && c.held.Keys == m.held.Keys && k < |es|
    requires Entries(c, es, data, day, p).held == Entries(m, fs, data, day, q).held
    requires forall i :: 0 <= i < |es| ==> es[i].sector == data[es[i].symbol].sector
    requires forall i :: 0 <= i < |fs| ==> fs[i].sector == data[fs[i].symbol].sector
    ensures es[k] in fs && var d := data[es[k].symbol];
      p(es[k].refPrice, Buy, VolumeRatio(d)) == q(es[k].refPrice, Buy, VolumeRatio(d))
  {
    hide Entries, VolumeRatio;
    EntryOpens(c, es, data, day, p, k);
    EntriesOpenOnly(m, fs, data, day, q, es[k].symbol);
    var j :| 0 <= j < |fs| && fs[j].symbol == es[k].symbol;
    EntryOpens(m, fs, data, day, q, j);
    SameEntry(es[k], fs[j], p(es[k].refPrice, Buy, VolumeRatio(data[es[k].symbol])),
              q(fs[j].refPrice, Buy, VolumeRatio(data[es[k].symbol])));
  }

  /** A fresh position tells which entry opened it. */
  lemma SameEntry(e: EntryIntent, f: EntryIntent, price: real, paid: real)
    requires Opened(e, price) == Opened(f, paid) && e.sector == f.sector
    ensures e == f && price == paid
  {}

  /** What a plan's entries have in common with any other plan for the same candidates. */
  ghost predicate EntriesOf(es: seq<EntryIntent>, held: set<Symbol>, data: Market, cands: seq<CycleData>) {
    && NewNames(es, held, data) && Follows(es, cands)
    && forall k :: 0 <= k < |es| ==> es[k].sector == data[es[k].symbol].sector
  }

  lemma EntriesDecided(c: Book, m: Book, es: seq<EntryIntent>, fs: seq<EntryIntent>, data: Market, day: Day, pricing: Pricing,
                       cands: seq<CycleData>)
    requires EntriesOf(es, c.held.Keys, data, cands) && EntriesOf(fs, m.held.Keys, data, cands) && c.held.Keys == m.held.Keys
    requires DistinctNames(cands)
    requires Entries(c, es, data, day, pricing).held == Entries(m, fs, data, day, MidPrice).held
    ensures es == fs && EntriesAtPlan(es, data, pricing)
  {
    hide Entries, VolumeRatio, NewNames, Follows, DistinctNames;
    assert Priced(es, data) && Priced(fs, data) by { NewIsPriced(es, c.held.Keys, data); NewIsPriced(fs, m.held.Keys, data); }
    forall k | 0 <= k < |es|
      ensures es[k] in fs && pricing(es[k].refPrice, Buy, VolumeRatio(data[es[k].symbol])) == es[k].refPrice
    {
      SameOpenings(c, m, es, fs, data, day, pricing, MidPrice, k);
    }
    forall k | 0 <= k < |fs| ensures fs[k] in es {
      SameOpenings(m, c, fs, es, data, day, MidPrice, pricing, k);
    }
    SameFollowers(es, fs, cands);
  }

  lemma NewIsPriced(es: seq<EntryIntent>, held: set<Symbol>, data: Market)
    requires NewNames(es, held, data)
    ensures Priced(es, data)
  {}

  /** Two plans with the same exits leave the same cash and holdings, the first under a pricing rule and the second at no cost,
      if and only if they have the same entries, each is executed at its planned price, and the exits raise what they raise
      at their exit prices. */
  lemma ExecutionsAgreeIff(b: Book, sim: CyclePlan, live: CyclePlan, data: Market, day: Day, pricing: Pricing, cands: seq<CycleData>)
    requires WellFormed(b) && PlannedFor(sim.exits, b.held, data) && live.exits == sim.exits && DistinctNames(cands)
    requires EntriesOf(sim.entries, b.held.Keys, data, cands) && EntriesOf(live.entries, b.held.Keys, data, cands)
    ensures var c, m := Execute(b, sim, data, day, pricing), Execute(b, live, data, day, MidPrice);
      c.cash == m.cash && c.held == m.held
      <==> live.entries == sim.entries && EntriesAtPlan(sim.entries, data, pricing)
           && ExitTake(b, sim.exits, data, pricing) == ExitTake(b, sim.exits, data, MidPrice)
  {
    hide Exits, Entries, SellFor, AfterAction, WellFormed, EntriesAtPlan, ProceedsOf, Sum, Touched, Follows, DistinctNames;
    var c0, m0 := Exits(b, sim.exits, data, day, pricing), Exits(b, sim.exits, data, day, MidPrice);
    SameHeldAfterExits(b, sim.exits, data, day, pricing, MidPrice);
    SimExitsCash(b, sim.exits, data, day, pricing);
    SimExitsCash(b, sim.exits, data, day, MidPrice);
    ExitsAreAfterActions(b, sim.exits, data, day, MidPrice);
    if live.entries == sim.entries && EntriesAtPlan(sim.entries, data, pricing) {
      EntriesAtPlanAgree(c0, m0, sim.entries, data, day, pricing);
    } else if Execute(b, sim, data, day, pricing).held == Execute(b, live, data, day, MidPrice).held {
      EntriesDecided(c0, m0, sim.entries, live.entries, data, day, pricing, cands);
    }
  }

  /** Both engines pick their entries from the same candidates, in the same order. */
  lemma PlanEntriesOf(b: Book, i: Inputs, equity: real, sector: map<Sector, real>)
    requires WellFormed(b) && Snapshotted(i)
    ensures forall s :: s in i.order ==> s in i.data
    ensures var plan := CycleFor(i.data, i.order, b.held, b.order, equity, b.cash, sector, 0, i.nScored);
      && PlannedFor(plan.exits, b.held, i.data) && EntriesOf(plan.entries, b.held.Keys, i.data, Candidates(i.data, i.order))
      && forall k :: 0 <= k < |plan.entries| ==> plan.entries[k].refPrice > 0.0
  {
    hide SellFor, ExitsFor, Candidates, Follows, PlannedFor, WellFormed;
    PlanIsPlannedFrom(i.data, i.order, b, equity, sector, 0, i.nScored);
    var cands := Candidates(i.data, i.order);
    WalkFollows(FrameFor(cands, equity, b.held.Keys, 0, i.nScored), Tally([], [], b.cash, sector), cands);
  }

  lemma BothPlans(b: Book, i: Inputs, sectors: map<Symbol, Sector>)
    requires WellFormed(b) && Snapshotted(i)
    ensures forall s :: s in i.order ==> s in i.data
    ensures var sim, live, cands := SimPlan(b, i, sectors), LivePlanFor(b, i), Candidates(i.data, i.order);
      && PlannedFor(sim.exits, b.held, i.data) && live.exits == sim.exits && DistinctNames(cands)
      && EntriesOf(sim.entries, b.held.Keys, i.data, cands) && EntriesOf(live.entries, b.held.Keys, i.data, cands)
      && forall k :: 0 <= k < |sim.entries| ==> sim.entries[k].refPrice > 0.0
  {
    hide EntriesFor, ExitsFor, Candidates, EntriesOf, PlannedFor, Equity, Sum, SectorNotional, LiveSectorNotional;
    CandidatesDistinct(i.data, i.order);
    PlanEntriesOf(b, i, Equity(b, Marks(i.data)), SectorNotional(b.order, b.held, sectors, Marks(i.data)));
    PlanEntriesOf(b, i, b.cash + Sum(b.order, QuotedValues(b.held, i.quotes)),
                  LiveSectorNotional(b.order, Mirrored(b.held, i.stored), i.data));
  }

  /** The exact condition for a whole cycle: after a comparable live cycle, the book simulated under any pricing rule agrees with
      the live one if and only if both engines decided the same entries, each is simulated at its planned price, and the
      exits raise what the broker paid. */
  lemma CycleParityIff(b: Book, w: World, i: Inputs, sectors: map<Symbol, Sector>, pricing: Pricing)
    requires Synced(b, w) && Behind(w, i.cycle, i.day) && Comparable(b, i)
    ensures var plan := SimPlan(b, i, sectors);
      && Priced(plan.entries, i.data)
      && (Agree(SimCycleAt(b, i, sectors, pricing), Cycle(w, i).0)
          <==> SameEntries(b, i, sectors) && EntriesAtPlan(plan.entries, i.data, pricing)
               && ExitTake(b, plan.exits, i.data, pricing) == ExitTake(b, plan.exits, i.data, MidPrice))
  {
    hide Cycle, SimPlan, LivePlanFor, Execute, ZeroCost, EntriesAtPlan, ExitTake, Behind, AboveDust, PlannedFor, WellFormed, Touched,
         Candidates, Follows, DistinctNames, Matches, Absent, Snapshotted;
    CycleFollowsPlan(b, w, i);
    BothPlans(b, i, sectors);
    var plan := SimPlan(b, i, sectors);
    ExecutionsAgreeIff(b, plan, LivePlanFor(b, i), i.data, i.day, pricing, Candidates(i.data, i.order));
    ExecuteBalances(b, plan, i.data, i.day, pricing);
    AgreeIff(LivePlanned(b, i), SimCycleAt(b, i, sectors, pricing), Cycle(w, i).0);
  }

  /** Costs take something from every sale. */
  lemma SaleCosts(p: Position, d: CycleData)
    requires p.shares > 0.0 && p.targetPrice > 0.0 && d.bar.open > 0.0 && d.bar.low > 0.0 && d.bar.close > 0.0
    ensures var a := SellFor(p, d); var paid, mid := SalePrice(p, d, FillPrice), SalePrice(p, d, MidPrice);
      && Proceeds(p, a, paid) <= Proceeds(p, a, mid)
      && (Proceeds(p, a, paid) == Proceeds(p, a, mid) <==> a.fraction == 0.0)
  {
    hide SellFor, FillPrice, VolumeRatio, Fraction;
    var a := SellFor(p, d);
    SellForFraction(p, d);
    ExitPricePositive(p, d);
    CostBand(a.exitPrice, VolumeRatio(d));
    if a.fraction > 0.0 {
      PositiveShares(p.shares, a.fraction);
      AmountCancels(Fraction(p.shares, a.fraction), SalePrice(p, d, FillPrice), a.exitPrice);
    }
  }

  /** Under the cost model the exits raise as much as at no cost exactly when none of them sells. */
  lemma TakeCosts(b: Book, xs: seq<ExitIntent>, data: Market)
    requires PlannedFor(xs, b.held, data) && PositivePrices(data) && Sellable(b.held)
    ensures ExitTake(b, xs, data, FillPrice) == ExitTake(b, xs, data, MidPrice)
            <==> forall k :: 0 <= k < |xs| ==> xs[k].action.fraction == 0.0
  {
    hide SellFor, Sum, Proceeds, SalePrice, ProceedsOf;
    var names, v, w := Names(xs), ProceedsOf(b.held, data, FillPrice), ProceedsOf(b.held, data, MidPrice);
    forall k | 0 <= k < |xs|
      ensures Weight(v, names[k]) <= Weight(w, names[k])
      ensures Weight(v, names[k]) == Weight(w, names[k]) <==> xs[k].action.fraction == 0.0
    {
      var s := xs[k].symbol;
      ProceedsAt(b.held, data, FillPrice, s);
      ProceedsAt(b.held, data, MidPrice, s);
      SaleCosts(b.held[s], data[s]);
    }
    if forall k :: 0 <= k < |xs| ==> xs[k].action.fraction == 0.0 {
      SumCong(names, v, w);
    } else {
      var k :| 0 <= k < |xs| && xs[k].action.fraction != 0.0;
      SumStrict(names, v, w, names[k]);
    }
  }

  lemma EntriesNeverAtPlan(es: seq<EntryIntent>, data: Market)
    requires Priced(es, data) && forall k :: 0 <= k < |es| ==> es[k].refPrice > 0.0
    ensures EntriesAtPlan(es, data, FillPrice) <==> es == []
  {
    hide FillPrice, VolumeRatio;
    if es != [] {
      CostBand(es[0].refPrice, VolumeRatio(data[es[0].symbol]));
    }
  }

  /** So under the backtest's own cost model a cycle keeps parity if and only if neither side trades at all. */
  lemma CostsBreakParity(b: Book, w: World, i: Inputs, sectors: map<Symbol, Sector>)
    requires Synced(b, w) && Behind(w, i.cycle, i.day) && Comparable(b, i)
    requires PositivePrices(i.data) && Sellable(b.held)
    ensures var sim, live := SimPlan(b, i, sectors), LivePlanFor(b, i);
      Agree(SimCycleAt(b, i, sectors, FillPrice), Cycle(w, i).0)
      <==> sim.entries == [] && live.entries == [] && forall k :: 0 <= k < |sim.exits| ==> sim.exits[k].action.fraction == 0.0
  {
    hide Cycle, SimPlan, LivePlanFor, SimCycleAt, ZeroCost, EntriesAtPlan, ExitTake, Behind, AboveDust, PlannedFor, WellFormed,
         Touched, Candidates, Follows, DistinctNames, Matches, Absent, PositivePrices, Sellable;
    OrderInData(i);
    var plan := SimPlan(b, i, sectors);
    CycleParityIff(b, w, i, sectors, FillPrice);
    BothPlans(b, i, sectors);
    TakeCosts(b, plan.exits, i.data);
    EntriesNeverAtPlan(plan.entries, i.data);
  }
}
