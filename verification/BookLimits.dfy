/** How far one executed plan can move the cash and the size of the book. */
module BookLimits {
  import opened Arithmetic
  import opened Domain
  import opened Keys
  import opened Decision
  import opened PlanLimits
  import opened CostModel
  import opened Books

  ghost predicate PositivePrices(data: Market) {
    forall s :: s in data ==> data[s].bar.open > 0.0 && data[s].bar.low > 0.0 && data[s].bar.close > 0.0
  }

  /** Every open position has shares to sell and a target above zero. */
  ghost predicate Sellable(held: map<Symbol, Position>) {
    forall s :: s in held ==> held[s].shares > 0.0 && held[s].targetPrice > 0.0
  }

  lemma ExitPricePositive(pos: Position, d: CycleData)
    requires pos.targetPrice > 0.0 && d.bar.open > 0.0 && d.bar.low > 0.0 && d.bar.close > 0.0
    ensures SellFor(pos, d).exitPrice > 0.0
  {}

  lemma SaleProceeds(shares: real, fraction: real, price: real)
    requires shares > 0.0 && fraction >= 0.0 && price >= 0.0
    ensures shares * fraction * price >= 0.0
  {}

  lemma ExitRaisesCash(b: Book, x: ExitIntent, data: Market, day: Day)
    requires x.symbol in b.held && x.symbol in data && x.action == SellFor(b.held[x.symbol], data[x.symbol])
    requires PositivePrices(data) && Sellable(b.held)
    ensures var c := ExitBook(b, x, data, day, FillPrice);
      c.cash >= b.cash && Sellable(c.held)
  {
    var pos, d, a := b.held[x.symbol], data[x.symbol], x.action;
    ExitPricePositive(pos, d);
    CostBand(a.exitPrice, VolumeRatio(d));
    SaleProceeds(pos.shares, a.fraction, FillPrice(a.exitPrice, Sell, VolumeRatio(d)));
    if 0.0 < a.fraction < 1.0 {
      assert a.fraction == 0.5;
      assert pos.shares - pos.shares * 0.5 > 0.0;
    }
  }

  lemma {:induction false} ExitsRaiseCash(b: Book, xs: seq<ExitIntent>, data: Market, day: Day)
    requires WellFormed(b) && PlannedFor(xs, b.held, data) && PositivePrices(data) && Sellable(b.held)
    ensures var c := Exits(b, xs, data, day, FillPrice);
      c.cash >= b.cash && Sellable(c.held)
    decreases |xs|
  {
    if xs != [] {
      ExitRaisesCash(b, xs[0], data, day);
      PlannedRest(b, xs, data, day, FillPrice);
      ExitsRaiseCash(ExitBook(b, xs[0], data, day, FillPrice), xs[1..], data, day);
    }
  }

  lemma NotionalNone()
    ensures Notional([]) == 0.0
  {}

  lemma {:induction false} NotionalHead(es: seq<EntryIntent>)
    requires es != []
    ensures Notional(es) == es[0].shares * es[0].refPrice + Notional(es[1..])
  {
    var n := |es| - 1;
    if n > 0 {
      NotionalHead(es[..n]);
      assert es[..n][1..] == es[1..][..n - 1];
      assert es[1..][n - 1] == es[n];
    } else {
      assert es[1..] == [] && es[..0] == [];
    }
  }

  lemma EntryCost(shares: real, ref: real, price: real)
    requires shares > 0.0 && price <= ref * 1.0016
    ensures shares * price <= 1.0016 * (shares * ref)
  {
    MulMono(shares, price, ref * 1.0016);
  }

  lemma EntryBookCash(b: Book, e: EntryIntent, data: Market, day: Day, equity: real)
    requires e.symbol in data && Sized(e, data[e.symbol], equity) && Sellable(b.held)
    ensures var c := EntryBook(b, e, data, day, FillPrice);
      c.cash >= b.cash - 1.0016 * (e.shares * e.refPrice) && Sellable(c.held)
  {
    CostBand(e.refPrice, VolumeRatio(data[e.symbol]));
    EntryCost(e.shares, e.refPrice, FillPrice(e.refPrice, Buy, VolumeRatio(data[e.symbol])));
  }

  lemma AddCost(c0: real, c1: real, c2: real, x: real, rest: real, all: real)
    requires c1 >= c0 - 1.0016 * x && c2 >= c1 - 1.0016 * rest && all == x + rest
    ensures c2 >= c0 - 1.0016 * all
  {}

  lemma {:induction false} EntriesCost(b: Book, es: seq<EntryIntent>, data: Market, day: Day, equity: real)
    requires Priced(es, data) && Sellable(b.held)
    requires forall i :: 0 <= i < |es| ==> Sized(es[i], data[es[i].symbol], equity)
    ensures var c := Entries(b, es, data, day, FillPrice);
      c.cash >= b.cash - 1.0016 * Notional(es) && Sellable(c.held)
    decreases |es|
  {
    hide FillPrice, Sized, EntryBook, Notional, Sellable;
    if es == [] {
      assert Notional(es) == 0.0 by { NotionalNone(); }
    } else {
      EntryBookCash(b, es[0], data, day, equity);
      NotionalHead(es);
      assert forall i :: 0 <= i < |es| - 1 ==> es[1..][i] == es[i + 1];
      var b1 := EntryBook(b, es[0], data, day, FillPrice);
      EntriesCost(b1, es[1..], data, day, equity);
      AddCost(b.cash, b1.cash, Entries(b1, es[1..], data, day, FillPrice).cash,
              es[0].shares * es[0].refPrice, Notional(es[1..]), Notional(es));
    }
  }

  /** A plan made from this book: exits for held symbols, entries within the planner's limits. */
  ghost predicate PlannedFrom(plan: CyclePlan, b: Book, data: Market, equity: real) {
    && PlannedFor(plan.exits, b.held, data)
    && EntriesFromData(plan.entries, data, b.held.Keys, equity)
    && (b.cash > 0.0 ==> Notional(plan.entries) <= b.cash) && (b.cash <= 0.0 ==> plan.entries == [])
    && (plan.entries != [] ==> |b.held| + |plan.entries| <= 40)
  }

  /** Cash after an executed plan is at least min(cash before, -0.16% of cash before), because
      entries never cost more than the starting cash plus 16 basis points. */
  lemma CashFloor(b: Book, plan: CyclePlan, data: Market, day: Day, equity: real)
    requires WellFormed(b) && PlannedFrom(plan, b, data, equity) && PositivePrices(data) && Sellable(b.held)
    ensures var c := Execute(b, plan, data, day, FillPrice);
      c.cash >= Min(b.cash, -0.0016 * b.cash) && Sellable(c.held)
  {
    hide FillPrice, Sized;
    ExitsRaiseCash(b, plan.exits, data, day);
    EntriesCost(Exits(b, plan.exits, data, day, FillPrice), plan.entries, data, day, equity);
  }

  /** The book never grows past forty positions, and keeps the book equation. */
  lemma BookStaysBounded(b: Book, plan: CyclePlan, data: Market, day: Day, equity: real, pricing: Pricing)
    requires WellFormed(b) && PlannedFrom(plan, b, data, equity) && |b.order| <= 40
    ensures var c := Execute(b, plan, data, day, pricing);
      WellFormed(c) && |c.order| <= 40 && Imbalance(c) == Imbalance(b)
  {
    hide Sized;
    EnumerationSize(b.order, b.held.Keys);
    assert |b.held.Keys| == |b.held|;
    ExecuteBalances(b, plan, data, day, pricing);
  }

  /** Every plan the shared planner makes satisfies `PlannedFrom`. */
  lemma PlanIsPlannedFrom(data: Market, order: seq<Symbol>, b: Book, equity: real, sector: map<Sector, real>,
                          entriesToday: nat, nScored: int)
    requires Filed(data) && Enumerates(order, data.Keys) && WellFormed(b)
    ensures PlannedFrom(CycleFor(data, order, b.held, b.order, equity, b.cash, sector, entriesToday, nScored), b, data, equity)
  {
    hide Sized, SellFor, ExitsFor, EntriesFor, Candidates, Notional;
    ExitsForEach(b.order, b.held, data);
    EntriesComeFromData(data, order, equity, b.cash, b.held.Keys, sector, entriesToday, nScored);
  }
}
