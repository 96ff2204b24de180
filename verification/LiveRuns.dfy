/** What holds over any number of live cycles: no order is ever refused, and at most eight entries a day. */
module LiveRuns {
  import opened Wrappers
  import opened Domain
  import opened Keys
  import opened Sums
  import opened Rules
  import opened Decision
  import opened PlanLimits
  import opened Books
  import opened Broker
  import opened OrderLedger
  import opened LiveBook
  import opened LiveCycle

  /** The account holds a positive quantity of everything it holds. */
  ghost predicate LongOnly(b: BrokerState) {
    forall s :: s in b.positions ==> b.positions[s].qty > 0.0
  }

  lemma HalfIsLess(qty: real, fraction: real)
    requires qty > 0.0 && 0.0 <= fraction <= 1.0
    ensures Amount(qty, fraction) <= qty
  {}

  /** A sell for no more than the holding is accepted and leaves the other holdings alone. */
  lemma SellAccepted(w: World, req: Request)
    requires req.id.side == Sell && req.qty <= HeldQty(w.broker, req.id.symbol) && LongOnly(w.broker)
    ensures var (w', ok) := Place(w, req);
      && ok && LongOnly(w'.broker) && w'.local == w.local
      && (forall s :: s != req.id.symbol ==>
            (s in w'.broker.positions <==> s in w.broker.positions)
            && (s in w.broker.positions ==> w'.broker.positions[s] == w.broker.positions[s]))
  {
    hide RecordPlaced, Amount;
  }

  lemma BuyAccepted(w: World, req: Request)
    requires req.id.side == Buy && req.qty > 0.0 && LongOnly(w.broker)
    ensures var (w', ok) := Place(w, req); ok && LongOnly(w'.broker) && w'.local == w.local
  {
    hide RecordPlaced, Amount;
  }

  /** Each exit asks for at most what its live quantity says, about distinct symbols still held in full. */
  ghost predicate Coverable(b: BrokerState, xs: seq<ExitIntent>, live: map<Symbol, real>) {
    && (forall k :: 0 <= k < |xs| ==>
          xs[k].symbol in live && xs[k].symbol in b.positions && live[xs[k].symbol] == b.positions[xs[k].symbol].qty
          && 0.0 <= xs[k].action.fraction <= 1.0)
    && (forall j, k :: 0 <= j < k < |xs| ==> xs[j].symbol != xs[k].symbol)
  }

  lemma ExitAccepted(w: World, i: Inputs, xs: seq<ExitIntent>, live: map<Symbol, real>, held: map<Symbol, Position>)
    requires xs != [] && Coverable(w.broker, xs, live) && LongOnly(w.broker)
    ensures var (w', ok) := LiveExit(w, i, xs[0], live, held);
      ok && Coverable(w'.broker, xs[1..], live) && LongOnly(w'.broker)
  {
    hide RecordPlaced, PersistExit, Amount, Place;
    var x := xs[0];
    assert forall k :: 0 <= k < |xs| - 1 ==> xs[1..][k] == xs[k + 1];
    if x.action.fraction > 0.0 {
      var qty := ExitQty(Lookup(live, x.symbol), MirrorShares(held, x.symbol), x.action.fraction);
      HalfIsLess(live[x.symbol], x.action.fraction);
      SellAccepted(w, SellRequest(i, x, qty));
    }
  }

  lemma {:induction false} ExitsAccepted(w: World, i: Inputs, xs: seq<ExitIntent>, live: map<Symbol, real>,
                                         held: map<Symbol, Position>)
    requires Coverable(w.broker, xs, live) && LongOnly(w.broker)
    ensures var (w', ok) := LiveExits(w, i, xs, live, held); ok && LongOnly(w'.broker)
    decreases |xs|
  {
    if xs != [] {
      hide LiveExit, Coverable, LongOnly;
      ExitAccepted(w, i, xs, live, held);
      ExitsAccepted(LiveExit(w, i, xs[0], live, held).0, i, xs[1..], live, held);
    }
  }

  lemma {:induction false} EntriesAccepted(w: World, i: Inputs, es: seq<EntryIntent>)
    requires LongOnly(w.broker) && forall k :: 0 <= k < |es| ==> es[k].shares > 0.0
    ensures var (w', ok) := LiveEntries(w, i, es); ok && LongOnly(w'.broker)
    decreases |es|
  {
    if es != [] {
      hide LongOnly, Place;
      BuyAccepted(w, BuyRequest(i, es[0]));
      assert forall k :: 0 <= k < |es| - 1 ==> es[1..][k] == es[k + 1];
      EntriesAccepted(LiveEntry(w, i, es[0]).0, i, es[1..]);
    }
  }

  ghost predicate Snapshotted(i: Inputs) {
    Lists(i) && Filed(i.data) && Enumerates(i.order, i.data.Keys)
  }

  /** After reconciliation every managed position is one the broker reports. */
  lemma ManagedIsHeld(w: World, i: Inputs)
    ensures LivePositions(Prepared(w, i).local).Keys <= w.broker.positions.Keys
  {
    var b := w.broker.(prices := w.broker.prices + i.quotes);
    hide Adopted;
    ReconcileMirrorsBroker(w.local, b.positions, i.known, i.stored);
    AdoptionCoversMirror(Reconciled(w.local, b.positions, i.known, i.stored), i.data);
  }

  lemma LivePlanFacts(w: World, i: Inputs)
    requires Snapshotted(i)
    ensures var plan := LivePlan(w, i); var held := LivePositions(w.local);
      && plan.exits == ExitsFor(Keep(i.list(w.local.mirror.Keys), held.Keys), held, i.data)
      && (forall k :: 0 <= k < |plan.exits| ==> plan.exits[k].symbol in held && 0.0 <= plan.exits[k].action.fraction <= 1.0)
      && (forall j, k :: 0 <= j < k < |plan.exits| ==> plan.exits[j].symbol != plan.exits[k].symbol)
      && (forall k :: 0 <= k < |plan.entries| ==> plan.entries[k].shares > 0.0)
      && (plan.entries != [] ==> |BuysSince(w.ledger, i.day)| + |plan.entries| <= 8)
  {
    var held := LivePositions(w.local);
    var listed := Keep(i.list(w.local.mirror.Keys), held.Keys);
    HeldAreListed(w.local, i);
    hide Keep, LivePositions, BuysSince, AccountEquity, LiveSectorNotional, EntriesFor, ExitsFor, Sized, SellFor;
    ExitsForEach(listed, held, i.data);
    EntriesComeFromData(i.data, i.order, AccountEquity(w.broker, i.list(w.broker.positions.Keys)), w.broker.cash, held.Keys,
                        LiveSectorNotional(listed, held, i.data), |BuysSince(w.ledger, i.day)|, i.nScored);
    var plan := LivePlan(w, i);
    forall k | 0 <= k < |plan.exits| ensures 0.0 <= plan.exits[k].action.fraction <= 1.0 {
      var s := plan.exits[k].symbol;
      SellForFraction(held[s], i.data[s]);
    }
    forall k | 0 <= k < |plan.entries| ensures plan.entries[k].shares > 0.0 {
      var e := plan.entries[k];
      SizedShares(e, i.data[e.symbol], AccountEquity(w.broker, i.list(w.broker.positions.Keys)));
    }
  }

  lemma SizedShares(e: EntryIntent, d: CycleData, equity: real)
    requires Sized(e, d, equity)
    ensures e.shares > 0.0
  {}

  /** With no outside trading inside the cycle, a long-only account never refuses an order of the cycle, whatever rounding
      the mirror applies, and it stays long-only. */
  lemma CycleIsNeverRefused(w: World, i: Inputs)
    requires Snapshotted(i) && LongOnly(w.broker)
    ensures Cycle(w, i).1 && LongOnly(Cycle(w, i).0.broker)
  {
    hide LiveExits, LiveEntries, LivePlan, Reconciled, Adopted, LivePositions;
    var p := Prepared(w, i);
    if !i.halted {
      var e := Executing(p, i);
      var plan := LivePlan(p, i);
      LivePlanFacts(p, i);
      ManagedIsHeld(w, i);
      ExitsAccepted(e, i, plan.exits, LiveQty(e.broker), LivePositions(e.local));
      EntriesAccepted(LiveExits(e, i, plan.exits, LiveQty(e.broker), LivePositions(e.local)).0, i, plan.entries);
    }
  }

  // ---------- what a cycle orders ----------

  /** A sale is sized from what the broker reports, all of it for a full exit, and from the mirror only when the broker reports
      nothing. */
  lemma SaleSize(live: Option<real>, mirrored: real, fraction: real)
    ensures var qty := ExitQty(live, mirrored, fraction);
      && (live.Some? ==> qty == if fraction >= 1.0 then live.value else live.value * fraction)
      && (live.None? ==> qty == if fraction >= 1.0 then mirrored else mirrored * fraction)
  {}

  /** The account as the plan sees it: cash and every holding at its quote, or at its average entry without one. */
  lemma EquityIsWorth(b: BrokerState, listed: seq<Symbol>) returns (worth: map<Symbol, real>)
    ensures worth.Keys == b.positions.Keys && AccountEquity(b, listed) == b.cash + Sum(listed, worth)
    ensures forall s :: s in worth ==>
              worth[s] == b.positions[s].qty * (if s in b.prices then b.prices[s] else b.positions[s].avgEntryPrice)
  {
    worth := PositionValues(b);
  }

  /** The order an entry files: the cycle's buy of the symbol, for the planned shares, on the day. */
  lemma EntryFiles(w: World, i: Inputs, e: EntryIntent)
    requires ClientOrderId(i.cycle, e.symbol, Buy) !in w.ledger.orders && ClientOrderId(i.cycle, e.symbol, Buy) !in w.broker.orders
    ensures var (v, ok) := LiveEntry(w, i, e); var id := ClientOrderId(i.cycle, e.symbol, Buy);
      && ok && id in v.ledger.orders && v.ledger.orders.Keys == w.ledger.orders.Keys + {id}
      && var row := v.ledger.orders[id];
         row.symbol == e.symbol && row.side == Buy && row.qty == e.shares && row.reason == Entry && row.submitted == i.day
  {
    hide Submit, RecordPlaced;
    var req := BuyRequest(i, e);
    SubmitCases(w.broker, req.id, req.id.symbol, req.id.side, req.qty);
    var o := Submit(w.broker, req.id, req.id.symbol, req.id.side, req.qty).value.1;
    PlacedRows(w.ledger, req, o);
  }

  /** The order an exit files: the cycle's sale of the symbol, for the reason its rule fired, and none when nothing is sold. */
  lemma ExitFiles(w: World, i: Inputs, x: ExitIntent, live: map<Symbol, real>, held: map<Symbol, Position>)
    requires ClientOrderId(i.cycle, x.symbol, Sell) !in w.ledger.orders && ClientOrderId(i.cycle, x.symbol, Sell) !in w.broker.orders
    ensures var (v, ok) := LiveExit(w, i, x, live, held); var id := ClientOrderId(i.cycle, x.symbol, Sell);
      && (x.action.fraction <= 0.0 ==> ok && v.ledger == w.ledger && v.broker == w.broker)
      && (x.action.fraction > 0.0 && ok ==>
            && v.ledger.orders.Keys == w.ledger.orders.Keys + {id}
            && var row := v.ledger.orders[id];
               && row.symbol == x.symbol && row.side == Sell && row.reason == Exit(x.action.reason) && row.submitted == i.day
               && row.qty == ExitQty(if x.symbol in live then Some(live[x.symbol]) else None,
                                     if x.symbol in held then held[x.symbol].shares else 0.0, x.action.fraction))
  {
    hide Submit, PersistExit, ExitQty, RecordPlaced;
    var qty := ExitQty(Lookup(live, x.symbol), MirrorShares(held, x.symbol), x.action.fraction);
    var req := SellRequest(i, x, qty);
    var reply := Submit(w.broker, req.id, req.id.symbol, req.id.side, req.qty);
    if reply.Ok? {
      PlacedRows(w.ledger, req, reply.value.1);
    }
  }

  /** Placing keeps every row, and a placement that goes through is on the ledger. */
  lemma PlaceKeeps(w: World, req: Request)
    ensures var (v, ok) := Place(w, req);
      && (forall id :: id in w.ledger.orders ==> id in v.ledger.orders) && (ok ==> req.id in v.ledger.orders)
  {
    hide Submit;
  }

  /** When the sales go through, every sale of the plan is on the ledger. */
  lemma {:induction false} SalesPlaced(w: World, i: Inputs, xs: seq<ExitIntent>, live: map<Symbol, real>, held: map<Symbol, Position>)
    ensures var (v, ok) := LiveExits(w, i, xs, live, held);
      && (forall id :: id in w.ledger.orders ==> id in v.ledger.orders)
      && (ok ==> forall k :: 0 <= k < |xs| && xs[k].action.fraction > 0.0
                   ==> ClientOrderId(i.cycle, xs[k].symbol, Sell) in v.ledger.orders)
    decreases |xs|
  {
    if xs != [] {
      hide Place, ExitQty, PersistExit;
      var x := xs[0];
      PlaceKeeps(w, SellRequest(i, x, ExitQty(Lookup(live, x.symbol), MirrorShares(held, x.symbol), x.action.fraction)));
      SalesPlaced(LiveExit(w, i, x, live, held).0, i, xs[1..], live, held);
      assert forall k :: 1 <= k < |xs| ==> xs[k] == xs[1..][k - 1];
    }
  }

  lemma {:induction false} BuysPlaced(w: World, i: Inputs, es: seq<EntryIntent>)
    ensures var (v, ok) := LiveEntries(w, i, es);
      && (forall id :: id in w.ledger.orders ==> id in v.ledger.orders)
      && (ok ==> forall k :: 0 <= k < |es| ==> ClientOrderId(i.cycle, es[k].symbol, Buy) in v.ledger.orders)
    decreases |es|
  {
    if es != [] {
      hide Place;
      PlaceKeeps(w, BuyRequest(i, es[0]));
      BuysPlaced(LiveEntry(w, i, es[0]).0, i, es[1..]);
      assert forall k :: 1 <= k < |es| ==> es[k] == es[1..][k - 1];
    }
  }

  /** A refusal stops the cycle where it happens: after a refused sale nothing is bought, and either way the cycle fails, with what
      was done before it left as it is. A cycle that succeeds has every order of its plan on the ledger. */
  lemma RefusalStops(w: World, i: Inputs, plan: CyclePlan)
    ensures var (sold, sales) := LiveExits(w, i, plan.exits, LiveQty(w.broker), LivePositions(w.local));
      var (bought, buys) := LiveEntries(sold, i, plan.entries);
      var (v, ok) := ExecuteLive(w, i, plan);
      && (ok <==> sales && (i.locked || buys))
      && (ok ==> forall k :: 0 <= k < |plan.exits| && plan.exits[k].action.fraction > 0.0
                   ==> ClientOrderId(i.cycle, plan.exits[k].symbol, Sell) in v.ledger.orders)
      && (ok && !i.locked ==> forall k :: 0 <= k < |plan.entries| ==>
            ClientOrderId(i.cycle, plan.entries[k].symbol, Buy) in v.ledger.orders)
      && (!sales ==> v == sold)
      && (sales && !i.locked && !buys ==> v == bought)
      && (ok ==> var before := if i.locked then sold else bought;
                 v == before.(local := Reconciled(before.local, before.broker.positions, i.known, i.stored)))
  {
    hide LiveExits, LiveEntries, Reconciled, LivePositions;
    SalesPlaced(w, i, plan.exits, LiveQty(w.broker), LivePositions(w.local));
    BuysPlaced(LiveExits(w, i, plan.exits, LiveQty(w.broker), LivePositions(w.local)).0, i, plan.entries);
  }

  // ---------- the daily entry cap ----------

  lemma PlaceCounts(w: World, req: Request, day: Day)
    ensures var l, m := w.ledger, Place(w, req).0.ledger;
      if req.id.side == Sell then BuysSince(m, day) == BuysSince(l, day) else BuysSince(m, day) <= BuysSince(l, day) + {req.id}
  {
    hide Submit;
  }

  lemma {:induction false} ExitsAddNoBuys(w: World, i: Inputs, xs: seq<ExitIntent>, live: map<Symbol, real>,
                                          held: map<Symbol, Position>)
    ensures BuysSince(LiveExits(w, i, xs, live, held).0.ledger, i.day) == BuysSince(w.ledger, i.day)
    decreases |xs|
  {
    if xs != [] {
      hide Place, BuysSince;
      PlaceCounts(w, SellRequest(i, xs[0], ExitQty(Lookup(live, xs[0].symbol), MirrorShares(held, xs[0].symbol), xs[0].action.fraction)), i.day);
      ExitsAddNoBuys(LiveExit(w, i, xs[0], live, held).0, i, xs[1..], live, held);
    }
  }

  lemma AddOne<T>(a: set<T>, b: set<T>, x: T)
    requires a <= b + {x}
    ensures |a| <= |b| + 1
  {
    assert a - {x} <= b;
    SubsetSize(a - {x}, b);
    assert a <= (a - {x}) + {x};
  }

  lemma {:induction false} SubsetSize<T>(a: set<T>, b: set<T>)
    requires a <= b
    ensures |a| <= |b|
  {
    if a != {} {
      var x :| x in a;
      SubsetSize(a - {x}, b - {x});
    }
  }

  lemma {:induction false} EntriesAddBuys(w: World, i: Inputs, es: seq<EntryIntent>)
    ensures |BuysSince(LiveEntries(w, i, es).0.ledger, i.day)| <= |BuysSince(w.ledger, i.day)| + |es|
    decreases |es|
  {
    if es != [] {
      hide Place, BuysSince;
      PlaceCounts(w, BuyRequest(i, es[0]), i.day);
      var w1 := LiveEntry(w, i, es[0]).0;
      AddOne(BuysSince(w1.ledger, i.day), BuysSince(w.ledger, i.day), BuyRequest(i, es[0]).id);
      EntriesAddBuys(w1, i, es[1..]);
    }
  }

  /** The day's count that the ledger shows: every buy order submitted on that day or later, whatever became of it. */
  lemma BuysOfTheDay(l: Ledger, day: Day)
    ensures BuysSince(l, day) == set id | id in l.orders && l.orders[id].side == Buy && l.orders[id].submitted >= day
  {}

  /** What a cycle may still enter is decided by the buy orders of the day that are on the ledger before it. */
  lemma EntriesFitTheDay(w: World, i: Inputs)
    requires Snapshotted(i)
    ensures forall s :: s in i.order ==> s in i.data
    ensures var placed := set id | id in w.ledger.orders && w.ledger.orders[id].side == Buy && w.ledger.orders[id].submitted >= i.day;
      var entries := LivePlan(Prepared(w, i), i).entries;
      && |placed| + |entries| <= (if entries == [] then |placed| else 8)
      && (|placed| >= 8 ==> entries == [])
  {
    hide LivePlan, Reconciled, Adopted, BuysSince;
    LivePlanFacts(Prepared(w, i), i);
    BuysOfTheDay(w.ledger, i.day);
  }

  /** A cycle never takes the day's buy orders past eight. */
  lemma CycleKeepsDailyCap(w: World, i: Inputs)
    requires Snapshotted(i)
    requires |set id | id in w.ledger.orders && w.ledger.orders[id].side == Buy && w.ledger.orders[id].submitted >= i.day| <= 8
    ensures var after := Cycle(w, i).0.ledger;
      |set id | id in after.orders && after.orders[id].side == Buy && after.orders[id].submitted >= i.day| <= 8
  {
    hide LiveExits, LiveEntries, LivePlan, Reconciled, Adopted, LivePositions, BuysSince;
    var p := Prepared(w, i);
    BuysOfTheDay(w.ledger, i.day);
    BuysOfTheDay(Cycle(w, i).0.ledger, i.day);
    if !i.halted {
      var e := Executing(p, i);
      var plan := LivePlan(p, i);
      LivePlanFacts(p, i);
      ExitsAddNoBuys(e, i, plan.exits, LiveQty(e.broker), LivePositions(e.local));
      EntriesAddBuys(LiveExits(e, i, plan.exits, LiveQty(e.broker), LivePositions(e.local)).0, i, plan.entries);
    }
  }

  /** Sales place no buy orders. */
  lemma {:induction false} ExitsPlaceSells(w: World, i: Inputs, xs: seq<ExitIntent>, live: map<Symbol, real>,
                                           held: map<Symbol, Position>)
    ensures var after := LiveExits(w, i, xs, live, held).0.ledger;
      forall id :: id in after.orders && id !in w.ledger.orders ==> id.side == Sell
    decreases |xs|
  {
    if xs != [] {
      hide Submit;
      ExitsPlaceSells(LiveExit(w, i, xs[0], live, held).0, i, xs[1..], live, held);
    }
  }

  /** The fuses: a halted cycle trades nothing at all, and a locked day still sells but buys nothing. */
  lemma FusesStopTrading(w: World, i: Inputs)
    requires Snapshotted(i)
    ensures forall s :: s in i.order ==> s in i.data
    ensures var v := Cycle(w, i).0;
      && (i.halted ==> v.ledger == w.ledger && v.broker == w.broker.(prices := w.broker.prices + i.quotes))
      && (i.locked ==> forall id :: id in v.ledger.orders && id !in w.ledger.orders ==> id.side == Sell)
  {
    hide LiveExits, LiveEntries, LivePlan, Reconciled, Adopted, LivePositions;
    var p := Prepared(w, i);
    if !i.halted {
      var e := Executing(p, i);
      ExitsPlaceSells(e, i, LivePlan(p, i).exits, LiveQty(e.broker), LivePositions(e.local));
    }
  }

  // ---------- any number of cycles ----------

  /** Every listed name has data. */
  ghost predicate Posed(inputs: seq<Inputs>) {
    forall k :: 0 <= k < |inputs| ==> forall s :: s in inputs[k].order ==> s in inputs[k].data
  }

  ghost function Cycles(w: World, inputs: seq<Inputs>): World
    requires Posed(inputs)
  {
    if inputs == [] then w else Cycle(Cycles(w, inputs[..|inputs| - 1]), inputs[|inputs| - 1]).0
  }

  /** Any number of cycles on one day leave at most eight buy orders of that day on the ledger; from a long-only account none of
      their orders is ever refused. */
  lemma {:induction false} ManyCycles(w: World, inputs: seq<Inputs>, day: Day)
    requires forall k :: 0 <= k < |inputs| ==> Snapshotted(inputs[k]) && inputs[k].day == day
    requires |set id | id in w.ledger.orders && w.ledger.orders[id].side == Buy && w.ledger.orders[id].submitted >= day| <= 8
    requires LongOnly(w.broker)
    ensures Posed(inputs)
    ensures var after := Cycles(w, inputs).ledger;
      |set id | id in after.orders && after.orders[id].side == Buy && after.orders[id].submitted >= day| <= 8
    ensures LongOnly(Cycles(w, inputs).broker)
    ensures inputs != [] ==> Cycle(Cycles(w, inputs[..|inputs| - 1]), inputs[|inputs| - 1]).1
  {
    if inputs != [] {
      hide Cycle, LongOnly;
      var n := |inputs| - 1;
      ManyCycles(w, inputs[..n], day);
      CycleIsNeverRefused(Cycles(w, inputs[..n]), inputs[n]);
      CycleKeepsDailyCap(Cycles(w, inputs[..n]), inputs[n]);
    }
  }
}
