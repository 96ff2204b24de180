/** One autonomous decision cycle against the broker, and what any number of cycles guarantee. */
module LiveCycle {
  import opened Wrappers
  import opened Domain
  import opened Keys
  import opened Sums
  import opened Rules
  import opened Decision
  import opened Broker
  import opened OrderLedger
  import opened LiveBook

  datatype World = World(broker: BrokerState, ledger: Ledger, local: LocalBook)

  /** What one cycle is given: its id and day, the universe snapshot, the fuses, and the broker's quotes before planning
      and while executing. `list` is the order in which the database and the broker enumerate a set of symbols. */
  datatype Inputs = Inputs(
    cycle: nat, day: Day, data: Market, order: seq<Symbol>, nScored: int, known: set<Symbol>,
    halted: bool, locked: bool, quotes: map<Symbol, real>, fills: map<Symbol, real>,
    stored: real -> real, list: set<Symbol> -> seq<Symbol>)

  ghost predicate Lists(i: Inputs) {
    forall names: set<Symbol> :: Enumerates(i.list(names), names)
  }

  // ---------- the pieces of a cycle ----------

  function LivePositions(local: LocalBook): map<Symbol, Position> {
    map s | s in local.mirror && s in local.theses :: StateOf(s, local.mirror[s].shares, local.theses[s])
  }

  function LiveSectorNotional(order: seq<Symbol>, held: map<Symbol, Position>, data: Market): map<Sector, real> {
    if order == [] then map[]
    else
      var n := |order| - 1;
      var out := LiveSectorNotional(order[..n], held, data);
      var s := order[n];
      if s !in held then out
      else
        var sector := if s in data then data[s].sector else "Unknown";
        var mark := if s in data then data[s].bar.close else held[s].entryPrice;
        out[sector := (if sector in out then out[sector] else 0.0) + Amount(held[s].shares, mark)]
  }

  function PositionValues(b: BrokerState): map<Symbol, real> {
    map s | s in b.positions ::
      Amount(b.positions[s].qty, if s in b.prices then b.prices[s] else b.positions[s].avgEntryPrice)
  }

  function AccountEquity(b: BrokerState, listed: seq<Symbol>): real {
    b.cash + Sum(listed, PositionValues(b))
  }

  function BuysSince(l: Ledger, day: Day): set<ClientOrderId> {
    set id | id in l.orders && l.orders[id].side == Buy && l.orders[id].submitted >= day
  }

  function LiveQty(b: BrokerState): map<Symbol, real> {
    map s | s in b.positions :: b.positions[s].qty
  }

  /** A full exit sells what the broker reports; the mirror is only a fallback. */
  function ExitQty(live: Option<real>, mirrorShares: real, fraction: real): real {
    var held := if live.Some? then live.value else mirrorShares;
    if fraction >= 1.0 then held else Amount(held, fraction)
  }

  function Lookup(m: map<Symbol, real>, s: Symbol): Option<real> { if s in m then Some(m[s]) else None }

  /** Write back the trail state an exit intent leaves behind. */
  function PersistExit(local: LocalBook, x: ExitIntent): LocalBook {
    if x.action.fraction >= 1.0 then local.(theses := local.theses - {x.symbol})
    else if x.symbol !in local.theses then local
    else
      var t := local.theses[x.symbol];
      local.(theses := local.theses[x.symbol :=
        t.(stopPrice := x.action.newStop, tookPartial := t.tookPartial || x.action.fraction > 0.0,
           highestClose := x.action.newHighestClose, reversalDays := x.action.reversalDays)])
  }

  function ThesisRow(e: EntryIntent): Thesis {
    Thesis(e.refPrice, e.atr, e.stopPrice, e.targetPrice, e.entryComposite, e.entryFundamentals, false, e.refPrice, 0)
  }

  /** Placement as a step of the world; false when the broker refuses, which aborts the cycle. */
  function Place(w: World, req: Request): (World, bool) {
    if req.id in w.ledger.orders then (w, true)
    else
      match Submit(w.broker, req.id, req.id.symbol, req.id.side, req.qty)
      case Err(_) => (w, false)
      case Ok((b, o)) => (w.(broker := b, ledger := RecordPlaced(w.ledger, req, o)), true)
  }

  function SellRequest(i: Inputs, x: ExitIntent, qty: real): Request {
    Request(ClientOrderId(i.cycle, x.symbol, Sell), qty, Exit(x.action.reason), i.day)
  }

  function BuyRequest(i: Inputs, e: EntryIntent): Request {
    Request(ClientOrderId(i.cycle, e.symbol, Buy), e.shares, Entry, i.day)
  }

  function MirrorShares(held: map<Symbol, Position>, s: Symbol): real { if s in held then held[s].shares else 0.0 }

  /** Carry out one exit intent. */
  function LiveExit(w: World, i: Inputs, x: ExitIntent, live: map<Symbol, real>, held: map<Symbol, Position>): (World,
                    bool) {
    var qty := ExitQty(Lookup(live, x.symbol), MirrorShares(held, x.symbol), x.action.fraction);
    var (placed, ok) := if x.action.fraction > 0.0 then Place(w, SellRequest(i, x, qty)) else (w, true);
    if !ok then (placed, false) else (placed.(local := PersistExit(placed.local, x)), true)
  }

  function LiveExits(w: World, i: Inputs, xs: seq<ExitIntent>, live: map<Symbol, real>,
                     held: map<Symbol, Position>): (World, bool)
    decreases |xs|
  {
    if xs == [] then (w, true)
    else
      var (w1, ok) := LiveExit(w, i, xs[0], live, held);
      if !ok then (w1, false) else LiveExits(w1, i, xs[1..], live, held)
  }

  function LiveEntry(w: World, i: Inputs, e: EntryIntent): (World, bool) {
    var (placed, ok) := Place(w, BuyRequest(i, e));
    if !ok then (placed, false)
    else (placed.(local := placed.local.(theses := placed.local.theses[e.symbol := ThesisRow(e)])), true)
  }

  function LiveEntries(w: World, i: Inputs, es: seq<EntryIntent>): (World, bool)
    decreases |es|
  {
    if es == [] then (w, true)
    else
      var (w1, ok) := LiveEntry(w, i, es[0]);
      if !ok then (w1, false) else LiveEntries(w1, i, es[1..])
  }

  /** The world after reconciliation and adoption, with the quotes the plan is made on. */
  function Prepared(w: World, i: Inputs): World {
    var b := w.broker.(prices := w.broker.prices + i.quotes);
    World(b, w.ledger, Adopted(Reconciled(w.local, b.positions, i.known, i.stored), i.data))
  }

  function LivePlan(w: World, i: Inputs): CyclePlan
    requires forall s :: s in i.order ==> s in i.data
  {
    var held := LivePositions(w.local);
    var listed := Keep(i.list(w.local.mirror.Keys), held.Keys);
    CycleFor(i.data, i.order, held, listed, AccountEquity(w.broker, i.list(w.broker.positions.Keys)), w.broker.cash,
             LiveSectorNotional(listed, held, i.data), |BuysSince(w.ledger, i.day)|, i.nScored)
  }

  function Executing(w: World, i: Inputs): World {
    w.(broker := w.broker.(prices := w.broker.prices + i.fills))
  }

  /** Exits first, then entries unless the day is locked, then reconcile again. */
  function ExecuteLive(w: World, i: Inputs, plan: CyclePlan): (World, bool) {
    var (sold, ok) := LiveExits(w, i, plan.exits, LiveQty(w.broker), LivePositions(w.local));
    if !ok then (sold, false)
    else
      var (bought, ok') := if i.locked then (sold, true) else LiveEntries(sold, i, plan.entries);
      if !ok' then (bought, false)
      else (bought.(local := Reconciled(bought.local, bought.broker.positions, i.known, i.stored)), true)
  }

  function Cycle(w: World, i: Inputs): (World, bool)
    requires forall s :: s in i.order ==> s in i.data
  {
    var p := Prepared(w, i);
    if i.halted then (p, true) else ExecuteLive(Executing(p, i), i, LivePlan(p, i))
  }

  // ---------- the cycle as the engine runs it ----------

  class LiveEngine {
    const orders: OrderStore
    const local: LocalStore
    const broker: FakeBroker

    constructor (orders: OrderStore, local: LocalStore, broker: FakeBroker)
      ensures this.orders == orders && this.local == local && this.broker == broker
    {
      this.orders, this.local, this.broker := orders, local, broker;
    }

    function State(): World
      reads orders, local, broker
    {
      World(broker.State(), orders.Rows(), local.Contents())
    }

    method ExecuteExit(i: Inputs, x: ExitIntent, live: map<Symbol, real>,
                       held: map<Symbol, Position>) returns (ok: bool)
      modifies orders, local, broker
      ensures (State(), ok) == LiveExit(old(State()), i, x, live, held)
    {
      hide Submit, RecordPlaced, Reconciled, ExitQty;
      if x.action.fraction > 0.0 {
        var qty := ExitQty(Lookup(live, x.symbol), MirrorShares(held, x.symbol), x.action.fraction);
        var reply := PlaceOrder(orders, broker, SellRequest(i, x, qty));
        if reply.Err? {
          return false;
        }
      }
      if x.action.fraction >= 1.0 {
        local.theses := local.theses - {x.symbol};
      } else if x.symbol in local.theses {
        var t := local.theses[x.symbol];
        local.theses := local.theses[x.symbol :=
          t.(stopPrice := x.action.newStop, tookPartial := t.tookPartial || x.action.fraction > 0.0,
             highestClose := x.action.newHighestClose, reversalDays := x.action.reversalDays)];
      }
      return true;
    }

    method ExecuteEntry(i: Inputs, e: EntryIntent) returns (ok: bool)
      modifies orders, local, broker
      ensures (State(), ok) == LiveEntry(old(State()), i, e)
    {
      hide Submit, RecordPlaced;
      var reply := PlaceOrder(orders, broker, BuyRequest(i, e));
      if reply.Err? {
        return false;
      }
      local.theses := local.theses[e.symbol := ThesisRow(e)];
      return true;
    }

    /** Carry out a plan; stops at the first refusal. */
    method ExecutePlan(i: Inputs, plan: CyclePlan) returns (ok: bool)
      requires Lists(i)
      modifies orders, local, broker
      ensures (State(), ok) == ExecuteLive(old(State()), i, plan)
    {
      hide LiveExit, LiveEntry, Reconciled, LivePositions;
      ghost var w := State();
      var live := LiveQty(broker.State());
      var held := LivePositions(local.Contents());
      for k := 0 to |plan.exits|
        invariant LiveExits(w, i, plan.exits, live, held) == LiveExits(State(), i, plan.exits[k..], live, held)
      {
        assert plan.exits[k..][1..] == plan.exits[k + 1..];
        ok := ExecuteExit(i, plan.exits[k], live, held);
        if !ok {
          return false;
        }
      }
      ghost var sold := State();
      assert LiveExits(w, i, plan.exits, live, held) == (sold, true);
      if !i.locked {
        for k := 0 to |plan.entries|
          invariant LiveEntries(sold, i, plan.entries) == LiveEntries(State(), i, plan.entries[k..])
        {
          assert plan.entries[k..][1..] == plan.entries[k + 1..];
          ok := ExecuteEntry(i, plan.entries[k]);
          if !ok {
            return false;
          }
        }
      }
      var report := ReconcilePositions(local, broker.positions, i.list(broker.positions.Keys), i.known, i.stored);
      return true;
    }

    method RunDecisionCycle(i: Inputs) returns (ok: bool)
      requires Lists(i) && Filed(i.data) && Enumerates(i.order, i.data.Keys)
      modifies orders, local, broker
      ensures (State(), ok) == Cycle(old(State()), i)
    {
      hide ExecuteLive, CycleFor, Reconciled, Adopted, LivePositions, AccountEquity, LiveSectorNotional, Keep;
      broker.prices := broker.prices + i.quotes;
      var report := ReconcilePositions(local, broker.positions, i.list(broker.positions.Keys), i.known, i.stored);
      var adoption := AdoptOrphanPositions(local, i.data, i.list(local.mirror.Keys));
      var equity := AccountEquity(broker.State(), i.list(broker.positions.Keys));
      var held := LivePositions(local.Contents());
      var listed := Keep(i.list(local.mirror.Keys), held.Keys);
      HeldAreListed(local.Contents(), i);
      var entriesToday := |BuysSince(orders.Rows(), i.day)|;
      var plan := PlanCycle(i.data, i.order, held, listed, equity, broker.cash,
                            LiveSectorNotional(listed, held, i.data), entriesToday, i.nScored);
      if i.halted {
        return true;
      }
      broker.prices := broker.prices + i.fills;
      ok := ExecutePlan(i, plan);
    }
  }

  lemma HeldAreListed(local: LocalBook, i: Inputs)
    requires Lists(i)
    ensures Enumerates(Keep(i.list(local.mirror.Keys), LivePositions(local).Keys), LivePositions(local).Keys)
  {
    assert Enumerates(i.list(local.mirror.Keys), local.mirror.Keys);
  }
}
