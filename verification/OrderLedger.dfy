/** The order ledger: idempotent placement, crash and retry, and polling of open orders. */
module OrderLedger {
  import opened Wrappers
  import opened Domain
  import opened Rules
  import opened Broker

  datatype OrderRow = OrderRow(
    brokerId: Option<nat>, symbol: Symbol, side: Side, qty: real, status: Status, reason: TradeReason,
    rejectReason: Option<string>, submitted: Day)

  datatype ExecutionRow = ExecutionRow(
    order: ClientOrderId, brokerId: Option<nat>, symbol: Symbol, fillQty: real, fillPrice: real, filled: Day)

  /** The orders table, keyed by its unique client order id, and the executions table. */
  datatype Ledger = Ledger(orders: map<ClientOrderId, OrderRow>, executions: seq<ExecutionRow>)

  datatype Request = Request(id: ClientOrderId, qty: real, reason: TradeReason, day: Day)

  /** A reply that carries a fill worth recording: filled at least in part, at a nonzero average price. */
  predicate HasFill(o: BrokerOrder) {
    o.status in {Filled, PartiallyFilled} && o.filledAvgPrice.Some? && o.filledAvgPrice.value != 0.0
  }

  function ExecutionOf(id: ClientOrderId, symbol: Symbol, o: BrokerOrder, day: Day): ExecutionRow
    requires HasFill(o)
  {
    ExecutionRow(id, o.brokerId, symbol, o.filledQty, o.filledAvgPrice.value, day)
  }

  /** The rows written after the broker answered a placement. */
  function RecordPlaced(l: Ledger, req: Request, o: BrokerOrder): Ledger {
    var row := OrderRow(o.brokerId, req.id.symbol, req.id.side, req.qty, o.status, req.reason, o.rejectReason, req.day);
    Ledger(l.orders[req.id := row],
           l.executions + if HasFill(o) then [ExecutionOf(req.id, req.id.symbol, o, req.day)] else [])
  }

  /** What a placement writes: one order row, as the broker answered it, and one execution row exactly when the answer is a fill, full
      or partial, with an average price. */
  lemma PlacedRows(l: Ledger, req: Request, o: BrokerOrder)
    ensures var m := RecordPlaced(l, req, o); var n := |l.executions|;
      var filled := o.status in {Filled, PartiallyFilled} && o.filledAvgPrice.Some? && o.filledAvgPrice.value != 0.0;
      && m.orders.Keys == l.orders.Keys + {req.id} && (forall id :: id in l.orders && id != req.id ==> m.orders[id] == l.orders[id])
      && m.orders[req.id] == OrderRow(o.brokerId, req.id.symbol, req.id.side, req.qty, o.status, req.reason, o.rejectReason, req.day)
      && |m.executions| == n + (if filled then 1 else 0) && m.executions[..n] == l.executions
      && (filled ==> m.executions[n]
                     == ExecutionRow(req.id, o.brokerId, req.id.symbol, o.filledQty, o.filledAvgPrice.value, req.day))
  {}

  class OrderStore {
    var orders: map<ClientOrderId, OrderRow>
    var executions: seq<ExecutionRow>

    function Rows(): Ledger
      reads this
    {
      Ledger(orders, executions)
    }

    constructor ()
      ensures Rows() == Ledger(map[], [])
    {
      orders, executions := map[], [];
    }
  }

  /** Place one market order; Ok(None) when this (cycle, symbol, side) was already placed. */
  method PlaceOrder(store: OrderStore, broker: FakeBroker,
                    req: Request) returns (r: Result<Option<BrokerOrder>, string>)
    modifies store, broker
    ensures var l, b := old(store.Rows()), old(broker.State());
      if req.id in l.orders then r == Ok(None) && store.Rows() == l && broker.State() == b
      else match Submit(b, req.id, req.id.symbol, req.id.side, req.qty)
        case Err(e) => r == Err(e) && store.Rows() == l && broker.State() == b
        case Ok((b', o)) => r == Ok(Some(o)) && broker.State() == b' && store.Rows() == RecordPlaced(l, req, o)
  {
    if req.id in store.orders {
      return Ok(None);
    }
    var reply := broker.SubmitOrder(req.id, req.id.symbol, req.id.side, req.qty);
    if reply.Err? {
      return Err(reply.error);
    }
    var o := reply.value;
    store.orders := store.orders[req.id :=
      OrderRow(o.brokerId, req.id.symbol, req.id.side, req.qty, o.status, req.reason, o.rejectReason, req.day)];
    if HasFill(o) {
      store.executions := store.executions + [ExecutionOf(req.id, req.id.symbol, o, req.day)];
    }
    return Ok(Some(o));
  }

  // ---------- crash and retry ----------

  datatype Fate = CrashBeforeSubmit | CrashAfterSubmit | Completes

  /** One attempt to place the order, at the quote of the moment; a crash drops uncommitted rows but not broker state. */
  datatype Attempt = Attempt(quote: real, fate: Fate)

  datatype Accounts = Accounts(broker: BrokerState, ledger: Ledger)

  function Quoted(b: BrokerState, symbol: Symbol, quote: real): BrokerState {
    b.(prices := b.prices[symbol := quote])
  }

  function Try(w: Accounts, req: Request, a: Attempt): Accounts {
    var b := Quoted(w.broker, req.id.symbol, a.quote);
    if a.fate == CrashBeforeSubmit || req.id in w.ledger.orders then Accounts(b, w.ledger)
    else
      match Submit(b, req.id, req.id.symbol, req.id.side, req.qty)
      case Err(_) => Accounts(b, w.ledger)
      case Ok((b', o)) => Accounts(b', if a.fate == Completes then RecordPlaced(w.ledger, req, o) else w.ledger)
  }

  function Retry(w: Accounts, req: Request, attempts: seq<Attempt>): Accounts {
    if attempts == [] then w else Try(Retry(w, req, attempts[..|attempts| - 1]), req, attempts[|attempts| - 1])
  }

  /** Index of the first attempt that reaches the broker; the number of attempts when none does. */
  function FirstReach(attempts: seq<Attempt>): nat {
    if attempts == [] then 0
    else
      var n := |attempts| - 1;
      var k := FirstReach(attempts[..n]);
      if k < n then k else if attempts[n].fate != CrashBeforeSubmit then n else n + 1
  }

  predicate SomeCompletes(attempts: seq<Attempt>) {
    exists i :: 0 <= i < |attempts| && attempts[i].fate == Completes
  }

  /** The broker after exactly one submission at the given quote. */
  function AfterOneSubmit(b: BrokerState, req: Request, quote: real): BrokerState {
    match Submit(Quoted(b, req.id.symbol, quote), req.id, req.id.symbol, req.id.side, req.qty)
    case Ok((b', _)) => b'
    case Err(_) => b
  }

  lemma {:induction false} FirstReachBound(attempts: seq<Attempt>)
    ensures FirstReach(attempts) <= |attempts|
    ensures SomeCompletes(attempts) ==> FirstReach(attempts) < |attempts|
  {
    if attempts != [] {
      var n := |attempts| - 1;
      FirstReachBound(attempts[..n]);
      if SomeCompletes(attempts) && attempts[n].fate != Completes {
        var i :| 0 <= i < |attempts| && attempts[i].fate == Completes;
        assert attempts[..n][i].fate == Completes;
      }
    }
  }

  /** Any sequence of attempts, crashing wherever it likes, leaves the broker as after exactly one submission; once an attempt
      completes there is exactly the one order row and at most one execution row, and both stay. */
  lemma {:induction false} RetriesConverge(w: Accounts, req: Request, attempts: seq<Attempt>)
    requires req.id !in w.ledger.orders && req.id !in w.broker.orders
    ensures var end := Retry(w, req, attempts); var k := FirstReach(attempts);
      && k <= |attempts|
      && SameAccount(end.broker, if k < |attempts| then AfterOneSubmit(w.broker, req, attempts[k].quote) else w.broker)
      && end.ledger == LedgerAfter(w, req, end.broker, SomeCompletes(attempts))
  {
    hide Try, Submit, AfterOneSubmit, RecordPlaced;
    FirstReachBound(attempts);
    if attempts != [] {
      var n := |attempts| - 1;
      var init := attempts[..n];
      RetriesConverge(w, req, init);
      FirstReachBound(init);
      assert SomeCompletes(attempts) <==> SomeCompletes(init) || attempts[n].fate == Completes by {
        if SomeCompletes(init) {
          var i :| 0 <= i < n && init[i].fate == Completes;
          assert attempts[i].fate == Completes;
        }
      }
      var mid, k := Retry(w, req, init), FirstReach(init);
      if k < n {
        TryAgain(w, mid, req, attempts[n], init[k].quote, SomeCompletes(init));
      } else {
        TryFirst(w, mid, req, attempts[n]);
      }
    }
  }

  /** Which ledger the attempts so far leave, given the broker and whether one of them completed. */
  function LedgerAfter(w: Accounts, req: Request, b: BrokerState, completed: bool): Ledger {
    if completed && req.id in b.orders then RecordPlaced(w.ledger, req, b.orders[req.id]) else w.ledger
  }

  /** The first attempt that reaches the broker submits once; one that does not changes nothing. */
  lemma TryFirst(w: Accounts, mid: Accounts, req: Request, a: Attempt)
    requires req.id !in w.ledger.orders && req.id !in w.broker.orders
    requires SameAccount(mid.broker, w.broker) && mid.ledger == w.ledger
    ensures var end := Try(mid, req, a);
      && SameAccount(end.broker, if a.fate == CrashBeforeSubmit then w.broker else AfterOneSubmit(w.broker, req, a.quote))
      && end.ledger == LedgerAfter(w, req, end.broker, a.fate == Completes)
  {
    hide RecordPlaced, Submit;
    var b, c := Quoted(mid.broker, req.id.symbol, a.quote), Quoted(w.broker, req.id.symbol, a.quote);
    SubmitAgrees(b, c, req.id, req.id.symbol, req.id.side, req.qty);
    if Submit(b, req.id, req.id.symbol, req.id.side, req.qty).Ok? {
      SubmitFiles(b, req.id, req.id.symbol, req.id.side, req.qty);
    }
  }

  /** An accepted submission is on file under its id. */
  lemma SubmitFiles(b: BrokerState, id: ClientOrderId, symbol: Symbol, side: Side, qty: real)
    requires Submit(b, id, symbol, side, qty).Ok?
    ensures var (after, order) := Submit(b, id, symbol, side, qty).value; id in after.orders && after.orders[id] == order
  {
    hide Bought, Sold;
  }

  /** A later attempt finds the order already there, or is refused again. */
  lemma TryAgain(w: Accounts, mid: Accounts, req: Request, a: Attempt, quote: real, completed: bool)
    requires req.id !in w.ledger.orders && req.id !in w.broker.orders
    requires SameAccount(mid.broker, AfterOneSubmit(w.broker, req, quote))
    requires mid.ledger == LedgerAfter(w, req, mid.broker, completed)
    ensures var end := Try(mid, req, a);
      && SameAccount(end.broker, AfterOneSubmit(w.broker, req, quote))
      && end.ledger == LedgerAfter(w, req, end.broker, completed || a.fate == Completes)
  {
    hide Amount, Averaged, Bought, Sold;
  }
}
