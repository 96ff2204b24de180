/** The broker contract: idempotent submission, cash and position updates, refusal to oversell. */
module Broker {
  import opened Wrappers
  import opened Domain

  datatype Status = Submitted | Accepted | PartiallyFilled | Filled | Canceled | Rejected | Expired

  predicate Terminal(s: Status) { s in {Filled, Canceled, Rejected, Expired} }

  /** The id sent with an order; it is determined by, and determines, the cycle, the symbol and the side. */
  datatype ClientOrderId = ClientOrderId(cycle: nat, symbol: Symbol, side: Side)

  datatype BrokerOrder = BrokerOrder(
    clientId: ClientOrderId, brokerId: Option<nat>, symbol: Symbol, side: Side, qty: real, status: Status,
    filledQty: real, filledAvgPrice: Option<real>, rejectReason: Option<string>)

  datatype BrokerPosition = BrokerPosition(qty: real, avgEntryPrice: real)

  datatype BrokerState = BrokerState(
    cash: real, positions: map<Symbol, BrokerPosition>, orders: map<ClientOrderId, BrokerOrder>, prices: map<Symbol, real>)

  const DEFAULT_PRICE := 100.0
  const DUST := 0.000000001

  function PriceOf(b: BrokerState, symbol: Symbol): real {
    if symbol in b.prices then b.prices[symbol] else DEFAULT_PRICE
  }

  function HeldQty(b: BrokerState, symbol: Symbol): real {
    if symbol in b.positions then b.positions[symbol].qty else 0.0
  }

  function Averaged(held: BrokerPosition, qty: real, price: real): BrokerPosition {
    var total := held.qty + qty;
    // a zero total cannot arise from positive quantities
    BrokerPosition(total, if total == 0.0 then price else (held.qty * held.avgEntryPrice + qty * price) / total)
  }

  function Bought(b: BrokerState, symbol: Symbol, qty: real): BrokerState {
    var price := PriceOf(b, symbol);
    var position := if symbol in b.positions then Averaged(b.positions[symbol], qty, price) else BrokerPosition(qty, price);
    b.(cash := b.cash - Amount(qty, price), positions := b.positions[symbol := position])
  }

  function Sold(b: BrokerState, symbol: Symbol, qty: real): BrokerState {
    var paid := b.(cash := b.cash + Amount(qty, PriceOf(b, symbol)));
    if symbol !in b.positions then paid
    else
      var remaining := b.positions[symbol].qty - qty;
      if remaining <= DUST then paid.(positions := b.positions - {symbol})
      else paid.(positions := b.positions[symbol := b.positions[symbol].(qty := remaining)])
  }

  function FilledOrder(b: BrokerState, id: ClientOrderId, symbol: Symbol, side: Side, qty: real): BrokerOrder {
    BrokerOrder(id, Some(|b.orders| + 1), symbol, side, qty, Filled, qty, Some(PriceOf(b, symbol)), None)
  }

  /** Submit a market order: the new broker state and the order, or a refusal that changes nothing. */
  function Submit(b: BrokerState, id: ClientOrderId, symbol: Symbol, side: Side,
                  qty: real): Result<(BrokerState, BrokerOrder), string> {
    if id in b.orders then Ok((b, b.orders[id]))
    else if side == Sell && qty > HeldQty(b, symbol) then Err("insufficient qty available for order")
    else
      var traded := if side == Buy then Bought(b, symbol, qty) else Sold(b, symbol, qty);
      var order := FilledOrder(b, id, symbol, side, qty);
      Ok((traded.(orders := b.orders[id := order]), order))
  }

  class FakeBroker {
    var cash: real
    var positions: map<Symbol, BrokerPosition>
    var orders: map<ClientOrderId, BrokerOrder>
    var prices: map<Symbol, real>

    function State(): BrokerState
      reads this
    {
      BrokerState(cash, positions, orders, prices)
    }

    constructor (initial: real)
      ensures State() == BrokerState(initial, map[], map[], map[])
    {
      cash, positions, orders, prices := initial, map[], map[], map[];
    }

    method SetPrice(symbol: Symbol, price: real)
      modifies this
      ensures State() == old(State()).(prices := old(prices)[symbol := price])
    {
      prices := prices[symbol := price];
    }

    method SubmitOrder(id: ClientOrderId, symbol: Symbol, side: Side,
                       qty: real) returns (r: Result<BrokerOrder, string>)
      modifies this
      ensures match Submit(old(State()), id, symbol, side, qty)
        case Ok((after, order)) => State() == after && r == Ok(order)
        case Err(e) => State() == old(State()) && r == Err(e)
    {
      hide Averaged, Amount, Submit, Bought, Sold;
      ghost var b := State();
      ghost var traded := b;
      SubmitCases(b, id, symbol, side, qty);
      if id in orders {
        return Ok(orders[id]);
      }
      var price := if symbol in prices then prices[symbol] else DEFAULT_PRICE;
      if side == Buy {
        cash := cash - Amount(qty, price);
        if symbol !in positions {
          positions := positions[symbol := BrokerPosition(qty, price)];
        } else {
          positions := positions[symbol := Averaged(positions[symbol], qty, price)];
        }
        BoughtFields(b, symbol, qty);
        traded := Bought(b, symbol, qty);
        assert State() == traded;
      } else {
        var held := if symbol in positions then positions[symbol].qty else 0.0;
        if qty > held {
          return Err("insufficient qty available for order");
        }
        cash := cash + Amount(qty, price);
        SoldFields(b, symbol, qty);
        traded := Sold(b, symbol, qty);
        if symbol in positions {
          var remaining := positions[symbol].qty - qty;
          if remaining <= DUST {
            positions := positions - {symbol};
            assert positions == traded.positions;
          } else {
            positions := positions[symbol := positions[symbol].(qty := remaining)];
            assert positions == traded.positions;
          }
        }
        assert State() == traded;
      }
      var order := BrokerOrder(id, Some(|orders| + 1), symbol, side, qty, Filled, qty, Some(price), None);
      orders := orders[id := order];
      assert State() == traded.(orders := b.orders[id := order]);
      return Ok(order);
    }
  }

  /** What a submission does, from the account alone. A known id changes nothing and a sale of more than is held is refused. Otherwise
      the order is filled in full at the quote, or at 100 without one: a buy pays for it and pools it with what is held at the
      average cost, a sale is paid for it and keeps the average cost of the rest, or nothing when only dust is left. */
  lemma SubmitMeans(b: BrokerState, id: ClientOrderId, symbol: Symbol, side: Side, qty: real)
    ensures var r := Submit(b, id, symbol, side, qty);
      var held := if symbol in b.positions then b.positions[symbol].qty else 0.0;
      var price := if symbol in b.prices then b.prices[symbol] else 100.0;
      if id in b.orders then r == Ok((b, b.orders[id]))
      else if side == Sell && qty > held then r.Err?
      else
        && r.Ok? && var (c, o) := r.value;
        && o == BrokerOrder(id, Some(|b.orders| + 1), symbol, side, qty, Filled, qty, Some(price), None)
        && c.orders == b.orders[id := o] && c.prices == b.prices
        && c.cash == (if side == Buy then b.cash - qty * price else b.cash + qty * price)
        && (forall s :: s != symbol ==> (s in c.positions <==> s in b.positions)
                                        && (s in b.positions ==> c.positions[s] == b.positions[s]))
        && (side == Buy ==>
              && symbol in c.positions && c.positions[symbol].qty == held + qty
              && (symbol !in b.positions || held + qty == 0.0 ==> c.positions[symbol].avgEntryPrice == price)
              && (symbol in b.positions && held + qty != 0.0 ==>
                    c.positions[symbol].avgEntryPrice * (held + qty) == held * b.positions[symbol].avgEntryPrice + qty * price))
        && (side == Sell ==>
              && (symbol in c.positions <==> symbol in b.positions && held - qty > 0.000000001)
              && (symbol in c.positions ==> c.positions[symbol] == BrokerPosition(held - qty, b.positions[symbol].avgEntryPrice)))
  {
    hide Bought, Sold, Submit;
    SubmitCases(b, id, symbol, side, qty);
    if side == Buy {
      BuyMeans(b, symbol, qty);
    } else {
      SaleMeans(b, symbol, qty);
    }
  }

  lemma BuyMeans(b: BrokerState, symbol: Symbol, qty: real)
    ensures var c := Bought(b, symbol, qty); var price := PriceOf(b, symbol); var held := HeldQty(b, symbol);
      && c.orders == b.orders && c.prices == b.prices && c.cash == b.cash - qty * price
      && (forall s :: s != symbol ==> (s in c.positions <==> s in b.positions)
                                      && (s in b.positions ==> c.positions[s] == b.positions[s]))
      && symbol in c.positions && c.positions[symbol].qty == held + qty
      && (symbol !in b.positions || held + qty == 0.0 ==> c.positions[symbol].avgEntryPrice == price)
      && (symbol in b.positions && held + qty != 0.0 ==>
            c.positions[symbol].avgEntryPrice * (held + qty) == held * b.positions[symbol].avgEntryPrice + qty * price)
  {
    hide Averaged, PriceOf;
    if symbol in b.positions {
      AveragePools(b.positions[symbol], qty, PriceOf(b, symbol));
    }
  }

  lemma SaleMeans(b: BrokerState, symbol: Symbol, qty: real)
    ensures var c := Sold(b, symbol, qty); var held := HeldQty(b, symbol);
      && c.orders == b.orders && c.prices == b.prices && c.cash == b.cash + qty * PriceOf(b, symbol)
      && (forall s :: s != symbol ==> (s in c.positions <==> s in b.positions)
                                      && (s in b.positions ==> c.positions[s] == b.positions[s]))
      && (symbol in c.positions <==> symbol in b.positions && held - qty > 0.000000001)
      && (symbol in c.positions ==> c.positions[symbol] == BrokerPosition(held - qty, b.positions[symbol].avgEntryPrice))
  {
    hide PriceOf;
  }

  lemma AveragePools(held: BrokerPosition, qty: real, price: real)
    ensures var p := Averaged(held, qty, price);
      && p.qty == held.qty + qty
      && (p.qty == 0.0 ==> p.avgEntryPrice == price)
      && (p.qty != 0.0 ==> p.avgEntryPrice * p.qty == held.qty * held.avgEntryPrice + qty * price)
  {}

  lemma SubmitCases(b: BrokerState, id: ClientOrderId, symbol: Symbol, side: Side, qty: real)
    ensures id in b.orders ==> Submit(b, id, symbol, side, qty) == Ok((b, b.orders[id]))
    ensures id !in b.orders && side == Sell && qty > HeldQty(b, symbol)
            ==> Submit(b, id, symbol, side, qty) == Err("insufficient qty available for order")
    ensures id !in b.orders && !(side == Sell && qty > HeldQty(b, symbol)) ==>
              var traded := if side == Buy then Bought(b, symbol, qty) else Sold(b, symbol, qty);
              var order := FilledOrder(b, id, symbol, side, qty);
              Submit(b, id, symbol, side, qty) == Ok((traded.(orders := b.orders[id := order]), order))
  {
    hide Bought, Sold, FilledOrder;
  }

  lemma BoughtFields(b: BrokerState, symbol: Symbol, qty: real)
    ensures var c := Bought(b, symbol, qty); var price := PriceOf(b, symbol);
      && c.cash == b.cash - Amount(qty, price) && c.orders == b.orders && c.prices == b.prices
      && c.positions == b.positions[symbol :=
           if symbol in b.positions then Averaged(b.positions[symbol], qty, price) else BrokerPosition(qty, price)]
  {
    hide Averaged, Amount;
  }

  lemma SoldFields(b: BrokerState, symbol: Symbol, qty: real)
    ensures var c := Sold(b, symbol, qty);
      && c.cash == b.cash + Amount(qty, PriceOf(b, symbol)) && c.orders == b.orders && c.prices == b.prices
      && (symbol !in b.positions ==> c.positions == b.positions)
      && (symbol in b.positions && b.positions[symbol].qty - qty <= DUST ==> c.positions == b.positions - {symbol})
      && (symbol in b.positions && b.positions[symbol].qty - qty > DUST ==>
            c.positions == b.positions[symbol := b.positions[symbol].(qty := b.positions[symbol].qty - qty)])
  {
    hide Amount;
  }

  /** A submission depends on the holdings, the orders and this symbol's quote, and on nothing else. */
  lemma SubmitAgrees(a: BrokerState, b: BrokerState, id: ClientOrderId, symbol: Symbol, side: Side, qty: real)
    requires SameAccount(a, b) && PriceOf(a, symbol) == PriceOf(b, symbol)
    ensures var x, y := Submit(a, id, symbol, side, qty), Submit(b, id, symbol, side, qty);
      if x.Err? then y == Err(x.error) else y.Ok? && x.value.1 == y.value.1 && SameAccount(x.value.0, y.value.0)
  {
    hide Bought, Sold, PriceOf;
    TradedAgree(a, b, symbol, qty);
  }

  ghost predicate SameAccount(a: BrokerState, b: BrokerState) {
    a.cash == b.cash && a.positions == b.positions && a.orders == b.orders
  }

  lemma TradedAgree(a: BrokerState, b: BrokerState, symbol: Symbol, qty: real)
    requires SameAccount(a, b) && PriceOf(a, symbol) == PriceOf(b, symbol)
    ensures SameAccount(Bought(a, symbol, qty), Bought(b, symbol, qty))
    ensures SameAccount(Sold(a, symbol, qty), Sold(b, symbol, qty))
  {
    hide Amount, Averaged, PriceOf;
  }

  /** Resubmitting an accepted id, at any later prices, returns the same order and changes nothing. */
  lemma SubmitIsIdempotent(b: BrokerState, id: ClientOrderId, symbol: Symbol, side: Side, qty: real,
                           later: map<Symbol, real>)
    requires Submit(b, id, symbol, side, qty).Ok?
    ensures var (after, order) := Submit(b, id, symbol, side, qty).value;
      Submit(after.(prices := later), id, symbol, side, qty) == Ok((after.(prices := later), order))
  {}

  /** A refused sell is refused at any price. */
  lemma RefusalIgnoresPrices(b: BrokerState, id: ClientOrderId, symbol: Symbol, side: Side, qty: real,
                             later: map<Symbol, real>)
    ensures Submit(b, id, symbol, side, qty).Err? == Submit(b.(prices := later), id, symbol, side, qty).Err?
  {}
}
