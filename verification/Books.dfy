/** The simulated book as a value: cash, open positions in the order they were opened, and the trade log. */
module Books {
  import opened Wrappers
  import opened Domain
  import opened Keys
  import opened Sums
  import opened Rules
  import opened Decision
  import opened CostModel

  datatype Trade = Trade(
    symbol: Symbol, side: Side, day: Day, shares: real, price: real, reason: TradeReason, realizedPnl: real)

  datatype Book = Book(cash: real, held: map<Symbol, Position>, order: seq<Symbol>, trades: seq<Trade>)

  ghost predicate WellFormed(b: Book) {
    Enumerates(b.order, b.held.Keys) && forall s :: s in b.held ==> b.held[s].symbol == s
  }

  function BuyBook(b: Book, symbol: Symbol, day: Day, shares: real, price: real, state: Position): Book {
    Book(b.cash - Amount(shares, price),
         b.held[symbol := state],
         if symbol in b.held then b.order else b.order + [symbol],
         b.trades + [Trade(symbol, Buy, day, shares, price, Entry, 0.0)])
  }

  function Fraction(shares: real, fraction: real): real { shares * fraction }

  function Gain(shares: real, price: real, entryPrice: real): real { shares * (price - entryPrice) }

  function SellBook(b: Book, symbol: Symbol, day: Day, fraction: real, price: real, reason: TradeReason): Book
    requires symbol in b.held
  {
    var pos := b.held[symbol];
    var shares := Fraction(pos.shares, fraction);
    var trade := Trade(symbol, Sell, day, shares, price, reason, Gain(shares, price, pos.entryPrice));
    if fraction >= 1.0
    then Book(b.cash + Amount(shares, price), b.held - {symbol}, Without(b.order, symbol), b.trades + [trade])
    else Book(b.cash + Amount(shares, price),
              b.held[symbol := pos.(shares := pos.shares - shares, tookPartial := true)], b.order, b.trades + [trade])
  }

  lemma SellFields(b: Book, symbol: Symbol, day: Day, fraction: real, price: real, reason: TradeReason)
    requires symbol in b.held
    ensures var c := SellBook(b, symbol, day, fraction, price, reason);
      var pos := b.held[symbol]; var shares := Fraction(pos.shares, fraction);
      && c.cash == b.cash + Amount(shares, price)
      && c.trades == b.trades + [Trade(symbol, Sell, day, shares, price, reason, Gain(shares, price, pos.entryPrice))]
      && (fraction >= 1.0 ==> c.held == b.held - {symbol} && c.order == Without(b.order, symbol))
      && (fraction < 1.0 ==> c.held == b.held[symbol := pos.(shares := pos.shares - shares, tookPartial := true)] && c.order == b.order)
  {
    hide Amount, Fraction, Gain, Without;
  }

  /** What a buy does to the book: pays for the shares, files the position under its symbol, and logs the trade. */
  lemma BuyFields(b: Book, symbol: Symbol, day: Day, shares: real, price: real, state: Position)
    ensures var c := BuyBook(b, symbol, day, shares, price, state);
      && c.cash == b.cash - Amount(shares, price) && c.held == b.held[symbol := state]
      && c.order == (if symbol in b.held then b.order else b.order + [symbol])
      && c.trades == b.trades + [Trade(symbol, Buy, day, shares, price, Entry, 0.0)]
  {
    hide Amount;
  }

  function Trail(pos: Position, a: SellAction): Position {
    pos.(stopPrice := a.newStop, highestClose := a.newHighestClose, reversalDays := a.reversalDays)
  }

  function VolumeRatio(d: CycleData): Option<real> { Metric(d.signals, Technical, "volume_spike") }

  /** Execute one exit intent: sell, then write the trail state back if the position is still open.
      Planned intents always name a held symbol with data (`PlannedFor`), so the first branch is never taken. */
  function ExitBook(b: Book, x: ExitIntent, data: Market, day: Day, pricing: Pricing): Book {
    if x.symbol !in b.held || x.symbol !in data then b
    else
      var a := x.action;
      var sold := if a.fraction > 0.0
                  then SellBook(b, x.symbol, day, a.fraction,
                                pricing(a.exitPrice, Sell, VolumeRatio(data[x.symbol])), Exit(a.reason))
                  else b;
      if x.symbol in sold.held
      then sold.(held := sold.held[x.symbol := Trail(sold.held[x.symbol], a)])
      else sold
  }

  lemma ExitUnfolds(b: Book, x: ExitIntent, data: Market, day: Day, pricing: Pricing, sold: Book)
    requires x.symbol in b.held && x.symbol in data
    requires sold == if x.action.fraction > 0.0
                     then SellBook(b, x.symbol, day, x.action.fraction,
                                   pricing(x.action.exitPrice, Sell, VolumeRatio(data[x.symbol])), Exit(x.action.reason))
                     else b
    ensures ExitBook(b, x, data, day, pricing) ==
            if x.symbol in sold.held then sold.(held := sold.held[x.symbol := Trail(sold.held[x.symbol], x.action)]) else sold
  {
    hide SellBook;
  }

  function EntryBook(b: Book, e: EntryIntent, data: Market, day: Day, pricing: Pricing): Book {
    if e.symbol !in data then b  // never taken: entries come from the data
    else
      var price := pricing(e.refPrice, Buy, VolumeRatio(data[e.symbol]));
      BuyBook(b, e.symbol, day, e.shares, price, Opened(e, price))
  }

  /** The volume ratio an execution is priced at: the technical signal of that name, when it is there. */
  lemma VolumeIs(d: CycleData)
    ensures VolumeRatio(d)
            == if Technical in d.signals && "volume_spike" in d.signals[Technical] then d.signals[Technical]["volume_spike"] else None
  {}

  /** What an executed exit logs: nothing when nothing is sold, else one sale of that share of the position, at the price of its
      exit, for the reason of its rule. */
  lemma ExitTrade(b: Book, x: ExitIntent, data: Market, day: Day, pricing: Pricing)
    requires x.symbol in b.held && x.symbol in data
    ensures var c := ExitBook(b, x, data, day, pricing); var a := x.action; var p := b.held[x.symbol]; var n := |b.trades|;
      && (a.fraction <= 0.0 ==> c.trades == b.trades && c.cash == b.cash)
      && (a.fraction > 0.0 ==>
            && |c.trades| == n + 1 && c.trades[..n] == b.trades
            && var t := c.trades[n]; var price := pricing(a.exitPrice, Sell, VolumeRatio(data[x.symbol]));
               && t.symbol == x.symbol && t.side == Sell && t.day == day && t.reason == Exit(a.reason) && t.price == price
               && t.shares == p.shares * a.fraction && t.realizedPnl == t.shares * (price - p.entryPrice)
               && c.cash == b.cash + t.shares * price)
  {
    hide VolumeRatio, Without, SellBook;
    var a := x.action;
    if a.fraction > 0.0 {
      var price := pricing(a.exitPrice, Sell, VolumeRatio(data[x.symbol]));
      SellFields(b, x.symbol, day, a.fraction, price, Exit(a.reason));
      ExitUnfolds(b, x, data, day, pricing, SellBook(b, x.symbol, day, a.fraction, price, Exit(a.reason)));
    }
  }

  /** What an executed entry logs and opens. */
  lemma EntryTrade(b: Book, e: EntryIntent, data: Market, day: Day, pricing: Pricing)
    requires e.symbol in data
    ensures var c := EntryBook(b, e, data, day, pricing); var price := pricing(e.refPrice, Buy, VolumeRatio(data[e.symbol]));
      && c.trades == b.trades + [Trade(e.symbol, Buy, day, e.shares, price, Entry, 0.0)]
      && c.cash == b.cash - e.shares * price
      && e.symbol in c.held && c.held[e.symbol].entryPrice == price && c.held[e.symbol].shares == e.shares
  {
    hide VolumeRatio;
  }

  /** Exits are about distinct held symbols that have data. */
  ghost predicate Executable(xs: seq<ExitIntent>, held: map<Symbol, Position>, data: Market) {
    && (forall i :: 0 <= i < |xs| ==> xs[i].symbol in held && xs[i].symbol in data)
    && (forall i, j :: 0 <= i < j < |xs| ==> xs[i].symbol != xs[j].symbol)
  }

  ghost predicate Priced(es: seq<EntryIntent>, data: Market) {
    forall i :: 0 <= i < |es| ==> es[i].symbol in data
  }

  function Exits(b: Book, xs: seq<ExitIntent>, data: Market, day: Day, pricing: Pricing): Book
    decreases |xs|
  {
    if xs == [] then b else Exits(ExitBook(b, xs[0], data, day, pricing), xs[1..], data, day, pricing)
  }

  function Entries(b: Book, es: seq<EntryIntent>, data: Market, day: Day, pricing: Pricing): Book
    decreases |es|
  {
    if es == [] then b else Entries(EntryBook(b, es[0], data, day, pricing), es[1..], data, day, pricing)
  }

  function Execute(b: Book, plan: CyclePlan, data: Market, day: Day, pricing: Pricing): Book {
    Entries(Exits(b, plan.exits, data, day, pricing), plan.entries, data, day, pricing)
  }

  // ---------- what one exit does ----------

  function Put(held: map<Symbol, Position>, s: Symbol, p: Option<Position>): map<Symbol, Position> {
    if p.None? then held - {s} else held[s := p.value]
  }

  /** An executed exit leaves exactly what the sell rules say is left, and touches no other position. */
  lemma ExitIsAfterAction(b: Book, x: ExitIntent, data: Market, day: Day, pricing: Pricing)
    requires x.symbol in b.held && x.symbol in data && WellFormed(b) && x.action.fraction >= 0.0
    ensures var c := ExitBook(b, x, data, day, pricing);
      && c.held == Put(b.held, x.symbol, AfterAction(b.held[x.symbol], x.action))
      && c.order == (if x.action.fraction >= 1.0 then Without(b.order, x.symbol) else b.order)
      && WellFormed(c) && |c.order| <= |b.order|
  {
    var c := ExitBook(b, x, data, day, pricing);
    var left := AfterAction(b.held[x.symbol], x.action);
    if x.action.fraction < 1.0 {
      assert c.held[x.symbol] == left.value;
      assert forall s :: s in c.held <==> s in b.held;
    }
  }

  ghost predicate PlannedFor(xs: seq<ExitIntent>, held: map<Symbol, Position>, data: Market) {
    && Executable(xs, held, data)
    && forall i :: 0 <= i < |xs| ==> xs[i].action == SellFor(held[xs[i].symbol], data[xs[i].symbol])
  }

  ghost function Touched(xs: seq<ExitIntent>): set<Symbol> {
    set i | 0 <= i < |xs| :: xs[i].symbol
  }

  /** Symbol `s` holds exactly what is left. */
  ghost predicate Becomes(held: map<Symbol, Position>, s: Symbol, left: Option<Position>) {
    if left.None? then s !in held else s in held && held[s] == left.value
  }

  lemma PlannedRest(b: Book, xs: seq<ExitIntent>, data: Market, day: Day, pricing: Pricing)
    requires WellFormed(b) && PlannedFor(xs, b.held, data) && xs != []
    ensures var c := ExitBook(b, xs[0], data, day, pricing);
      && WellFormed(c) && PlannedFor(xs[1..], c.held, data) && |c.order| <= |b.order|
      && Becomes(c.held, xs[0].symbol, AfterAction(b.held[xs[0].symbol], xs[0].action))
      && (forall s :: s in b.held && s != xs[0].symbol ==> s in c.held && c.held[s] == b.held[s])
      && c.held.Keys <= b.held.Keys
      && Touched(xs) == {xs[0].symbol} + Touched(xs[1..]) && xs[0].symbol !in Touched(xs[1..])
  {
    hide SellFor, AfterAction, ExitBook, Enumerates;
    SellForFraction(b.held[xs[0].symbol], data[xs[0].symbol]);
    ExitIsAfterAction(b, xs[0], data, day, pricing);
    assert forall i :: 0 <= i < |xs| - 1 ==> xs[1..][i] == xs[i + 1];
    TouchedRest(xs, b.held, data);
  }

  lemma SellForFraction(p: Position, d: CycleData)
    ensures 0.0 <= SellFor(p, d).fraction <= 1.0
  {}

  lemma TouchedRest(xs: seq<ExitIntent>, held: map<Symbol, Position>, data: Market)
    requires xs != [] && Executable(xs, held, data)
    ensures Touched(xs) == {xs[0].symbol} + Touched(xs[1..]) && xs[0].symbol !in Touched(xs[1..])
  {
    forall s ensures s in Touched(xs) <==> s == xs[0].symbol || s in Touched(xs[1..]) {
      if s in Touched(xs) && s != xs[0].symbol {
        var i :| 0 <= i < |xs| && xs[i].symbol == s;
        assert xs[1..][i - 1].symbol == s;
      }
    }
  }

  /** After all exits each position is what its own sell action leaves; positions without data are untouched. */
  lemma {:induction false} ExitsAreAfterActions(b: Book, xs: seq<ExitIntent>, data: Market, day: Day, pricing: Pricing)
    requires WellFormed(b) && PlannedFor(xs, b.held, data)
    ensures var c := Exits(b, xs, data, day, pricing);
      && WellFormed(c) && |c.order| <= |b.order| && c.held.Keys <= b.held.Keys
      && (forall s :: s in Touched(xs) ==>
            s in b.held && s in data && Becomes(c.held, s, AfterAction(b.held[s], SellFor(b.held[s], data[s]))))
      && (forall s :: s in b.held && s !in Touched(xs) ==> s in c.held && c.held[s] == b.held[s])
    decreases |xs|
  {
    if xs != [] {
      PlannedRest(b, xs, data, day, pricing);
      ExitsAreAfterActions(ExitBook(b, xs[0], data, day, pricing), xs[1..], data, day, pricing);
    }
  }

  // ---------- the book equation ----------

  function Cost(p: Position): real { p.shares * p.entryPrice }

  function Costs(held: map<Symbol, Position>): map<Symbol, real> {
    map s | s in held :: Cost(held[s])
  }

  function CostBasis(b: Book): real { Sum(b.order, Costs(b.held)) }

  function Realized(trades: seq<Trade>): real {
    if trades == [] then 0.0 else Realized(trades[..|trades| - 1]) + trades[|trades| - 1].realizedPnl
  }

  lemma RealizedAppend(trades: seq<Trade>, t: Trade)
    ensures Realized(trades + [t]) == Realized(trades) + t.realizedPnl
  {
    assert (trades + [t])[..|trades|] == trades;
  }

  /** Cash plus the cost of what is held, less what was realized: constant over any run. */
  function Imbalance(b: Book): real { b.cash + CostBasis(b) - Realized(b.trades) }

  ghost predicate SameBut(b: Book, c: Book, k: Symbol) {
    forall s :: s in b.order && s != k ==> s in b.held && s in c.held && c.held[s] == b.held[s]
  }

  lemma BasisReplace(b: Book, c: Book, k: Symbol)
    requires NoDup(b.order) && k in b.order && c.order == b.order && SameBut(b, c, k) && k in b.held && k in c.held
    ensures CostBasis(c) == CostBasis(b) - Cost(b.held[k]) + Cost(c.held[k])
  {
    SumReplace(b.order, Costs(b.held), Costs(c.held), k);
  }

  lemma BasisRemove(b: Book, c: Book, k: Symbol)
    requires NoDup(b.order) && k in b.order && c.order == Without(b.order, k) && SameBut(b, c, k) && k in b.held
    ensures CostBasis(c) == CostBasis(b) - Cost(b.held[k])
  {
    SumWithout(b.order, Costs(b.held), k);
    SumCong(c.order, Costs(b.held), Costs(c.held));
  }

  lemma BasisAdd(b: Book, c: Book, k: Symbol)
    requires k !in b.order && c.order == b.order + [k] && SameBut(b, c, k) && k in c.held
    ensures CostBasis(c) == CostBasis(b) + Cost(c.held[k])
  {
    SumExtend(b.order, Costs(b.held), Costs(c.held), k);
  }

  lemma SellMoney(cash: real, basis: real, realized: real, shares: real, sold: real, price: real, entry: real)
    ensures cash + sold * price + (basis - shares * entry + (shares - sold) * entry) - (realized + sold * (price - entry))
            == cash + basis - realized
    ensures sold == shares ==> (shares - sold) * entry == 0.0
  {}

  lemma BuyShape(b: Book, symbol: Symbol, day: Day, shares: real, price: real, state: Position)
    requires WellFormed(b) && symbol !in b.held && state.symbol == symbol
    ensures var c := BuyBook(b, symbol, day, shares, price, state);
      && WellFormed(c) && symbol !in b.order && c.order == b.order + [symbol] && SameBut(b, c, symbol)
      && c.held[symbol] == state
  {}

  lemma BuyWellFormed(b: Book, symbol: Symbol, day: Day, shares: real, price: real, state: Position)
    requires WellFormed(b) && state.symbol == symbol
    ensures WellFormed(BuyBook(b, symbol, day, shares, price, state))
  {}

  lemma SellShape(b: Book, symbol: Symbol, day: Day, fraction: real, price: real, reason: TradeReason)
    requires WellFormed(b) && symbol in b.held
    ensures var c := SellBook(b, symbol, day, fraction, price, reason);
      && WellFormed(c) && symbol in b.order && SameBut(b, c, symbol)
      && c.order == if fraction >= 1.0 then Without(b.order, symbol) else b.order
  {}

  /** The money side of a trade, given what it does to the cost basis and the trade log. */
  lemma SellBalancesGiven(b: Book, c: Book, shares: real, sold: real, price: real, entry: real)
    requires c.cash == b.cash + sold * price
    requires CostBasis(c) == CostBasis(b) - shares * entry + (shares - sold) * entry
    requires Realized(c.trades) == Realized(b.trades) + sold * (price - entry)
    ensures Imbalance(c) == Imbalance(b)
  {
    SellMoney(b.cash, CostBasis(b), Realized(b.trades), shares, sold, price, entry);
  }

  lemma SellBasis(b: Book, symbol: Symbol, day: Day, fraction: real, price: real, reason: TradeReason)
    requires WellFormed(b) && symbol in b.held && 0.0 < fraction <= 1.0
    ensures var pos := b.held[symbol]; var sold := pos.shares * fraction;
      CostBasis(SellBook(b, symbol, day, fraction, price, reason))
        == CostBasis(b) - pos.shares * pos.entryPrice + (pos.shares - sold) * pos.entryPrice
  {
    hide Sum, Costs, Without;
    var c := SellBook(b, symbol, day, fraction, price, reason);
    SellShape(b, symbol, day, fraction, price, reason);
    if fraction == 1.0 {
      BasisRemove(b, c, symbol);
      SellMoney(0.0, 0.0, 0.0, b.held[symbol].shares, b.held[symbol].shares * fraction, price, b.held[symbol].entryPrice);
    } else {
      BasisReplace(b, c, symbol);
    }
  }

  lemma SellBalances(b: Book, symbol: Symbol, day: Day, fraction: real, price: real, reason: TradeReason)
    requires WellFormed(b) && symbol in b.held && 0.0 < fraction <= 1.0
    ensures Imbalance(SellBook(b, symbol, day, fraction, price, reason)) == Imbalance(b)
  {
    hide Sum, Realized, Costs, Without, Enumerates;
    var c := SellBook(b, symbol, day, fraction, price, reason);
    var pos := b.held[symbol];
    RealizedAppend(b.trades, c.trades[|b.trades|]);
    SellBasis(b, symbol, day, fraction, price, reason);
    SellBalancesGiven(b, c, pos.shares, pos.shares * fraction, price, pos.entryPrice);
  }

  lemma TrailBalances(b: Book, symbol: Symbol, a: SellAction)
    requires WellFormed(b) && symbol in b.held
    ensures Imbalance(b.(held := b.held[symbol := Trail(b.held[symbol], a)])) == Imbalance(b)
  {
    BasisReplace(b, b.(held := b.held[symbol := Trail(b.held[symbol], a)]), symbol);
  }

  lemma ExitBalances(b: Book, x: ExitIntent, data: Market, day: Day, pricing: Pricing)
    requires WellFormed(b) && x.symbol in b.held && x.symbol in data && 0.0 <= x.action.fraction <= 1.0
    ensures Imbalance(ExitBook(b, x, data, day, pricing)) == Imbalance(b)
  {
    hide Imbalance, SellBook, ExitBook, Trail, Enumerates, VolumeRatio;
    var a := x.action;
    var sold := b;
    if a.fraction > 0.0 {
      var price := pricing(a.exitPrice, Sell, VolumeRatio(data[x.symbol]));
      sold := SellBook(b, x.symbol, day, a.fraction, price, Exit(a.reason));
      SellShape(b, x.symbol, day, a.fraction, price, Exit(a.reason));
      SellBalances(b, x.symbol, day, a.fraction, price, Exit(a.reason));
    }
    ExitUnfolds(b, x, data, day, pricing, sold);
    if x.symbol in sold.held {
      TrailBalances(sold, x.symbol, a);
    }
  }

  lemma EntryBalances(b: Book, e: EntryIntent, data: Market, day: Day, pricing: Pricing)
    requires WellFormed(b) && e.symbol in data && e.symbol !in b.held
    ensures var c := EntryBook(b, e, data, day, pricing);
      Imbalance(c) == Imbalance(b) && WellFormed(c) && |c.order| == |b.order| + 1
  {
    hide Sum, Costs, Realized, Enumerates;
    var price := pricing(e.refPrice, Buy, VolumeRatio(data[e.symbol]));
    var c := EntryBook(b, e, data, day, pricing);
    BuyShape(b, e.symbol, day, e.shares, price, Opened(e, price));
    RealizedAppend(b.trades, c.trades[|b.trades|]);
    BasisAdd(b, c, e.symbol);
  }

  lemma {:induction false} ExitsBalance(b: Book, xs: seq<ExitIntent>, data: Market, day: Day, pricing: Pricing)
    requires WellFormed(b) && PlannedFor(xs, b.held, data)
    ensures Imbalance(Exits(b, xs, data, day, pricing)) == Imbalance(b)
    decreases |xs|
  {
    if xs != [] {
      ExitBalances(b, xs[0], data, day, pricing);
      PlannedRest(b, xs, data, day, pricing);
      ExitsBalance(ExitBook(b, xs[0], data, day, pricing), xs[1..], data, day, pricing);
    }
  }

  /** Entries into distinct symbols that are not held. */
  ghost predicate NewNames(es: seq<EntryIntent>, held: set<Symbol>, data: Market) {
    && Priced(es, data)
    && (forall i :: 0 <= i < |es| ==> es[i].symbol !in held)
    && (forall i, j :: 0 <= i < j < |es| ==> es[i].symbol != es[j].symbol)
  }

  lemma NewNamesRest(b: Book, es: seq<EntryIntent>, data: Market, day: Day, pricing: Pricing)
    requires NewNames(es, b.held.Keys, data) && es != []
    ensures NewNames(es[1..], EntryBook(b, es[0], data, day, pricing).held.Keys, data)
  {
    assert forall i :: 0 <= i < |es| - 1 ==> es[1..][i] == es[i + 1];
  }

  lemma {:induction false} EntriesLeaveAlone(b: Book, es: seq<EntryIntent>, data: Market, day: Day, pricing: Pricing,
                                             s: Symbol)
    requires forall i :: 0 <= i < |es| ==> es[i].symbol != s
    ensures var c := Entries(b, es, data, day, pricing);
      (s in c.held <==> s in b.held) && (s in b.held ==> c.held[s] == b.held[s])
    decreases |es|
  {
    if es != [] {
      EntriesLeaveAlone(EntryBook(b, es[0], data, day, pricing), es[1..], data, day, pricing, s);
    }
  }

  /** Each entry opens its position at the price it was executed at. */
  lemma {:induction false} EntryOpens(b: Book, es: seq<EntryIntent>, data: Market, day: Day, pricing: Pricing, k: nat)
    requires NewNames(es, b.held.Keys, data) && k < |es|
    ensures var c := Entries(b, es, data, day, pricing); var e := es[k];
      e.symbol in c.held && c.held[e.symbol] == Opened(e, pricing(e.refPrice, Buy, VolumeRatio(data[e.symbol])))
    decreases |es|
  {
    hide Amount, VolumeRatio;
    var first := EntryBook(b, es[0], data, day, pricing);
    if k == 0 {
      EntriesLeaveAlone(first, es[1..], data, day, pricing, es[0].symbol);
    } else {
      NewNamesRest(b, es, data, day, pricing);
      EntryOpens(first, es[1..], data, day, pricing, k - 1);
    }
  }

  lemma {:induction false} EntriesBalance(b: Book, es: seq<EntryIntent>, data: Market, day: Day, pricing: Pricing)
    requires WellFormed(b) && NewNames(es, b.held.Keys, data)
    ensures var c := Entries(b, es, data, day, pricing);
      Imbalance(c) == Imbalance(b) && WellFormed(c) && |c.order| == |b.order| + |es|
    decreases |es|
  {
    if es != [] {
      EntryBalances(b, es[0], data, day, pricing);
      NewNamesRest(b, es, data, day, pricing);
      EntriesBalance(EntryBook(b, es[0], data, day, pricing), es[1..], data, day, pricing);
    }
  }

  /** One executed plan keeps the book equation, whatever the pricing rule. */
  lemma ExecuteBalances(b: Book, plan: CyclePlan, data: Market, day: Day, pricing: Pricing)
    requires WellFormed(b) && PlannedFor(plan.exits, b.held, data) && NewNames(plan.entries, b.held.Keys, data)
    ensures var c := Execute(b, plan, data, day, pricing);
      Imbalance(c) == Imbalance(b) && WellFormed(c) && |c.order| <= |b.order| + |plan.entries|
  {
    ExitsBalance(b, plan.exits, data, day, pricing);
    ExitsAreAfterActions(b, plan.exits, data, day, pricing);
    EntriesBalance(Exits(b, plan.exits, data, day, pricing), plan.entries, data, day, pricing);
  }
}
