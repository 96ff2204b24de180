/** The simulated portfolio as the backtester keeps it: a mutable ledger of mutable positions. */
module Portfolio {
  import opened Wrappers
  import opened Domain
  import opened Keys
  import opened Rules
  import opened Books

  class PositionState {
    const symbol: Symbol
    var entryPrice: real
    var shares: real
    var atrAtEntry: real
    var stopPrice: real
    var targetPrice: real
    var entryComposite: Option<real>
    var entryFundamentals: Option<real>
    var tookPartial: bool
    var highestClose: real
    var reversalDays: nat

    constructor (p: Position)
      ensures symbol == p.symbol && Value() == p
    {
      symbol := p.symbol;
      entryPrice, shares, atrAtEntry := p.entryPrice, p.shares, p.atrAtEntry;
      stopPrice, targetPrice := p.stopPrice, p.targetPrice;
      entryComposite, entryFundamentals := p.entryComposite, p.entryFundamentals;
      tookPartial, highestClose, reversalDays := p.tookPartial, p.highestClose, p.reversalDays;
    }

    function Value(): Position
      reads this
    {
      Position(symbol, entryPrice, shares, atrAtEntry, stopPrice, targetPrice, entryComposite, entryFundamentals,
               tookPartial, highestClose, reversalDays)
    }
  }

  class SimPortfolio {
    var cash: real
    var positions: map<Symbol, PositionState>
    var order: seq<Symbol>  // the insertion order of `positions`
    var trades: seq<Trade>

    function Held(): map<Symbol, Position>
      reads this, positions.Values
    {
      map s | s in positions :: positions[s].Value()
    }

    function Contents(): Book
      reads this, positions.Values
    {
      Book(cash, Held(), order, trades)
    }

    /** Every position is filed under its own symbol, so no two symbols share one. */
    ghost predicate Valid()
      reads this, positions.Values
    {
      WellFormed(Contents())
    }

    constructor (initial: real)
      ensures Valid() && Contents() == Book(initial, map[], [], [])
      ensures positions == map[]
    {
      cash, positions, order, trades := initial, map[], [], [];
    }

    method Buy(symbol: Symbol, day: Day, shares: real, price: real, state: PositionState)
      requires Valid() && state.symbol == symbol
      modifies this
      ensures Valid() && positions == old(positions)[symbol := state]
      ensures Contents() == BuyBook(old(Contents()), symbol, day, shares, price, old(state.Value()))
    {
      hide Enumerates;
      ghost var before, held := Contents(), Held();
      cash := cash - Amount(shares, price);
      if symbol !in positions {
        order := order + [symbol];
      }
      positions := positions[symbol := state];
      trades := trades + [Trade(symbol, Side.Buy, day, shares, price, Entry, 0.0)];
      assert Held() == held[symbol := state.Value()];
      BuyWellFormed(before, symbol, day, shares, price, state.Value());
    }

    method Sell(symbol: Symbol, day: Day, fraction: real, price: real, reason: TradeReason)
      requires Valid() && symbol in positions
      modifies this, positions[symbol]
      ensures Valid() && positions == (if fraction >= 1.0 then old(positions) - {symbol} else old(positions))
      ensures Contents() == SellBook(old(Contents()), symbol, day, fraction, price, reason)
    {
      hide Fraction, Gain, Without, Enumerates, SellBook;
      SellShape(Contents(), symbol, day, fraction, price, reason);
      SellFields(Contents(), symbol, day, fraction, price, reason);
      ghost var after := SellBook(Contents(), symbol, day, fraction, price, reason);
      ghost var held := Held();
      var pos := positions[symbol];
      ghost var p := held[symbol];
      assert p == pos.Value();
      var sold := Fraction(pos.shares, fraction);
      var realized := Gain(sold, price, pos.entryPrice);
      cash := cash + Amount(sold, price);
      trades := trades + [Trade(symbol, Side.Sell, day, sold, price, reason, realized)];
      if fraction >= 1.0 {
        positions := positions - {symbol};
        order := Without(order, symbol);
        assert Held() == after.held;
      } else {
        pos.shares := pos.shares - sold;
        pos.tookPartial := true;
        assert pos.Value() == p.(shares := p.shares - sold, tookPartial := true);
        assert Held() == after.held;
      }
    }
  }
}
