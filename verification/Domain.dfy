/** The plain records that the planner, the executors and the ranking exchange. */
module Domain {
  import opened Wrappers

  type Symbol = string
  type Sector = string
  type Day = int  // a calendar date as a day number

  datatype Family = Valuation | Fundamentals | Momentum | Technical | Risk

  type Families = map<Family, Option<real>>

  type Signals = map<Family, map<string, Option<real>>>  // family -> metric -> raw value

  /** What the ranking is given about one company. */
  datatype StrategyCompany = StrategyCompany(symbol: Symbol, sector: Sector, signals: Signals)

  datatype StrategyScore = StrategyScore(
    symbol: Symbol,
    families: Families,
    composite: Option<real>,
    rank: Option<nat>,
    dataCompleteness: real,
    compositePercentile: Option<real>,
    weightCovered: real)

  datatype Bar = Bar(open: real, high: real, low: real, close: real)

  datatype CycleData = CycleData(
    symbol: Symbol,
    sector: Sector,
    bar: Bar,
    closes: seq<real>,
    signals: Signals,
    score: StrategyScore,
    atr: Option<real>)

  /** The value of a position's mutable state at one moment. */
  datatype Position = Position(
    symbol: Symbol,
    entryPrice: real,
    shares: real,
    atrAtEntry: real,
    stopPrice: real,
    targetPrice: real,
    entryComposite: Option<real>,
    entryFundamentals: Option<real>,
    tookPartial: bool,
    highestClose: real,
    reversalDays: nat)

  datatype Side = Buy | Sell

  function Metric(signals: Signals, family: Family, metric: string): Option<real> {
    if family in signals && metric in signals[family] then signals[family][metric] else None
  }

  function FamilyScore(score: StrategyScore, family: Family): Option<real> {
    if family in score.families then score.families[family] else None
  }

  /** Money for a quantity at a price. */
  function Amount(qty: real, price: real): real { qty * price }

  function Total(xs: seq<real>): real {
    if xs == [] then 0.0 else Total(xs[..|xs| - 1]) + xs[|xs| - 1]
  }

  lemma {:induction false} ConstantTotal(xs: seq<real>, c: real)
    requires forall i :: 0 <= i < |xs| ==> xs[i] == c
    ensures Total(xs) == |xs| as real * c
  {
    if xs != [] {
      ConstantTotal(xs[..|xs| - 1], c);
    }
  }

  /** Simple moving average of the last `window` prices. */
  function Sma(prices: seq<real>, window: nat): Option<real> {
    if |prices| < window || window == 0 then None
    else Some(Total(prices[|prices| - window..]) / window as real)
  }
}
