/** The two executors agree: with zero execution cost the simulated book and the live book stay the same, cycle after cycle. */
module Parity {
  import opened Wrappers
  import opened Domain
  import opened Keys
  import opened Sums
  import opened Rules
  import opened Decision
  import opened CostModel
  import opened Books
  import opened DataWindow
  import opened Engine
  import opened Broker
  import opened OrderLedger
  import opened LiveBook
  import opened LiveCycle
  import opened LiveRuns

  // ---------- one cycle on the same inputs, seen from each side ----------

  function Marks(data: Market): map<Symbol, real> {
    map s | s in data :: data[s].bar.close
  }

  function SimPlan(b: Book, i: Inputs, sectors: map<Symbol, Sector>): CyclePlan
    requires forall s :: s in i.order ==> s in i.data
  {
    CycleFor(i.data, i.order, b.held, b.order, Equity(b, Marks(i.data)), b.cash,
             SectorNotional(b.order, b.held, sectors, Marks(i.data)), 0, i.nScored)
  }

  /** The simulated cycle under a pricing rule. */
  function SimCycleAt(b: Book, i: Inputs, sectors: map<Symbol, Sector>, pricing: Pricing): Book
    requires forall s :: s in i.order ==> s in i.data
  {
    Execute(b, SimPlan(b, i, sectors), i.data, i.day, pricing)
  }

  function SimCycle(b: Book, i: Inputs, sectors: map<Symbol, Sector>): Book
    requires forall s :: s in i.order ==> s in i.data
  {
    SimCycleAt(b, i, sectors, MidPrice)
  }

  /** The holdings as the mirror stores them. */
  function Mirrored(held: map<Symbol, Position>, stored: Storage): map<Symbol, Position> {
    map s | s in held :: held[s].(shares := stored(held[s].shares))
  }

  function QuotedValues(held: map<Symbol, Position>, quotes: map<Symbol, real>): map<Symbol, real> {
    map s | s in held && s in quotes :: Amount(held[s].shares, quotes[s])
  }

  /** The plan the live engine makes on the same book, exits in book order: equity from the broker's quotes, sector totals from
      the mirror. */
  function LivePlanFor(b: Book, i: Inputs): CyclePlan
    requires forall s :: s in i.order ==> s in i.data
  {
    CycleFor(i.data, i.order, b.held, b.order, b.cash + Sum(b.order, QuotedValues(b.held, i.quotes)), b.cash,
             LiveSectorNotional(b.order, Mirrored(b.held, i.stored), i.data), 0, i.nScored)
  }

  /** Carrying that plan out on the book at its own prices. */
  function LivePlanned(b: Book, i: Inputs): Book
    requires forall s :: s in i.order ==> s in i.data
  {
    Execute(b, LivePlanFor(b, i), i.data, i.day, MidPrice)
  }

  /** Both engines decide the same entries. */
  predicate SameEntries(b: Book, i: Inputs, sectors: map<Symbol, Sector>)
    requires forall s :: s in i.order ==> s in i.data
  {
    LivePlanFor(b, i).entries == SimPlan(b, i, sectors).entries
  }

  // ---------- the simulation relation ----------

  /** The broker's holding and the thesis of `s` together are the position `p`. */
  ghost predicate Matches(w: World, s: Symbol, p: Position) {
    && s in w.broker.positions && w.broker.positions[s] == BrokerPosition(p.shares, p.entryPrice)
    && s in w.local.theses && StateOf(s, p.shares, w.local.theses[s]) == p
  }

  ghost predicate Absent(w: World, s: Symbol) {
    s !in w.broker.positions && s !in w.local.theses
  }

  /** Same cash, same symbols, and for each symbol the same shares, entry, stop, target, high-water mark, reversal count
      and latch. */
  ghost predicate Agree(b: Book, w: World) {
    && WellFormed(b) && w.broker.cash == b.cash
    && forall s :: if s in b.held then Matches(w, s, b.held[s]) else Absent(w, s)
  }

  /** Large enough that neither a trim nor the broker's dust rule makes a position vanish. */
  ghost predicate AboveDust(held: map<Symbol, Position>) {
    forall s :: s in held ==> held[s].shares > if held[s].tookPartial then DUST else 2.0 * DUST
  }

  /** Every order so far belongs to an earlier cycle and an earlier day. */
  ghost predicate Behind(w: World, cycle: nat, day: Day) {
    && (forall id :: id in w.broker.orders ==> id.cycle < cycle)
    && (forall id :: id in w.ledger.orders ==> id.cycle < cycle && w.ledger.orders[id].submitted < day)
  }

  const MAX_PRICE := 50000000000.0

  /** The conditions the live cycle rests on: no fuse, every holding is of a known company and quoted, and orders execute at the
      planned prices. Nothing is asked of holdings without data, or of how the mirror rounds. */
  ghost predicate Comparable(b: Book, i: Inputs) {
    && Snapshotted(i) && !i.halted && !i.locked
    && i.data.Keys <= i.known && b.held.Keys <= i.known && b.held.Keys <= i.quotes.Keys
    && (forall s :: s in i.data ==> i.data[s].bar.close < MAX_PRICE)
    && ZeroCost(LivePlanFor(b, i), i)
  }

  /** While executing, the broker quotes exactly the prices the plan intends. */
  ghost predicate ZeroCost(plan: CyclePlan, i: Inputs) {
    && (forall k :: 0 <= k < |plan.exits| && plan.exits[k].action.fraction > 0.0 ==>
          plan.exits[k].symbol in i.fills && i.fills[plan.exits[k].symbol] == plan.exits[k].action.exitPrice)
    && (forall k :: 0 <= k < |plan.entries| ==>
          plan.entries[k].symbol in i.fills && i.fills[plan.entries[k].symbol] == plan.entries[k].refPrice)
  }

  // ---------- both sides make the same plan ----------

  lemma ReconciledAgrees(b: Book, w: World, i: Inputs, local: LocalBook)
    requires Agree(b, w) && local.theses == w.local.theses
    requires b.held.Keys <= i.known && local.mirror.Keys <= i.known
    ensures var r := Reconciled(local, w.broker.positions, i.known, i.stored);
      && r.theses == local.theses && r.mirror.Keys == b.held.Keys
      && forall s :: s in b.held ==> r.mirror[s] == MirrorRow(i.stored(b.held[s].shares), b.held[s].entryPrice)
  {
    var r := Reconciled(local, w.broker.positions, i.known, i.stored);
    assert w.broker.positions.Keys == b.held.Keys;
    assert r.theses == local.theses;
  }

  lemma AdoptionIdle(local: LocalBook, data: Market)
    requires local.mirror.Keys <= local.theses.Keys
    ensures Adopted(local, data) == local
  {
    assert Adopted(local, data).theses == local.theses;
  }

  lemma PositionsAgree(b: Book, local: LocalBook, stored: Storage)
    requires local.mirror.Keys == b.held.Keys == local.theses.Keys
    requires forall s :: s in b.held ==>
               local.mirror[s].shares == stored(b.held[s].shares) && StateOf(s, b.held[s].shares, local.theses[s]) == b.held[s]
    ensures LivePositions(local) == Mirrored(b.held, stored)
  {
    forall s | s in b.held ensures LivePositions(local)[s] == b.held[s].(shares := stored(b.held[s].shares)) {
      assert StateOf(s, b.held[s].shares, local.theses[s]) == b.held[s];
    }
  }

  lemma PreparedAgrees(b: Book, w: World, i: Inputs)
    requires Agree(b, w) && b.held.Keys <= i.known && w.local.mirror.Keys <= b.held.Keys
    ensures var p := Prepared(w, i);
      && Agree(b, p) && LivePositions(p.local) == Mirrored(b.held, i.stored) && p.local.mirror.Keys == b.held.Keys
      && p.ledger == w.ledger && p.broker == w.broker.(prices := w.broker.prices + i.quotes) && p.broker.cash == b.cash
  {
    hide Reconciled, LivePositions, Adopted, Enumerates, Mirrored;
    var p := Prepared(w, i);
    var quoted := w.(broker := w.broker.(prices := w.broker.prices + i.quotes));
    assert Agree(b, quoted);
    ReconciledAgrees(b, quoted, i, w.local);
    var r := Reconciled(w.local, w.broker.positions, i.known, i.stored);
    assert r.theses.Keys == b.held.Keys;
    AdoptionIdle(r, i.data);
    PositionsAgree(b, r, i.stored);
  }

  /** The broker's account equity is the book at the broker's quotes. */
  lemma QuotedEquity(b: Book, p: World, i: Inputs, before: map<Symbol, real>)
    requires Agree(b, p) && Lists(i) && b.held.Keys <= i.quotes.Keys && p.broker.prices == before + i.quotes
    ensures AccountEquity(p.broker, i.list(p.broker.positions.Keys)) == b.cash + Sum(b.order, QuotedValues(b.held, i.quotes))
  {
    var listed := i.list(p.broker.positions.Keys);
    var v, w := PositionValues(p.broker), QuotedValues(b.held, i.quotes);
    assert p.broker.positions.Keys == b.held.Keys;
    assert Enumerates(listed, b.held.Keys);
    forall s | s in listed ensures Weight(v, s) == Weight(w, s) {
      assert s in b.held && s in i.quotes;
    }
    SumCong(listed, v, w);
    EnumerationsPermute(listed, b.order, b.held.Keys);
    SumPermutation(listed, b.order, w);
  }

  /** Where the live engine files each holding: under the sector its data names, or under "Unknown". */
  function LiveSectors(held: map<Symbol, Position>, data: Market): map<Symbol, Sector> {
    map s | s in held :: if s in data then data[s].sector else "Unknown"
  }

  /** The live totals are the simulated rule under the live filing. */
  lemma {:induction false} LiveTotalsAreSectorTotals(order: seq<Symbol>, held: map<Symbol, Position>, data: Market)
    ensures LiveSectorNotional(order, held, data) == SectorNotional(order, held, LiveSectors(held, data), Marks(data))
  {
    if order != [] {
      LiveTotalsAreSectorTotals(order[..|order| - 1], held, data);
    }
  }

  lemma SectorNotionalPermutes(x: seq<Symbol>, y: seq<Symbol>, held: map<Symbol, Position>,
                               sectors: map<Symbol, Sector>,
                               marks: map<Symbol, real>)
    requires Enumerates(x, held.Keys) && Enumerates(y, held.Keys)
    ensures SectorNotional(x, held, sectors, marks) == SectorNotional(y, held, sectors, marks)
  {
    hide Sum, SectorWeights, SectorNotional;
    var a, b := SectorNotional(x, held, sectors, marks), SectorNotional(y, held, sectors, marks);
    EnumerationsPermute(x, y, held.Keys);
    forall k ensures k in a <==> k in b {
      SectorTotal(x, held, sectors, marks, k);
      SectorTotal(y, held, sectors, marks, k);
      SameRepresentation(x, y, held, sectors, k);
    }
    forall k | k in a ensures a[k] == b[k] {
      SectorTotal(x, held, sectors, marks, k);
      SectorTotal(y, held, sectors, marks, k);
      SumPermutation(x, y, SectorWeights(held, sectors, marks, k));
    }
  }

  lemma SameRepresentation(x: seq<Symbol>, y: seq<Symbol>, held: map<Symbol, Position>, sectors: map<Symbol, Sector>,
                           k: Sector)
    requires Enumerates(x, held.Keys) && Enumerates(y, held.Keys)
    ensures Represents(x, held, sectors, k) <==> Represents(y, held, sectors, k)
  {
    if Represents(x, held, sectors, k) {
      var j :| 0 <= j < |x| && x[j] in held && SectorFor(sectors, x[j]) == k;
      assert x[j] in y;
    }
    if Represents(y, held, sectors, k) {
      var j :| 0 <= j < |y| && y[j] in held && SectorFor(sectors, y[j]) == k;
      assert y[j] in x;
    }
  }

  /** The order in which the live engine lists its positions. */
  function Listed(p: World, i: Inputs): seq<Symbol> {
    Keep(i.list(p.local.mirror.Keys), LivePositions(p.local).Keys)
  }

  /** A sell decision does not look at the share count, so rounding in the mirror cannot change it. */
  lemma SellIgnoresShares(p: Position, shares: real, d: CycleData)
    ensures SellFor(p.(shares := shares), d) == SellFor(p, d)
  {}

  lemma {:induction false} ExitsIgnoreShares(order: seq<Symbol>, held: map<Symbol, Position>, stored: Storage, data: Market)
    ensures ExitsFor(order, Mirrored(held, stored), data) == ExitsFor(order, held, data)
  {
    hide SellFor;
    if order != [] {
      var s := order[|order| - 1];
      ExitsIgnoreShares(order[..|order| - 1], held, stored, data);
      if s in held && s in data {
        SellIgnoresShares(held[s], stored(held[s].shares), data[s]);
      }
    }
  }

  /** On related states the live engine plans the exits of the simulated book, up to the order in which they are listed, and
      the entries of `LivePlanFor`. */
  lemma LivePlanOnBook(b: Book, w: World, i: Inputs)
    requires Agree(b, w) && Snapshotted(i) && w.local.mirror.Keys <= b.held.Keys && Behind(w, i.cycle, i.day)
    requires b.held.Keys <= i.known && b.held.Keys <= i.quotes.Keys
    ensures var p := Prepared(w, i); var live := LivePlan(p, i);
      && live.entries == LivePlanFor(b, i).entries
      && Enumerates(Listed(p, i), b.held.Keys) && live.exits == ExitsFor(Listed(p, i), b.held, i.data)
  {
    hide Prepared, EntriesFor, ExitsFor, AccountEquity, SectorNotional, LiveSectorNotional, Agree, LivePositions, Enumerates, Keep,
         Mirrored, QuotedValues, LiveSectors, Behind;
    var p := Prepared(w, i);
    var seen := Mirrored(b.held, i.stored);
    PreparedAgrees(b, w, i);
    assert seen.Keys == b.held.Keys by { MirroredKeys(b.held, i.stored); }
    QuotedEquity(b, p, i, w.broker.prices);
    HeldAreListed(p.local, i);
    AgreeEnumerates(b, w);
    LiveTotalsAreSectorTotals(Listed(p, i), seen, i.data);
    LiveTotalsAreSectorTotals(b.order, seen, i.data);
    SectorNotionalPermutes(Listed(p, i), b.order, seen, LiveSectors(seen, i.data), Marks(i.data));
    ExitsIgnoreShares(Listed(p, i), b.held, i.stored, i.data);
    NoBuysYet(p.ledger, w, i);
  }

  lemma MirroredKeys(held: map<Symbol, Position>, stored: Storage)
    ensures Mirrored(held, stored).Keys == held.Keys
  {}

  lemma NoBuysYet(l: Ledger, w: World, i: Inputs)
    requires Behind(w, i.cycle, i.day) && l == w.ledger
    ensures BuysSince(l, i.day) == {}
  {}

  /** The two engines decide the same entries whenever they see the same equity and the same sector totals. */
  lemma SamePlan(b: Book, i: Inputs, sectors: map<Symbol, Sector>)
    requires WellFormed(b) && forall s :: s in i.order ==> s in i.data
    requires forall s :: s in b.held ==> s in i.quotes && i.quotes[s] == MarkOf(b.held[s], Marks(i.data), s)
    requires LiveSectorNotional(b.order, Mirrored(b.held, i.stored), i.data) == SectorNotional(b.order, b.held, sectors, Marks(i.data))
    ensures SameEntries(b, i, sectors)
  {
    hide EntriesFor, ExitsFor, LiveSectorNotional, SectorNotional, Mirrored;
    var v, w := QuotedValues(b.held, i.quotes), HoldingValues(b.held, Marks(i.data));
    forall s | s in b.order ensures Weight(v, s) == Weight(w, s) {
      assert s in b.held;
    }
    SumCong(b.order, v, w);
  }

  // ---------- when the sector totals agree ----------

  lemma {:induction false} SumStrict(order: seq<Symbol>, v: map<Symbol, real>, w: map<Symbol, real>, s: Symbol)
    requires s in order && Weight(v, s) < Weight(w, s) && forall x :: x in order ==> Weight(v, x) <= Weight(w, x)
    ensures Sum(order, v) < Sum(order, w)
  {
    var n := |order| - 1;
    assert order == order[..n] + [order[n]];
    if s in order[..n] {
      SumStrict(order[..n], v, w, s);
    } else {
      SumWeak(order[..n], v, w);
    }
  }

  lemma {:induction false} SumWeak(order: seq<Symbol>, v: map<Symbol, real>, w: map<Symbol, real>)
    requires forall x :: x in order ==> Weight(v, x) <= Weight(w, x)
    ensures Sum(order, v) <= Sum(order, w)
  {
    if order != [] {
      assert order[|order| - 1] in order;
      SumWeak(order[..|order| - 1], v, w);
    }
  }

  lemma {:induction false} SameFiling(order: seq<Symbol>, held: map<Symbol, Position>, x: map<Symbol, Sector>, y: map<Symbol, Sector>,
                                      marks: map<Symbol, real>)
    requires forall s :: s in held ==> SectorFor(x, s) == SectorFor(y, s)
    ensures SectorNotional(order, held, x, marks) == SectorNotional(order, held, y, marks)
  {
    if order != [] {
      SameFiling(order[..|order| - 1], held, x, y, marks);
    }
  }

  lemma FiledLive(held: map<Symbol, Position>, data: Market)
    ensures forall s :: s in held ==> SectorFor(LiveSectors(held, data), s) == if s in data then data[s].sector else "Unknown"
  {}

  /** A filing `x` that moves holdings only to "Unknown" gives every other sector at most what filing `y` gives it. */
  lemma FilingLowers(held: map<Symbol, Position>, x: map<Symbol, Sector>, y: map<Symbol, Sector>, marks: map<Symbol, real>, s: Symbol)
    requires s in held && SectorFor(x, s) == "Unknown" != SectorFor(y, s)
    requires forall u :: u in held ==> Holding(held[u], marks, u) > 0.0
    requires forall u :: u in held ==> SectorFor(x, u) == SectorFor(y, u) || SectorFor(x, u) == "Unknown"
    ensures var k := SectorFor(y, s); var v, w := SectorWeights(held, x, marks, k), SectorWeights(held, y, marks, k);
      Weight(v, s) < Weight(w, s) && forall u :: Weight(v, u) <= Weight(w, u)
  {
    hide Holding, SectorFor;
  }

  /** For any book of positive holdings whose seen names are filed alike, the live and the simulated sector totals are equal if
      and only if every holding without data belongs to the live fallback sector. */
  lemma SectorTotalsAgreeIff(order: seq<Symbol>, held: map<Symbol, Position>, data: Market, sectors: map<Symbol, Sector>)
    requires Enumerates(order, held.Keys)
    requires forall s :: s in held ==> Holding(held[s], Marks(data), s) > 0.0
    requires forall s :: s in held && s in data ==> SectorFor(sectors, s) == data[s].sector
    ensures LiveSectorNotional(order, held, data) == SectorNotional(order, held, sectors, Marks(data))
            <==> forall s :: s in held && s !in data ==> SectorFor(sectors, s) == "Unknown"
  {
    hide Sum, SectorNotional, LiveSectorNotional, Holding, Represents, SectorWeights, LiveSectors;
    var live, marks := LiveSectors(held, data), Marks(data);
    LiveTotalsAreSectorTotals(order, held, data);
    FiledLive(held, data);
    if forall s :: s in held && s !in data ==> SectorFor(sectors, s) == "Unknown" {
      SameFiling(order, held, live, sectors, marks);
    } else {
      var s :| s in held && s !in data && SectorFor(sectors, s) != "Unknown";
      var k := SectorFor(sectors, s);
      SectorTotal(order, held, sectors, marks, k);
      SectorTotal(order, held, live, marks, k);
      assert s in order;
      FilingLowers(held, live, sectors, marks, s);
      SumStrict(order, SectorWeights(held, live, marks, k), SectorWeights(held, sectors, marks, k), s);
    }
  }

  /** So with exact storage, the broker quoting the closes and names filed alike, the two engines decide the same entries
      whenever every holding without data is quoted at its entry price and belongs to the live fallback sector. */
  lemma DecisionsAgree(b: Book, i: Inputs, sectors: map<Symbol, Sector>)
    requires WellFormed(b) && (forall s :: s in i.order ==> s in i.data) && forall x :: i.stored(x) == x
    requires forall s :: s in b.held ==> Holding(b.held[s], Marks(i.data), s) > 0.0
    requires forall s :: s in b.held ==> s in i.quotes && i.quotes[s] == MarkOf(b.held[s], Marks(i.data), s)
    requires forall s :: s in b.held ==> SectorFor(sectors, s) == if s in i.data then i.data[s].sector else "Unknown"
    ensures SameEntries(b, i, sectors)
  {
    hide Holding, LiveSectorNotional, SectorNotional, SameEntries;
    assert Mirrored(b.held, i.stored) == b.held;
    SectorTotalsAgreeIff(b.order, b.held, i.data, sectors);
    SamePlan(b, i, sectors);
  }

  lemma AgreeEnumerates(b: Book, w: World)
    requires Agree(b, w)
    ensures Enumerates(b.order, b.held.Keys)
  {}

  // ---------- executing the exits ----------

  /** What an action raises when its shares are sold at `price`. */
  function Proceeds(pos: Position, a: SellAction, price: real): real {
    if a.fraction > 0.0 then Amount(Fraction(pos.shares, a.fraction), price) else 0.0
  }

  function SalePrice(pos: Position, d: CycleData, pricing: Pricing): real {
    pricing(SellFor(pos, d).exitPrice, Sell, VolumeRatio(d))
  }

  function ProceedsOf(held: map<Symbol, Position>, data: Market, pricing: Pricing): map<Symbol, real> {
    map s | s in held && s in data :: Proceeds(held[s], SellFor(held[s], data[s]), SalePrice(held[s], data[s], pricing))
  }

  function Names(xs: seq<ExitIntent>): seq<Symbol> {
    seq(|xs|, k requires 0 <= k < |xs| => xs[k].symbol)
  }

  lemma ProceedsAt(held: map<Symbol, Position>, data: Market, pricing: Pricing, s: Symbol)
    requires s in held && s in data
    ensures Weight(ProceedsOf(held, data, pricing), s)
            == Proceeds(held[s], SellFor(held[s], data[s]), SalePrice(held[s], data[s], pricing))
  {}

  /** At no cost a sale is paid its exit price. */
  lemma MidSale(pos: Position, d: CycleData)
    ensures SalePrice(pos, d, MidPrice) == SellFor(pos, d).exitPrice
  {}

  lemma SumOfNone(names: seq<Symbol>, w: map<Symbol, real>)
    requires names == []
    ensures Sum(names, w) == 0.0
  {}

  lemma SumHead(names: seq<Symbol>, w: map<Symbol, real>)
    requires names != []
    ensures Sum(names, w) == Weight(w, names[0]) + Sum(names[1..], w)
  {
    assert names == [names[0]] + names[1..];
    SumConcat([names[0]], names[1..], w);
    assert Sum([names[0]], w) == Sum([names[0]][..0], w) + Weight(w, names[0]);
  }

  /** Planned exits move the simulated cash by the sum of their proceeds, whatever the pricing rule. */
  lemma {:induction false} SimExitsCash(b: Book, xs: seq<ExitIntent>, data: Market, day: Day, pricing: Pricing)
    requires WellFormed(b) && PlannedFor(xs, b.held, data)
    ensures Exits(b, xs, data, day, pricing).cash == b.cash + Sum(Names(xs), ProceedsOf(b.held, data, pricing))
    decreases |xs|
  {
    hide SellFor, AfterAction, WellFormed, Proceeds, SalePrice, Trail, ExitBook, Sum, ProceedsOf, Touched, Becomes;
    var w := ProceedsOf(b.held, data, pricing);
    if xs == [] {
      assert Sum(Names(xs), w) == 0.0 by { SumOfNone(Names(xs), w); }
    } else {
      var b1 := ExitBook(b, xs[0], data, day, pricing);
      PlannedRest(b, xs, data, day, pricing);
      SimExitsCash(b1, xs[1..], data, day, pricing);
      assert Names(xs)[1..] == Names(xs[1..]);
      SumHead(Names(xs), w);
      RestProceeds(b.held, b1.held, xs, data, pricing);
      SumCong(Names(xs[1..]), ProceedsOf(b1.held, data, pricing), w);
      ExitCash(b, xs[0], data, day, pricing);
      ProceedsAt(b.held, data, pricing, xs[0].symbol);
    }
  }

  lemma RestProceeds(h: map<Symbol, Position>, h1: map<Symbol, Position>, xs: seq<ExitIntent>, data: Market, pricing: Pricing)
    requires xs != [] && Executable(xs, h, data)
    requires forall s :: s in h && s != xs[0].symbol ==> s in h1 && h1[s] == h[s]
    ensures forall s :: s in Names(xs[1..]) ==>
              Weight(ProceedsOf(h1, data, pricing), s) == Weight(ProceedsOf(h, data, pricing), s)
  {
    hide SellFor, Proceeds, SalePrice;
    forall s | s in Names(xs[1..])
      ensures Weight(ProceedsOf(h1, data, pricing), s) == Weight(ProceedsOf(h, data, pricing), s)
    {
      var k :| 0 <= k < |xs[1..]| && Names(xs[1..])[k] == s;
      assert xs[k + 1].symbol == s;
    }
  }

  lemma ExitCash(b: Book, x: ExitIntent, data: Market, day: Day, pricing: Pricing)
    requires x.symbol in b.held && x.symbol in data && x.action == SellFor(b.held[x.symbol], data[x.symbol])
    ensures ExitBook(b, x, data, day, pricing).cash
            == b.cash + Proceeds(b.held[x.symbol], x.action, SalePrice(b.held[x.symbol], data[x.symbol], pricing))
  {
    hide Amount, Fraction, SellFor;
  }

  /** The live side of one exit: what it leaves of the position, and everything it does not touch. */
  ghost predicate Untouched(w: World, v: World, s: Symbol) {
    && (s in v.broker.positions <==> s in w.broker.positions)
    && (s in w.broker.positions ==> v.broker.positions[s] == w.broker.positions[s])
    && (s in v.local.theses <==> s in w.local.theses)
    && (s in w.local.theses ==> v.local.theses[s] == w.local.theses[s])
  }

  ghost predicate LeavesAt(w: World, s: Symbol, left: Option<Position>) {
    if left.None? then Absent(w, s) else Matches(w, s, left.value)
  }

  /** Fresh orders of this cycle are the only ones added. */
  ghost predicate Adds(w: World, v: World, i: Inputs, side: Side) {
    && v.broker.prices == w.broker.prices && v.local.mirror == w.local.mirror
    && (forall id :: id in v.broker.orders ==> id in w.broker.orders || (id.cycle == i.cycle && id.side == side))
    && (forall id :: id in v.ledger.orders ==>
          (id in w.ledger.orders && v.ledger.orders[id] == w.ledger.orders[id])
          || (id.cycle == i.cycle && id.side == side && v.ledger.orders[id].submitted == i.day))
  }

  ghost predicate Unused(w: World, id: ClientOrderId) {
    id !in w.broker.orders && id !in w.ledger.orders
  }

  lemma HalfShares(shares: real)
    ensures shares - Amount(shares, 0.5) == shares - shares * 0.5 == 0.5 * shares
    ensures Amount(shares, 1.0) == shares
  {}

  lemma SellLeaves(w: World, i: Inputs, x: ExitIntent, p: Position, qty: real)
    requires Matches(w, x.symbol, p) && p.shares >= qty
    requires Unused(w, ClientOrderId(i.cycle, x.symbol, Sell)) && PriceOf(w.broker, x.symbol) == x.action.exitPrice
    ensures var (v, ok) := Place(w, SellRequest(i, x, qty));
      && ok && v.local == w.local && Adds(w, v, i, Sell)
      && v.broker.cash == w.broker.cash + Amount(qty, x.action.exitPrice)
      && (forall s :: s != x.symbol ==> Untouched(w, v, s))
      && (if p.shares - qty <= DUST then x.symbol !in v.broker.positions
          else x.symbol in v.broker.positions && v.broker.positions[x.symbol] == BrokerPosition(p.shares - qty, p.entryPrice))
      && (forall id :: id != ClientOrderId(i.cycle, x.symbol, Sell) && Unused(w, id) ==> Unused(v, id))
  {
    hide Amount;
  }

  lemma LiveExitLeaves(w: World, i: Inputs, x: ExitIntent, live: map<Symbol, real>, held: map<Symbol, Position>,
                       p: Position, d: CycleData)
    requires Matches(w, x.symbol, p) && x.action == SellFor(p, d) && x.symbol in live && live[x.symbol] == p.shares
    requires p.shares > if p.tookPartial then DUST else 2.0 * DUST
    requires Unused(w, ClientOrderId(i.cycle, x.symbol, Sell))
    requires x.action.fraction > 0.0 ==> PriceOf(w.broker, x.symbol) == x.action.exitPrice
    ensures var (v, ok) := LiveExit(w, i, x, live, held);
      && ok && LeavesAt(v, x.symbol, AfterAction(p, x.action)) && Adds(w, v, i, Sell)
      && v.broker.cash == w.broker.cash + Proceeds(p, x.action, x.action.exitPrice)
      && (forall s :: s != x.symbol ==> Untouched(w, v, s))
      && (forall id :: id != ClientOrderId(i.cycle, x.symbol, Sell) && Unused(w, id) ==> Unused(v, id))
  {
    hide SellFor, Amount, Place, PersistExit, Matches, LeavesAt, AfterAction;
    var qty := ExitQty(Lookup(live, x.symbol), MirrorShares(held, x.symbol), x.action.fraction);
    HalfShares(p.shares);
    ActionShape(p, d);
    MatchedShares(w, x.symbol, p);
    if x.action.fraction > 0.0 {
      SellLeaves(w, i, x, p, qty);
      var placed := Place(w, SellRequest(i, x, qty)).0;
      PersistLeaves(w, placed, x, p);
      assert LiveExit(w, i, x, live, held) == (placed.(local := PersistExit(placed.local, x)), true);
      forall s | s != x.symbol ensures Untouched(w, placed.(local := PersistExit(placed.local, x)), s) {
        assert Untouched(w, placed, s);
      }
    } else {
      PersistLeaves(w, w, x, p);
    }
  }

  lemma MatchedShares(w: World, s: Symbol, p: Position)
    requires Matches(w, s, p)
    ensures s in w.broker.positions && w.broker.positions[s] == BrokerPosition(p.shares, p.entryPrice)
    ensures p.shares - p.shares * 0.0 == p.shares
  {}

  /** Writing the trail state back completes what the sale left. */
  lemma PersistLeaves(w: World, v: World, x: ExitIntent, p: Position)
    requires Matches(w, x.symbol, p) && v.local == w.local && x.action.fraction in {0.0, 0.5, 1.0}
    requires x.action.fraction == 1.0 ==> x.symbol !in v.broker.positions
    requires x.action.fraction < 1.0 ==>
               x.symbol in v.broker.positions
               && v.broker.positions[x.symbol] == BrokerPosition(p.shares - p.shares * x.action.fraction, p.entryPrice)
    ensures LeavesAt(v.(local := PersistExit(v.local, x)), x.symbol, AfterAction(p, x.action))
    ensures PersistExit(v.local, x).mirror == w.local.mirror
    ensures forall s :: s != x.symbol ==>
              (s in PersistExit(v.local, x).theses <==> s in w.local.theses)
              && (s in w.local.theses ==> PersistExit(v.local, x).theses[s] == w.local.theses[s])
  {
    assert p.shares - p.shares * 0.0 == p.shares;
  }

  lemma ActionShape(p: Position, d: CycleData)
    ensures SellFor(p, d).fraction in {0.0, 0.5, 1.0}
    ensures SellFor(p, d).fraction == 0.5 ==> !p.tookPartial
  {}
}
