/** What every plan respects: the budget, the sizing rules, and the position, sector and daily limits. */
module PlanLimits {
  import opened Wrappers
  import opened Domain
  import opened Keys
  import opened Sizing
  import opened Rules
  import opened Decision

  function Notional(entries: seq<EntryIntent>): real {
    if entries == [] then 0.0
    else Notional(entries[..|entries| - 1]) + entries[|entries| - 1].shares * entries[|entries| - 1].refPrice
  }

  /** An entry is priced and sized from its candidate's own data within the risk, position and dust limits. */
  ghost predicate Sized(e: EntryIntent, d: CycleData, equity: real) {
    && e.symbol == d.symbol && e.sector == d.sector && e.refPrice == d.bar.close > 0.0
    && d.atr == Some(e.atr) && e.atr > 0.0 && e.shares > 0.0
    && e.stopPrice == e.refPrice - 2.5 * e.atr
    && e.targetPrice == e.refPrice + 3.0 * e.atr
    && 100.0 <= e.shares * e.refPrice <= 0.025 * equity
    && e.shares * (2.5 * e.atr) <= 0.004 * equity
    && d.score.rank.Some?
  }

  /** What a new name has to show for an entry, given what the plan has entered before it. */
  ghost predicate Enterable(f: Frame, t: Tally, d: CycleData) {
    && d.symbol !in f.held
    && d.score.composite.Some? && d.score.compositePercentile.Some? && d.score.compositePercentile.value >= 70.0
    && d.score.weightCovered >= 0.70 && d.score.dataCompleteness >= 0.50
    && d.score.rank.Some? && d.score.rank.value <= f.threshold && d.symbol in f.pool && d.symbol !in f.cappedOut
    && HasTrend(d) && d.closes[|d.closes| - 1] > TrendLine(d)
    && ((Shows(d, Technical, "macd_hist") && d.signals[Technical]["macd_hist"].value > 0.0)
        || (Shows(d, Momentum, "breakout_strength") && d.signals[Momentum]["breakout_strength"].value > 0.0))
    && |f.held| + |t.entries| < 40 && f.entriesToday + |t.entries| < 8
    && (f.equity > 0.0 ==> (if d.sector in t.sector then t.sector[d.sector] else 0.0) < 0.25 * f.equity)
    && t.cash > 0.0
  }

  /** The decision on one name from its data, the plan so far and the limits: it is entered exactly when it qualifies and can be
      sized, and a name that qualifies is passed over only for lack of an ATR or a size. */
  lemma EnteredIff(f: Frame, t: Tally, d: CycleData)
    ensures var atr := d.atr.GetOr(0.0);
      var size := SizePosition(f.equity, d.bar.close, atr, t.cash);
      && (Decide(f, t, d).Funded? <==> Enterable(f, t, d) && atr > 0.0 && size.Some?)
      && (Decide(f, t, d) == Skipped(NoAtr) <==> Enterable(f, t, d) && atr <= 0.0)
      && (Decide(f, t, d) == Skipped(SizeTooSmall) <==> Enterable(f, t, d) && atr > 0.0 && size.None?)
      && (Decide(f, t, d).Held? <==> d.symbol in f.held)
  {
    hide EvaluateBuy, SizePosition, TrendLine, Above50dma, MacdBullish, FreshBreakout, Eligible, SectorOf;
    FlagsRead(d);
    BuyIffEligible(Context(f, t, d));
    BuyRefusals(Context(f, t, d));
    EligibleIsEnterable(f, t, d);
  }

  lemma EligibleIsEnterable(f: Frame, t: Tally, d: CycleData)
    ensures d.symbol !in f.held ==> (Eligible(Context(f, t, d)) <==> Enterable(f, t, d))
  {
    hide TrendLine, Above50dma, MacdBullish, FreshBreakout;
    FlagsRead(d);
    if f.equity > 0.0 {
      SectorShare(SectorOf(t, d.sector), f.equity);
    }
  }

  lemma SectorShare(total: real, equity: real)
    requires equity > 0.0
    ensures total / equity < 0.25 <==> total < 0.25 * equity
  {
    QuotientBound(0.25, total, equity);
  }

  /** What an entry says, and what position it opens when it is paid `price`. */
  lemma EntryTerms(f: Frame, t: Tally, d: CycleData, price: real)
    requires Decide(f, t, d).Funded?
    ensures var v := Decide(f, t, d); var e := EntryFor(d, v.size, v.atr); var p := Opened(e, price);
      && d.atr == Some(e.atr) && SizePosition(f.equity, d.bar.close, e.atr, t.cash) == Some(v.size)
      && e.symbol == d.symbol && e.sector == d.sector && e.shares == v.size.shares && e.refPrice == d.bar.close
      && e.stopPrice == d.bar.close - 2.5 * e.atr && e.targetPrice == d.bar.close + 3.0 * e.atr
      && e.entryComposite == d.score.composite
      && e.entryFundamentals == (if Fundamentals in d.score.families then d.score.families[Fundamentals] else None)
      && p.symbol == d.symbol && p.entryPrice == price && p.shares == e.shares && p.atrAtEntry == e.atr
      && p.stopPrice == e.stopPrice && p.targetPrice == e.targetPrice && p.highestClose == d.bar.close
      && p.entryComposite == e.entryComposite && p.entryFundamentals == e.entryFundamentals
      && !p.tookPartial && p.reversalDays == 0
  {
    hide EvaluateBuy, Context;
  }

  /** One step either leaves the entries and the running budget alone, or funds one entry within every limit. */
  lemma StepFunds(f: Frame, t: Tally, d: CycleData)
    ensures var u := Step(f, t, d);
      || (u.entries == t.entries && u.cash == t.cash && u.sector == t.sector)
      || (exists e :: u.entries == t.entries + [e] && Funds(f, t, u, d, e))
  {
    if Decide(f, t, d).Funded? {
      AcceptedIsFunded(f, t, d);
    }
  }

  lemma AcceptedIsFunded(f: Frame, t: Tally, d: CycleData)
    requires Decide(f, t, d).Funded?
    ensures var v := Decide(f, t, d);
      Funds(f, t, Record(t, d, v), d, EntryFor(d, v.size, v.atr))
  {
    hide EvaluateBuy, SectorOf, WithinLimits;
    SizeBounds(f.equity, d.bar.close, d.atr.value, t.cash);
    SectorRoom(f, t, d);
    GatesPassed(Context(f, t, d));
    assert Sized(EntryFor(d, Decide(f, t, d).size, Decide(f, t, d).atr), d, f.equity) by { AcceptedIsSized(f, t, d); }
  }

  lemma AcceptedIsSized(f: Frame, t: Tally, d: CycleData)
    requires Decide(f, t, d).Funded?
    ensures var v := Decide(f, t, d); Sized(EntryFor(d, v.size, v.atr), d, f.equity)
  {
    hide EvaluateBuy, Context;
    SizeBounds(f.equity, d.bar.close, d.atr.value, t.cash);
    GatesPassed(Context(f, t, d));
    RankOfContext(f, t, d);
  }

  lemma RankOfContext(f: Frame, t: Tally, d: CycleData)
    ensures Context(f, t, d).rank == d.score.rank
  {}

  lemma GatesPassed(ctx: BuyContext)
    requires EvaluateBuy(ctx).None?
    ensures ctx.rank.Some? && ctx.positionsHeld < 40 && ctx.entriesToday < 8
    ensures ctx.sectorWeight < 0.25
  {}

  ghost predicate Funds(f: Frame, t: Tally, u: Tally, d: CycleData, e: EntryIntent) {
    && Sized(e, d, f.equity)
    && d.symbol !in f.held
    && e.shares * e.refPrice <= t.cash
    && u.cash == t.cash - e.shares * e.refPrice
    && u.sector == t.sector[d.sector := SectorOf(t, d.sector) + e.shares * e.refPrice]
    && SectorOf(t, d.sector) < 0.25 * f.equity
    && |f.held| + |t.entries| < 40
    && f.entriesToday + |t.entries| < 8
  }

  lemma SectorRoom(f: Frame, t: Tally, d: CycleData)
    requires f.equity > 0.0 && EvaluateBuy(Context(f, t, d)).None?
    ensures SectorOf(t, d.sector) < 0.25 * f.equity
  {
    QuotientBound(0.25, SectorOf(t, d.sector), f.equity);
  }

  lemma NotionalAppend(entries: seq<EntryIntent>, e: EntryIntent)
    ensures Notional(entries + [e]) == Notional(entries) + e.shares * e.refPrice
  {
    assert (entries + [e])[..|entries|] == entries;
  }

  ghost predicate From(e: EntryIntent, cands: seq<CycleData>, equity: real) {
    exists d :: d in cands && Sized(e, d, equity)
  }

  /** The limits a tally keeps at every point of the walk. */
  ghost predicate WithinBook(f: Frame, start: Tally, t: Tally) {
    && t.cash == start.cash - Notional(t.entries)
    && (start.cash > 0.0 ==> t.cash >= 0.0)
    && (start.cash <= 0.0 ==> t.entries == [])
    && (t.entries != [] ==>
          |f.held| + |t.entries| <= 40 && f.entriesToday + |t.entries| <= 8)
    && (forall s :: SectorOf(t, s) != SectorOf(start, s) ==>
          SectorOf(t, s) < 0.275 * f.equity)
    && (forall i :: 0 <= i < |t.entries| ==>
          SectorOf(t, t.entries[i].sector) < 0.275 * f.equity)
  }

  /** Entries are about distinct candidates that are not held. */
  ghost predicate FreshNames(f: Frame, cands: seq<CycleData>, t: Tally) {
    && (forall i :: 0 <= i < |t.entries| ==> t.entries[i].symbol !in f.held && From(t.entries[i], cands, f.equity))
    && (forall i, j :: 0 <= i < j < |t.entries| ==> t.entries[i].symbol != t.entries[j].symbol)
  }

  /** Every plan stays within its cash, the 40-position book, the eight-a-day cap, and 27.5% per entered sector. */
  lemma {:induction false} PlanStaysWithinLimits(f: Frame, start: Tally, cands: seq<CycleData>)
    requires start.entries == []
    ensures WithinBook(f, start, Walk(f, start, cands))
  {
    hide Step, Sized, SectorOf;
    if cands == [] {
      StartsWithin(f, start);
    } else {
      var n := |cands| - 1;
      var t, u := Walk(f, start, cands[..n]), Walk(f, start, cands);
      PlanStaysWithinLimits(f, start, cands[..n]);
      StepFunds(f, t, cands[n]);
      if u.entries != t.entries {
        var e :| u.entries == t.entries + [e] && Funds(f, t, u, cands[n], e);
        NotionalAppend(t.entries, e);
        StepWithinBook(f, start, t, u, cands[n], e);
      } else {
        SameBudget(f, start, t, u);
      }
    }
  }

  lemma StartsWithin(f: Frame, start: Tally)
    requires start.entries == []
    ensures WithinBook(f, start, start)
  {}

  /** The limits look only at the entries and the running budget. */
  lemma SameBudget(f: Frame, start: Tally, t: Tally, u: Tally)
    requires WithinBook(f, start, t) && u.entries == t.entries && u.cash == t.cash && u.sector == t.sector
    ensures WithinBook(f, start, u)
  {}

  lemma StepWithinBook(f: Frame, start: Tally, t: Tally, u: Tally, d: CycleData, e: EntryIntent)
    requires WithinBook(f, start, t) && u.entries == t.entries + [e] && Funds(f, t, u, d, e)
    requires Notional(u.entries) == Notional(t.entries) + e.shares * e.refPrice
    ensures WithinBook(f, start, u)
  {
    assert forall s :: s != d.sector ==> SectorOf(u, s) == SectorOf(t, s);
    assert SectorOf(u, d.sector) == SectorOf(t, d.sector) + e.shares * e.refPrice;
  }

  lemma {:induction false} PlanNamesAreFresh(f: Frame, start: Tally, cands: seq<CycleData>)
    requires start.entries == [] && DistinctNames(cands)
    ensures FreshNames(f, cands, Walk(f, start, cands))
  {
    if cands != [] {
      var n := |cands| - 1;
      var t, u := Walk(f, start, cands[..n]), Walk(f, start, cands);
      PlanNamesAreFresh(f, start, cands[..n]);
      StepFunds(f, t, cands[n]);
      forall i | 0 <= i < |t.entries|
        ensures From(t.entries[i], cands, f.equity) && t.entries[i].symbol != cands[n].symbol
      {
        assert From(t.entries[i], cands[..n], f.equity);
        var d :| d in cands[..n] && Sized(t.entries[i], d, f.equity);
        assert d in cands;
      }
      if u.entries != t.entries {
        var e :| u.entries == t.entries + [e] && Funds(f, t, u, cands[n], e);
        assert cands[n] in cands && Sized(e, cands[n], f.equity);
      }
    }
  }

  /** The facts an executor needs about the entries of a plan made from `data`. */
  ghost predicate EntriesFromData(entries: seq<EntryIntent>, data: Market, held: set<Symbol>, equity: real) {
    && (forall i :: 0 <= i < |entries| ==>
          entries[i].symbol !in held && entries[i].symbol in data && Sized(entries[i], data[entries[i].symbol], equity))
    && (forall i, j :: 0 <= i < j < |entries| ==> entries[i].symbol != entries[j].symbol)
  }

  lemma EntriesComeFromData(data: Market, order: seq<Symbol>, equity: real, cash: real, held: set<Symbol>,
                            sector: map<Sector, real>, entriesToday: nat, nScored: int)
    requires Filed(data) && Enumerates(order, data.Keys)
    ensures var t := EntriesFor(data, order, equity, cash, held, sector, entriesToday, nScored);
      && EntriesFromData(t.entries, data, held, equity)
      && (cash > 0.0 ==> Notional(t.entries) <= cash) && (cash <= 0.0 ==> t.entries == [])
      && (t.entries != [] ==> |held| + |t.entries| <= 40 && entriesToday + |t.entries| <= 8)
  {
    var cands := Candidates(data, order);
    var f := FrameFor(cands, equity, held, entriesToday, nScored);
    var start := Tally([], [], cash, sector);
    var t := Walk(f, start, cands);
    CandidatesDistinct(data, order);
    PlanStaysWithinLimits(f, start, cands);
    PlanNamesAreFresh(f, start, cands);
    forall i | 0 <= i < |t.entries|
      ensures t.entries[i].symbol in data && Sized(t.entries[i], data[t.entries[i].symbol], equity)
    {
      var d :| d in cands && Sized(t.entries[i], d, equity);
    }
  }
}
