/** A position's whole life: the sell rules applied session after session until the position is closed. */
module Lifecycle {
  import opened Wrappers
  import opened Arithmetic
  import opened Domain
  import opened Sizing
  import opened Rules
  import opened Decision
  import opened PlanLimits
  import CandidatePool

  /** What one session shows of a symbol: its bar, the other sell-rule inputs, and its volume ratio. */
  datatype Session = Session(bar: Bar, view: ExitView, volume: Option<real>)

  /** Profit is counted at pre-cost exit prices against a reference price. */
  datatype Life =
    | Open(pos: Position, pnl: real)
    | Closed(pnl: real, reason: ExitReason, trimmed: bool)

  function LiveOn(pos: Position, pnl: real, ref: real, s: Session): Life {
    var a := EvaluateSell(pos, s.bar, s.view);
    var pnl' := pnl + pos.shares * a.fraction * (a.exitPrice - ref);
    var left := AfterAction(pos, a);
    if left.None? then Closed(pnl', a.reason, pos.tookPartial) else Open(left.value, pnl')
  }

  function Live(p: Position, ref: real, ss: seq<Session>): Life {
    if ss == [] then Open(p, 0.0)
    else
      match Live(p, ref, ss[..|ss| - 1])
      case Closed(pnl, reason, trimmed) => Closed(pnl, reason, trimmed)
      case Open(pos, pnl) => LiveOn(pos, pnl, ref, ss[|ss| - 1])
  }

  // ---------- the trail as a closed form of the price history ----------

  function HighWater(start: real, ss: seq<Session>): real {
    if ss == [] then start else Max(HighWater(start, ss[..|ss| - 1]), ss[|ss| - 1].bar.close)
  }

  /** Index of the first session whose high reaches the target; |ss| when none does. */
  function FirstTouch(target: real, ss: seq<Session>): nat {
    if ss == [] then 0
    else
      var n := |ss| - 1;
      var k := FirstTouch(target, ss[..n]);
      if k < n then k else if ss[n].bar.high >= target then n else n + 1
  }

  predicate TrimmedBy(p: Position, ss: seq<Session>) {
    p.tookPartial || FirstTouch(p.targetPrice, ss) < |ss|
  }

  /** Did the last session only hold the position, rather than trim it? */
  predicate HeldLast(p: Position, ss: seq<Session>)
    requires ss != []
  {
    TrimmedBy(p, ss[..|ss| - 1]) || !TrimmedBy(p, ss)
  }

  /** The latest held session that closed at least one initial risk above entry. */
  function LatestPast(p: Position, ss: seq<Session>): Option<nat> {
    if ss == [] then None
    else
      var n := |ss| - 1;
      if HeldLast(p, ss) && ss[n].bar.close >= p.entryPrice + 2.5 * p.atrAtEntry then Some(n)
      else LatestPast(p, ss[..n])
  }

  /** The stop as history determines it. */
  function TrailFromHistory(p: Position, ss: seq<Session>): real {
    var past := LatestPast(p, ss);
    var floor := if (TrimmedBy(p, ss) && !p.tookPartial) || past.Some? then Max(p.stopPrice, p.entryPrice) else p.stopPrice;
    if past.Some? && past.value < |ss|
    then Max(floor, HighWater(p.highestClose, ss[..past.value + 1]) - 3.0 * p.atrAtEntry)
    else floor
  }

  lemma {:induction false} FirstTouchBound(target: real, ss: seq<Session>)
    ensures FirstTouch(target, ss) <= |ss|
  {
    if ss != [] { FirstTouchBound(target, ss[..|ss| - 1]); }
  }

  lemma {:induction false} LatestPastBound(p: Position, ss: seq<Session>)
    ensures LatestPast(p, ss).Some? ==> LatestPast(p, ss).value < |ss|
  {
    if ss != [] { LatestPastBound(p, ss[..|ss| - 1]); }
  }

  lemma {:induction false} HighWaterGrows(start: real, ss: seq<Session>, n: nat)
    requires n <= |ss|
    ensures HighWater(start, ss[..n]) <= HighWater(start, ss)
  {
    if n < |ss| {
      assert ss[..|ss| - 1][..n] == ss[..n];
      HighWaterGrows(start, ss[..|ss| - 1], n);
    } else {
      assert ss[..n] == ss;
    }
  }

  /** The closed form advances by one session exactly as the rules advance the stop. */
  lemma TrailStep(p: Position, ss: seq<Session>)
    requires ss != []
    ensures var n := |ss| - 1; var close := ss[n].bar.close; var init := ss[..n];
      TrailFromHistory(p, ss) ==
        if !HeldLast(p, ss) then Max(TrailFromHistory(p, init), p.entryPrice)
        else if close >= p.entryPrice + 2.5 * p.atrAtEntry
        then Max(Max(TrailFromHistory(p, init), p.entryPrice),
                 HighWater(p.highestClose, ss) - 3.0 * p.atrAtEntry)
        else TrailFromHistory(p, init)
  {
    var n := |ss| - 1;
    var init := ss[..n];
    FirstTouchBound(p.targetPrice, init);
    LatestPastBound(p, init);
    assert ss[..n + 1] == ss;
    var past := LatestPast(p, init);
    if past.Some? {
      var k := past.value + 1;
      assert ss[..k] == init[..k];
      HighWaterGrows(p.highestClose, ss, k);
    }
  }

  /** As long as a position stays open, history alone determines its state: it is trimmed exactly when the target was
      touched, its high-water mark is the running maximum of closes, and its stop has the closed form. */
  lemma {:induction false} TrailIsHistory(p: Position, ref: real, ss: seq<Session>)
    requires Live(p, ref, ss).Open?
    ensures var q := Live(p, ref, ss).pos;
      && q.highestClose == HighWater(p.highestClose, ss)
      && q.tookPartial == TrimmedBy(p, ss)
      && q.shares == (if q.tookPartial && !p.tookPartial then p.shares * 0.5 else p.shares)
      && q.stopPrice == TrailFromHistory(p, ss)
      && q == p.(shares := q.shares, tookPartial := q.tookPartial, highestClose := q.highestClose,
                 stopPrice := q.stopPrice, reversalDays := q.reversalDays)
  {
    if ss != [] {
      var n := |ss| - 1;
      TrailIsHistory(p, ref, ss[..n]);
      TrailStep(p, ss);
      FirstTouchBound(p.targetPrice, ss[..n]);
      var q := Live(p, ref, ss[..n]).pos;
      SurvivingAction(q, ss[n].bar, ss[n].view);
    }
  }

  /** A session that leaves a position open either trims it at the target or holds it. */
  lemma SurvivingAction(q: Position, bar: Bar, view: ExitView)
    requires EvaluateSell(q, bar, view).fraction < 1.0
    ensures var a := EvaluateSell(q, bar, view);
      && a.newHighestClose == Max(q.highestClose, bar.close)
      && (if !q.tookPartial && bar.high >= q.targetPrice
          then a.fraction == 0.5 && a.exitPrice == q.targetPrice && a.newStop == Max(q.stopPrice, q.entryPrice)
          else a.fraction == 0.0 && a.newStop == TrailingStop(q, bar.close))
      && AfterAction(q, a).Some?
  {}

  /** A session that closes a position sells all of it, and unless the bar gaps through the stop, at the stop or better. */
  lemma ClosingAction(q: Position, bar: Bar, view: ExitView)
    requires bar.low <= bar.close && EvaluateSell(q, bar, view).fraction >= 1.0
    ensures var a := EvaluateSell(q, bar, view);
      && a.fraction == 1.0 && AfterAction(q, a).None?
      && (a.reason != StopGap ==> a.exitPrice >= q.stopPrice)
      && (a.reason == StopGap ==> a.exitPrice < q.stopPrice)
  {}

  /** The stop never falls while the position stays open. */
  lemma {:induction false} StopNeverFalls(p: Position, ref: real, ss: seq<Session>, n: nat)
    requires n <= |ss| && Live(p, ref, ss).Open?
    ensures Live(p, ref, ss[..n]).Open?
    ensures Live(p, ref, ss[..n]).pos.stopPrice <= Live(p, ref, ss).pos.stopPrice
  {
    if n < |ss| {
      var m := |ss| - 1;
      assert ss[..m][..n] == ss[..n];
      StopNeverFalls(p, ref, ss[..m], n);
      TrailIsHistory(p, ref, ss[..m]);
      TrailIsHistory(p, ref, ss);
      TrailStep(p, ss);
    } else {
      assert ss[..n] == ss;
    }
  }

  // ---------- trend exits ----------

  /** An open position's reversal count is at most one, and one only right after a reversing session. */
  lemma {:induction false} ReversalCount(p: Position, ref: real, ss: seq<Session>)
    requires p.reversalDays == 0
    ensures var life := Live(p, ref, ss);
      life.Open? ==> life.pos.reversalDays <= 1
                     && (life.pos.reversalDays == 1 ==> ss != [] && Reversing(ss[|ss| - 1].view))
  {
    if ss != [] {
      hide Reversing;
      ReversalCount(p, ref, ss[..|ss| - 1]);
    }
  }

  lemma ReversingIs(view: ExitView)
    ensures Reversing(view)
            <==> view.priceBelow50dma && view.macdBearish && view.momentumScore.Some? && view.momentumScore.value < 30.0
  {}

  /** A trend exit is confirmed: in the closing session and in the one before it the price was below its average, MACD bearish and
      momentum under 30, so a single such day never sells. */
  lemma TrendExitIsConfirmed(p: Position, ref: real, ss: seq<Session>)
    requires p.reversalDays == 0 && ss != [] && Live(p, ref, ss[..|ss| - 1]).Open?
    requires Live(p, ref, ss).Closed? && Live(p, ref, ss).reason == TrendReversal
    ensures |ss| >= 2
    ensures forall k :: |ss| - 2 <= k < |ss| ==>
              var v := ss[k].view;
              v.priceBelow50dma && v.macdBearish && v.momentumScore.Some? && v.momentumScore.value < 30.0
  {
    hide Reversing;
    ReversalCount(p, ref, ss[..|ss| - 1]);
    ReversingIs(ss[|ss| - 1].view);
    if |ss| >= 2 { ReversingIs(ss[|ss| - 2].view); }
  }

  // ---------- the risk budget over a whole life ----------

  ghost predicate Coherent(bar: Bar) { bar.low <= bar.open <= bar.high && bar.low <= bar.close <= bar.high }

  /** What a life can have earned by a given moment, as a multiple of the entry ATR. */
  ghost predicate WithinRisk(p: Position, ref: real, life: Life) {
    match life
    case Open(q, pnl) =>
      && q.stopPrice >= p.stopPrice
      && (if q.tookPartial
          then q.shares == 0.5 * p.shares && pnl == 1.5 * (p.shares * p.atrAtEntry) && q.stopPrice >= ref
          else q.shares == p.shares && pnl == 0.0)
    case Closed(pnl, reason, trimmed) =>
      reason != StopGap ==>
        pnl >= (if trimmed then 1.5 else -2.5) * (p.shares * p.atrAtEntry)
  }

  lemma ExitGain(shares: real, atr: real, gain: real)
    requires shares >= 0.0
    ensures gain >= 0.0 ==> shares * 1.0 * gain >= 0.0
    ensures gain >= -2.5 * atr ==> shares * 1.0 * gain >= -2.5 * (shares * atr)
  {
    if gain >= -2.5 * atr { MulMono(shares, -2.5 * atr, gain); }
  }

  lemma TrimGain(shares: real, atr: real)
    ensures shares * 0.5 * (3.0 * atr) == 1.5 * (shares * atr)
  {}

  lemma BudgetOf(shares: real, atr: real, budget: real)
    requires shares > 0.0 && atr > 0.0 && shares * (2.5 * atr) <= budget
    ensures -2.5 * (shares * atr) >= -budget && shares * atr > 0.0 && budget >= 0.0
  {
    assert shares * (2.5 * atr) == 2.5 * (shares * atr);
    assert shares * atr > 0.0;
  }

  /** The levels a position was opened with: its stop and its target around the reference price. */
  ghost predicate Planned(p: Position, ref: real) {
    && p.shares > 0.0 && p.atrAtEntry > 0.0 && p.entryPrice >= ref
    && p.stopPrice == ref - 2.5 * p.atrAtEntry && p.targetPrice == ref + 3.0 * p.atrAtEntry
  }

  /** A planned position that was never trimmed. */
  ghost predicate FreshFrom(p: Position, ref: real) {
    Planned(p, ref) && !p.tookPartial
  }

  ghost predicate SameLevels(p: Position, q: Position) {
    q.targetPrice == p.targetPrice && q.entryPrice == p.entryPrice && q.atrAtEntry == p.atrAtEntry
  }

  lemma WithinRiskOnHold(p: Position, ref: real, q: Position, pnl: real, s: Session)
    requires Planned(p, ref) && SameLevels(p, q) && WithinRisk(p, ref, Open(q, pnl))
    requires EvaluateSell(q, s.bar, s.view).fraction < 1.0
    ensures WithinRisk(p, ref, LiveOn(q, pnl, ref, s))
  {
    hide EvaluateSell;
    SurvivingAction(q, s.bar, s.view);
    TrimGain(p.shares, p.atrAtEntry);
  }

  lemma WithinRiskOnClose(p: Position, ref: real, q: Position, pnl: real, s: Session)
    requires Planned(p, ref) && WithinRisk(p, ref, Open(q, pnl)) && s.bar.low <= s.bar.close
    requires EvaluateSell(q, s.bar, s.view).fraction >= 1.0
    ensures WithinRisk(p, ref, LiveOn(q, pnl, ref, s))
  {
    hide EvaluateSell, AfterAction;
    ClosingAction(q, s.bar, s.view);
    ExitGain(q.shares, p.atrAtEntry, EvaluateSell(q, s.bar, s.view).exitPrice - ref);
  }

  /** One more session keeps the life within its risk. */
  lemma WithinRiskStep(p: Position, ref: real, q: Position, pnl: real, s: Session)
    requires Planned(p, ref) && SameLevels(p, q) && WithinRisk(p, ref, Open(q, pnl)) && s.bar.low <= s.bar.close
    ensures WithinRisk(p, ref, LiveOn(q, pnl, ref, s))
  {
    hide EvaluateSell, LiveOn, WithinRisk;
    if EvaluateSell(q, s.bar, s.view).fraction < 1.0 {
      WithinRiskOnHold(p, ref, q, pnl, s);
    } else {
      WithinRiskOnClose(p, ref, q, pnl, s);
    }
  }

  lemma {:induction false} LifeWithinRisk(p: Position, ref: real, ss: seq<Session>)
    requires FreshFrom(p, ref)
    requires forall i :: 0 <= i < |ss| ==> Coherent(ss[i].bar)
    ensures WithinRisk(p, ref, Live(p, ref, ss))
  {
    if ss != [] {
      var n := |ss| - 1;
      LifeWithinRisk(p, ref, ss[..n]);
      var before := Live(p, ref, ss[..n]);
      if before.Open? {
        TrailIsHistory(p, ref, ss[..n]);
        WithinRiskStep(p, ref, before.pos, before.pnl, ss[n]);
      }
    }
  }

  lemma WithinBudget(p: Position, ref: real, life: Life, budget: real)
    requires p.shares > 0.0 && p.atrAtEntry > 0.0 && p.shares * (2.5 * p.atrAtEntry) <= budget
    requires WithinRisk(p, ref, life) && life.Closed? && life.reason != StopGap
    ensures life.pnl >= -budget
    ensures life.trimmed ==> life.pnl >= 1.5 * (p.shares * p.atrAtEntry)
  {
    BudgetOf(p.shares, p.atrAtEntry, budget);
  }

  /** The risk budget over a whole life: a position the planner sized loses at most 0.4% of the equity it was sized on,
      and earns at least 1.5 ATR a share once it was ever trimmed, unless it is closed by a gap through its stop. */
  lemma RiskBudgetHolds(e: EntryIntent, d: CycleData, equity: real, price: real, ss: seq<Session>)
    requires Sized(e, d, equity) && price >= e.refPrice
    requires forall i :: 0 <= i < |ss| ==> Coherent(ss[i].bar)
    ensures match Live(Opened(e, price), e.refPrice, ss)
      case Open(_, _) => true
      case Closed(pnl, reason, trimmed) =>
        reason != StopGap ==>
          pnl >= -0.004 * equity && (trimmed ==> pnl >= 1.5 * (e.shares * e.atr))
  {
    hide Live, WithinRisk;
    LifeWithinRisk(Opened(e, price), e.refPrice, ss);
    var life := Live(Opened(e, price), e.refPrice, ss);
    if life.Closed? && life.reason != StopGap {
      WithinBudget(Opened(e, price), e.refPrice, life, 0.004 * equity);
    }
  }

  // ---------- the exact condition ----------

  /** A life that ends, ends at one session, and what follows does not matter. */
  lemma {:induction false} LifeEnds(p: Position, ref: real, ss: seq<Session>) returns (n: nat)
    requires Live(p, ref, ss).Closed?
    ensures n < |ss| && Live(p, ref, ss[..n]).Open? && Live(p, ref, ss[..n + 1]) == Live(p, ref, ss)
  {
    hide LiveOn;
    var m := |ss| - 1;
    if Live(p, ref, ss[..m]).Open? {
      n := m;
      assert ss[..m + 1] == ss;
    } else {
      n := LifeEnds(p, ref, ss[..m]);
      assert ss[..m][..n] == ss[..n] && ss[..m][..n + 1] == ss[..n + 1];
    }
  }

  /** A coherent session closes a position by a gap exactly when it opens below the stop that history left. */
  lemma GapIffOpenBelowStop(p: Position, ref: real, ss: seq<Session>)
    requires ss != [] && Coherent(ss[|ss| - 1].bar) && Live(p, ref, ss[..|ss| - 1]).Open?
    ensures var life := Live(p, ref, ss);
      life.Closed? && life.reason == StopGap <==> ss[|ss| - 1].bar.open < TrailFromHistory(p, ss[..|ss| - 1])
  {
    hide TrailFromHistory, TrailingStop, Deteriorated, Reversing;
    TrailIsHistory(p, ref, ss[..|ss| - 1]);
  }

  /** The profit of a life that a gap closes: what was earned by a trim, and the rest sold at the open. */
  function GapProfit(p: Position, ref: real, trimmed: bool, open: real): real {
    if trimmed then 1.5 * (p.shares * p.atrAtEntry) + 0.5 * Amount(p.shares, open - ref) else Amount(p.shares, open - ref)
  }

  lemma GapLife(p: Position, ref: real, ss: seq<Session>)
    requires FreshFrom(p, ref) && ss != [] && (forall i :: 0 <= i < |ss| ==> Coherent(ss[i].bar))
    requires Live(p, ref, ss[..|ss| - 1]).Open? && ss[|ss| - 1].bar.open < TrailFromHistory(p, ss[..|ss| - 1])
    ensures var life := Live(p, ref, ss); var trimmed := TrimmedBy(p, ss[..|ss| - 1]);
      && life.Closed? && life.reason == StopGap && life.trimmed == trimmed
      && life.pnl == GapProfit(p, ref, trimmed, ss[|ss| - 1].bar.open)
  {
    hide TrailFromHistory, TrimmedBy, Live, EvaluateSell, WithinRisk;
    var init, s := ss[..|ss| - 1], ss[|ss| - 1];
    TrailIsHistory(p, ref, init);
    LifeWithinRisk(p, ref, init);
    var life := Live(p, ref, init);
    LiveStep(p, ref, ss);
    GapSale(life.pos, life.pnl, ref, s);
    TrimmedProfit(p, ref, life.pos, life.pnl);
    HalfAmount(p.shares, s.bar.open - ref);
  }

  lemma LiveStep(p: Position, ref: real, ss: seq<Session>)
    requires ss != [] && Live(p, ref, ss[..|ss| - 1]).Open?
    ensures var before := Live(p, ref, ss[..|ss| - 1]);
      Live(p, ref, ss) == LiveOn(before.pos, before.pnl, ref, ss[|ss| - 1])
  {
    hide LiveOn;
  }

  /** Opening below the stop sells everything at the open. */
  lemma GapSale(q: Position, pnl: real, ref: real, s: Session)
    requires Coherent(s.bar) && s.bar.open < q.stopPrice
    ensures LiveOn(q, pnl, ref, s) == Closed(pnl + Amount(q.shares, s.bar.open - ref), StopGap, q.tookPartial)
  {}

  lemma TrimmedProfit(p: Position, ref: real, q: Position, pnl: real)
    requires WithinRisk(p, ref, Open(q, pnl))
    ensures if q.tookPartial then q.shares == 0.5 * p.shares && pnl == 1.5 * (p.shares * p.atrAtEntry)
            else q.shares == p.shares && pnl == 0.0
    ensures q.stopPrice >= (if q.tookPartial then ref else p.stopPrice)
  {}

  lemma HalfAmount(shares: real, gain: real)
    ensures Amount(0.5 * shares, gain) == 0.5 * Amount(shares, gain)
  {}

  /** The lowest open that a position can be closed at without losing more than the budget. */
  function WorstOpen(p: Position, ref: real, budget: real, trimmed: bool): real
    requires p.shares > 0.0
  {
    if trimmed then ref - 3.0 * p.atrAtEntry - 2.0 * (budget / p.shares) else ref - budget / p.shares
  }

  lemma GapProfitBound(p: Position, ref: real, budget: real, trimmed: bool, open: real)
    requires p.shares > 0.0
    ensures GapProfit(p, ref, trimmed, open) >= -budget <==> open >= WorstOpen(p, ref, budget, trimmed)
  {
    hide Amount;
    if trimmed {
      AmountAtMost(p.shares, ref - open, budget * 2.0 + 3.0 * Amount(p.shares, p.atrAtEntry));
      AmountParts(p.shares, p.atrAtEntry, budget);
      AmountSign(p.shares, ref - open);
    } else {
      AmountAtMost(p.shares, ref - open, budget);
      AmountSign(p.shares, ref - open);
    }
  }

  lemma AmountAtMost(shares: real, x: real, limit: real)
    requires shares > 0.0
    ensures Amount(shares, x) <= limit <==> x <= limit / shares
  {
    QuotientBound(x, limit, shares);
  }

  lemma AmountParts(shares: real, atr: real, budget: real)
    requires shares > 0.0
    ensures (budget * 2.0 + 3.0 * Amount(shares, atr)) / shares == 2.0 * (budget / shares) + 3.0 * atr
    ensures shares * atr == Amount(shares, atr)
  {
    DivMul(budget, shares);
    var sum := 2.0 * (budget / shares) + 3.0 * atr;
    assert sum * shares == budget * 2.0 + 3.0 * Amount(shares, atr);
    assert sum * shares / shares == sum;
  }

  lemma AmountSign(shares: real, x: real)
    ensures Amount(shares, -x) == -Amount(shares, x)
  {}

  /** Above the worst open there is no gap that costs too much: the running stop never lies below it. */
  lemma StopAboveWorst(p: Position, ref: real, budget: real, trimmed: bool, stop: real)
    requires FreshFrom(p, ref) && p.shares * (2.5 * p.atrAtEntry) <= budget
    requires stop >= if trimmed then ref else p.stopPrice
    ensures stop >= WorstOpen(p, ref, budget, trimmed)
  {
    QuotientBound(2.5 * p.atrAtEntry, budget, p.shares);
  }

  /** A life that its last session closes, on a planned position, keeps the budget if and only if that session does not open
      below the worst open. */
  lemma ClosedWithinBudgetIff(p: Position, ref: real, budget: real, ss: seq<Session>)
    requires FreshFrom(p, ref) && p.shares * (2.5 * p.atrAtEntry) <= budget
    requires ss != [] && (forall i :: 0 <= i < |ss| ==> Coherent(ss[i].bar))
    requires Live(p, ref, ss[..|ss| - 1]).Open? && Live(p, ref, ss).Closed?
    ensures Live(p, ref, ss).pnl >= -budget
            <==> ss[|ss| - 1].bar.open >= WorstOpen(p, ref, budget, TrimmedBy(p, ss[..|ss| - 1]))
  {
    hide TrailFromHistory, TrimmedBy, Live, WithinRisk, GapProfit, WorstOpen;
    var init, open := ss[..|ss| - 1], ss[|ss| - 1].bar.open;
    var trimmed, before := TrimmedBy(p, init), Live(p, ref, init);
    TrailIsHistory(p, ref, init);
    LifeWithinRisk(p, ref, init);
    TrimmedProfit(p, ref, before.pos, before.pnl);
    GapIffOpenBelowStop(p, ref, ss);
    if open < TrailFromHistory(p, init) {
      GapLife(p, ref, ss);
      GapProfitBound(p, ref, budget, trimmed, open);
    } else {
      StopAboveWorst(p, ref, budget, trimmed, before.pos.stopPrice);
      LifeWithinRisk(p, ref, ss);
      WithinBudget(p, ref, Live(p, ref, ss), budget);
    }
  }

  /** The exact condition for every planned position and every life of it that ends: the loss stays within 0.4% of the equity
      the position was sized on if and only if the session that closes it opens at or above `WorstOpen`. */
  lemma RiskBudgetIff(e: EntryIntent, d: CycleData, equity: real, price: real, ss: seq<Session>) returns (n: nat)
    requires Sized(e, d, equity) && price >= e.refPrice && Live(Opened(e, price), e.refPrice, ss).Closed?
    requires forall i :: 0 <= i < |ss| ==> Coherent(ss[i].bar)
    ensures var p := Opened(e, price);
      && n < |ss| && Live(p, e.refPrice, ss[..n]).Open? && Live(p, e.refPrice, ss[..n + 1]) == Live(p, e.refPrice, ss)
      && (Live(p, e.refPrice, ss).pnl >= -0.004 * equity
          <==> ss[n].bar.open >= WorstOpen(p, e.refPrice, 0.004 * equity, TrimmedBy(p, ss[..n])))
  {
    hide Live, TrimmedBy, WorstOpen;
    var p := Opened(e, price);
    n := LifeEnds(p, e.refPrice, ss);
    assert ss[..n + 1][..n] == ss[..n];
    ClosedWithinBudgetIff(p, e.refPrice, 0.004 * equity, ss[..n + 1]);
  }

  /** So a gap breaks the budget of every planned position whose worst open is a price at all: one coherent bar with positive
      prices is enough. */
  lemma GapExceedsBudget(e: EntryIntent, d: CycleData, equity: real, price: real, view: ExitView) returns (s: Session)
    requires Sized(e, d, equity) && price >= e.refPrice
    requires WorstOpen(Opened(e, price), e.refPrice, 0.004 * equity, false) > 0.0
    ensures Coherent(s.bar) && s.bar.low > 0.0
    ensures var life := Live(Opened(e, price), e.refPrice, [s]);
      life.Closed? && life.reason == StopGap && life.pnl < -0.004 * equity
  {
    hide WorstOpen, GapProfit;
    var p := Opened(e, price);
    var budget := 0.004 * equity;
    var open := WorstOpen(p, e.refPrice, budget, false) / 2.0;
    s := Session(Bar(open, open, open, open), view, None);
    StopAboveWorst(p, e.refPrice, budget, false, p.stopPrice);
    assert [s][..0] == [];
    NothingSeen(p);
    GapLife(p, e.refPrice, [s]);
    GapProfitBound(p, e.refPrice, budget, false, open);
  }

  lemma NothingSeen(p: Position)
    ensures TrailFromHistory(p, []) == p.stopPrice && TrimmedBy(p, []) == p.tookPartial
  {}

  // ---------- an entry the planner makes ----------

  /** Forty-nine quiet closes and a breakout. */
  function BreakoutCloses(): seq<real> { seq(49, _ => 90.0) + [100.0] }

  lemma BreakoutAboveAverage()
    ensures |BreakoutCloses()| == 50 && BreakoutCloses()[49] == 100.0
    ensures Sma(BreakoutCloses(), 50) == Some(90.2)
  {
    var closes := BreakoutCloses();
    assert closes[..49] == seq(49, _ => 90.0);
    ConstantTotal(closes[..49], 90.0);
    assert closes[0..] == closes;
  }

  function BreakoutData(): CycleData {
    CycleData("X", "S", Bar(100.0, 100.0, 100.0, 100.0), BreakoutCloses(),
              map[Momentum := map["breakout_strength" := Some(1.0)]],
              StrategyScore("X", map[], Some(60.0), Some(1), 1.0, Some(90.0), 1.0), Some(10.0))
  }

  function BreakoutEntry(): EntryIntent {
    EntryIntent("X", 16.0, 100.0, 75.0, 130.0, 10.0, Some(60.0), None, "S")
  }

  /** The planner funds this entry, and a session that opens far below its stop then closes it for more than the budget. */
  lemma PlannedGap()
    ensures EntriesFor(map["X" := BreakoutData()], ["X"], 100000.0, 100000.0, {}, map[], 0, 5).entries == [BreakoutEntry()]
    ensures Sized(BreakoutEntry(), BreakoutData(), 100000.0)
    ensures exists s: Session :: Coherent(s.bar) && s.bar.low > 0.0
              && Live(Opened(BreakoutEntry(), 100.0), 100.0, [s]).Closed?
              && Live(Opened(BreakoutEntry(), 100.0), 100.0, [s]).pnl < -0.004 * 100000.0
  {
    hide Live;
    BreakoutIsFunded();
    var s := GapExceedsBudget(BreakoutEntry(), BreakoutData(), 100000.0, 100.0, ExitView(None, None, None, None, false, false));
  }

  lemma BreakoutIsFunded()
    ensures EntriesFor(map["X" := BreakoutData()], ["X"], 100000.0, 100000.0, {}, map[], 0, 5).entries == [BreakoutEntry()]
    ensures Sized(BreakoutEntry(), BreakoutData(), 100000.0)
  {
    hide Candidates, FrameFor, Walk, Step, Sized, BreakoutCloses, Sma;
    var d, data := BreakoutData(), map["X" := BreakoutData()];
    var start := Tally([], [], 100000.0, map[]);
    OneCandidate(d, data);
    OnePool(d);
    WalkOne(FrameFor([d], 100000.0, {}, 0, 5), start, d);
    BreakoutAboveAverage();
    BreakoutDecision(FrameFor([d], 100000.0, {}, 0, 5), start);
  }

  lemma WalkOne(f: Frame, start: Tally, d: CycleData)
    ensures Walk(f, start, [d]) == Step(f, start, d)
  {
    hide Step;
    assert [d][..0] == [];
  }

  lemma OneCandidate(d: CycleData, data: Market)
    requires data == map["X" := d]
    ensures Candidates(data, ["X"]) == [d]
  {
    var vals := Values(data, ["X"]);
    assert vals == [d];
    assert vals[..0] == [];
  }

  lemma OnePool(d: CycleData)
    requires d == BreakoutData()
    ensures FrameFor([d], 100000.0, {}, 0, 5) == Frame(100000.0, {}, 0, 1, {"X"}, {})
  {
    assert [d][..0] == [];
    assert RankedPart([d]) == [d];
    var ranked := Labels([d]);
    assert ranked == [CandidatePool.Ranked("X", "S")];
    assert CandidatePool.InPool(ranked, 1, 0);
  }

  lemma BreakoutDecision(f: Frame, t: Tally)
    requires f == Frame(100000.0, {}, 0, 1, {"X"}, {}) && t == Tally([], [], 100000.0, map[])
    requires Sma(BreakoutCloses(), 50) == Some(90.2) && |BreakoutCloses()| == 50 && BreakoutCloses()[49] == 100.0
    ensures Step(f, t, BreakoutData()).entries == [BreakoutEntry()] && Sized(BreakoutEntry(), BreakoutData(), 100000.0)
  {
    hide BreakoutCloses;
    var d := BreakoutData();
    assert EvaluateBuy(Context(f, t, d)).None?;
    assert SizePosition(100000.0, 100.0, 10.0, 100000.0) == Some(PositionSize(16.0, 1600.0, 75.0, 130.0, 400.0));
  }
}
