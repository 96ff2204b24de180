/** What the planner's order of candidates means in terms of their ranks. */
module PlanRanks {
  import opened Domain
  import opened Keys
  import opened Decision
  import opened PlanLimits
  import opened PlanOrder
  import CandidatePool

  ghost predicate RankedIn(data: Market, s: Symbol) { s in data && data[s].score.rank.Some? }

  function RankIn(data: Market, s: Symbol): nat
    requires s in data && data[s].score.rank.Some?
  {
    data[s].score.rank.value
  }

  // ---------- the candidates ----------

  /** The names that reach the pool are the ranked ones, best rank first. */
  lemma RankedInOrder(data: Market, order: seq<Symbol>)
    requires Filed(data) && Enumerates(order, data.Keys) && DistinctRanks(data)
    ensures var ranked := RankedPart(Candidates(data, order));
      && (forall i :: 0 <= i < |ranked| ==>
            ranked[i].score.rank.Some? && ranked[i].symbol in data && data[ranked[i].symbol] == ranked[i])
      && (forall i, j :: 0 <= i < j < |ranked| ==> ranked[i].score.rank.value < ranked[j].score.rank.value)
      && (forall s :: RankedIn(data, s) ==> data[s] in ranked)
  {
    hide Candidates;
    var ranked := RankedPart(Candidates(data, order));
    CandidatesDistinct(data, order);
    RankedDistinct(Candidates(data, order));
    RankedCandidatesStrict(data, order);
    forall i | 0 <= i < |ranked|
      ensures ranked[i].score.rank.Some? && ranked[i].symbol in data && data[ranked[i].symbol] == ranked[i]
    {
      assert ranked[i] in ranked;
    }
    forall i, j | 0 <= i < j < |ranked| ensures ranked[i].score.rank.value < ranked[j].score.rank.value {
      assert RankKey(ranked[i]) < RankKey(ranked[j]);
      RankKeyIsRank(ranked[i]);
      RankKeyIsRank(ranked[j]);
    }
  }

  lemma RankKeyIsRank(d: CycleData)
    requires d.score.rank.Some? && d.score.rank.value >= 1
    ensures RankKey(d) == d.score.rank.value as real
  {}

  /** The pool is that of the ranked names, each under its own symbol and sector. */
  lemma PoolIsOfRanked(data: Market, order: seq<Symbol>, equity: real, held: set<Symbol>, entriesToday: nat, nScored: int)
    requires forall s :: s in order ==> s in data
    ensures var cands := Candidates(data, order);
      var r, f := RankedPart(cands), FrameFor(cands, equity, held, entriesToday, nScored);
      var ranked := seq(|r|, i requires 0 <= i < |r| => CandidatePool.Ranked(r[i].symbol, r[i].sector));
      && f.threshold == CandidatePool.CandidatePoolSize(nScored)
      && f.pool == CandidatePool.Pool(ranked, f.threshold) && f.cappedOut == CandidatePool.CappedOut(ranked, f.threshold)
      && f.equity == equity && f.held == held && f.entriesToday == entriesToday
  {
    hide Candidates, RankedPart, CandidatePool.Pool, CandidatePool.CappedOut;
    var r := RankedPart(Candidates(data, order));
    assert Labels(r) == seq(|r|, i requires 0 <= i < |r| => CandidatePool.Ranked(r[i].symbol, r[i].sector));
  }

  /** Unranked names come last: only a rank of a billion or more could come after one. */
  lemma UnrankedLast(data: Market, order: seq<Symbol>, i: nat, j: nat)
    requires Filed(data) && Enumerates(order, data.Keys) && DistinctRanks(data) && i < j < |Candidates(data, order)|
    ensures var cands := Candidates(data, order);
      cands[i].score.rank.None? && cands[j].score.rank.Some? ==> cands[j].score.rank.value >= 1000000000
  {
    var cands := Candidates(data, order);
    CandidatesDistinct(data, order);
    assert cands[j] in cands;
    assert RankKey(cands[i]) <= RankKey(cands[j]);
  }

  /** The pool is closed under better ranks within a sector: whoever is in it, every better-ranked name of that sector is too. */
  lemma PoolTakesBestRanks(data: Market, order: seq<Symbol>, equity: real, held: set<Symbol>, entriesToday: nat, nScored: int,
                           s: Symbol, u: Symbol)
    requires Filed(data) && Enumerates(order, data.Keys) && DistinctRanks(data)
    requires RankedIn(data, s) && RankedIn(data, u) && data[s].sector == data[u].sector && RankIn(data, s) <= RankIn(data, u)
    ensures var pool := FrameFor(Candidates(data, order), equity, held, entriesToday, nScored).pool;
      u in pool ==> s in pool
  {
    hide Candidates, CandidatePool.InPool;
    var ranked := RankedPart(Candidates(data, order));
    var labels, size := Labels(ranked), CandidatePool.CandidatePoolSize(nScored);
    RankedInOrder(data, order);
    CandidatePool.PoolIsSectorClosed(labels, size);
    var i :| 0 <= i < |ranked| && ranked[i] == data[s];
    var pick := CandidatePool.FinalPool(labels, size);
    if u in CandidatePool.Pool(labels, size) {
      var j :| 0 <= j < |labels| && pick[j] && labels[j].symbol == u;
      assert ranked[j] == data[u];
      assert i <= j;
      assert labels[i].symbol == s && labels[i].sector == labels[j].sector;
      assert pick[i];
    }
  }

  // ---------- the walk ----------

  lemma {:induction false} WalkConcat(f: Frame, start: Tally, a: seq<CycleData>, b: seq<CycleData>)
    ensures Walk(f, start, a + b) == Walk(f, Walk(f, start, a), b)
  {
    hide Step;
    if b == [] {
      assert a + b == a;
    } else {
      assert (a + b)[..|a + b| - 1] == a + b[..|b| - 1];
      WalkConcat(f, start, a, b[..|b| - 1]);
    }
  }

  /** Walking on only adds: entries for the names walked over, and skips. */
  ghost predicate Adds(t: Tally, u: Tally, cands: seq<CycleData>) {
    && t.entries <= u.entries && t.skips <= u.skips
    && forall i :: |t.entries| <= i < |u.entries| ==> exists k :: 0 <= k < |cands| && cands[k].symbol == u.entries[i].symbol
  }

  lemma {:induction false} WalkAdds(f: Frame, start: Tally, cands: seq<CycleData>)
    ensures Adds(start, Walk(f, start, cands), cands)
  {
    if cands != [] {
      var n := |cands| - 1;
      WalkAdds(f, start, cands[..n]);
      var t, u := Walk(f, start, cands[..n]), Walk(f, start, cands);
      StepCases(f, t, cands[n]);
      forall i | |start.entries| <= i < |u.entries| ensures exists k :: 0 <= k < |cands| && cands[k].symbol == u.entries[i].symbol {
        if i < |t.entries| {
          var k :| 0 <= k < |cands[..n]| && cands[..n][k].symbol == t.entries[i].symbol;
          assert cands[k].symbol == u.entries[i].symbol;
        } else {
          assert cands[n].symbol == u.entries[i].symbol;
        }
      }
    }
  }

  /** What the entries of one sector cost. */
  function SpentIn(entries: seq<EntryIntent>, sector: Sector): real {
    if entries == [] then 0.0
    else
      var last := entries[|entries| - 1];
      SpentIn(entries[..|entries| - 1], sector) + if last.sector == sector then last.shares * last.refPrice else 0.0
  }

  /** The running budget: the cash and sector totals at the start, moved by the entries so far. */
  ghost predicate Running(start: Tally, t: Tally) {
    && t.cash == start.cash - Notional(t.entries)
    && forall x :: SectorOf(t, x) == SectorOf(start, x) + SpentIn(t.entries, x)
  }

  lemma {:induction false} WalkRuns(f: Frame, start: Tally, cands: seq<CycleData>)
    requires start.entries == []
    ensures Running(start, Walk(f, start, cands))
  {
    hide Step, Sized;
    if cands != [] {
      var n := |cands| - 1;
      var t, u := Walk(f, start, cands[..n]), Walk(f, start, cands);
      WalkRuns(f, start, cands[..n]);
      StepFunds(f, t, cands[n]);
      if u.entries != t.entries {
        var e :| u.entries == t.entries + [e] && Funds(f, t, u, cands[n], e);
        NotionalAppend(t.entries, e);
        FundedSector(f, t, u, cands[n], e);
        EntryRuns(start, t, u, cands[n], e);
      }
    }
  }

  lemma FundedSector(f: Frame, t: Tally, u: Tally, d: CycleData, e: EntryIntent)
    requires Funds(f, t, u, d, e)
    ensures e.sector == d.sector
  {}

  lemma EntryRuns(start: Tally, t: Tally, u: Tally, d: CycleData, e: EntryIntent)
    requires Running(start, t) && u.entries == t.entries + [e] && e.sector == d.sector
    requires Notional(u.entries) == Notional(t.entries) + e.shares * e.refPrice && u.cash == t.cash - e.shares * e.refPrice
    requires u.sector == t.sector[d.sector := SectorOf(t, d.sector) + e.shares * e.refPrice]
    ensures Running(start, u)
  {
    assert u.entries[..|t.entries|] == t.entries;
  }

  // ---------- what the plan owes to ranks ----------

  /** The walk over ranked names split at one of them. */
  lemma SplitAt(f: Frame, start: Tally, ranked: seq<CycleData>, i: nat) returns (t: Tally)
    requires i < |ranked|
    ensures t == Walk(f, start, ranked[..i])
    ensures Adds(Step(f, t, ranked[i]), Walk(f, start, ranked), ranked[i + 1..])
  {
    hide Step;
    t := Walk(f, start, ranked[..i]);
    assert ranked == ranked[..i] + [ranked[i]] + ranked[i + 1..];
    WalkAppend(f, start, ranked[..i], ranked[i]);
    WalkConcat(f, start, ranked[..i] + [ranked[i]], ranked[i + 1..]);
    WalkAdds(f, Step(f, t, ranked[i]), ranked[i + 1..]);
  }

  /** Each ranked name is decided on the budget that the better-ranked entries leave, and on nothing else: the first `k` entries
      of the plan are those ranked better, the cash and the sector totals are those of the start less what these cost, and the
      decision made on them is the one the plan records. So a name can be refused for cash only because of better ranks. */
  lemma DecidedOnBetterRanks(data: Market, order: seq<Symbol>, equity: real, cash: real, held: set<Symbol>,
                             sector: map<Sector, real>, entriesToday: nat, nScored: int, s: Symbol) returns (t: Tally, k: nat)
    requires Filed(data) && Enumerates(order, data.Keys) && DistinctRanks(data) && RankedIn(data, s)
    ensures var f := FrameFor(Candidates(data, order), equity, held, entriesToday, nScored);
      var plan := EntriesFor(data, order, equity, cash, held, sector, entriesToday, nScored);
      && k <= |plan.entries| && t.entries == plan.entries[..k]
      && (forall i :: 0 <= i < |plan.entries| ==>
            RankedIn(data, plan.entries[i].symbol) && (i < k <==> RankIn(data, plan.entries[i].symbol) < RankIn(data, s)))
      && Running(Tally([], [], cash, sector), t)
      && match Decide(f, t, data[s])
         case Held => s in held
         case Skipped(reason) => SkipRecord(s, reason, reason.Kind(), data[s].score.rank) in plan.skips
         case Funded(size, atr) => k < |plan.entries| && plan.entries[k] == EntryFor(data[s], size, atr)
  {
    hide Candidates, Decide, Walk, Running, Record, RankedPart, Adds;
    var cands := Candidates(data, order);
    var ranked, start := RankedPart(cands), Tally([], [], cash, sector);
    var f := FrameFor(cands, equity, held, entriesToday, nScored);
    RankedInOrder(data, order);
    WalkRanked(f, start, cands);
    var i :| 0 <= i < |ranked| && ranked[i] == data[s];
    t := SplitAt(f, start, ranked, i);
    k := |t.entries|;
    WalkRuns(f, start, ranked[..i]);
    BetterOnesFirst(f, start, data, ranked, i, t);
    Recorded(f, t, data[s], Walk(f, start, ranked), ranked[i + 1..], Walk(f, start, cands));
  }

  /** A decision is recorded where the walk made it. */
  lemma Recorded(f: Frame, t: Tally, d: CycleData, walked: Tally, rest: seq<CycleData>, plan: Tally)
    requires Adds(Step(f, t, d), walked, rest) && plan.entries == walked.entries
    requires multiset(plan.skips) >= multiset(walked.skips)
    ensures match Decide(f, t, d)
      case Held => d.symbol in f.held
      case Skipped(reason) => SkipRecord(d.symbol, reason, reason.Kind(), d.score.rank) in plan.skips
      case Funded(size, atr) => |t.entries| < |plan.entries| && plan.entries[|t.entries|] == EntryFor(d, size, atr)
  {
    hide Decide;
    var v := Decide(f, t, d);
    if v.Skipped? {
      var skip := SkipRecord(d.symbol, v.reason, v.reason.Kind(), d.score.rank);
      assert walked.skips[|t.skips|] == skip;
      assert skip in multiset(walked.skips);
    } else if v.Held? {
      HeldIsHeld(f, t, d);
    }
  }

  lemma HeldIsHeld(f: Frame, t: Tally, d: CycleData)
    requires Decide(f, t, d).Held?
    ensures d.symbol in f.held
  {}

  lemma BetterOnesFirst(f: Frame, start: Tally, data: Market, ranked: seq<CycleData>, i: nat, t: Tally)
    requires start.entries == [] && i < |ranked| && t == Walk(f, start, ranked[..i])
    requires Adds(Step(f, t, ranked[i]), Walk(f, start, ranked), ranked[i + 1..])
    requires forall j :: 0 <= j < |ranked| ==>
               ranked[j].score.rank.Some? && ranked[j].symbol in data && data[ranked[j].symbol] == ranked[j]
    requires forall j, k :: 0 <= j < k < |ranked| ==> ranked[j].score.rank.value < ranked[k].score.rank.value
    ensures var all := Walk(f, start, ranked).entries;
      && t.entries <= all
      && forall j :: 0 <= j < |all| ==>
           RankedIn(data, all[j].symbol) && (j < |t.entries| <==> RankIn(data, all[j].symbol) < ranked[i].score.rank.value)
  {
    hide Walk;
    var u, all := Step(f, t, ranked[i]), Walk(f, start, ranked).entries;
    StepCases(f, t, ranked[i]);
    WalkAdds(f, start, ranked[..i]);
    hide Step;
    forall j | 0 <= j < |all|
      ensures RankedIn(data, all[j].symbol) && (j < |t.entries| <==> RankIn(data, all[j].symbol) < ranked[i].score.rank.value)
    {
      if j < |t.entries| {
        assert all[j] == t.entries[j];
        var k :| 0 <= k < |ranked[..i]| && ranked[..i][k].symbol == t.entries[j].symbol;
        assert ranked[k].symbol == all[j].symbol;
      } else if j < |u.entries| {
        assert all[j] == u.entries[j] && u.entries[j].symbol == ranked[i].symbol;
      } else {
        var k :| 0 <= k < |ranked[i + 1..]| && ranked[i + 1..][k].symbol == all[j].symbol;
        assert ranked[i + 1 + k].symbol == all[j].symbol;
      }
    }
  }

  /** All of them ranked, each rank above the one before. */
  ghost predicate InRankOrder(data: Market, entries: seq<EntryIntent>) {
    && (forall i :: 0 <= i < |entries| ==> RankedIn(data, entries[i].symbol))
    && (forall i, j :: 0 <= i < j < |entries| ==> RankIn(data, entries[i].symbol) < RankIn(data, entries[j].symbol))
  }

  /** Entries come in strictly increasing rank. */
  lemma EntriesInRankOrder(data: Market, order: seq<Symbol>, equity: real, cash: real, held: set<Symbol>,
                           sector: map<Sector, real>, entriesToday: nat, nScored: int)
    requires Filed(data) && Enumerates(order, data.Keys) && DistinctRanks(data)
    ensures InRankOrder(data, EntriesFor(data, order, equity, cash, held, sector, entriesToday, nScored).entries)
  {
    hide EntriesFor, Sized, Notional;
    var entries := EntriesFor(data, order, equity, cash, held, sector, entriesToday, nScored).entries;
    EntriesComeFromData(data, order, equity, cash, held, sector, entriesToday, nScored);
    forall i | 0 <= i < |entries| ensures RankedIn(data, entries[i].symbol) {
      SizedIsRanked(entries[i], data[entries[i].symbol], equity);
    }
    forall i, j | 0 <= i < j < |entries| ensures RankIn(data, entries[i].symbol) < RankIn(data, entries[j].symbol) {
      LaterIsWorse(data, order, equity, cash, held, sector, entriesToday, nScored, i, j);
      assert entries[i].symbol != entries[j].symbol;
    }
  }

  lemma LaterIsWorse(data: Market, order: seq<Symbol>, equity: real, cash: real, held: set<Symbol>, sector: map<Sector, real>,
                     entriesToday: nat, nScored: int, i: nat, j: nat)
    requires Filed(data) && Enumerates(order, data.Keys) && DistinctRanks(data)
    requires i < j < |EntriesFor(data, order, equity, cash, held, sector, entriesToday, nScored).entries|
    ensures var entries := EntriesFor(data, order, equity, cash, held, sector, entriesToday, nScored).entries;
      && RankedIn(data, entries[i].symbol) && RankedIn(data, entries[j].symbol)
      && RankIn(data, entries[i].symbol) <= RankIn(data, entries[j].symbol)
  {
    hide EntriesFor, Sized, Decide, Running;
    EntriesComeFromData(data, order, equity, cash, held, sector, entriesToday, nScored);
    var entries := EntriesFor(data, order, equity, cash, held, sector, entriesToday, nScored).entries;
    SizedIsRanked(entries[i], data[entries[i].symbol], equity);
    var t, k := DecidedOnBetterRanks(data, order, equity, cash, held, sector, entriesToday, nScored, entries[i].symbol);
  }

  lemma SizedIsRanked(e: EntryIntent, d: CycleData, equity: real)
    requires Sized(e, d, equity)
    ensures d.score.rank.Some?
  {}
}
