/** The backtest runs on the fusion: its ranks are distinct, which is what makes a run independent of set iteration order. */
module FusedRuns {
  import opened Domain
  import opened CrossSection
  import opened Regimes
  import opened Engine
  import opened BacktestRuns
  import opened Strategy

  /** The scores filed by symbol, as both engines keep them. */
  function BySymbol(scores: seq<StrategyScore>): map<Symbol, StrategyScore> {
    if scores == [] then map[]
    else BySymbol(scores[..|scores| - 1])[scores[|scores| - 1].symbol := scores[|scores| - 1]]
  }

  /** Where a filed score comes from. */
  lemma {:induction false} FiledAt(scores: seq<StrategyScore>, s: Symbol) returns (i: nat)
    requires s in BySymbol(scores)
    ensures i < |scores| && scores[i].symbol == s && BySymbol(scores)[s] == scores[i]
  {
    var n := |scores| - 1;
    if s == scores[n].symbol {
      i := n;
    } else {
      i := FiledAt(scores[..n], s);
    }
  }

  /** The fusion gives distinct positive ranks, which is what makes a backtest independent of set iteration order. */
  lemma FusionRanksDistinctly(env: Env, st: Stats)
    requires forall cs: seq<StrategyCompany>, r: Regime :: env.fuse(cs, r) == BySymbol(Fuse(st, cs, WeightsFor(r)))
    ensures FusesDistinctly(env)
  {
    hide Fuse, BySymbol, WeightsFor;
    forall cs: seq<StrategyCompany>, r: Regime
      ensures var scores := env.fuse(cs, r);
        && (forall s :: s in scores && scores[s].rank.Some? ==> scores[s].rank.value >= 1)
        && (forall s, u :: s in scores && u in scores && s != u && scores[s].rank.Some? ==> scores[s].rank != scores[u].rank)
    {
      var list := Fuse(st, cs, WeightsFor(r));
      assert env.fuse(cs, r) == BySymbol(list);
      FuseRankIsIndex(st, cs, WeightsFor(r));
      RanksTellApart(list);
    }
  }

  lemma FuseRankIsIndex(st: Stats, cs: seq<StrategyCompany>, weights: Weights)
    ensures var list := Fuse(st, cs, weights);
      forall i :: 0 <= i < |list| && list[i].rank.Some? ==> list[i].rank.value == i + 1
  {
    hide Results, Percentiles, Ordered;
  }

  lemma RanksTellApart(list: seq<StrategyScore>)
    requires forall i :: 0 <= i < |list| && list[i].rank.Some? ==> list[i].rank.value == i + 1
    ensures var scores := BySymbol(list);
      && (forall s :: s in scores && scores[s].rank.Some? ==> scores[s].rank.value >= 1)
      && (forall s, u :: s in scores && u in scores && s != u && scores[s].rank.Some? ==> scores[s].rank != scores[u].rank)
  {
    hide BySymbol;
    var scores := BySymbol(list);
    forall s | s in scores && scores[s].rank.Some? ensures scores[s].rank.value >= 1 {
      var i := FiledAt(list, s);
    }
    forall s, u | s in scores && u in scores && s != u && scores[s].rank.Some? ensures scores[s].rank != scores[u].rank {
      var i := FiledAt(list, s);
      var j := FiledAt(list, u);
    }
  }
}
