/** A plan does not depend on the order in which the cycle's data is iterated. */
module PlanOrder {
  import opened Wrappers
  import opened Domain
  import opened Keys
  import opened Sorting
  import opened Rules
  import opened Decision

  /** Ranked names carry pairwise distinct ranks, counted from one. */
  ghost predicate DistinctRanks(data: Market) {
    && (forall s :: s in data && data[s].score.rank.Some? ==> data[s].score.rank.value >= 1)
    && (forall s, t :: s in data && t in data && s != t && data[s].score.rank.Some?
          ==> data[s].score.rank != data[t].score.rank)
  }

  /** The skip an unranked name gets: its gate never looks at the running budget. */
  function UnrankedSkips(f: Frame, cands: seq<CycleData>): seq<SkipRecord> {
    if cands == [] then []
    else
      var d := cands[|cands| - 1];
      UnrankedSkips(f, cands[..|cands| - 1]) +
      (if d.score.rank.None? && d.symbol !in f.held then [UnrankedSkip(f, d)] else [])
  }

  function UnrankedSkip(f: Frame, d: CycleData): SkipRecord {
    var verdict := EvaluateBuy(Context(f, Tally([], [], 0.0, map[]), d));
    var reason := if verdict.Some? then verdict.value else OutsideCandidatePool;
    SkipRecord(d.symbol, reason, reason.Kind(), None)
  }

  lemma UnrankedStep(f: Frame, t: Tally, d: CycleData)
    requires d.score.rank.None?
    ensures Step(f, t, d) == t.(skips := t.skips + if d.symbol in f.held then [] else [UnrankedSkip(f, d)])
  {
    if d.symbol !in f.held {
      var a, b := Context(f, t, d), Context(f, Tally([], [], 0.0, map[]), d);
      assert EvaluateBuy(a) == EvaluateBuy(b) && EvaluateBuy(a).Some?;
    }
  }

  /** Two tallies with the same entries and running budget take the same decision on every candidate. */
  lemma DecideIgnoresSkips(f: Frame, t: Tally, u: Tally, d: CycleData)
    requires t.(skips := []) == u.(skips := [])
    ensures Decide(f, t, d) == Decide(f, u, d)
  {
    assert Context(f, t, d) == Context(f, u, d);
  }

  lemma RecordBoth(t: Tally, r: Tally, d: CycleData, v: Verdict, extra: multiset<SkipRecord>)
    requires t.(skips := []) == r.(skips := []) && multiset(t.skips) == multiset(r.skips) + extra
    ensures Record(t, d, v).(skips := []) == Record(r, d, v).(skips := [])
    ensures multiset(Record(t, d, v).skips) == multiset(Record(r, d, v).skips) + extra
  {}

  /** Walking all candidates decides exactly what walking the ranked ones decides, plus one fixed skip
      for each unranked name. */
  lemma {:induction false} WalkRanked(f: Frame, start: Tally, cands: seq<CycleData>)
    ensures var t, r := Walk(f, start, cands), Walk(f, start, RankedPart(cands));
      && t.(skips := []) == r.(skips := [])
      && multiset(t.skips) == multiset(r.skips) + multiset(UnrankedSkips(f, cands))
  {
    hide Decide, Record, UnrankedSkip;
    if cands != [] {
      var n := |cands| - 1;
      var d, init := cands[n], RankedPart(cands[..n]);
      WalkRanked(f, start, cands[..n]);
      var t, r := Walk(f, start, cands[..n]), Walk(f, start, init);
      if d.score.rank.Some? {
        assert RankedPart(cands) == init + [d];
        WalkAppend(f, start, init, d);
        DecideIgnoresSkips(f, t, r, d);
        var v := Decide(f, t, d);
        RecordBoth(t, r, d, v, multiset(UnrankedSkips(f, cands[..n])));
        assert Walk(f, start, cands) == Record(t, d, v);
        assert Walk(f, start, RankedPart(cands)) == Record(r, d, v);
        assert UnrankedSkips(f, cands) == UnrankedSkips(f, cands[..n]);
      } else {
        assert RankedPart(cands) == init;
        UnrankedStep(f, t, d);
        var own := if d.symbol in f.held then [] else [UnrankedSkip(f, d)];
        assert Walk(f, start, cands) == t.(skips := t.skips + own);
        assert UnrankedSkips(f, cands) == UnrankedSkips(f, cands[..n]) + own;
      }
    }
  }

  lemma WalkAppend(f: Frame, start: Tally, cands: seq<CycleData>, d: CycleData)
    ensures Walk(f, start, cands + [d]) == Step(f, Walk(f, start, cands), d)
  {
    assert (cands + [d])[..|cands|] == cands;
  }

  lemma {:induction false} UnrankedConcat(f: Frame, a: seq<CycleData>, b: seq<CycleData>)
    ensures UnrankedSkips(f, a + b) == UnrankedSkips(f, a) + UnrankedSkips(f, b)
  {
    if b == [] {
      assert a + b == a;
    } else {
      assert (a + b)[..|a + b| - 1] == a + b[..|b| - 1];
      UnrankedConcat(f, a, b[..|b| - 1]);
    }
  }

  lemma {:induction false} UnrankedPermuted(f: Frame, a: seq<CycleData>, b: seq<CycleData>)
    requires multiset(a) == multiset(b)
    ensures multiset(UnrankedSkips(f, a)) == multiset(UnrankedSkips(f, b))
  {
    hide UnrankedSkips;
    if a == [] {
      assert |multiset(b)| == 0;
    } else {
      var n := |a| - 1;
      var x := a[n];
      var i := Partner(a, b);
      assert a == a[..n] + [x] && b == b[..i] + [x] + b[i + 1..];
      UnrankedPermuted(f, a[..n], b[..i] + b[i + 1..]);
      UnrankedConcat(f, a[..n], [x]);
      UnrankedConcat(f, b[..i] + [x], b[i + 1..]);
      UnrankedConcat(f, b[..i], [x]);
      UnrankedConcat(f, b[..i], b[i + 1..]);
    }
  }

  ghost predicate StrictlyRanked(xs: seq<CycleData>) {
    forall i, j :: 0 <= i < j < |xs| ==> RankKey(xs[i]) < RankKey(xs[j])
  }

  lemma {:induction false} RankedPartSorted(xs: seq<CycleData>)
    requires SortedBy(xs, RankKey)
    ensures SortedBy(RankedPart(xs), RankKey)
    ensures forall d :: d in RankedPart(xs) ==> d in xs
  {
    if xs != [] {
      var n := |xs| - 1;
      RankedPartSorted(xs[..n]);
      var r := RankedPart(xs[..n]);
      forall i | 0 <= i < |r| ensures RankKey(r[i]) <= RankKey(xs[n]) {
        assert r[i] in xs[..n];
      }
    }
  }

  /** A strictly increasing sequence is determined by its elements. */
  lemma {:induction false} StrictOrderUnique(a: seq<CycleData>, b: seq<CycleData>)
    requires StrictlyRanked(a) && StrictlyRanked(b)
    requires multiset(a) == multiset(b)
    ensures a == b
  {
    if a == [] {
      assert |multiset(b)| == 0;
    } else {
      var m, n := |a| - 1, |b| - 1;
      var i := Partner(a, b);
      PartnerIsLast(a, b, i);
      assert b[..i] + b[i + 1..] == b[..n];
      StrictOrderUnique(a[..m], b[..n]);
      assert a == a[..m] + [a[m]] && b == b[..n] + [b[n]];
    }
  }

  lemma PartnerIsLast(a: seq<CycleData>, b: seq<CycleData>, i: nat)
    requires StrictlyRanked(a) && StrictlyRanked(b) && a != [] && i < |b| && b[i] == a[|a| - 1]
    requires multiset(a[..|a| - 1]) == multiset(b[..i] + b[i + 1..])
    ensures i == |b| - 1
  {
    var last := b[|b| - 1];
    assert b == b[..i] + [b[i]] + b[i + 1..];
    assert last in b[..i] + b[i + 1..] || last == b[i];
    assert last in multiset(a[..|a| - 1]) || last == b[i];
    assert last in a[..|a| - 1] || last == b[i];
    assert RankKey(last) <= RankKey(a[|a| - 1]);
  }

  lemma {:induction false} RankedConcat(a: seq<CycleData>, b: seq<CycleData>)
    ensures RankedPart(a + b) == RankedPart(a) + RankedPart(b)
  {
    if b == [] {
      assert a + b == a;
    } else {
      assert (a + b)[..|a + b| - 1] == a + b[..|b| - 1];
      RankedConcat(a, b[..|b| - 1]);
    }
  }

  lemma {:induction false} RankedPermuted(a: seq<CycleData>, b: seq<CycleData>)
    requires multiset(a) == multiset(b)
    ensures multiset(RankedPart(a)) == multiset(RankedPart(b))
  {
    if a == [] {
      assert |multiset(b)| == 0;
    } else {
      var n := |a| - 1;
      var x := a[n];
      var i := Partner(a, b);
      assert a == a[..n] + [x] && b == b[..i] + [x] + b[i + 1..];
      RankedPermuted(a[..n], b[..i] + b[i + 1..]);
      RankedConcat(a[..n], [x]);
      RankedConcat(b[..i] + [x], b[i + 1..]);
      RankedConcat(b[..i], [x]);
      RankedConcat(b[..i], b[i + 1..]);
    }
  }

  lemma RankedStrict(cands: seq<CycleData>)
    requires DistinctNames(cands) && SortedBy(cands, RankKey)
    requires forall d :: d in cands && d.score.rank.Some? ==> d.score.rank.value >= 1
    requires forall d, e :: d in cands && e in cands && d.symbol != e.symbol && d.score.rank.Some? ==> d.score.rank != e.score.rank
    ensures StrictlyRanked(RankedPart(cands))
  {
    var r := RankedPart(cands);
    RankedDistinct(cands);
    RankedPartSorted(cands);
    forall i, j | 0 <= i < j < |r| ensures RankKey(r[i]) < RankKey(r[j]) {
      assert r[i] in r && r[j] in r;
    }
  }

  lemma RankedCandidatesStrict(data: Market, order: seq<Symbol>)
    requires Filed(data) && Enumerates(order, data.Keys) && DistinctRanks(data)
    ensures StrictlyRanked(RankedPart(Candidates(data, order)))
  {
    CandidatesDistinct(data, order);
    RankedStrict(Candidates(data, order));
  }

  lemma SameRanked(data: Market, a: seq<Symbol>, b: seq<Symbol>)
    requires Filed(data) && Enumerates(a, data.Keys) && Enumerates(b, data.Keys) && DistinctRanks(data)
    ensures RankedPart(Candidates(data, a)) == RankedPart(Candidates(data, b))
  {
    RankedCandidatesStrict(data, a);
    RankedCandidatesStrict(data, b);
    SameCandidates(data, a, b);
    RankedPermuted(Candidates(data, a), Candidates(data, b));
    StrictOrderUnique(RankedPart(Candidates(data, a)), RankedPart(Candidates(data, b)));
  }

  lemma SameCandidates(data: Market, a: seq<Symbol>, b: seq<Symbol>)
    requires Enumerates(a, data.Keys) && Enumerates(b, data.Keys)
    ensures multiset(Candidates(data, a)) == multiset(Candidates(data, b))
  {
    EnumerationsPermute(a, b, data.Keys);
    ValuesPermuted(data, a, b);
  }

  lemma {:induction false} ValuesPermuted(data: Market, a: seq<Symbol>, b: seq<Symbol>)
    requires multiset(a) == multiset(b) && (forall s :: s in a ==> s in data) && (forall s :: s in b ==> s in data)
    ensures multiset(Values(data, a)) == multiset(Values(data, b))
  {
    if a == [] {
      assert |multiset(b)| == 0;
    } else {
      var n := |a| - 1;
      var x := a[n];
      var i := Partner(a, b);
      assert a == a[..n] + [x] && b == b[..i] + [x] + b[i + 1..];
      ValuesPermuted(data, a[..n], b[..i] + b[i + 1..]);
      ValuesConcat(data, a[..n], [x]);
      ValuesConcat(data, b[..i] + [x], b[i + 1..]);
      ValuesConcat(data, b[..i], [x]);
      ValuesConcat(data, b[..i], b[i + 1..]);
    }
  }

  lemma ValuesConcat(data: Market, a: seq<Symbol>, b: seq<Symbol>)
    requires forall s :: s in a + b ==> s in data
    ensures forall s :: s in a ==> s in a + b
    ensures forall s :: s in b ==> s in a + b
    ensures Values(data, a + b) == Values(data, a) + Values(data, b)
  {
    assert forall i :: 0 <= i < |a| ==> (a + b)[i] == a[i];
    assert forall i :: 0 <= i < |b| ==> (a + b)[|a| + i] == b[i];
  }

  /** Iterating the data in another order changes neither the entries nor the set of skips. */
  lemma PlanIsOrderIndependent(data: Market, a: seq<Symbol>, b: seq<Symbol>, equity: real, cash: real,
                               held: set<Symbol>,
                               sector: map<Sector, real>, entriesToday: nat, nScored: int)
    requires Filed(data) && Enumerates(a, data.Keys) && Enumerates(b, data.Keys) && DistinctRanks(data)
    ensures var t := EntriesFor(data, a, equity, cash, held, sector, entriesToday, nScored);
      var u := EntriesFor(data, b, equity, cash, held, sector, entriesToday, nScored);
      t.entries == u.entries && multiset(t.skips) == multiset(u.skips)
  {
    var ca, cb := Candidates(data, a), Candidates(data, b);
    var start := Tally([], [], cash, sector);
    SameRanked(data, a, b);
    SameCandidates(data, a, b);
    var f := FrameFor(ca, equity, held, entriesToday, nScored);
    assert f == FrameFor(cb, equity, held, entriesToday, nScored);
    WalkRanked(f, start, ca);
    WalkRanked(f, start, cb);
    UnrankedPermuted(f, ca, cb);
  }

  // ---------- entries come in candidate order ----------

  /** The entries are for some of the candidates, in their order. */
  ghost predicate Follows(es: seq<EntryIntent>, cands: seq<CycleData>) {
    if cands == [] then es == []
    else
      var n := |cands| - 1;
      || Follows(es, cands[..n])
      || (es != [] && es[|es| - 1].symbol == cands[n].symbol && Follows(es[..|es| - 1], cands[..n]))
  }

  lemma {:induction false} WalkFollows(f: Frame, start: Tally, cands: seq<CycleData>)
    requires start.entries == []
    ensures Follows(Walk(f, start, cands).entries, cands)
  {
    if cands != [] {
      var n := |cands| - 1;
      var t := Walk(f, start, cands[..n]);
      WalkFollows(f, start, cands[..n]);
      StepCases(f, t, cands[n]);
      var es := Step(f, t, cands[n]).entries;
      if es != t.entries {
        assert es[..|es| - 1] == t.entries;
      }
    }
  }

  lemma {:induction false} FollowersAreCandidates(es: seq<EntryIntent>, cands: seq<CycleData>, e: EntryIntent)
    requires Follows(es, cands) && e in es
    ensures exists k :: 0 <= k < |cands| && cands[k].symbol == e.symbol
  {
    var n := |cands| - 1;
    if Follows(es, cands[..n]) {
      FollowersAreCandidates(es, cands[..n], e);
    } else if e in es[..|es| - 1] {
      FollowersAreCandidates(es[..|es| - 1], cands[..n], e);
    } else {
      assert e == es[|es| - 1];
    }
  }

  lemma NoFollowerOf(es: seq<EntryIntent>, cands: seq<CycleData>, symbol: Symbol)
    requires Follows(es, cands) && forall k :: 0 <= k < |cands| ==> cands[k].symbol != symbol
    ensures forall e :: e in es ==> e.symbol != symbol
  {
    forall e | e in es ensures e.symbol != symbol {
      FollowersAreCandidates(es, cands, e);
    }
  }

  /** Members alone tell whether the last candidate was entered. */
  lemma SameFollowing(es: seq<EntryIntent>, fs: seq<EntryIntent>, cands: seq<CycleData>)
    requires cands != [] && DistinctNames(cands) && Follows(es, cands[..|cands| - 1]) && Follows(fs, cands)
    requires forall e :: e in fs ==> e in es
    ensures Follows(fs, cands[..|cands| - 1])
  {
    NoFollowerOf(es, cands[..|cands| - 1], cands[|cands| - 1].symbol);
    assert fs != [] ==> fs[|fs| - 1] in es;
  }

  /** Two lists of entries for the same candidates with the same members are the same list. */
  lemma {:induction false} SameFollowers(es: seq<EntryIntent>, fs: seq<EntryIntent>, cands: seq<CycleData>)
    requires DistinctNames(cands) && Follows(es, cands) && Follows(fs, cands) && forall e :: e in es <==> e in fs
    ensures es == fs
  {
    if cands != [] {
      var n := |cands| - 1;
      var init := cands[..n];
      if Follows(es, init) || Follows(fs, init) {
        if Follows(es, init) { SameFollowing(es, fs, cands); } else { SameFollowing(fs, es, cands); }
        SameFollowers(es, fs, init);
      } else {
        var xs, ys := es[..|es| - 1], fs[..|fs| - 1];
        NoFollowerOf(xs, init, cands[n].symbol);
        NoFollowerOf(ys, init, cands[n].symbol);
        assert es == xs + [es[|es| - 1]] && fs == ys + [fs[|fs| - 1]];
        SameInits(xs, ys, es[|es| - 1], fs[|fs| - 1]);
        SameFollowers(xs, ys, init);
      }
    }
  }

  /** Two lists with the same members that both end in their only entry of one symbol. */
  lemma SameInits(xs: seq<EntryIntent>, ys: seq<EntryIntent>, e: EntryIntent, f: EntryIntent)
    requires e.symbol == f.symbol && (forall x :: x in xs ==> x.symbol != e.symbol) && forall y :: y in ys ==> y.symbol != e.symbol
    requires forall x :: x in xs + [e] <==> x in ys + [f]
    ensures e == f && forall x :: x in xs <==> x in ys
  {
    assert e in xs + [e];
    forall x ensures x in xs <==> x in ys {
      assert x in xs + [e] <==> x in ys + [f];
    }
  }
}
