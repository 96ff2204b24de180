/** The sector-capped top-N selection: two greedy passes over a ranking, and why the result is optimal. */
module CandidatePool {
  import opened Arithmetic
  import opened Domain
  import opened Keys

  datatype Ranked = Ranked(symbol: Symbol, sector: Sector)

  function SectorPoolCap(poolSize: nat): nat {
    if poolSize / 5 > 1 then poolSize / 5 else 1  // floor(0.20 * size), at least one
  }

  function CandidatePoolSize(nScored: int): nat {
    if nScored <= 0 then 1
    else if nScored / 5 < 1 then 1
    else if nScored / 5 < 80 then nScored / 5  // floor(0.20 * n) against ceil(2.0 * MAX_POSITIONS)
    else 80
  }

  /** The pool is the largest fifth of the scored names between one and eighty, and a sector's share of it the largest fifth of the
      pool, at least one. */
  lemma PoolSizes(nScored: int, size: nat)
    ensures var k := CandidatePoolSize(nScored);
      && 1 <= k <= 80 && (k > 1 ==> 5 * k <= nScored) && (k < 80 ==> nScored < 5 * (k + 1))
    ensures var c := SectorPoolCap(size);
      && c >= 1 && (c > 1 ==> 5 * c <= size) && size < 5 * (c + 1)
  {}

  // ---------- selections: one flag per ranked name ----------

  /** How many of the first n names a selection picks, in all and of one sector. */
  function Chosen(pick: seq<bool>, n: nat): nat
    requires n <= |pick|
  {
    if n == 0 then 0 else Chosen(pick, n - 1) + (if pick[n - 1] then 1 else 0)
  }

  function ChosenIn(ranked: seq<Ranked>, pick: seq<bool>, n: nat, s: Sector): nat
    requires n <= |pick| == |ranked|
  {
    if n == 0 then 0
    else ChosenIn(ranked, pick, n - 1, s) + (if pick[n - 1] && ranked[n - 1].sector == s then 1 else 0)
  }

  function Picked(ranked: seq<Ranked>, pick: seq<bool>): set<Symbol>
    requires |pick| == |ranked|
  {
    set i | 0 <= i < |ranked| && pick[i] :: ranked[i].symbol
  }

  // ---------- the two passes ----------

  /** Does the first pass admit the name at rank position i? */
  predicate Admits(ranked: seq<Ranked>, size: nat, i: nat)
    requires i < |ranked|
    decreases i, 1
  {
    Taken(ranked, size, i) < size && TakenIn(ranked, size, i, ranked[i].sector) < SectorPoolCap(size)
  }

  function Taken(ranked: seq<Ranked>, size: nat, n: nat): nat
    requires n <= |ranked|
    decreases n, 0
  {
    if n == 0 then 0 else Taken(ranked, size, n - 1) + (if Admits(ranked, size, n - 1) then 1 else 0)
  }

  function TakenIn(ranked: seq<Ranked>, size: nat, n: nat, s: Sector): nat
    requires n <= |ranked|
    decreases n, 0
  {
    if n == 0 then 0
    else TakenIn(ranked, size, n - 1, s) +
         (if Admits(ranked, size, n - 1) && ranked[n - 1].sector == s then 1 else 0)
  }

  function FirstPass(ranked: seq<Ranked>, size: nat): seq<bool> {
    seq(|ranked|, i requires 0 <= i < |ranked| => Admits(ranked, size, i))
  }

  /** Set aside by the first pass because of its sector, before the pool was full. */
  predicate Defers(ranked: seq<Ranked>, size: nat, i: nat)
    requires i < |ranked|
  {
    Taken(ranked, size, i) < size && !Admits(ranked, size, i)
  }

  /** Admitted by either pass: the top-up reaches a name when fewer names were passed over before it than slots remain. */
  predicate InPool(ranked: seq<Ranked>, size: nat, i: nat)
    requires i < |ranked|
  {
    Admits(ranked, size, i) || i - Taken(ranked, size, i) < size - Taken(ranked, size, |ranked|)
  }

  function FinalPool(ranked: seq<Ranked>, size: nat): seq<bool> {
    seq(|ranked|, i requires 0 <= i < |ranked| => InPool(ranked, size, i))
  }

  function Pool(ranked: seq<Ranked>, size: nat): set<Symbol> {
    Picked(ranked, FinalPool(ranked, size))
  }

  function CappedOut(ranked: seq<Ranked>, size: nat): set<Symbol> {
    set i | 0 <= i < |ranked| && Defers(ranked, size, i) && !InPool(ranked, size, i) :: ranked[i].symbol
  }

  ghost predicate DistinctSymbols(ranked: seq<Ranked>) {
    forall i, j :: 0 <= i < j < |ranked| ==> ranked[i].symbol != ranked[j].symbol
  }

  // ---------- the sector quota: how many names the caps alone allow in a rank prefix ----------

  function Count(ranked: seq<Ranked>, n: nat, s: Sector): nat
    requires n <= |ranked|
  {
    if n == 0 then 0 else Count(ranked, n - 1, s) + (if ranked[n - 1].sector == s then 1 else 0)
  }

  function SumOver(sectors: seq<Sector>, f: Sector -> nat): nat {
    if sectors == [] then 0 else f(sectors[0]) + SumOver(sectors[1..], f)
  }

  function Capped(ranked: seq<Ranked>, n: nat, cap: nat): Sector -> nat
    requires n <= |ranked|
  {
    s => MinNat(cap, Count(ranked, n, s))
  }

  /** Sum over the sectors of min(cap, names of that sector among the first n). */
  function Quota(ranked: seq<Ranked>, n: nat, cap: nat, sectors: seq<Sector>): nat
    requires n <= |ranked|
  {
    SumOver(sectors, Capped(ranked, n, cap))
  }

  ghost predicate Covers(sectors: seq<Sector>, ranked: seq<Ranked>) {
    NoDup(sectors) && forall i :: 0 <= i < |ranked| ==> ranked[i].sector in sectors
  }

  lemma {:induction false} SumSame(sectors: seq<Sector>, f: Sector -> nat, g: Sector -> nat)
    requires forall s :: s in sectors ==> f(s) == g(s)
    ensures SumOver(sectors, f) == SumOver(sectors, g)
  {
    if sectors != [] {
      assert sectors[0] in sectors;
      SumSame(sectors[1..], f, g);
    }
  }

  lemma {:induction false} SumStep(sectors: seq<Sector>, f: Sector -> nat, g: Sector -> nat, k: Sector)
    requires NoDup(sectors) && k in sectors
    requires forall s :: s in sectors && s != k ==> f(s) == g(s)
    ensures SumOver(sectors, g) + f(k) == SumOver(sectors, f) + g(k)
  {
    if sectors[0] == k {
      SumSame(sectors[1..], f, g);
    } else {
      assert f(sectors[0]) == g(sectors[0]);
      SumStep(sectors[1..], f, g, k);
    }
  }

  lemma {:induction false} SumMono(sectors: seq<Sector>, f: Sector -> nat, g: Sector -> nat)
    requires forall s :: s in sectors ==> f(s) <= g(s)
    ensures SumOver(sectors, f) <= SumOver(sectors, g)
  {
    if sectors != [] {
      assert sectors[0] in sectors;
      SumMono(sectors[1..], f, g);
    }
  }

  lemma QuotaStep(ranked: seq<Ranked>, n: nat, cap: nat, sectors: seq<Sector>)
    requires 0 < n <= |ranked| && Covers(sectors, ranked)
    ensures Quota(ranked, n, cap, sectors) ==
            Quota(ranked, n - 1, cap, sectors) + (if Count(ranked, n - 1, ranked[n - 1].sector) < cap then 1 else 0)
  {
    SumStep(sectors, Capped(ranked, n - 1, cap), Capped(ranked, n, cap), ranked[n - 1].sector);
  }

  lemma {:induction false} QuotaEmpty(ranked: seq<Ranked>, cap: nat, sectors: seq<Sector>)
    ensures Quota(ranked, 0, cap, sectors) == 0
    decreases |sectors|
  {
    if sectors != [] {
      QuotaEmpty(ranked, cap, sectors[1..]);
    }
  }

  // ---------- the first pass ----------

  /** In every rank prefix the first pass admits exactly min(pool size, quota) names, and never exceeds a cap. */
  lemma {:induction false} FirstPassCount(ranked: seq<Ranked>, size: nat, n: nat, sectors: seq<Sector>)
    requires n <= |ranked| && Covers(sectors, ranked)
    ensures var cap := SectorPoolCap(size);
      && Taken(ranked, size, n) == MinNat(size, Quota(ranked, n, cap, sectors))
      && (forall s :: TakenIn(ranked, size, n, s) <= cap)
      && (Taken(ranked, size, n) < size ==>
            forall s :: TakenIn(ranked, size, n, s) == MinNat(cap, Count(ranked, n, s)))
  {
    if n == 0 {
      QuotaEmpty(ranked, SectorPoolCap(size), sectors);
    } else {
      FirstPassCount(ranked, size, n - 1, sectors);
      QuotaStep(ranked, n, SectorPoolCap(size), sectors);
    }
  }

  /** The counts of the first pass are those of its flags. */
  lemma {:induction false} FirstPassChosen(ranked: seq<Ranked>, size: nat, n: nat, s: Sector)
    requires n <= |ranked|
    ensures Chosen(FirstPass(ranked, size), n) == Taken(ranked, size, n) <= n
    ensures ChosenIn(ranked, FirstPass(ranked, size), n, s) == TakenIn(ranked, size, n, s)
  {
    if n > 0 { FirstPassChosen(ranked, size, n - 1, s); }
  }

  lemma {:induction false} TakenGrows(ranked: seq<Ranked>, size: nat, m: nat, n: nat, s: Sector)
    requires m <= n <= |ranked|
    ensures Taken(ranked, size, m) <= Taken(ranked, size, n) <= Taken(ranked, size, m) + (n - m)
    ensures TakenIn(ranked, size, m, s) <= TakenIn(ranked, size, n, s)
    ensures Taken(ranked, size, m) <= size
    decreases n + m
  {
    if m < n { TakenGrows(ranked, size, m, n - 1, s); }
    else if m > 0 { TakenGrows(ranked, size, m - 1, n - 1, s); }
  }

  /** A selection that, of each sector, picks a rank prefix. */
  ghost predicate SectorClosed(ranked: seq<Ranked>, pick: seq<bool>)
    requires |pick| == |ranked|
  {
    forall i, j :: 0 <= i < j < |ranked| && ranked[i].sector == ranked[j].sector && pick[j] ==> pick[i]
  }

  // ---------- optimality ----------

  function BySector(ranked: seq<Ranked>, pick: seq<bool>, n: nat): Sector -> nat
    requires n <= |pick| == |ranked|
  {
    s => ChosenIn(ranked, pick, n, s)
  }

  lemma {:induction false} ChosenSplits(ranked: seq<Ranked>, pick: seq<bool>, n: nat, sectors: seq<Sector>)
    requires n <= |pick| == |ranked| && Covers(sectors, ranked)
    ensures Chosen(pick, n) == SumOver(sectors, BySector(ranked, pick, n))
  {
    if n == 0 {
      ChosenNone(ranked, pick, sectors);
    } else {
      ChosenSplits(ranked, pick, n - 1, sectors);
      SumStep(sectors, BySector(ranked, pick, n - 1), BySector(ranked, pick, n), ranked[n - 1].sector);
    }
  }

  lemma {:induction false} ChosenNone(ranked: seq<Ranked>, pick: seq<bool>, sectors: seq<Sector>)
    requires |pick| == |ranked|
    ensures SumOver(sectors, BySector(ranked, pick, 0)) == 0
    decreases |sectors|
  {
    if sectors != [] { ChosenNone(ranked, pick, sectors[1..]); }
  }

  lemma {:induction false} ChosenGrows(ranked: seq<Ranked>, pick: seq<bool>, m: nat, n: nat, s: Sector)
    requires m <= n <= |pick| == |ranked|
    ensures Chosen(pick, m) <= Chosen(pick, n)
    ensures ChosenIn(ranked, pick, m, s) <= ChosenIn(ranked, pick, n, s)
    ensures ChosenIn(ranked, pick, m, s) <= Count(ranked, m, s)
    decreases m + n
  {
    if m < n {
      ChosenGrows(ranked, pick, m, n - 1, s);
    } else if m > 0 {
      ChosenGrows(ranked, pick, m - 1, m - 1, s);
    }
  }

  /** No selection of at most `size` names that respects the sector cap has more names
      in any rank prefix than the greedy first pass; the first pass is itself such a selection. */
  lemma GreedyIsOptimal(ranked: seq<Ranked>, size: nat, pick: seq<bool>, n: nat, sectors: seq<Sector>)
    requires n <= |ranked| == |pick| && Covers(sectors, ranked)
    requires Chosen(pick, |ranked|) <= size
    requires forall s :: ChosenIn(ranked, pick, |ranked|, s) <= SectorPoolCap(size)
    ensures Chosen(pick, n) <= Chosen(FirstPass(ranked, size), n) <= size
    ensures forall s :: ChosenIn(ranked, FirstPass(ranked, size), n, s) <= SectorPoolCap(size)
  {
    var cap := SectorPoolCap(size);
    FirstPassCount(ranked, size, n, sectors);
    FirstPassChosen(ranked, size, n, "");
    forall s { FirstPassChosen(ranked, size, n, s); }
    ChosenSplits(ranked, pick, n, sectors);
    ChosenGrows(ranked, pick, n, |ranked|, "");
    forall s | s in sectors
      ensures BySector(ranked, pick, n)(s) <= Capped(ranked, n, cap)(s)
    {
      ChosenGrows(ranked, pick, n, |ranked|, s);
    }
    SumMono(sectors, BySector(ranked, pick, n), Capped(ranked, n, cap));
  }

  // ---------- the final pool ----------

  lemma {:induction false} FinalPoolChosen(ranked: seq<Ranked>, size: nat, n: nat)
    requires n <= |ranked|
    ensures Taken(ranked, size, |ranked|) <= size && Taken(ranked, size, n) <= n
    ensures Chosen(FinalPool(ranked, size), n) == Taken(ranked, size, n) +
            MinNat(n - Taken(ranked, size, n), size - Taken(ranked, size, |ranked|))
  {
    TakenGrows(ranked, size, n, |ranked|, "");
    TakenGrows(ranked, size, |ranked|, |ranked|, "");
    if n > 0 { FinalPoolChosen(ranked, size, n - 1); }
  }

  lemma {:induction false} SamePicks(ranked: seq<Ranked>, size: nat, n: nat, s: Sector)
    requires n <= |ranked| && Taken(ranked, size, |ranked|) >= size
    ensures ChosenIn(ranked, FinalPool(ranked, size), n, s) == TakenIn(ranked, size, n, s)
  {
    if n > 0 {
      SamePicks(ranked, size, n - 1, s);
      TakenGrows(ranked, size, 0, n - 1, s);
    }
  }

  /** The final pool takes a rank prefix of every sector. */
  lemma PoolIsSectorClosed(ranked: seq<Ranked>, size: nat)
    ensures SectorClosed(ranked, FinalPool(ranked, size))
  {
    forall i, j | 0 <= i < j < |ranked| && ranked[i].sector == ranked[j].sector && InPool(ranked, size, j)
      ensures InPool(ranked, size, i)
    {
      TakenGrows(ranked, size, i, j, ranked[i].sector);
    }
  }

  /** The second pass fills up in rank order: it keeps everything the first pass admitted, and whatever it takes, it also takes
      every name before that. */
  lemma TopUpInOrder(ranked: seq<Ranked>, size: nat, i: nat, j: nat)
    requires i < |ranked| && j < |ranked|
    ensures FirstPass(ranked, size)[i] ==> FinalPool(ranked, size)[i]
    ensures i <= j && FinalPool(ranked, size)[j] && !FirstPass(ranked, size)[j] ==> FinalPool(ranked, size)[i]
  {
    if i <= j { TakenGrows(ranked, size, i, j, ""); }
  }

  /** A name is reported as capped out exactly when it is not in the pool although, when the first pass came to it, there was room
      and only its sector's share was used up. */
  lemma CappedOutIff(ranked: seq<Ranked>, size: nat, i: nat)
    requires DistinctSymbols(ranked) && i < |ranked|
    ensures var pick := FirstPass(ranked, size);
      ranked[i].symbol in CappedOut(ranked, size)
      <==> !FinalPool(ranked, size)[i] && Chosen(pick, i) < size
           && ChosenIn(ranked, pick, i, ranked[i].sector) >= SectorPoolCap(size)
  {
    hide InPool;
    FirstPassChosen(ranked, size, i, ranked[i].sector);
  }

  /** The final pool is as full as it can be, and goes over a sector's cap only when the caps alone could not fill it. */
  lemma PoolIsFull(ranked: seq<Ranked>, size: nat, sectors: seq<Sector>, s: Sector)
    requires Covers(sectors, ranked)
    ensures var pick := FinalPool(ranked, size); var cap := SectorPoolCap(size);
      && Chosen(pick, |ranked|) == MinNat(size, |ranked|)
      && (ChosenIn(ranked, pick, |ranked|, s) > cap ==> Quota(ranked, |ranked|, cap, sectors) < size)
  {
    FinalPoolChosen(ranked, size, |ranked|);
    FirstPassCount(ranked, size, |ranked|, sectors);
    if Taken(ranked, size, |ranked|) >= size {
      SamePicks(ranked, size, |ranked|, s);
    }
  }

  // ---------- the loops ----------

  /** `deferred` holds the names passed over among the first n, in rank order: the one at rank position k
      sits at index k minus the number admitted before it. */
  ghost predicate PassedOver(ranked: seq<Ranked>, size: nat, n: nat, deferred: seq<Symbol>, at: seq<nat>)
    requires n <= |ranked|
  {
    && |deferred| == |at| == n - Taken(ranked, size, n)
    && (forall m :: 0 <= m < |at| ==>
          at[m] < n && Defers(ranked, size, at[m]) && at[m] - Taken(ranked, size, at[m]) == m
          && deferred[m] == ranked[at[m]].symbol)
    && (forall k :: 0 <= k < n && !Admits(ranked, size, k) ==>
          0 <= k - Taken(ranked, size, k) < |at| && at[k - Taken(ranked, size, k)] == k)
  }

  /** Every listed name is ranked; `from` gives the rank positions. */
  ghost predicate From(ranked: seq<Ranked>, names: seq<Symbol>, from: seq<nat>) {
    |from| == |names| && forall m :: 0 <= m < |from| ==> from[m] < |ranked| && names[m] == ranked[from[m]].symbol
  }

  /** The first loop's variables after `n` names. */
  ghost predicate FirstLoop(ranked: seq<Ranked>, size: nat, n: nat, names: seq<Symbol>, from: seq<nat>,
                            deferred: seq<Symbol>, at: seq<nat>, perSector: map<Sector, nat>)
    requires n <= |ranked|
  {
    && |names| == Taken(ranked, size, n)
    && From(ranked, names, from)
    && (forall k: nat :: k < |ranked| ==> (ranked[k].symbol in names <==> k < n && Admits(ranked, size, k)))
    && PassedOver(ranked, size, n, deferred, at)
    && forall s :: TakenIn(ranked, size, n, s) == if s in perSector then perSector[s] else 0
  }

  lemma FirstLoopStep(ranked: seq<Ranked>, size: nat, n: nat, names: seq<Symbol>, from: seq<nat>,
                      deferred: seq<Symbol>, at: seq<nat>, perSector: map<Sector, nat>)
    requires DistinctSymbols(ranked) && n < |ranked| && |names| < size
    requires FirstLoop(ranked, size, n, names, from, deferred, at, perSector)
    ensures var r := ranked[n]; var held := if r.sector in perSector then perSector[r.sector] else 0;
      if held >= SectorPoolCap(size)
      then FirstLoop(ranked, size, n + 1, names, from, deferred + [r.symbol], at + [n], perSector)
      else FirstLoop(ranked, size, n + 1, names + [r.symbol], from + [n], deferred, at, perSector[r.sector := held + 1])
  {
    hide SectorPoolCap;
    var r := ranked[n];
    var held := if r.sector in perSector then perSector[r.sector] else 0;
    assert held == TakenIn(ranked, size, n, r.sector);
    if held >= SectorPoolCap(size) {
      assert !Admits(ranked, size, n) && Defers(ranked, size, n);
      DeferOne(ranked, size, n, deferred, at);
    } else {
      assert Admits(ranked, size, n);
      AdmitOne(ranked, size, n, deferred, at);
      NamesNext(ranked, size, n, names, from);
    }
  }

  lemma DeferOne(ranked: seq<Ranked>, size: nat, n: nat, deferred: seq<Symbol>, at: seq<nat>)
    requires n < |ranked| && PassedOver(ranked, size, n, deferred, at) && !Admits(ranked, size, n) && Defers(ranked, size, n)
    ensures PassedOver(ranked, size, n + 1, deferred + [ranked[n].symbol], at + [n])
  {
    hide Admits;
    assert Taken(ranked, size, n + 1) == Taken(ranked, size, n);
  }

  lemma AdmitOne(ranked: seq<Ranked>, size: nat, n: nat, deferred: seq<Symbol>, at: seq<nat>)
    requires n < |ranked| && PassedOver(ranked, size, n, deferred, at) && Admits(ranked, size, n)
    ensures PassedOver(ranked, size, n + 1, deferred, at)
  {
    hide Admits, Defers;
    assert Taken(ranked, size, n + 1) == Taken(ranked, size, n) + 1;
  }

  lemma NamesNext(ranked: seq<Ranked>, size: nat, n: nat, names: seq<Symbol>, from: seq<nat>)
    requires DistinctSymbols(ranked) && n < |ranked| && From(ranked, names, from) && Admits(ranked, size, n)
    requires forall k: nat :: k < |ranked| ==> (ranked[k].symbol in names <==> k < n && Admits(ranked, size, k))
    ensures From(ranked, names + [ranked[n].symbol], from + [n])
    ensures forall k: nat :: k < |ranked| ==> (ranked[k].symbol in names + [ranked[n].symbol] <==> k < n + 1 && Admits(ranked, size, k))
  {
    hide Admits;
    var next := names + [ranked[n].symbol];
    forall k: nat | k < |ranked| ensures ranked[k].symbol in next <==> k < n + 1 && Admits(ranked, size, k) {
      assert ranked[k].symbol in next <==> ranked[k].symbol in names || k == n;
    }
  }

  lemma FirstLoopStart(ranked: seq<Ranked>, size: nat)
    ensures FirstLoop(ranked, size, 0, [], [], [], [], map[])
  {}

  lemma FirstLoopEnd(ranked: seq<Ranked>, size: nat, n: nat, names: seq<Symbol>, from: seq<nat>,
                     deferred: seq<Symbol>, at: seq<nat>, perSector: map<Sector, nat>)
    requires n <= |ranked| && FirstLoop(ranked, size, n, names, from, deferred, at, perSector)
    ensures |names| == Taken(ranked, size, n) && From(ranked, names, from) && PassedOver(ranked, size, n, deferred, at)
    ensures forall k: nat :: k < |ranked| ==> (ranked[k].symbol in names <==> k < n && Admits(ranked, size, k))
  {
    hide From, PassedOver, Taken, Admits;
  }

  /** The first loop: walk the ranking, skipping sectors that already hold their cap. */
  method AdmitUnderCap(ranked: seq<Ranked>, size: nat)
    returns (names: seq<Symbol>, deferred: seq<Symbol>, ghost from: seq<nat>, ghost at: seq<nat>, ghost n: nat)
    requires DistinctSymbols(ranked)
    ensures n <= |ranked| && (n == |ranked| || Taken(ranked, size, n) >= size)
    ensures |names| == Taken(ranked, size, n) && From(ranked, names, from)
    ensures forall k: nat :: k < |ranked| ==> (ranked[k].symbol in names <==> k < n && Admits(ranked, size, k))
    ensures PassedOver(ranked, size, n, deferred, at)
  {
    hide FirstLoop, PassedOver, From, Taken, Admits, SectorPoolCap;
    var cap := SectorPoolCap(size);
    names, deferred, from, at := [], [], [], [];
    var perSector: map<Sector, nat> := map[];
    var i := 0;
    FirstLoopStart(ranked, size);
    while i < |ranked|
      invariant 0 <= i <= |ranked|
      invariant FirstLoop(ranked, size, i, names, from, deferred, at, perSector)
    {
      if |names| >= size {
        break;
      }
      FirstLoopStep(ranked, size, i, names, from, deferred, at, perSector);
      var r := ranked[i];
      var held := if r.sector in perSector then perSector[r.sector] else 0;
      if held >= cap {
        deferred, at := deferred + [r.symbol], at + [i];
      } else {
        names, from := names + [r.symbol], from + [i];
        perSector := perSector[r.sector := held + 1];
      }
      i := i + 1;
    }
    n := i;
    FirstLoopEnd(ranked, size, n, names, from, deferred, at, perSector);
  }

  lemma QueueOf(ranked: seq<Ranked>, deferred: seq<Symbol>, queue: seq<Symbol>)
    requires queue == deferred + seq(|ranked|, k requires 0 <= k < |ranked| => ranked[k].symbol)
    ensures Queue(ranked, deferred, queue)
  {}

  lemma RoomLeft(ranked: seq<Ranked>, size: nat, admitted: seq<Symbol>)
    requires |admitted| < size && ToppedUp(ranked, size, admitted, 0)
    ensures Taken(ranked, size, |ranked|) < size
  {
    TakenGrows(ranked, size, 0, |ranked|, "");
  }

  /** The second loop: fill the remaining slots from the deferred names, then from anything left. */
  method TopUp(ranked: seq<Ranked>, size: nat, admitted: seq<Symbol>, ghost from0: seq<nat>,
               deferred: seq<Symbol>, ghost at: seq<nat>)
    returns (names: seq<Symbol>, ghost from: seq<nat>)
    requires DistinctSymbols(ranked) && |admitted| < size
    requires From(ranked, admitted, from0) && ToppedUp(ranked, size, admitted, 0)
    requires PassedOver(ranked, size, |ranked|, deferred, at)
    ensures From(ranked, names, from)
    ensures forall j: nat :: j < |ranked| ==> (ranked[j].symbol in names <==> InPool(ranked, size, j))
  {
    hide From, ToppedUp, PassedOver, Taken, Admits, InPool, Queue;
    names, from := admitted, from0;
    var seen := set s | s in names;
    var queue := deferred + seq(|ranked|, k requires 0 <= k < |ranked| => ranked[k].symbol);
    assert Queue(ranked, deferred, queue) by { QueueOf(ranked, deferred, queue); }
    RoomLeft(ranked, size, admitted);
    var k := 0;
    while k < |queue|
      invariant 0 <= k <= |queue|
      invariant From(ranked, names, from)
      invariant ToppedUp(ranked, size, names, k)
      invariant seen == set s | s in names
    {
      if |names| >= size {
        break;
      }
      ghost var at' := TopUpStep(ranked, size, names, from, deferred, at, queue, k);
      if queue[k] !in seen {
        seen := seen + {queue[k]};
        names, from := names + [queue[k]], at';
      }
      k := k + 1;
    }
    TopUpDone(ranked, size, names, deferred, at, k);
  }

  /** The sector-capped top-N as the planner computes it. */
  method BuildCandidatePool(ranked: seq<Ranked>, size: nat) returns (pool: set<Symbol>, cappedOut: set<Symbol>)
    requires DistinctSymbols(ranked)
    ensures pool == Pool(ranked, size)
    ensures cappedOut == CappedOut(ranked, size)
  {
    var names, deferred, from, at, n := AdmitUnderCap(ranked, size);
    FirstLoopDone(ranked, size, n);
    if |names| < size {
      names, from := TopUp(ranked, size, names, from, deferred, at);
    }
    pool := set s | s in names;
    cappedOut := set s | s in deferred && s !in names;
    LoopsDone(ranked, size, names, from, n, deferred, at);
  }

  lemma TopUpDone(ranked: seq<Ranked>, size: nat, names: seq<Symbol>, deferred: seq<Symbol>, at: seq<nat>, k: nat)
    requires PassedOver(ranked, size, |ranked|, deferred, at) && Taken(ranked, size, |ranked|) < size
    requires ToppedUp(ranked, size, names, k) && (|names| >= size || k == |deferred| + |ranked|)
    ensures forall j: nat :: j < |ranked| ==> (ranked[j].symbol in names <==> InPool(ranked, size, j))
  {
    forall j: nat | j < |ranked| && !Admits(ranked, size, j)
      ensures j - Taken(ranked, size, j) < |deferred|
    {
    }
  }

  lemma LoopsDone(ranked: seq<Ranked>, size: nat, names: seq<Symbol>, from: seq<nat>,
                  n: nat, deferred: seq<Symbol>, at: seq<nat>)
    requires n <= |ranked| && From(ranked, names, from) && PassedOver(ranked, size, n, deferred, at)
    requires forall k :: n <= k < |ranked| ==> !Defers(ranked, size, k)
    requires forall j: nat :: j < |ranked| ==> (ranked[j].symbol in names <==> InPool(ranked, size, j))
    ensures (set s | s in names) == Pool(ranked, size)
    ensures (set s | s in deferred && s !in names) == CappedOut(ranked, size)
  {
    hide Admits, Taken;
    forall s | s in names ensures s in Pool(ranked, size) {
      var m :| 0 <= m < |names| && names[m] == s;
      assert ranked[from[m]].symbol == s;
    }
    forall s | s in deferred && s !in names ensures s in CappedOut(ranked, size) {
      var m :| 0 <= m < |deferred| && deferred[m] == s;
      assert ranked[at[m]].symbol == s;
    }
    forall s | s in CappedOut(ranked, size) ensures s in deferred && s !in names {
      var j :| 0 <= j < |ranked| && Defers(ranked, size, j) && !InPool(ranked, size, j) && ranked[j].symbol == s;
      assert at[j - Taken(ranked, size, j)] == j;
    }
  }

  /** The first loop stops at the end or when the pool is full; either way nothing after it is admitted or deferred. */
  lemma FirstLoopDone(ranked: seq<Ranked>, size: nat, n: nat)
    requires n <= |ranked| && (n == |ranked| || Taken(ranked, size, n) >= size)
    ensures Taken(ranked, size, |ranked|) == Taken(ranked, size, n)
    ensures forall k :: n <= k < |ranked| ==> !Admits(ranked, size, k) && !Defers(ranked, size, k)
    ensures Taken(ranked, size, n) >= size ==> forall k :: 0 <= k < |ranked| ==> InPool(ranked, size, k) == Admits(ranked, size, k)
  {
    TakenGrows(ranked, size, n, |ranked|, "");
    TakenGrows(ranked, size, |ranked|, |ranked|, "");
    forall k | 0 <= k < |ranked|
      ensures Taken(ranked, size, k) <= k
      ensures n <= k ==> Taken(ranked, size, k) >= Taken(ranked, size, n)
    {
      TakenGrows(ranked, size, 0, k, "");
      if n <= k { TakenGrows(ranked, size, n, k, ""); }
    }
  }

  /** The pool after the top-up has looked at `k` queued names. */
  ghost predicate ToppedUp(ranked: seq<Ranked>, size: nat, names: seq<Symbol>, k: nat) {
    var taken := Taken(ranked, size, |ranked|);
    && |names| == taken + Min(Min(k, |ranked| - taken), size - taken)
    && forall j: nat :: j < |ranked| ==>
         (ranked[j].symbol in names <==>
          Admits(ranked, size, j) || j - Taken(ranked, size, j) < Min(k, size - taken))
  }

  function Min(a: int, b: int): int { if a <= b then a else b }

  /** The queue: the deferred names, then the whole ranking again. */
  ghost predicate Queue(ranked: seq<Ranked>, deferred: seq<Symbol>, queue: seq<Symbol>) {
    && |queue| == |deferred| + |ranked|
    && (forall m :: 0 <= m < |deferred| ==> queue[m] == deferred[m])
    && forall m :: |deferred| <= m < |queue| ==> queue[m] == ranked[m - |deferred|].symbol
  }

  /** While there is room, exactly the deferred names are new, and each is appended in turn. */
  lemma TopUpStep(ranked: seq<Ranked>, size: nat, names: seq<Symbol>, from: seq<nat>, deferred: seq<Symbol>,
                  at: seq<nat>,
                  queue: seq<Symbol>, k: nat) returns (from': seq<nat>)
    requires DistinctSymbols(ranked) && From(ranked, names, from)
    requires PassedOver(ranked, size, |ranked|, deferred, at) && Queue(ranked, deferred, queue)
    requires k < |queue| && |names| < size && ToppedUp(ranked, size, names, k)
    ensures queue[k] in names ==> ToppedUp(ranked, size, names, k + 1)
    ensures queue[k] !in names ==>
      From(ranked, names + [queue[k]], from') && ToppedUp(ranked, size, names + [queue[k]], k + 1)
  {
    var j := if k < |deferred| then at[k] else k - |deferred|;
    from' := from + [j];
    if k < |deferred| {
      NewName(ranked, size, names, deferred, at, k);
    } else {
      assert !Admits(ranked, size, j) ==> j - Taken(ranked, size, j) < |at|;
    }
  }

  lemma NewName(ranked: seq<Ranked>, size: nat, names: seq<Symbol>, deferred: seq<Symbol>, at: seq<nat>, k: nat)
    requires DistinctSymbols(ranked) && PassedOver(ranked, size, |ranked|, deferred, at)
    requires k < |deferred| && |names| < size && ToppedUp(ranked, size, names, k)
    ensures deferred[k] !in names && ToppedUp(ranked, size, names + [deferred[k]], k + 1)
  {
    var next := names + [deferred[k]];
    forall i: nat | i < |ranked|
      ensures ranked[i].symbol in next <==> ranked[i].symbol in names || i == at[k]
      ensures !Admits(ranked, size, i) && i - Taken(ranked, size, i) == k ==> i == at[k]
    {
    }
  }
}
