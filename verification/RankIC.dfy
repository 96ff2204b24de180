/** The rank-correlation report: tied ranks and deciles. */
module RankIC {
  import opened Domain
  import opened Counting
  import opened Keys
  import opened Sorting
  import opened CrossSection

  // ---------- tied ranks ----------

  /** The fractional rank: the number smaller plus half of one more than the number equal. */
  function RankOf(values: seq<real>, v: real): real {
    Count(values, Less(v)) as real + (Count(values, Same(v)) + 1) as real / 2.0
  }

  function At(values: seq<real>): int -> real {
    i => if 0 <= i < |values| then values[i] else 0.0
  }

  function Indices(n: nat): seq<int> { seq(n, i => i) }

  /** Positions in ascending order of value. */
  function Ascending(values: seq<real>): seq<int> { StableSort(Indices(|values|), At(values)) }

  ghost predicate Arranges(order: seq<int>, values: seq<real>) {
    && |order| == |values| && NoDup(order)
    && (forall k :: 0 <= k < |order| ==> 0 <= order[k] < |values|)
    && (forall i :: 0 <= i < |values| ==> i in order)
    && (forall j, k :: 0 <= j <= k < |order| ==> values[order[j]] <= values[order[k]])
  }

  lemma AscendingArranges(values: seq<real>)
    ensures Arranges(Ascending(values), values)
  {
    hide StableSort, At;
    var order := Ascending(values);
    AscendingIndices(values);
    PermutedNoDup(Indices(|values|), order);
    forall i | 0 <= i < |values| ensures i in order {
      assert Indices(|values|)[i] == i;
    }
    forall k | 0 <= k < |order| ensures 0 <= order[k] < |values| {
      assert order[k] in order;
    }
    forall j, k | 0 <= j <= k < |order| ensures values[order[j]] <= values[order[k]] {
      AtIndex(values, order[j]);
      AtIndex(values, order[k]);
      assert j < k ==> At(values)(order[j]) <= At(values)(order[k]);
    }
  }

  lemma AtIndex(values: seq<real>, i: int)
    requires 0 <= i < |values|
    ensures At(values)(i) == values[i]
  {}

  lemma AscendingIndices(values: seq<real>)
    ensures NoDup(Indices(|values|)) && multiset(Ascending(values)) == multiset(Indices(|values|))
    ensures |Ascending(values)| == |values| && SortedBy(Ascending(values), At(values))
  {}

  /** The values taken in that order are a permutation of the values. */
  lemma ArrangedPermutes(values: seq<real>, sorted: seq<real>)
    requires Arranges(Ascending(values), values)
    requires |sorted| == |values| && forall k :: 0 <= k < |values| ==> sorted[k] == values[Ascending(values)[k]]
    ensures multiset(sorted) == multiset(values)
  {
    var idx, order := Indices(|values|), Ascending(values);
    TakenPermutes(order, idx, values, sorted, values);
  }

  /** Reading a list at permuted positions permutes what is read. */
  lemma {:induction false} TakenPermutes(a: seq<int>, b: seq<int>, values: seq<real>, x: seq<real>, y: seq<real>)
    requires multiset(a) == multiset(b) && |x| == |a| && |y| == |b|
    requires forall k :: 0 <= k < |a| ==> 0 <= a[k] < |values| && x[k] == values[a[k]]
    requires forall k :: 0 <= k < |b| ==> 0 <= b[k] < |values| && y[k] == values[b[k]]
    ensures multiset(x) == multiset(y)
  {
    if a == [] {
      assert |multiset(b)| == 0;
    } else {
      var n := |a| - 1;
      var i := Partner(a, b);
      assert |b| == |multiset(b)| == |multiset(a)| == n + 1;
      TakenPermutes(a[..n], b[..i] + b[i + 1..], values, x[..n], y[..i] + y[i + 1..]);
      assert x == x[..n] + [x[n]];
      assert y == y[..i] + [y[i]] + y[i + 1..];
    }
  }

  /** A maximal run of equal values at sorted positions i..j has fractional rank (i + j) / 2 + 1. */
  lemma RunRank(values: seq<real>, i: nat, j: nat)
    requires Arranges(Ascending(values), values) && i <= j < |values|
    requires var o := Ascending(values);
      && values[o[i]] == values[o[j]]
      && (i > 0 ==> values[o[i - 1]] < values[o[i]])
      && (j + 1 < |values| ==> values[o[j]] < values[o[j + 1]])
    ensures RankOf(values, values[Ascending(values)[i]]) == (i + j) as real / 2.0 + 1.0
  {
    hide StableSort;
    var order := Ascending(values);
    var sorted := seq(|values|, k requires 0 <= k < |values| => values[order[k]]);
    ArrangedPermutes(values, sorted);
    var v := values[order[i]];
    forall k | 0 <= k < |sorted| ensures (sorted[k] < v <==> k < i) && (sorted[k] == v <==> i <= k <= j) {
      if k < i {
        assert values[order[k]] <= values[order[i - 1]];
      } else if k > j {
        assert values[order[j + 1]] <= values[order[k]];
      } else {
        assert values[order[i]] <= values[order[k]] <= values[order[j]];
      }
    }
    CountBlock(sorted, Less(v), 0, i);
    CountBlock(sorted, Same(v), i, j + 1);
    CountPermutes(sorted, values, Less(v));
    CountPermutes(sorted, values, Same(v));
  }

  /** Ascending ranks with ties averaged. */
  method Ranks(values: seq<real>) returns (out: array<real>)
    ensures out.Length == |values| && forall k :: 0 <= k < |values| ==> out[k] == RankOf(values, values[k])
  {
    hide RankOf, Ascending;
    var order := Ascending(values);
    AscendingArranges(values);
    out := new real[|values|](_ => 0.0);
    var i := 0;
    while i < |order|
      invariant i <= |order|
      invariant 0 < i < |order| ==> values[order[i - 1]] < values[order[i]]
      invariant forall k :: 0 <= k < i ==> out[order[k]] == RankOf(values, values[order[k]])
    {
      var j := i;
      while j + 1 < |order| && values[order[j + 1]] == values[order[i]]
        invariant i <= j < |order| && values[order[j]] == values[order[i]]
        decreases |order| - j
      {
        j := j + 1;
      }
      assert forall k :: i <= k <= j ==> values[order[i]] <= values[order[k]] <= values[order[j]];
      RunRank(values, i, j);
      var shared := (i + j) as real / 2.0 + 1.0;
      for k := i to j + 1
        invariant forall m :: 0 <= m < k ==> out[order[m]] == RankOf(values, values[order[m]])
      {
        out[order[k]] := shared;
      }
      i := j + 1;
    }
    forall k | 0 <= k < |values| ensures out[k] == RankOf(values, values[k]) {
      assert k in order;
    }
  }

  // ---------- the ranks add up ----------

  function RankTotal(xs: seq<real>, all: seq<real>): real {
    if xs == [] then 0.0 else RankTotal(xs[..|xs| - 1], all) + RankOf(all, xs[|xs| - 1])
  }

  lemma RankAppend(all: seq<real>, x: real, y: real)
    ensures RankOf(all + [x], y) == RankOf(all, y) + (if x < y then 1.0 else if x == y then 0.5 else 0.0)
  {
    CountConcat(all, [x], Less(y));
    CountConcat(all, [x], Same(y));
    CountOne(x, Less(y));
    CountOne(x, Same(y));
  }

  /** One more value lifts each larger rank by one and each equal rank by a half. */
  lemma {:induction false} TotalAppend(xs: seq<real>, all: seq<real>, x: real)
    ensures RankTotal(xs, all + [x]) == RankTotal(xs, all) + Count(xs, More(x)) as real + Count(xs, Same(x)) as real / 2.0
  {
    if xs != [] {
      hide RankOf;
      TotalAppend(xs[..|xs| - 1], all, x);
      RankAppend(all, x, xs[|xs| - 1]);
    }
  }

  lemma {:induction false} Trichotomy(xs: seq<real>, x: real)
    ensures Count(xs, Less(x)) + Count(xs, Same(x)) + Count(xs, More(x)) == |xs|
  {
    if xs != [] {
      Trichotomy(xs[..|xs| - 1], x);
    }
  }

  /** Ranks of n values add up to n(n + 1) / 2, however many ties there are. */
  lemma {:induction false} RanksAddUp(values: seq<real>)
    ensures RankTotal(values, values) == (|values| * (|values| + 1)) as real / 2.0
  {
    hide RankOf, Count, Less, Same, More;
    if values != [] {
      var n := |values| - 1;
      var xs, x := values[..n], values[n];
      assert values == xs + [x];
      RanksAddUp(xs);
      TotalAppend(xs, xs, x);
      Trichotomy(xs, x);
      LastRank(xs, x);
      Triangle(n);
    }
  }

  lemma Triangle(n: nat)
    ensures ((n + 1) * (n + 2)) as real / 2.0 == (n * (n + 1)) as real / 2.0 + (n + 1) as real
  {
    assert (n + 1) * (n + 2) == n * (n + 1) + 2 * (n + 1);
  }

  lemma LastRank(xs: seq<real>, x: real)
    ensures RankOf(xs + [x], x) == Count(xs, Less(x)) as real + Count(xs, Same(x)) as real / 2.0 + 1.0
  {
    RankAppend(xs, x, x);
  }

  // ---------- deciles ----------

  const N_DECILES := 10

  function Cut(d: nat, n: nat): nat { d * n / N_DECILES }

  /** Ten cuts from 0 to n; consecutive cuts differ by n / 10 or one more. */
  lemma CutsAreEven(n: nat, d: nat)
    requires d < 10
    ensures Cut(0, n) == 0 && Cut(10, n) == n && Cut(d, n) <= Cut(d + 1, n) <= n
    ensures n / 10 <= Cut(d + 1, n) - Cut(d, n) <= n / 10 + 1
  {
    assert (d + 1) * n == d * n + n;
    assert (d + 1) * n <= 10 * n by {
      assert (10 - (d + 1)) * n >= 0;
    }
  }

  function Chunk(xs: seq<real>, d: nat): (chunk: seq<real>)
    requires d < 10
    ensures |xs| / 10 <= |chunk| <= |xs| / 10 + 1
  {
    CutsAreEven(|xs|, d);
    xs[Cut(d, |xs|)..Cut(d + 1, |xs|)]
  }

  function Chunks(xs: seq<real>, k: nat): seq<real>
    requires k <= 10
  {
    if k == 0 then [] else Chunks(xs, k - 1) + Chunk(xs, k - 1)
  }

  /** The ten contiguous chunks, end to end, are the whole list. */
  lemma {:induction false} ChunksCover(xs: seq<real>, k: nat)
    requires k <= 10
    ensures Cut(k, |xs|) <= |xs| && Chunks(xs, k) == xs[..Cut(k, |xs|)]
    ensures k == 10 ==> Chunks(xs, k) == xs
  {
    hide Cut;
    if k > 0 {
      CutsAreEven(|xs|, k - 1);
      ChunksCover(xs, k - 1);
    } else {
      CutsAreEven(|xs|, 0);
    }
  }

  datatype Outcome = Outcome(composite: real, forward: real)

  function Best(p: Outcome): real { -p.composite }

  /** Outcomes sorted best composite first; outcomes with equal composites keep their order. */
  ghost predicate BestFirst(pairs: seq<Outcome>, ordered: seq<Outcome>) {
    && multiset(ordered) == multiset(pairs)
    && (forall i, j :: 0 <= i < j < |ordered| ==> ordered[i].composite >= ordered[j].composite)
    && forall x :: WithComposite(ordered, x) == WithComposite(pairs, x)
  }

  function WithComposite(ps: seq<Outcome>, x: real): seq<Outcome> {
    if ps == [] then []
    else WithComposite(ps[..|ps| - 1], x) + if ps[|ps| - 1].composite == x then [ps[|ps| - 1]] else []
  }

  lemma {:induction false} WithBestIs(ps: seq<Outcome>, x: real)
    ensures WithKey(ps, Best, -x) == WithComposite(ps, x)
  {
    if ps != [] {
      WithBestIs(ps[..|ps| - 1], x);
    }
  }

  lemma SortedBestFirst(pairs: seq<Outcome>)
    ensures BestFirst(pairs, StableSort(pairs, Best))
  {
    hide StableSort;
    var ordered := StableSort(pairs, Best);
    forall i, j | 0 <= i < j < |ordered| ensures ordered[i].composite >= ordered[j].composite {
      assert Best(ordered[i]) <= Best(ordered[j]);
    }
    forall x ensures WithComposite(ordered, x) == WithComposite(pairs, x) {
      StableSortStable(pairs, Best, -x);
      WithBestIs(ordered, x);
      WithBestIs(pairs, x);
    }
  }

  function Forwards(ps: seq<Outcome>): seq<real> {
    seq(|ps|, i requires 0 <= i < |ps| => ps[i].forward)
  }

  function ChunkMean(chunk: seq<real>): real { if chunk == [] then 0.0 else Mean(chunk) }

  /** Mean forward return of each decile, best composite first, and the spread between the first and the last. */
  method Deciles(pairs: seq<Outcome>) returns (means: seq<real>, spread: real)
    ensures |means| == 10 && spread == means[0] - means[9] && BestFirst(pairs, StableSort(pairs, Best))
    ensures forall d :: 0 <= d < 10 ==> means[d] == ChunkMean(Chunk(Forwards(StableSort(pairs, Best)), d))
    ensures forall d :: 0 <= d < 10 && Chunk(Forwards(StableSort(pairs, Best)), d) == [] ==> means[d] == 0.0
  {
    hide StableSort, Mean;
    SortedBestFirst(pairs);
    var ordered := Forwards(StableSort(pairs, Best));
    var n := |ordered|;
    means := [];
    for d := 0 to 10
      invariant |means| == d
      invariant forall k :: 0 <= k < d ==> means[k] == ChunkMean(Chunk(ordered, k))
    {
      CutsAreEven(n, d);
      var chunk := ordered[d * n / 10..(d + 1) * n / 10];
      means := means + [if chunk != [] then Mean(chunk) else 0.0];
    }
    spread := means[0] - means[10 - 1];
  }

  function Weighted(xs: seq<real>, k: nat): real
    requires k <= 10
  {
    if k == 0 then 0.0 else Weighted(xs, k - 1) + |Chunk(xs, k - 1)| as real * ChunkMean(Chunk(xs, k - 1))
  }

  lemma MeanTimes(chunk: seq<real>)
    ensures |chunk| as real * ChunkMean(chunk) == Total(chunk)
  {}

  lemma {:induction false} TotalConcat(a: seq<real>, b: seq<real>)
    ensures Total(a + b) == Total(a) + Total(b)
  {
    if b == [] {
      assert a + b == a;
    } else {
      assert (a + b)[..|a + b| - 1] == a + b[..|b| - 1];
      TotalConcat(a, b[..|b| - 1]);
    }
  }

  lemma TotalNothing()
    ensures Total([]) == 0.0
  {}

  lemma {:induction false} WeightedIsTotal(xs: seq<real>, k: nat)
    requires k <= 10
    ensures Weighted(xs, k) == Total(Chunks(xs, k))
  {
    hide ChunkMean, Chunk, Total;
    if k == 0 {
      assert Total([]) == 0.0 by { TotalNothing(); }
    } else {
      WeightedIsTotal(xs, k - 1);
      MeanTimes(Chunk(xs, k - 1));
      TotalConcat(Chunks(xs, k - 1), Chunk(xs, k - 1));
    }
  }

  /** Nothing is lost or counted twice: the decile means, weighted by decile size, add up to all the forward returns. */
  lemma DecilesConserve(xs: seq<real>)
    ensures Weighted(xs, 10) == Total(xs)
  {
    hide Chunk, Weighted;
    WeightedIsTotal(xs, 10);
    ChunksCover(xs, 10);
  }
}
