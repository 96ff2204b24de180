/** Small building blocks shared by every module: options, results, and reals. */
module Wrappers {
  datatype Option<+T> = None | Some(value: T)
  {
    function GetOr(default: T): T {
      match this
      case Some(v) => v
      case None => default
    }
  }

  datatype Result<+T, +E> = Ok(value: T) | Err(error: E)
}

module Arithmetic {
  function Max(a: real, b: real): real { if a >= b then a else b }

  function Min(a: real, b: real): real { if a <= b then a else b }

  function MinNat(a: nat, b: nat): nat { if a <= b then a else b }

  lemma DivMul(a: real, b: real)
    requires b != 0.0
    ensures a / b * b == a
  {}

  lemma MulMono(k: real, a: real, b: real)
    requires k >= 0.0 && a <= b
    ensures k * a <= k * b
  {}
}

/** Duplicate-free sequences: the insertion order of a dictionary's keys. */
module Keys {
  ghost predicate NoDup<T>(s: seq<T>) {
    forall i, j :: 0 <= i < j < |s| ==> s[i] != s[j]
  }

  /** `order` lists every element of `keys` exactly once. */
  ghost predicate Enumerates<T(!new)>(order: seq<T>, keys: set<T>) {
    NoDup(order) && forall k :: k in order <==> k in keys
  }

  lemma Prefix<T>(order: seq<T>, i: nat)
    requires NoDup(order) && i < |order|
    ensures order[..i + 1] == order[..i] + [order[i]] && order[i] !in order[..i] && order[i] in order
  {}

  lemma AddPut<K, V>(m: map<K, V>, n: map<K, V>, k: K, v: V)
    ensures (m + n)[k := v] == m + n[k := v]
  {}

  lemma MinusOne<K, V>(m: map<K, V>, gone: set<K>, k: K)
    ensures (m - gone) - {k} == m - (gone + {k})
  {}

  /** `order` with key `k` deleted. */
  function Without<T(==,!new)>(order: seq<T>, k: T): (r: seq<T>)
    ensures forall x :: x in r <==> x in order && x != k
    ensures NoDup(order) ==> NoDup(r)
    ensures |r| <= |order|
    ensures k in order ==> |r| < |order|
  {
    if order == [] then []
    else
      var n := |order| - 1;
      var init := Without(order[..n], k);
      assert order == order[..n] + [order[n]];
      assert NoDup(order) ==> order[n] !in order[..n];
      assert forall i :: 0 <= i < |init| ==> init[i] in order[..n];
      if order[n] == k then init else init + [order[n]]
  }

  /** The part of `order` whose elements are in `keys`. */
  function Keep<T(==,!new)>(order: seq<T>, keys: set<T>): (r: seq<T>)
    ensures forall s :: s in r <==> s in order && s in keys
    ensures NoDup(order) ==> NoDup(r)
  {
    if order == [] then []
    else
      var n := |order| - 1;
      assert order == order[..n] + [order[n]];
      var init := Keep(order[..n], keys);
      assert NoDup(order) ==> order[n] !in order[..n];
      assert forall i :: 0 <= i < |init| ==> init[i] in order[..n];
      if order[n] in keys then init + [order[n]] else init
  }

  lemma {:induction false} EnumerationSize<T(!new)>(order: seq<T>, keys: set<T>)
    requires Enumerates(order, keys)
    ensures |order| == |keys|
  {
    if order == [] {
      assert keys == {};
    } else {
      var n := |order| - 1;
      assert order == order[..n] + [order[n]];
      EnumerationSize(order[..n], keys - {order[n]});
    }
  }

  lemma EnumerationsPermute<T(!new)>(a: seq<T>, b: seq<T>, keys: set<T>)
    requires Enumerates(a, keys) && Enumerates(b, keys)
    ensures multiset(a) == multiset(b)
  {
    NoDupMultiset(a);
    NoDupMultiset(b);
    forall x ensures multiset(a)[x] == multiset(b)[x] {
      assert x in a <==> x in b;
    }
  }

  /** The last element of `a` has a partner in any permutation `b`; dropping both leaves permutations. */
  lemma Partner<T>(a: seq<T>, b: seq<T>) returns (i: nat)
    requires multiset(a) == multiset(b) && a != []
    ensures i < |b| && b[i] == a[|a| - 1]
    ensures multiset(a[..|a| - 1]) == multiset(b[..i] + b[i + 1..])
  {
    var n := |a| - 1;
    var x := a[n];
    assert x in a;
    assert x in multiset(b);
    i :| 0 <= i < |b| && b[i] == x;
    RemoveOne(a, n);
    assert a[..n] + a[n + 1..] == a[..n];
    RemoveOne(b, i);
  }

  lemma RemoveOne<T>(s: seq<T>, i: nat)
    requires i < |s|
    ensures multiset(s[..i] + s[i + 1..]) == multiset(s) - multiset{s[i]}
  {
    assert s == s[..i] + [s[i]] + s[i + 1..];
  }

  /** A permutation of a duplicate-free sequence is duplicate-free. */
  lemma PermutedNoDup<T(!new)>(a: seq<T>, b: seq<T>)
    requires NoDup(a) && multiset(a) == multiset(b)
    ensures NoDup(b) && forall x :: x in b <==> x in a
  {
    NoDupMultiset(a);
    forall x ensures x in b <==> x in a {
      assert x in b <==> x in multiset(b);
    }
    forall i, j | 0 <= i < j < |b| ensures b[i] != b[j] {
      assert b[i] in b;
      if b[i] == b[j] {
        TwiceIn(b, i, j);
      }
    }
  }

  lemma TwiceIn<T>(xs: seq<T>, i: nat, j: nat)
    requires i < j < |xs| && xs[i] == xs[j]
    ensures multiset(xs)[xs[i]] >= 2
  {
    assert xs == xs[..j] + [xs[j]] + xs[j + 1..];
    assert xs[i] in xs[..j];
    assert multiset(xs[..j])[xs[i]] >= 1;
  }

  lemma {:induction false} NoDupMultiset<T(!new)>(a: seq<T>)
    requires NoDup(a)
    ensures forall x :: multiset(a)[x] == if x in a then 1 else 0
  {
    if a != [] {
      var n := |a| - 1;
      assert a == a[..n] + [a[n]];
      NoDupMultiset(a[..n]);
    }
  }

  lemma CountLast<T>(xs: seq<T>, c: T)
    requires xs != []
    ensures multiset(xs)[c] == multiset(xs[..|xs| - 1])[c] + if xs[|xs| - 1] == c then 1 else 0
  {
    assert xs == xs[..|xs| - 1] + [xs[|xs| - 1]];
  }

  /** A set of positions that one more position may join. */
  lemma OneMore(a: set<nat>, b: set<nat>, n: nat, added: bool)
    requires (forall k :: k in a ==> k < n) && forall k :: k in b <==> k in a || (k == n && added)
    ensures |b| == |a| + if added then 1 else 0
  {
    assert b == if added then a + {n} else a;
  }
}

/** Sums of a weight map along a key order. */
module Sums {
  import opened Keys

  function Weight<K>(w: map<K, real>, k: K): real { if k in w then w[k] else 0.0 }

  function Sum<K>(order: seq<K>, w: map<K, real>): real {
    if order == [] then 0.0
    else Sum(order[..|order| - 1], w) + Weight(w, order[|order| - 1])
  }

  lemma {:induction false} SumCong<K(!new)>(order: seq<K>, v: map<K, real>, w: map<K, real>)
    requires forall k :: k in order ==> Weight(v, k) == Weight(w, k)
    ensures Sum(order, v) == Sum(order, w)
  {
    if order != [] {
      assert order[|order| - 1] in order;
      SumCong(order[..|order| - 1], v, w);
    }
  }

  lemma {:induction false} SumConcat<K(!new)>(a: seq<K>, b: seq<K>, w: map<K, real>)
    ensures Sum(a + b, w) == Sum(a, w) + Sum(b, w)
  {
    if b == [] {
      assert a + b == a;
    } else {
      var n := |b| - 1;
      assert (a + b)[..|a + b| - 1] == a + b[..n];
      SumConcat(a, b[..n], w);
    }
  }

  /** Replacing the weight of one key moves the sum by the difference. */
  lemma {:induction false} SumUpdate<K(!new)>(order: seq<K>, w: map<K, real>, k: K, v: real)
    requires NoDup(order) && k in order
    ensures Sum(order, w[k := v]) == Sum(order, w) - Weight(w, k) + v
  {
    var n := |order| - 1;
    var init := order[..n];
    assert order == init + [order[n]];
    if order[n] == k {
      SumCong(init, w[k := v], w);
    } else {
      SumUpdate(init, w, k, v);
    }
  }

  /** Two weightings that differ at one key of the order. */
  lemma SumReplace<K(!new)>(order: seq<K>, v: map<K, real>, w: map<K, real>, k: K)
    requires NoDup(order) && k in order
    requires forall j :: j in order && j != k ==> Weight(v, j) == Weight(w, j)
    ensures Sum(order, w) == Sum(order, v) - Weight(v, k) + Weight(w, k)
  {
    SumUpdate(order, v, k, Weight(w, k));
    SumCong(order, v[k := Weight(w, k)], w);
  }

  lemma SumExtend<K(!new)>(order: seq<K>, v: map<K, real>, w: map<K, real>, k: K)
    requires k !in order
    requires forall j :: j in order ==> Weight(v, j) == Weight(w, j)
    ensures Sum(order + [k], w) == Sum(order, v) + Weight(w, k)
  {
    assert (order + [k])[..|order|] == order;
    SumCong(order, v, w);
  }

  lemma {:induction false} SumWithout<K(!new)>(order: seq<K>, w: map<K, real>, k: K)
    requires NoDup(order) && k in order
    ensures Sum(Without(order, k), w) == Sum(order, w) - Weight(w, k)
  {
    var n := |order| - 1;
    var init := order[..n];
    assert order == init + [order[n]];
    if order[n] == k {
      WithoutAbsent(init, k);
    } else {
      SumWithout(init, w, k);
      SumConcat(Without(init, k), [order[n]], w);
      assert Sum([order[n]], w) == Sum([order[n]][..0], w) + Weight(w, order[n]);
    }
  }

  lemma {:induction false} WithoutAbsent<K(!new)>(order: seq<K>, k: K)
    requires k !in order
    ensures Without(order, k) == order
  {
    if order != [] {
      var n := |order| - 1;
      assert order == order[..n] + [order[n]];
      WithoutAbsent(order[..n], k);
    }
  }

  /** A sum does not depend on the order it is taken in. */
  lemma {:induction false} SumPermutation<K(!new)>(a: seq<K>, b: seq<K>, w: map<K, real>)
    requires multiset(a) == multiset(b)
    ensures Sum(a, w) == Sum(b, w)
  {
    if a == [] {
      assert |multiset(b)| == 0;
    } else {
      var n := |a| - 1;
      var x := a[n];
      var i := Partner(a, b);
      assert b == b[..i] + [x] + b[i + 1..];
      SumPermutation(a[..n], b[..i] + b[i + 1..], w);
      SumConcat(b[..i], b[i + 1..], w);
      SumConcat(b[..i] + [x], b[i + 1..], w);
      SumConcat(b[..i], [x], w);
      assert Sum([x], w) == Sum([x][..0], w) + Weight(w, x);
    }
  }
}

/** A stable sort by a numeric key, as the program gets it from its language. */
module Sorting {
  ghost predicate SortedBy<T>(xs: seq<T>, key: T -> real) {
    forall i, j :: 0 <= i < j < |xs| ==> key(xs[i]) <= key(xs[j])
  }

  function Insert<T>(xs: seq<T>, x: T, key: T -> real): (r: seq<T>)
    ensures multiset(r) == multiset(xs) + multiset{x}
  {
    if xs == [] || key(xs[|xs| - 1]) <= key(x) then xs + [x]
    else
      var n := |xs| - 1;
      assert xs == xs[..n] + [xs[n]];
      Insert(xs[..n], x, key) + [xs[n]]
  }

  lemma {:induction false} InsertBounded<T>(xs: seq<T>, x: T, key: T -> real, k: real)
    requires forall i :: 0 <= i < |xs| ==> key(xs[i]) <= k
    requires key(x) <= k
    ensures forall i :: 0 <= i < |Insert(xs, x, key)| ==> key(Insert(xs, x, key)[i]) <= k
  {
    if xs != [] && key(xs[|xs| - 1]) > key(x) {
      InsertBounded(xs[..|xs| - 1], x, key, k);
    }
  }

  lemma {:induction false} InsertSorted<T>(xs: seq<T>, x: T, key: T -> real)
    requires SortedBy(xs, key)
    ensures SortedBy(Insert(xs, x, key), key)
  {
    if xs != [] && key(xs[|xs| - 1]) > key(x) {
      var n := |xs| - 1;
      InsertSorted(xs[..n], x, key);
      InsertBounded(xs[..n], x, key, key(xs[n]));
    }
  }

  function StableSort<T>(xs: seq<T>, key: T -> real): (r: seq<T>)
    ensures multiset(r) == multiset(xs)
    ensures |r| == |xs|
    ensures SortedBy(r, key)
  {
    if xs == [] then []
    else
      var n := |xs| - 1;
      assert xs == xs[..n] + [xs[n]];
      var s := StableSort(xs[..n], key);
      var r := Insert(s, xs[n], key);
      InsertSorted(s, xs[n], key);
      assert |multiset(r)| == |multiset(xs)|;
      r
  }

  /** The elements whose key is `k`, in order. */
  function WithKey<T>(xs: seq<T>, key: T -> real, k: real): seq<T> {
    if xs == [] then []
    else
      var n := |xs| - 1;
      WithKey(xs[..n], key, k) + (if key(xs[n]) == k then [xs[n]] else [])
  }

  lemma {:induction false} InsertStable<T>(xs: seq<T>, x: T, key: T -> real, k: real)
    ensures WithKey(Insert(xs, x, key), key, k) == WithKey(xs + [x], key, k)
  {
    var r := Insert(xs, x, key);
    assert (xs + [x])[..|xs|] == xs;
    if xs != [] && key(xs[|xs| - 1]) > key(x) {
      var n := |xs| - 1;
      assert r[..|r| - 1] == Insert(xs[..n], x, key);
      assert (xs[..n] + [x])[..n] == xs[..n];
      InsertStable(xs[..n], x, key, k);
    }
  }

  /** Elements with equal keys keep their input order. */
  lemma {:induction false} StableSortStable<T>(xs: seq<T>, key: T -> real, k: real)
    ensures WithKey(StableSort(xs, key), key, k) == WithKey(xs, key, k)
  {
    if xs != [] {
      var n := |xs| - 1;
      var s := StableSort(xs[..n], key);
      StableSortStable(xs[..n], key, k);
      InsertStable(s, xs[n], key, k);
      assert (s + [xs[n]])[..|s|] == s;
    }
  }
}

/** How many values of a list have a property. */
module Counting {
  import opened Keys

  function Count(xs: seq<real>, p: real -> bool): nat {
    if xs == [] then 0 else Count(xs[..|xs| - 1], p) + if p(xs[|xs| - 1]) then 1 else 0
  }

  function Less(v: real): real -> bool { x => x < v }

  function Same(v: real): real -> bool { x => x == v }

  function More(v: real): real -> bool { x => x > v }

  lemma {:induction false} CountConcat(a: seq<real>, b: seq<real>, p: real -> bool)
    ensures Count(a + b, p) == Count(a, p) + Count(b, p)
  {
    if b == [] {
      assert a + b == a;
    } else {
      var n := |b| - 1;
      assert (a + b)[..|a + b| - 1] == a + b[..n];
      CountConcat(a, b[..n], p);
    }
  }

  lemma CountOne(x: real, p: real -> bool)
    ensures Count([x], p) == if p(x) then 1 else 0
  {
    assert [x][..0] == [];
  }

  lemma {:induction false} CountPermutes(a: seq<real>, b: seq<real>, p: real -> bool)
    requires multiset(a) == multiset(b)
    ensures Count(a, p) == Count(b, p)
  {
    if a == [] {
      assert |multiset(b)| == 0;
    } else {
      var n := |a| - 1;
      var i := Partner(a, b);
      assert b == b[..i] + [a[n]] + b[i + 1..];
      CountPermutes(a[..n], b[..i] + b[i + 1..], p);
      CountConcat(b[..i], b[i + 1..], p);
      CountConcat(b[..i] + [a[n]], b[i + 1..], p);
      CountConcat(b[..i], [a[n]], p);
      CountOne(a[n], p);
    }
  }

  lemma {:induction false} CountUniform(xs: seq<real>, p: real -> bool, b: bool)
    requires forall k :: 0 <= k < |xs| ==> p(xs[k]) == b
    ensures Count(xs, p) == if b then |xs| else 0
  {
    if xs != [] {
      CountUniform(xs[..|xs| - 1], p, b);
    }
  }

  /** A property that holds on exactly one stretch of a list is counted by the stretch's length. */
  lemma CountBlock(xs: seq<real>, p: real -> bool, from: nat, to: nat)
    requires from <= to <= |xs| && forall k :: 0 <= k < |xs| ==> (p(xs[k]) <==> from <= k < to)
    ensures Count(xs, p) == to - from
  {
    assert xs == xs[..from] + xs[from..to] + xs[to..];
    CountConcat(xs[..from] + xs[from..to], xs[to..], p);
    CountConcat(xs[..from], xs[from..to], p);
    CountUniform(xs[..from], p, false);
    CountUniform(xs[from..to], p, true);
    CountUniform(xs[to..], p, false);
  }

  /** A property that holds all along a stretch is counted at least that often. */
  lemma CountAtLeast(xs: seq<real>, p: real -> bool, from: nat, to: nat)
    requires from <= to <= |xs| && forall k :: from <= k < to ==> p(xs[k])
    ensures Count(xs, p) >= to - from
  {
    assert xs == xs[..from] + xs[from..to] + xs[to..];
    CountConcat(xs[..from] + xs[from..to], xs[to..], p);
    CountConcat(xs[..from], xs[from..to], p);
    CountUniform(xs[from..to], p, true);
  }
}
