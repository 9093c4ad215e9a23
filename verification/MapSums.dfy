/** Sums and bags over the values of a finite map and over the entries of a list,
    independent of any iteration order. */
module MapSums {

  ghost function Pick<T>(m: map<nat, T>): (k: nat)
    requires m != map[]
    ensures k in m
  {
    var k :| k in m;
    k
  }

  ghost function Sum(m: map<nat, nat>): nat {
    if m == map[] then 0 else m[Pick(m)] + Sum(m - {Pick(m)})
  }

  lemma {:induction false} SumTakesOut(m: map<nat, nat>, k: nat)
    requires k in m
    ensures Sum(m) == m[k] + Sum(m - {k})
    decreases |m|
  {
    var p := Pick(m);
    if p != k {
      var without := m - {k};
      assert |m - {p}| < |m| && |without| < |m|;
      SumTakesOut(m - {p}, k);
      SumTakesOut(without, p);
      assert m - {p} - {k} == without - {p};
    }
  }

  lemma SumPutsIn(m: map<nat, nat>, k: nat, v: nat)
    requires k !in m
    ensures Sum(m[k := v]) == v + Sum(m)
  {
    SumTakesOut(m[k := v], k);
    assert m[k := v] - {k} == m;
  }

  lemma SumReplaces(m: map<nat, nat>, k: nat, v: nat)
    requires k in m
    ensures Sum(m[k := v]) + m[k] == Sum(m) + v
  {
    SumTakesOut(m[k := v], k);
    SumTakesOut(m, k);
    assert m[k := v] - {k} == m - {k};
  }

  /** If every value is at least `low`, so is the average. */
  lemma {:induction false} SumAtLeast(m: map<nat, nat>, low: nat)
    requires forall k :: k in m ==> low <= m[k]
    ensures |m| * low <= Sum(m)
    decreases |m|
  {
    if m != map[] {
      var rest := m - {Pick(m)};
      assert |rest| == |m| - 1;
      SumAtLeast(rest, low);
      OneMore(|rest|, low);
    }
  }

  lemma OneMore(n: nat, low: nat)
    ensures (n + 1) * low == n * low + low
  {
  }

  lemma {:induction false} SumZero(m: map<nat, nat>)
    requires Sum(m) == 0
    ensures forall k :: k in m ==> m[k] == 0
  {
    forall k | k in m ensures m[k] == 0 {
      SumTakesOut(m, k);
    }
  }

  /** The values of a map with their multiplicities. */
  ghost function Bag<T>(m: map<nat, T>): multiset<T> {
    if m == map[] then multiset{} else multiset{m[Pick(m)]} + Bag(m - {Pick(m)})
  }

  lemma Exchange<T>(a: multiset<T>, b: multiset<T>, c: multiset<T>)
    ensures a + (b + c) == b + (a + c)
  {
  }

  lemma BagUnfolds<T>(m: map<nat, T>)
    requires m != map[]
    ensures Bag(m) == multiset{m[Pick(m)]} + Bag(m - {Pick(m)})
  {
  }

  lemma {:induction false} BagTakesOut<T>(m: map<nat, T>, k: nat)
    requires k in m
    ensures Bag(m) == multiset{m[k]} + Bag(m - {k})
    decreases |m|
  {
    hide Bag;
    BagUnfolds(m);
    var p := Pick(m);
    if p != k {
      var m1, m2 := m - {p}, m - {k};
      assert |m1| < |m| && |m2| < |m|;
      BagTakesOut(m1, k);
      BagTakesOut(m2, p);
      assert m1 - {k} == m2 - {p};
      Exchange(multiset{m[p]}, multiset{m[k]}, Bag(m1 - {k}));
    }
  }

  lemma BagPutsIn<T>(m: map<nat, T>, k: nat, v: T)
    requires k !in m
    ensures Bag(m[k := v]) == multiset{v} + Bag(m)
  {
    hide Bag;
    BagTakesOut(m[k := v], k);
    assert m[k := v] - {k} == m;
  }

  lemma BagReplaces<T>(m: map<nat, T>, k: nat, v: T)
    requires k in m
    ensures Bag(m[k := v]) + multiset{m[k]} == Bag(m) + multiset{v}
  {
    hide Bag;
    BagTakesOut(m[k := v], k);
    BagTakesOut(m, k);
    assert m[k := v] - {k} == m - {k};
    var rest := Bag(m - {k});
    assert (multiset{v} + rest) + multiset{m[k]} == (multiset{m[k]} + rest) + multiset{v};
  }

  // ----- Gathering over a list -----

  ghost function Gather<T>(f: map<nat, multiset<T>>, order: seq<nat>): multiset<T> {
    if order == [] then multiset{}
    else
      var last := order[|order| - 1];
      Gather(f, order[..|order| - 1]) + if last in f then f[last] else multiset{}
  }

  lemma {:induction false} GatherTakesOut<T>(f: map<nat, multiset<T>>, order: seq<nat>, j: nat)
    requires j < |order|
    ensures Gather(f, order) == Gather(f, order[..j] + order[j + 1..])
        + if order[j] in f then f[order[j]] else multiset{}
  {
    var n := |order| - 1;
    if j == n {
      assert order[..j] + order[j + 1..] == order[..n];
    } else {
      var front := order[..n];
      GatherTakesOut(f, front, j);
      var rest := order[..j] + order[j + 1..];
      assert rest[..|rest| - 1] == front[..j] + front[j + 1..];
      assert rest[|rest| - 1] == order[n];
    }
  }

  lemma MultisetWithout(a: seq<nat>, j: nat)
    requires j < |a|
    ensures multiset(a[..j] + a[j + 1..]) == multiset(a) - multiset{a[j]}
  {
    assert a == a[..j] + [a[j]] + a[j + 1..];
  }

  /** The order of the list does not matter. */
  lemma {:induction false} GatherIgnoresOrder<T>(f: map<nat, multiset<T>>, a: seq<nat>, b: seq<nat>)
    requires multiset(a) == multiset(b)
    ensures Gather(f, a) == Gather(f, b)
    decreases |a|
  {
    if a == [] {
      assert |multiset(b)| == 0;
    } else {
      hide Gather;
      var n := |a| - 1;
      assert a[n] in multiset(a);
      assert a[n] in b;
      var j :| 0 <= j < |b| && b[j] == a[n];
      MultisetWithout(a, n);
      MultisetWithout(b, j);
      GatherTakesOut(f, a, n);
      GatherTakesOut(f, b, j);
      GatherIgnoresOrder(f, a[..n] + a[n + 1..], b[..j] + b[j + 1..]);
    }
  }
}
