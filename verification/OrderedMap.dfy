/** std::map: entries in ascending key order, inserted in place. */
module OrderedMap {
  import opened Bytes
  import opened Options

  datatype Entry<K, V> = Entry(key: K, value: V)

  type Map<K, V> = seq<Entry<K, V>>

  ghost predicate StrictOrder<K(!new)>(less: (K, K) -> bool)
  {
    && (forall a :: !less(a, a))
    && (forall a, b :: less(a, b) || less(b, a) || a == b)
    && (forall a, b, c :: less(a, b) && less(b, c) ==> less(a, c))
  }

  /** a comes before b, and b not before a. */
  predicate Goes<K(==)>(less: (K, K) -> bool, a: K, b: K)
  {
    less(a, b) && !less(b, a) && a != b
  }

  ghost predicate Ascending<K, V>(less: (K, K) -> bool, m: Map<K, V>)
  {
    forall i, j :: 0 <= i < j < |m| ==> Goes(less, m[i].key, m[j].key)
  }

  /** All keys of m come before k. */
  ghost predicate Precedes<K, V>(less: (K, K) -> bool, m: Map<K, V>, k: K)
  {
    forall i :: 0 <= i < |m| ==> Goes(less, m[i].key, k)
  }

  function Get<K(==), V>(m: Map<K, V>, k: K): Option<V>
    decreases |m|
  {
    if m == [] then None else if m[0].key == k then Some(m[0].value) else Get(m[1..], k)
  }

  /** What operator[] yields: the stored value, or the default for a key not there yet. */
  function GetOr<K(==), V>(m: Map<K, V>, k: K, default: V): V
  {
    match Get(m, k) case Some(v) => v case None => default
  }

  function Put<K(==), V>(less: (K, K) -> bool, m: Map<K, V>, k: K, v: V): Map<K, V>
    decreases |m|
  {
    if m == [] then [Entry(k, v)]
    else if m[0].key == k then [Entry(k, v)] + m[1..]
    else if less(k, m[0].key) then [Entry(k, v)] + m
    else [m[0]] + Put(less, m[1..], k, v)
  }

  lemma LessGoes<K(!new)>(less: (K, K) -> bool, a: K, b: K)
    requires StrictOrder(less) && less(a, b)
    ensures Goes(less, a, b)
  {}

  lemma {:induction false} PutKeepsOrder<K(!new), V>(less: (K, K) -> bool, m: Map<K, V>, k: K, v: V)
    requires StrictOrder(less) && Ascending(less, m)
    ensures Ascending(less, Put(less, m, k, v))
    ensures forall e :: e in Put(less, m, k, v) ==> e == Entry(k, v) || e in m
    decreases |m|
  {
    if m != [] && m[0].key != k {
      if less(k, m[0].key) {
        var put := Put(less, m, k, v);
        forall j | 0 < j < |put| ensures Goes(less, put[0].key, put[j].key) {
          if j > 1 { assert Goes(less, m[0].key, m[j - 1].key); }
          LessGoes(less, k, put[j].key);
        }
        forall i, j | 0 < i < j < |put| ensures Goes(less, put[i].key, put[j].key) {
          assert Goes(less, m[i - 1].key, m[j - 1].key);
        }
      } else {
        var rest := Put(less, m[1..], k, v);
        PutKeepsOrder(less, m[1..], k, v);
        forall j | 0 <= j < |rest| ensures Goes(less, m[0].key, rest[j].key) {
          if rest[j] != Entry(k, v) {
            assert rest[j] in rest && rest[j] in m[1..];
          } else {
            LessGoes(less, m[0].key, k);
          }
        }
      }
    }
  }

  /** Inserting past the last key appends. */
  lemma {:induction false} PutLast<K, V>(less: (K, K) -> bool, m: Map<K, V>, k: K, v: V)
    requires Precedes(less, m, k)
    ensures Put(less, m, k, v) == m + [Entry(k, v)] && Get(m, k) == None
    decreases |m|
  {
    if m != [] {
      assert Goes(less, m[0].key, k);
      PutLast(less, m[1..], k, v);
      assert [m[0]] + (m[1..] + [Entry(k, v)]) == m + [Entry(k, v)];
    }
  }

  lemma {:induction false} AbsentBelow<K(!new), V>(less: (K, K) -> bool, m: Map<K, V>, k: K)
    requires StrictOrder(less) && forall i :: 0 <= i < |m| ==> less(k, m[i].key)
    ensures Get(m, k) == None
    decreases |m|
  {
    if m != [] { AbsentBelow(less, m[1..], k); }
  }

  /** m goes entirely before rest, which is itself in order. */
  ghost predicate Before<K, V, W>(less: (K, K) -> bool, m: Map<K, V>, rest: Map<K, W>)
  {
    Ascending(less, rest) && forall i :: 0 <= i < |rest| ==> Precedes(less, m, rest[i].key)
  }

  lemma BeforeRest<K, V, W>(less: (K, K) -> bool, m: Map<K, V>, rest: Map<K, W>, v: V)
    requires rest != [] && Before(less, m, rest)
    ensures Precedes(less, m, rest[0].key)
    ensures Before(less, m, rest[1..]) && Before(less, m + [Entry(rest[0].key, v)], rest[1..])
  {}

  lemma {:induction false} PutHolds<K, V>(less: (K, K) -> bool, m: Map<K, V>, k: K, v: V)
    ensures Entry(k, v) in Put(less, m, k, v)
    ensures forall e :: e in m && e.key != k ==> e in Put(less, m, k, v)
    decreases |m|
  {
    if m != [] {
      PutHolds(less, m[1..], k, v);
      assert m == [m[0]] + m[1..];
    }
  }

  lemma BeforeFirst<K, V, W>(less: (K, K) -> bool, m: Map<K, V>, k: K, w: W, v: V, rest: Map<K, W>)
    requires Precedes(less, m, k) && Before(less, m, rest) && Before(less, m + [Entry(k, v)], rest)
    ensures Before(less, m, [Entry(k, w)] + rest)
  {
    forall i | 0 <= i < |rest| ensures Goes(less, k, rest[i].key) {
      assert Precedes(less, m + [Entry(k, v)], rest[i].key);
      assert (m + [Entry(k, v)])[|m|].key == k;
    }
  }

  /** Looking up after inserting: the new value at its key, everything else as before. */
  lemma {:induction false} GetPut<K(!new), V>(less: (K, K) -> bool, m: Map<K, V>, k: K, v: V, q: K)
    requires StrictOrder(less) && Ascending(less, m)
    ensures Get(Put(less, m, k, v), q) == if q == k then Some(v) else Get(m, q)
    decreases |m|
  {
    if m != [] && m[0].key != k && !less(k, m[0].key) {
      GetPut(less, m[1..], k, v, q);
      assert Put(less, m, k, v)[1..] == Put(less, m[1..], k, v);
    } else if m != [] && m[0].key != k {
      assert Put(less, m, k, v)[1..] == m;
    } else if m != [] {
      assert Put(less, m, k, v)[1..] == m[1..];
    }
  }

  function Remove<K(==), V>(m: Map<K, V>, k: K): Map<K, V>
    decreases |m|
  {
    if m == [] then [] else if m[0].key == k then m[1..] else [m[0]] + Remove(m[1..], k)
  }

  lemma {:induction false} RemoveKeepsOrder<K(!new), V>(less: (K, K) -> bool, m: Map<K, V>, k: K)
    requires Ascending(less, m)
    ensures Ascending(less, Remove(m, k)) && forall e :: e in Remove(m, k) ==> e in m
    decreases |m|
  {
    if m != [] && m[0].key != k {
      var rest := Remove(m[1..], k);
      RemoveKeepsOrder(less, m[1..], k);
      forall j | 0 <= j < |rest| ensures Goes(less, m[0].key, rest[j].key) { assert rest[j] in rest && rest[j] in m[1..]; }
    }
  }

  lemma {:induction false} GetAfter<K, V>(less: (K, K) -> bool, m: Map<K, V>, k: K)
    requires m != [] && Ascending(less, m) && m[0].key == k
    ensures Get(m[1..], k) == None
  {
    forall i | 0 <= i < |m[1..]| ensures m[1..][i].key != k { assert Goes(less, m[0].key, m[i + 1].key); }
    NotThere(m[1..], k);
  }

  lemma {:induction false} NotThere<K, V>(m: Map<K, V>, k: K)
    requires forall i :: 0 <= i < |m| ==> m[i].key != k
    ensures Get(m, k) == None
    decreases |m|
  {
    if m != [] { NotThere(m[1..], k); }
  }

  lemma {:induction false} GetRemove<K(!new), V>(less: (K, K) -> bool, m: Map<K, V>, k: K, q: K)
    requires Ascending(less, m)
    ensures Get(Remove(m, k), q) == if q == k then None else Get(m, q)
    decreases |m|
  {
    if m != [] {
      GetRemove(less, m[1..], k, q);
      if m[0].key == k {
        GetAfter(less, m, k);
      } else {
        assert Remove(m, k)[1..] == Remove(m[1..], k);
      }
    }
  }

  lemma {:induction false} GetIn<K, V>(less: (K, K) -> bool, m: Map<K, V>, k: K, v: V)
    requires Ascending(less, m)
    ensures Get(m, k) == Some(v) <==> Entry(k, v) in m
    decreases |m|
  {
    if m != [] {
      GetIn(less, m[1..], k, v);
      assert m == [m[0]] + m[1..];
      if m[0].key == k { GetAfter(less, m, k); }
    }
  }

  /** Maps in the same order with the same entries are the same. */
  lemma {:induction false} SameMap<K(!new), V(!new)>(less: (K, K) -> bool, m: Map<K, V>, n: Map<K, V>)
    requires Ascending(less, m) && Ascending(less, n) && forall k :: Get(m, k) == Get(n, k)
    ensures m == n
    decreases |m|
  {
    if m == [] {
      assert n != [] ==> Get(m, n[0].key) == Get(n, n[0].key);
    } else {
      assert Get(n, m[0].key) == Get(m, m[0].key);
      HeadIsLeast(less, m, n);
      forall k ensures Get(m[1..], k) == Get(n[1..], k) {
        GetAfter(less, m, m[0].key);
        GetAfter(less, n, n[0].key);
        assert Get(m, k) == Get(n, k);
      }
      SameMap(less, m[1..], n[1..]);
      assert Get(m, m[0].key) == Some(m[0].value) && Get(n, n[0].key) == Some(n[0].value);
      assert m == [m[0]] + m[1..] && n == [n[0]] + n[1..];
    }
  }

  lemma HeadOrLater<K, V>(less: (K, K) -> bool, m: Map<K, V>, e: Entry<K, V>)
    requires Ascending(less, m) && e in m
    ensures e == m[0] || Goes(less, m[0].key, e.key)
  {
    var i :| 0 <= i < |m| && m[i] == e;
    assert i > 0 ==> Goes(less, m[0].key, m[i].key);
  }

  lemma HeadIsLeast<K(!new), V(!new)>(less: (K, K) -> bool, m: Map<K, V>, n: Map<K, V>)
    requires m != [] && Ascending(less, m) && Ascending(less, n) && forall k :: Get(m, k) == Get(n, k)
    ensures n != [] && n[0].key == m[0].key
  {
    assert Get(n, m[0].key) == Some(m[0].value);
    GetIn(less, n, m[0].key, m[0].value);
    HeadOrLater(less, n, m[0]);
    assert Get(m, n[0].key) == Some(n[0].value) by { assert Get(n, n[0].key) == Some(n[0].value); }
    GetIn(less, m, n[0].key, n[0].value);
    HeadOrLater(less, m, n[0]);
  }

  // ----- sorting by another order -----

  /** The entries of a map with distinct keys, in the order given. */
  function Sorted<K(==), V>(less: (K, K) -> bool, m: Map<K, V>): Map<K, V>
    decreases |m|
  {
    if m == [] then [] else Put(less, Sorted(less, m[1..]), m[0].key, m[0].value)
  }

  /** Sorting puts the entries in order and loses none. */
  lemma {:induction false} SortedIsOrdered<K(!new), V>(less: (K, K) -> bool, m: Map<K, V>, k: K)
    requires StrictOrder(less)
    ensures Ascending(less, Sorted(less, m)) && Get(Sorted(less, m), k) == Get(m, k)
    ensures forall e :: e in Sorted(less, m) ==> e in m
    decreases |m|
  {
    if m != [] {
      SortedIsOrdered(less, m[1..], k);
      PutKeepsOrder(less, Sorted(less, m[1..]), m[0].key, m[0].value);
      GetPut(less, Sorted(less, m[1..]), m[0].key, m[0].value, k);
      assert m == [m[0]] + m[1..];
    }
  }

  // ----- adding up -----

  function Total<K, V>(cost: Entry<K, V> -> nat, m: Map<K, V>): nat
    decreases |m|
  {
    if m == [] then 0 else cost(m[0]) + Total(cost, m[1..])
  }

  function CostAt<K(==), V>(cost: Entry<K, V> -> nat, m: Map<K, V>, k: K): nat
  {
    match Get(m, k) case Some(v) => cost(Entry(k, v)) case None => 0
  }

  /** Inserting changes a total by what it changes at its key. */
  lemma {:induction false} TotalPut<K(!new), V>(less: (K, K) -> bool, cost: Entry<K, V> -> nat, m: Map<K, V>, k: K, v: V)
    requires StrictOrder(less) && Ascending(less, m)
    ensures Total(cost, Put(less, m, k, v)) == Total(cost, m) - CostAt(cost, m, k) + cost(Entry(k, v))
    decreases |m|
  {
    var put := Put(less, m, k, v);
    if m != [] {
      if m[0].key == k {
        assert m[0] == Entry(k, m[0].value) && put[1..] == m[1..];
      } else if less(k, m[0].key) {
        forall i | 0 <= i < |m| ensures less(k, m[i].key) { assert i > 0 ==> Goes(less, m[0].key, m[i].key); }
        AbsentBelow(less, m, k);
        assert put[1..] == m;
      } else {
        TotalPut(less, cost, m[1..], k, v);
        assert put[1..] == Put(less, m[1..], k, v);
      }
    }
  }

  /** Sorting never adds. */
  lemma {:induction false} TotalSorted<K(!new), V>(less: (K, K) -> bool, cost: Entry<K, V> -> nat, m: Map<K, V>)
    requires StrictOrder(less)
    ensures Total(cost, Sorted(less, m)) <= Total(cost, m)
    decreases |m|
  {
    if m != [] {
      TotalSorted(less, cost, m[1..]);
      SortedIsOrdered(less, m[1..], m[0].key);
      TotalPut(less, cost, Sorted(less, m[1..]), m[0].key, m[0].value);
      assert m[0] == Entry(m[0].key, m[0].value);
    }
  }

  // ----- the order of texts -----

  /** Lexicographic order on octets. */
  predicate Below(a: seq<octet>, b: seq<octet>)
    decreases |a|
  {
    if b == [] then false
    else if a == [] then true
    else if a[0] == b[0] then Below(a[1..], b[1..])
    else a[0] < b[0]
  }

  /** The first difference is at n, and a has the smaller octet there. */
  predicate SmallerAt(a: seq<octet>, b: seq<octet>, n: nat)
  {
    n < |a| && n < |b| && a[..n] == b[..n] && a[n] < b[n]
  }

  lemma SmallerLater(a: seq<octet>, b: seq<octet>, n: nat)
    requires a != [] && b != [] && n > 0
    ensures SmallerAt(a, b, n) <==> a[0] == b[0] && SmallerAt(a[1..], b[1..], n - 1)
  {
    if n < |a| && n < |b| {
      SliceFirst(a, n);
      SliceFirst(b, n);
      assert a[..n] == b[..n] ==> a[..n][0] == b[..n][0] && a[..n][1..] == b[..n][1..];
    }
  }

  lemma SliceFirst<T>(a: seq<T>, n: nat)
    requires 0 < n <= |a|
    ensures a[..n] == [a[0]] + a[1..][..n - 1] && a[..n][0] == a[0] && a[..n][1..] == a[1..][..n - 1]
  {
  }

  /** What the order means: a proper prefix goes first, and otherwise the smaller octet at the first
      difference decides. */
  lemma {:induction false} BelowMeans(a: seq<octet>, b: seq<octet>)
    ensures Below(a, b) <==> a < b || exists n: nat :: SmallerAt(a, b, n)
    decreases |a|
  {
    if a != [] && b != [] {
      var x, y := a[1..], b[1..];
      assert a == [a[0]] + x && b == [b[0]] + y;
      BelowMeans(x, y);
      if m: nat :| SmallerAt(x, y, m) { SmallerLater(a, b, m + 1); }
      if n: nat :| SmallerAt(a, b, n) { if n > 0 { SmallerLater(a, b, n); } }
      assert SmallerAt(a, b, 0) <==> a[0] < b[0];
    }
  }

  lemma {:induction false} BelowIsTotal(a: seq<octet>, b: seq<octet>)
    ensures !Below(a, a)
    ensures Below(a, b) || Below(b, a) || a == b
    decreases |a| + |b|
  {
    if a != [] && b != [] {
      BelowIsTotal(a[1..], b[1..]);
      assert a[0] == b[0] && a[1..] == b[1..] ==> a == [a[0]] + a[1..] == [b[0]] + b[1..] == b;
    } else if a != [] {
      BelowIsTotal(a[1..], b);
    }
  }

  lemma {:induction false} BelowIsTransitive(a: seq<octet>, b: seq<octet>, c: seq<octet>)
    requires Below(a, b) && Below(b, c)
    ensures Below(a, c)
    decreases |a|
  {
    if a != [] && a[0] == b[0] == c[0] { BelowIsTransitive(a[1..], b[1..], c[1..]); }
  }

  lemma BelowIsStrictOrder()
    ensures StrictOrder(Below)
  {
    forall a, b ensures !Below(a, a) && (Below(a, b) || Below(b, a) || a == b) { BelowIsTotal(a, b); }
    forall a, b, c | Below(a, b) && Below(b, c) ensures Below(a, c) { BelowIsTransitive(a, b, c); }
  }
}
