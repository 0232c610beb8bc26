/** A stable sort by key, the model of Rust's `slice::sort_by` and of Python's
    `sorted`: both are stable, so elements with equal keys keep their input
    order. It is written as an insertion sort, whose only purpose here is to
    be a definition the properties can be proved of. */
module StableSort {

  /** `lt` is a strict total order on keys. */
  ghost predicate StrictTotalOrder<K(!new)>(lt: (K, K) -> bool)
  {
    && (forall a :: !lt(a, a))
    && (forall a, b, c :: lt(a, b) && lt(b, c) ==> lt(a, c))
    && (forall a, b :: a != b ==> lt(a, b) || lt(b, a))
  }

  /** No element is followed by one whose key is strictly smaller. */
  ghost predicate Sorted<T, K>(s: seq<T>, key: T -> K, lt: (K, K) -> bool)
  {
    forall i, j :: 0 <= i < j < |s| ==> !lt(key(s[j]), key(s[i]))
  }

  /** The elements of `s` whose key is `k`, in their order in `s`. */
  function WithKey<T, K(==)>(s: seq<T>, key: T -> K, k: K): seq<T>
  {
    if s == [] then [] else (if key(s[0]) == k then [s[0]] else []) + WithKey(s[1..], key, k)
  }

  /** Puts `x` after every element whose key is strictly below its own. */
  function Insert<T, K>(x: T, s: seq<T>, key: T -> K, lt: (K, K) -> bool): seq<T>
  {
    if s == [] then [x]
    else if lt(key(s[0]), key(x)) then [s[0]] + Insert(x, s[1..], key, lt)
    else [x] + s
  }

  function Sort<T, K>(s: seq<T>, key: T -> K, lt: (K, K) -> bool): seq<T>
  {
    if s == [] then [] else Insert(s[0], Sort(s[1..], key, lt), key, lt)
  }

  lemma {:induction false} InsertPermutes<T, K>(x: T, s: seq<T>, key: T -> K, lt: (K, K) -> bool)
    ensures multiset(Insert(x, s, key, lt)) == multiset(s) + multiset{x}
  {
    if s != [] && lt(key(s[0]), key(x)) {
      InsertPermutes(x, s[1..], key, lt);
      assert s == [s[0]] + s[1..];
    }
  }

  lemma {:induction false} InsertSorted<T, K(!new)>(x: T, s: seq<T>, key: T -> K, lt: (K, K) -> bool)
    requires StrictTotalOrder(lt)
    requires Sorted(s, key, lt)
    ensures Sorted(Insert(x, s, key, lt), key, lt)
  {
    if s == [] {
    } else if lt(key(s[0]), key(x)) {
      var t := Insert(x, s[1..], key, lt);
      InsertSorted(x, s[1..], key, lt);
      InsertPermutes(x, s[1..], key, lt);
      forall j | 0 <= j < |t| ensures !lt(key(t[j]), key(s[0])) {
        assert t[j] in multiset(t);
        if t[j] != x {
          assert t[j] in multiset(s[1..]);
          var m :| 0 <= m < |s[1..]| && s[1..][m] == t[j];
          assert s[m + 1] == t[j];
        }
      }
      assert Insert(x, s, key, lt) == [s[0]] + t;
    }
  }

  lemma {:induction false} WithKeyAppend<T, K>(a: seq<T>, b: seq<T>, key: T -> K, k: K)
    ensures WithKey(a + b, key, k) == WithKey(a, key, k) + WithKey(b, key, k)
  {
    if a == [] {
      assert a + b == b;
    } else {
      WithKeyAppend(a[1..], b, key, k);
      assert (a + b)[0] == a[0] && (a + b)[1..] == a[1..] + b;
    }
  }

  lemma {:induction false} InsertWithKey<T, K(!new)>(x: T, s: seq<T>, key: T -> K, lt: (K, K) -> bool, k: K)
    requires forall a :: !lt(a, a)
    ensures WithKey(Insert(x, s, key, lt), key, k)
         == (if key(x) == k then [x] else []) + WithKey(s, key, k)
  {
    var head := if key(x) == k then [x] else [];
    if s == [] {
      WithKeyAppend([x], [], key, k);
    } else if lt(key(s[0]), key(x)) {
      var t := Insert(x, s[1..], key, lt);
      InsertWithKey(x, s[1..], key, lt, k);
      WithKeyAppend([s[0]], t, key, k);
      WithKeyAppend([s[0]], s[1..], key, k);
      assert s == [s[0]] + s[1..];
      var s0 := if key(s[0]) == k then [s[0]] else [];
      assert key(x) == k ==> s0 == [];
      calc {
        WithKey(Insert(x, s, key, lt), key, k);
        WithKey([s[0]] + t, key, k);
        s0 + WithKey(t, key, k);
        s0 + (head + WithKey(s[1..], key, k));
        head + (s0 + WithKey(s[1..], key, k));
        head + WithKey(s, key, k);
      }
    } else {
      WithKeyAppend([x], s, key, k);
    }
  }

  /** The sort is sorted, a permutation of its input, and stable: for every
      key, the elements carrying it appear in their input order. */
  lemma {:induction false} SortCorrect<T, K(!new)>(s: seq<T>, key: T -> K, lt: (K, K) -> bool)
    requires StrictTotalOrder(lt)
    ensures |Sort(s, key, lt)| == |s|
    ensures multiset(Sort(s, key, lt)) == multiset(s)
    ensures Sorted(Sort(s, key, lt), key, lt)
    ensures forall k :: WithKey(Sort(s, key, lt), key, k) == WithKey(s, key, k)
  {
    if s != [] {
      var rest := Sort(s[1..], key, lt);
      SortCorrect(s[1..], key, lt);
      InsertPermutes(s[0], rest, key, lt);
      InsertSorted(s[0], rest, key, lt);
      assert s == [s[0]] + s[1..];
      assert |Sort(s, key, lt)| == |multiset(Sort(s, key, lt))|;
      forall k ensures WithKey(Sort(s, key, lt), key, k) == WithKey(s, key, k) {
        InsertWithKey(s[0], rest, key, lt, k);
      }
    }
  }
}
