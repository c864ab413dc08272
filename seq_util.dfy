/** The array built-ins the admin pages compose: `filter`, `filter(...).length`,
    `reduce` sums, `find`, and a stable `sort` by a numeric key. */
module SeqUtil {
  import opened Outcomes

  /** `s.filter(p)`: the elements satisfying p, in their original order. */
  function Filter<T(!new)>(s: seq<T>, p: T -> bool): (r: seq<T>)
    ensures |r| <= |s|
    ensures forall x :: x in r <==> x in s && p(x)
    ensures forall i :: 0 <= i < |r| ==> p(r[i])
  {
    if s == [] then [] else (if p(s[0]) then [s[0]] else []) + Filter(s[1..], p)
  }

  /** Filtering keeps relative order: it distributes over concatenation. */
  lemma {:induction false} FilterAppend<T(!new)>(a: seq<T>, b: seq<T>, p: T -> bool)
    ensures Filter(a + b, p) == Filter(a, p) + Filter(b, p)
    decreases |a|
  {
    if a != [] {
      assert (a + b)[0] == a[0] && (a + b)[1..] == a[1..] + b;
      FilterAppend(a[1..], b, p);
    } else {
      assert a + b == b;
    }
  }

  /** A filter every element passes returns the list unchanged. */
  lemma {:induction false} FilterAllPass<T(!new)>(s: seq<T>, p: T -> bool)
    requires forall i :: 0 <= i < |s| ==> p(s[i])
    ensures Filter(s, p) == s
    decreases |s|
  {
    if s != [] {
      assert p(s[0]);
      FilterAllPass(s[1..], p);
    }
  }

  /** No element occurs twice. */
  predicate NoDuplicates<T(==)>(s: seq<T>) {
    forall i, j :: 0 <= i < j < |s| ==> s[i] != s[j]
  }

  /** Filtering a list without duplicates gives one without duplicates. */
  lemma {:induction false} FilterNoDuplicates<T(!new)>(s: seq<T>, p: T -> bool)
    requires NoDuplicates(s)
    ensures NoDuplicates(Filter(s, p))
    decreases |s|
  {
    if s != [] {
      assert NoDuplicates(s[1..]) by {
        forall i, j | 0 <= i < j < |s[1..]|
          ensures s[1..][i] != s[1..][j]
        {
          assert s[1..][i] == s[i + 1] && s[1..][j] == s[j + 1];
        }
      }
      FilterNoDuplicates(s[1..], p);
      var t := Filter(s[1..], p);
      assert s[0] !in s[1..] by {
        forall j | 0 <= j < |s[1..]|
          ensures s[1..][j] != s[0]
        {
          assert s[1..][j] == s[j + 1];
        }
      }
      assert s[0] !in t;
      var h: seq<T> := if p(s[0]) then [s[0]] else [];
      assert Filter(s, p) == h + t;
      forall i, j | 0 <= i < j < |h + t|
        ensures (h + t)[i] != (h + t)[j]
      {
        if i < |h| {
          assert (h + t)[j] == t[j - |h|];
        } else {
          assert (h + t)[i] == t[i - |h|] && (h + t)[j] == t[j - |h|];
        }
      }
    }
  }

  /** The number of elements satisfying p. */
  function CountWhere<T(!new)>(s: seq<T>, p: T -> bool): (n: nat)
    ensures n <= |s|
  {
    |Filter(s, p)|
  }

  /** An element is counted by exactly one of p and its negation. */
  lemma {:induction false} CountComplement<T(!new)>(s: seq<T>, p: T -> bool, q: T -> bool)
    requires forall x :: q(x) == !p(x)
    ensures CountWhere(s, p) + CountWhere(s, q) == |s|
    decreases |s|
  {
    if s != [] {
      CountComplement(s[1..], p, q);
    }
  }

  /** A stronger predicate counts no more. */
  lemma {:induction false} CountMonotone<T(!new)>(s: seq<T>, p: T -> bool, q: T -> bool)
    requires forall x :: p(x) ==> q(x)
    ensures CountWhere(s, p) <= CountWhere(s, q)
    decreases |s|
  {
    if s != [] {
      CountMonotone(s[1..], p, q);
    }
  }

  /** The number of elements whose key is k. */
  function CountKey<T>(s: seq<T>, keyOf: T -> string, k: string): (n: nat)
    ensures n <= |s|
  {
    if s == [] then 0 else (if keyOf(s[0]) == k then 1 else 0) + CountKey(s[1..], keyOf, k)
  }

  /** The counts for a list of keys, added up. */
  function SumCountKeys<T>(s: seq<T>, keyOf: T -> string, keys: seq<string>): nat {
    if keys == [] then 0 else CountKey(s, keyOf, keys[0]) + SumCountKeys(s, keyOf, keys[1..])
  }

  lemma {:induction false} SumCountKeysCons<T>(x: T, s: seq<T>, keyOf: T -> string, keys: seq<string>)
    requires forall i, j :: 0 <= i < j < |keys| ==> keys[i] != keys[j]
    ensures SumCountKeys([x] + s, keyOf, keys) == (if keyOf(x) in keys then 1 else 0) + SumCountKeys(s, keyOf, keys)
    decreases |keys|
  {
    if keys != [] {
      assert ([x] + s)[1..] == s;
      SumCountKeysCons(x, s, keyOf, keys[1..]);
      if keyOf(x) == keys[0] {
        assert keyOf(x) !in keys[1..];
      }
    }
  }

  /** When every key belongs to a list of distinct keys, the per-key counts
      add up to the length: the groups partition the sequence. */
  lemma {:induction false} CountKeysPartition<T>(s: seq<T>, keyOf: T -> string, keys: seq<string>)
    requires forall i, j :: 0 <= i < j < |keys| ==> keys[i] != keys[j]
    requires forall i :: 0 <= i < |s| ==> keyOf(s[i]) in keys
    ensures SumCountKeys(s, keyOf, keys) == |s|
    decreases |s|
  {
    if s == [] {
      ZeroCounts(keyOf, keys);
    } else {
      CountKeysPartition(s[1..], keyOf, keys);
      SumCountKeysCons(s[0], s[1..], keyOf, keys);
      assert [s[0]] + s[1..] == s;
    }
  }

  lemma {:induction false} ZeroCounts<T>(keyOf: T -> string, keys: seq<string>)
    ensures SumCountKeys([], keyOf, keys) == 0
    decreases |keys|
  {
    if keys != [] {
      ZeroCounts(keyOf, keys[1..]);
    }
  }

  lemma SumCountKeysTwo<T>(s: seq<T>, keyOf: T -> string, a: string, b: string)
    ensures SumCountKeys(s, keyOf, [a, b]) == CountKey(s, keyOf, a) + CountKey(s, keyOf, b)
  {
    assert [a, b][1..] == [b];
    assert [b][1..] == [];
    assert SumCountKeys(s, keyOf, [b]) == CountKey(s, keyOf, b) + SumCountKeys(s, keyOf, []);
  }

  lemma SumCountKeysThree<T>(s: seq<T>, keyOf: T -> string, a: string, b: string, c: string)
    ensures SumCountKeys(s, keyOf, [a, b, c]) == CountKey(s, keyOf, a) + CountKey(s, keyOf, b) + CountKey(s, keyOf, c)
  {
    assert [a, b, c][1..] == [b, c];
    SumCountKeysTwo(s, keyOf, b, c);
  }

  lemma SumCountKeysFour<T>(s: seq<T>, keyOf: T -> string, a: string, b: string, c: string, d: string)
    ensures SumCountKeys(s, keyOf, [a, b, c, d])
            == CountKey(s, keyOf, a) + CountKey(s, keyOf, b) + CountKey(s, keyOf, c) + CountKey(s, keyOf, d)
  {
    assert [a, b, c, d][1..] == [b, c, d];
    SumCountKeysThree(s, keyOf, b, c, d);
  }

  lemma SumCountKeysFive<T>(s: seq<T>, keyOf: T -> string, a: string, b: string, c: string, d: string, e: string)
    ensures SumCountKeys(s, keyOf, [a, b, c, d, e])
            == CountKey(s, keyOf, a) + CountKey(s, keyOf, b) + CountKey(s, keyOf, c)
               + CountKey(s, keyOf, d) + CountKey(s, keyOf, e)
  {
    assert [a, b, c, d, e][1..] == [b, c, d, e];
    SumCountKeysFour(s, keyOf, b, c, d, e);
  }

  /** `CountKey` agrees with a `filter` on the key. */
  lemma {:induction false} CountKeyIsFilter<T(!new)>(s: seq<T>, keyOf: T -> string, k: string, p: T -> bool)
    requires forall x :: p(x) == (keyOf(x) == k)
    ensures CountKey(s, keyOf, k) == CountWhere(s, p)
    decreases |s|
  {
    if s != [] {
      CountKeyIsFilter(s[1..], keyOf, k, p);
    }
  }

  /** `s.reduce((sum, x) => sum + f(x), 0)`. */
  function SumOf<T>(s: seq<T>, f: T -> real): real {
    if s == [] then 0.0 else f(s[0]) + SumOf(s[1..], f)
  }

  lemma {:induction false} SumOfAppend<T>(a: seq<T>, b: seq<T>, f: T -> real)
    ensures SumOf(a + b, f) == SumOf(a, f) + SumOf(b, f)
    decreases |a|
  {
    if a != [] {
      assert (a + b)[0] == a[0] && (a + b)[1..] == a[1..] + b;
      SumOfAppend(a[1..], b, f);
    } else {
      assert a + b == b;
    }
  }

  /** Non-negative terms give a non-negative sum. */
  lemma {:induction false} SumOfNonNegative<T>(s: seq<T>, f: T -> real)
    requires forall i :: 0 <= i < |s| ==> f(s[i]) >= 0.0
    ensures SumOf(s, f) >= 0.0
    decreases |s|
  {
    if s != [] {
      SumOfNonNegative(s[1..], f);
    }
  }

  /** With non-negative terms, summing over a filtered part gives no more. */
  lemma {:induction false} SumOfFilterBound<T(!new)>(s: seq<T>, p: T -> bool, f: T -> real)
    requires forall i :: 0 <= i < |s| ==> f(s[i]) >= 0.0
    ensures SumOf(Filter(s, p), f) <= SumOf(s, f)
    decreases |s|
  {
    if s != [] {
      SumOfFilterBound(s[1..], p, f);
      SumOfAppend(if p(s[0]) then [s[0]] else [], Filter(s[1..], p), f);
    }
  }

  /** With non-negative terms, a filter that keeps fewer elements sums to no more. */
  lemma {:induction false} SumOfFilterSubset<T(!new)>(s: seq<T>, p: T -> bool, q: T -> bool, f: T -> real)
    requires forall x :: q(x) ==> p(x)
    requires forall i :: 0 <= i < |s| ==> f(s[i]) >= 0.0
    ensures SumOf(Filter(s, q), f) <= SumOf(Filter(s, p), f)
    decreases |s|
  {
    if s != [] {
      SumOfFilterSubset(s[1..], p, q, f);
      SumOfAppend(if q(s[0]) then [s[0]] else [], Filter(s[1..], q), f);
      SumOfAppend(if p(s[0]) then [s[0]] else [], Filter(s[1..], p), f);
    }
  }

  /** A filtered sum of non-negative terms lies between 0 and the full sum. */
  lemma SumOfFilterWithin<T(!new)>(s: seq<T>, p: T -> bool, f: T -> real)
    requires forall i :: 0 <= i < |s| ==> f(s[i]) >= 0.0
    ensures 0.0 <= SumOf(Filter(s, p), f) <= SumOf(s, f)
  {
    SumOfFilterBound(s, p, f);
    var r := Filter(s, p);
    assert forall i :: 0 <= i < |r| ==> r[i] in s;
    SumOfNonNegative(r, f);
  }

  /** `s.find(p)`: the first element satisfying p. */
  function Find<T>(s: seq<T>, p: T -> bool): (r: Option<T>)
    ensures r.Some? ==> r.value in s && p(r.value)
    ensures r.None? ==> forall i :: 0 <= i < |s| ==> !p(s[i])
  {
    if s == [] then None else if p(s[0]) then Some(s[0]) else Find(s[1..], p)
  }

  // ---------------------------------------------------------------------------
  // Stable sort by a numeric key
  // ---------------------------------------------------------------------------

  predicate SortedBy<T>(s: seq<T>, key: T -> real) {
    forall i, j :: 0 <= i < j < |s| ==> key(s[i]) <= key(s[j])
  }

  /** Inserts x after every element whose key is not greater than its own. */
  function InsertBy<T>(x: T, s: seq<T>, key: T -> real): (r: seq<T>)
    ensures |r| == |s| + 1
  {
    if s == [] then [x]
    else if key(x) < key(s[0]) then [x] + s
    else [s[0]] + InsertBy(x, s[1..], key)
  }

  /** Insertion adds exactly the inserted element. */
  lemma {:induction false} InsertByPermutes<T>(x: T, s: seq<T>, key: T -> real)
    ensures multiset(InsertBy(x, s, key)) == multiset(s) + multiset{x}
    decreases |s|
  {
    if s != [] && key(x) >= key(s[0]) {
      InsertByPermutes(x, s[1..], key);
      assert s == [s[0]] + s[1..];
    }
  }

  lemma {:induction false} InsertBySorted<T>(x: T, s: seq<T>, key: T -> real)
    requires SortedBy(s, key)
    ensures SortedBy(InsertBy(x, s, key), key)
    decreases |s|
  {
    if s != [] && key(x) >= key(s[0]) {
      InsertBySorted(x, s[1..], key);
      InsertByPermutes(x, s[1..], key);
      var r := InsertBy(x, s[1..], key);
      forall k | 0 <= k < |r|
        ensures key(s[0]) <= key(r[k])
      {
        assert r[k] in multiset(s[1..]) + multiset{x};
        if r[k] in multiset(s[1..]) {
          var j :| 0 <= j < |s[1..]| && s[1..][j] == r[k];
          assert s[j + 1] == r[k];
        }
      }
    }
  }

  /** The comparator sort `(a, b) => key(a) - key(b)`: insertion sort, which
      keeps equal keys in their original order. */
  function SortBy<T>(s: seq<T>, key: T -> real): (r: seq<T>)
    decreases |s|
  {
    if s == [] then [] else InsertBy(s[|s| - 1], SortBy(s[..|s| - 1], key), key)
  }

  /** The result is ordered by the key and is a permutation of the input. */
  lemma SortByCorrect<T>(s: seq<T>, key: T -> real)
    ensures SortedBy(SortBy(s, key), key)
    ensures multiset(SortBy(s, key)) == multiset(s)
  {
    SortBySorted(s, key);
    SortByPermutes(s, key);
  }

  lemma {:induction false} SortBySorted<T>(s: seq<T>, key: T -> real)
    ensures SortedBy(SortBy(s, key), key)
    decreases |s|
  {
    if s != [] {
      var init := s[..|s| - 1];
      SortBySorted(init, key);
      InsertBySorted(s[|s| - 1], SortBy(init, key), key);
    }
  }

  lemma {:induction false} SortByPermutes<T>(s: seq<T>, key: T -> real)
    ensures multiset(SortBy(s, key)) == multiset(s)
    decreases |s|
  {
    if s != [] {
      var init, last := s[..|s| - 1], s[|s| - 1];
      SortByPermutes(init, key);
      InsertByPermutes(last, SortBy(init, key), key);
      assert init + [last] == s;
    }
  }

  /** The elements whose key is v. */
  function KeyIs<T>(key: T -> real, v: real): T -> bool {
    (y: T) => key(y) == v
  }

  /** Filtering a one-element list. */
  lemma FilterSingleton<T(!new)>(x: T, p: T -> bool)
    ensures Filter([x], p) == if p(x) then [x] else []
  {
    assert [x][1..] == [];
  }

  /** The tail of an ordered list is ordered. */
  lemma SortedTail<T>(s: seq<T>, key: T -> real)
    requires SortedBy(s, key) && s != []
    ensures SortedBy(s[1..], key)
  {
    forall i, j | 0 <= i < j < |s| - 1
      ensures key(s[1..][i]) <= key(s[1..][j])
    {
      assert s[1..][i] == s[i + 1] && s[1..][j] == s[j + 1];
    }
  }

  /** In an ordered list no element has a key below the first one's. */
  lemma {:induction false} NoKeyBelowFirst<T(!new)>(s: seq<T>, key: T -> real, v: real)
    requires SortedBy(s, key) && s != [] && v < key(s[0])
    ensures Filter(s, KeyIs(key, v)) == []
    decreases |s|
  {
    if |s| > 1 {
      assert key(s[0]) <= key(s[1]);
      SortedTail(s, key);
      NoKeyBelowFirst(s[1..], key, v);
    } else {
      assert s[1..] == [];
    }
  }

  /** Inserting into an ordered list puts x after every element of equal key. */
  lemma {:induction false} InsertByStable<T(!new)>(x: T, s: seq<T>, key: T -> real, v: real)
    requires SortedBy(s, key)
    ensures Filter(InsertBy(x, s, key), KeyIs(key, v)) == Filter(s, KeyIs(key, v)) + (if key(x) == v then [x] else [])
    decreases |s|
  {
    var p := KeyIs(key, v);
    FilterSingleton(x, p);
    if s == [] {
    } else if key(x) < key(s[0]) {
      FilterAppend([x], s, p);
      if key(x) == v {
        NoKeyBelowFirst(s, key, v);
      }
    } else {
      InsertByStableStep(x, s, key, v);
    }
  }

  /** The step of InsertByStable where x goes past the first element. */
  lemma {:induction false} InsertByStableStep<T(!new)>(x: T, s: seq<T>, key: T -> real, v: real)
    requires SortedBy(s, key) && s != [] && key(x) >= key(s[0])
    ensures Filter(InsertBy(x, s, key), KeyIs(key, v)) == Filter(s, KeyIs(key, v)) + (if key(x) == v then [x] else [])
    decreases |s|, 0
  {
    var p := KeyIs(key, v);
    var rest := InsertBy(x, s[1..], key);
    var tail: seq<T> := if key(x) == v then [x] else [];
    SortedTail(s, key);
    calc {
      Filter(InsertBy(x, s, key), p);
      { assert InsertBy(x, s, key) == [s[0]] + rest; }
      Filter([s[0]] + rest, p);
      { FilterAppend([s[0]], rest, p); }
      Filter([s[0]], p) + Filter(rest, p);
      { InsertByStable(x, s[1..], key, v); }
      Filter([s[0]], p) + (Filter(s[1..], p) + tail);
      (Filter([s[0]], p) + Filter(s[1..], p)) + tail;
      { FilterAppend([s[0]], s[1..], p); assert [s[0]] + s[1..] == s; }
      Filter(s, p) + tail;
    }
  }

  /** The sort is stable: for every key, the elements with that key come out
      in the order they went in. */
  lemma {:induction false} SortByStable<T(!new)>(s: seq<T>, key: T -> real, v: real)
    ensures Filter(SortBy(s, key), KeyIs(key, v)) == Filter(s, KeyIs(key, v))
    decreases |s|
  {
    if s != [] {
      var init, last := s[..|s| - 1], s[|s| - 1];
      var p := KeyIs(key, v);
      var sorted := SortBy(init, key);
      assert SortBy(s, key) == InsertBy(last, sorted, key);
      SortByStable(init, key, v);
      SortBySorted(init, key);
      InsertByStable(last, sorted, key, v);
      assert Filter(s, p) == Filter(init, p) + Filter([last], p) by {
        assert init + [last] == s;
        FilterAppend(init, [last], p);
      }
      FilterSingleton(last, p);
    }
  }

  /** A comparator that always answers 0 leaves the order as it is. */
  lemma {:induction false} SortByConstantKey<T>(s: seq<T>, key: T -> real)
    requires forall x :: key(x) == 0.0
    ensures SortBy(s, key) == s
    decreases |s|
  {
    if s != [] {
      var init := s[..|s| - 1];
      SortByConstantKey(init, key);
      InsertAtEnd(s[|s| - 1], init, key);
      assert init + [s[|s| - 1]] == s;
    }
  }

  lemma {:induction false} InsertAtEnd<T>(x: T, s: seq<T>, key: T -> real)
    requires forall y :: key(y) == 0.0
    ensures InsertBy(x, s, key) == s + [x]
    decreases |s|
  {
    if s != [] {
      InsertAtEnd(x, s[1..], key);
      assert [s[0]] + (s[1..] + [x]) == s + [x];
    }
  }
}
