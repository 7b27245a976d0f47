/** The sequence idioms the dashboard components share: `filter`, `reduce` to a sum,
    `find`/`findIndex`, grouping by a key into a record, `Object.entries`, `sort` and
    `slice`. Each is defined once here. Every fold runs left to right, as JavaScript's
    `reduce` and `forEach` do, so it is defined by recursion on the LAST element; a loop
    over a prefix `s[..i]` then lines up with it directly. */
module Folds {
  import opened Options

  // ------------------------------------------------------------------
  // Sums: s.reduce((sum, x) => sum + f(x), 0)
  // ------------------------------------------------------------------

  function Sum<T>(s: seq<T>, f: T -> real): real
  {
    if |s| == 0 then 0.0 else Sum(s[..|s| - 1], f) + f(s[|s| - 1])
  }

  lemma {:induction false} SumAppend<T>(a: seq<T>, b: seq<T>, f: T -> real)
    ensures Sum(a + b, f) == Sum(a, f) + Sum(b, f)
    decreases |b|
  {
    if |b| == 0 {
      assert a + b == a;
    } else {
      assert (a + b)[..|a + b| - 1] == a + b[..|b| - 1];
      SumAppend(a, b[..|b| - 1], f);
    }
  }

  lemma SumSingleton<T>(x: T, f: T -> real)
    ensures Sum([x], f) == f(x)
  {
    assert [x][..0] == [];
  }

  lemma SumCons<T>(x: T, s: seq<T>, f: T -> real)
    ensures Sum([x] + s, f) == f(x) + Sum(s, f)
  {
    SumAppend([x], s, f);
    SumSingleton(x, f);
  }

  /** A prefix one element longer adds that element's term. */
  lemma SumPrefixStep<T>(s: seq<T>, k: nat, f: T -> real)
    requires 0 < k <= |s|
    ensures Sum(s[..k], f) == Sum(s[..k - 1], f) + f(s[k - 1])
  {
    assert s[..k][..k - 1] == s[..k - 1];
  }

  /** With non-negative terms, a longer prefix never sums to less. */
  lemma {:induction false} SumPrefixMonotone<T>(s: seq<T>, i: nat, j: nat, f: T -> real)
    requires i <= j <= |s|
    requires forall x :: x in s ==> f(x) >= 0.0
    ensures Sum(s[..i], f) <= Sum(s[..j], f)
    decreases j
  {
    if i < j {
      SumPrefixMonotone(s, i, j - 1, f);
      SumPrefixStep(s, j, f);
      assert s[j - 1] in s;
    }
  }

  /** Replacing one element changes the sum by the difference of its terms. */
  lemma {:induction false} SumUpdate<T>(s: seq<T>, i: nat, x: T, f: T -> real)
    requires i < |s|
    ensures Sum(s[i := x], f) == Sum(s, f) - f(s[i]) + f(x)
  {
    var init := s[..|s| - 1];
    var u := s[i := x];
    if i == |s| - 1 {
      assert u[..|u| - 1] == init;
    } else {
      assert u[..|u| - 1] == init[i := x];
      SumUpdate(init, i, x, f);
    }
  }

  /** A sum of non-negative terms is non-negative. */
  lemma {:induction false} SumNonNegative<T>(s: seq<T>, f: T -> real)
    requires forall x :: x in s ==> f(x) >= 0.0
    ensures Sum(s, f) >= 0.0
  {
    if |s| > 0 {
      SumNonNegative(s[..|s| - 1], f);
    }
  }

  /** A sum of non-negative terms is positive exactly when some term is. */
  lemma {:induction false} SumPositive<T>(s: seq<T>, f: T -> real)
    requires forall x :: x in s ==> f(x) >= 0.0
    ensures Sum(s, f) > 0.0 <==> exists x :: x in s && f(x) > 0.0
  {
    if |s| > 0 {
      var init, last := s[..|s| - 1], s[|s| - 1];
      assert s == init + [last];
      SumPositive(init, f);
      SumNonNegative(init, f);
      if Sum(s, f) > 0.0 && Sum(init, f) <= 0.0 {
        assert f(last) > 0.0;
      }
    }
  }

  /** Two measures that agree on every element give the same sum. */
  lemma {:induction false} SumExt<T>(s: seq<T>, f: T -> real, g: T -> real)
    requires forall x :: x in s ==> f(x) == g(x)
    ensures Sum(s, f) == Sum(s, g)
  {
    if |s| > 0 {
      SumExt(s[..|s| - 1], f, g);
    }
  }

  // ------------------------------------------------------------------
  // Filter: s.filter(p), order preserved
  // ------------------------------------------------------------------

  function Filter<T>(s: seq<T>, p: T -> bool): (r: seq<T>)
    ensures |r| <= |s|
  {
    if |s| == 0 then [] else Filter(s[..|s| - 1], p) + (if p(s[|s| - 1]) then [s[|s| - 1]] else [])
  }

  /** Filtering keeps exactly the elements that satisfy the predicate. */
  lemma {:induction false} FilterMembers<T>(s: seq<T>, p: T -> bool)
    ensures forall x :: x in Filter(s, p) <==> x in s && p(x)
  {
    if |s| > 0 {
      var init := s[..|s| - 1];
      FilterMembers(init, p);
      assert s == init + [s[|s| - 1]];
    }
  }

  /** Filtering keeps a sub-multiset of the input: nothing is added or duplicated. */
  lemma {:induction false} FilterSubMultiset<T>(s: seq<T>, p: T -> bool)
    ensures multiset(Filter(s, p)) <= multiset(s)
  {
    if |s| > 0 {
      var init := s[..|s| - 1];
      FilterSubMultiset(init, p);
      assert s == init + [s[|s| - 1]];
    }
  }

  lemma {:induction false} FilterAppend<T>(a: seq<T>, b: seq<T>, p: T -> bool)
    ensures Filter(a + b, p) == Filter(a, p) + Filter(b, p)
    decreases |b|
  {
    if |b| == 0 {
      assert a + b == a;
    } else {
      var init, last := b[..|b| - 1], b[|b| - 1];
      var tail := if p(last) then [last] else [];
      assert (a + b)[..|a + b| - 1] == a + init;
      assert (a + b)[|a + b| - 1] == last;
      FilterAppend(a, init, p);
      calc {
        Filter(a + b, p);
        Filter(a + init, p) + tail;
        Filter(a, p) + Filter(init, p) + tail;
        Filter(a, p) + (Filter(init, p) + tail);
        Filter(a, p) + Filter(b, p);
      }
    }
  }

  /** Filtering by two predicates that agree on s gives the same result. */
  lemma {:induction false} FilterExt<T>(s: seq<T>, p: T -> bool, q: T -> bool)
    requires forall x :: x in s ==> p(x) == q(x)
    ensures Filter(s, p) == Filter(s, q)
  {
    if |s| > 0 {
      FilterExt(s[..|s| - 1], p, q);
    }
  }

  /** `s.filter(p).filter(q)` is `s.filter(r)` for r the conjunction of p and q. */
  lemma {:induction false} FilterFilter<T>(s: seq<T>, p: T -> bool, q: T -> bool, r: T -> bool)
    requires forall x :: x in s ==> r(x) == (p(x) && q(x))
    ensures Filter(Filter(s, p), q) == Filter(s, r)
  {
    if |s| > 0 {
      var init, last := s[..|s| - 1], s[|s| - 1];
      var tailP := if p(last) then [last] else [];
      var tailR := if r(last) then [last] else [];
      assert s == init + [last];
      assert forall x :: x in init ==> x in s;
      assert r(last) == (p(last) && q(last));
      FilterFilter(init, p, q, r);
      FilterAppend(Filter(init, p), tailP, q);
      assert Filter(tailP, q) == tailR by {
        if p(last) {
          assert [last][..0] == [];
        }
      }
      calc {
        Filter(Filter(s, p), q);
        Filter(Filter(init, p) + tailP, q);
        Filter(Filter(init, p), q) + Filter(tailP, q);
        Filter(init, r) + tailR;
        Filter(s, r);
      }
    }
  }

  /** A filter that every element passes keeps the whole sequence. */
  lemma {:induction false} FilterKeepsAll<T>(s: seq<T>, p: T -> bool)
    requires forall x :: x in s ==> p(x)
    ensures Filter(s, p) == s
  {
    if |s| > 0 {
      var init := s[..|s| - 1];
      assert s == init + [s[|s| - 1]];
      assert forall x :: x in init ==> x in s;
      FilterKeepsAll(init, p);
    }
  }

  /** Appending one element adds its value to a filtered sum when it passes. */
  lemma SumFilterSnoc<T>(s: seq<T>, x: T, p: T -> bool, f: T -> real)
    ensures Sum(Filter(s + [x], p), f) == Sum(Filter(s, p), f) + (if p(x) then f(x) else 0.0)
  {
    var sx := s + [x];
    assert sx[..|sx| - 1] == s;
    var tail := if p(x) then [x] else [];
    assert Filter(sx, p) == Filter(s, p) + tail;
    SumAppend(Filter(s, p), tail, f);
  }

  /** A filter that no element passes is empty. */
  lemma {:induction false} FilterKeepsNone<T>(s: seq<T>, p: T -> bool)
    requires forall x :: x in s ==> !p(x)
    ensures Filter(s, p) == []
  {
    if |s| > 0 {
      var init := s[..|s| - 1];
      assert s == init + [s[|s| - 1]];
      assert forall x :: x in init ==> x in s;
      FilterKeepsNone(init, p);
    }
  }

  /** Splitting a filter into two disjoint filters splits its sum. */
  lemma {:induction false} SumFilterSplit<T>(s: seq<T>, p: T -> bool, q1: T -> bool, q2: T -> bool, f: T -> real)
    requires forall x :: x in s ==> (p(x) <==> q1(x) || q2(x))
    requires forall x :: x in s ==> !(q1(x) && q2(x))
    ensures Sum(Filter(s, p), f) == Sum(Filter(s, q1), f) + Sum(Filter(s, q2), f)
  {
    if |s| > 0 {
      var init, last := s[..|s| - 1], s[|s| - 1];
      SumFilterSplit(init, p, q1, q2, f);
      SumAppend(Filter(init, p), if p(last) then [last] else [], f);
      SumAppend(Filter(init, q1), if q1(last) then [last] else [], f);
      SumAppend(Filter(init, q2), if q2(last) then [last] else [], f);
      SumSingleton(last, f);
    }
  }

  /** With non-negative terms, a narrower filter never sums to more. */
  lemma {:induction false} SumFilterMono<T>(s: seq<T>, q: T -> bool, p: T -> bool, f: T -> real)
    requires forall x :: x in s ==> q(x) ==> p(x)
    requires forall x :: x in s ==> f(x) >= 0.0
    ensures Sum(Filter(s, q), f) <= Sum(Filter(s, p), f)
  {
    if |s| > 0 {
      var init, last := s[..|s| - 1], s[|s| - 1];
      SumFilterMono(init, q, p, f);
      SumAppend(Filter(init, p), if p(last) then [last] else [], f);
      SumAppend(Filter(init, q), if q(last) then [last] else [], f);
      SumSingleton(last, f);
    }
  }

  /** With non-negative terms, a filtered sum never exceeds the full sum. */
  lemma {:induction false} SumFilterAtMost<T>(s: seq<T>, p: T -> bool, f: T -> real)
    requires forall x :: x in s ==> f(x) >= 0.0
    ensures Sum(Filter(s, p), f) <= Sum(s, f)
  {
    if |s| > 0 {
      var init, last := s[..|s| - 1], s[|s| - 1];
      SumFilterAtMost(init, p, f);
      SumAppend(Filter(init, p), if p(last) then [last] else [], f);
      SumSingleton(last, f);
    }
  }

  /** Summing a measure that is zero outside p is summing over the filter by p. */
  lemma {:induction false} SumMasked<T>(s: seq<T>, p: T -> bool, f: T -> real, g: T -> real)
    requires forall x :: x in s ==> g(x) == (if p(x) then f(x) else 0.0)
    ensures Sum(s, g) == Sum(Filter(s, p), f)
  {
    if |s| > 0 {
      var init, last := s[..|s| - 1], s[|s| - 1];
      assert forall x :: x in init ==> x in s;
      SumMasked(init, p, f, g);
      SumAppend(Filter(init, p), if p(last) then [last] else [], f);
      SumSingleton(last, f);
    }
  }

  // ------------------------------------------------------------------
  // find / findIndex: the first element satisfying p
  // ------------------------------------------------------------------

  function FirstIndex<T>(s: seq<T>, p: T -> bool): (r: Option<nat>)
    ensures r.Some? ==> r.value < |s| && p(s[r.value])
    ensures r.Some? ==> forall j :: 0 <= j < r.value ==> !p(s[j])
    ensures r.None? <==> forall j :: 0 <= j < |s| ==> !p(s[j])
  {
    if |s| == 0 then None
    else if p(s[0]) then Some(0)
    else
      match FirstIndex(s[1..], p)
      case None => None
      case Some(i) => Some(i + 1)
  }

  /** When exactly one element satisfies p, find returns that element's index. */
  lemma FirstIndexOfOnly<T>(s: seq<T>, p: T -> bool, i: nat)
    requires i < |s| && p(s[i])
    requires forall j :: 0 <= j < |s| && j != i ==> !p(s[j])
    ensures FirstIndex(s, p) == Some(i)
  {
    var r := FirstIndex(s, p);
    assert r.Some?;
    assert !(r.value < i);
  }

  // ------------------------------------------------------------------
  // Grouping: s.reduce((acc, x) => { acc[key(x)] = (acc[key(x)] || 0) + f(x) }, {})
  // ------------------------------------------------------------------

  ghost predicate Distinct<K>(ks: seq<K>)
  {
    forall i, j :: 0 <= i < j < |ks| ==> ks[i] != ks[j]
  }

  ghost predicate DistinctBy<T, K>(s: seq<T>, g: T -> K)
  {
    forall i, j :: 0 <= i < j < |s| ==> g(s[i]) != g(s[j])
  }

  /** The distinct keys of s in order of first appearance: the insertion
      order of a record built by a left-to-right reduce, and the order of
      `Array.from(new Set(s.map(key)))`. */
  function KeysInOrder<T, K(==)>(s: seq<T>, key: T -> K): (r: seq<K>)
    ensures Distinct(r)
    ensures forall x :: x in s ==> key(x) in r
  {
    if |s| == 0 then []
    else
      var init, last := s[..|s| - 1], s[|s| - 1];
      assert s == init + [last];
      var ks := KeysInOrder(init, key);
      if key(last) in ks then ks else ks + [key(last)]
  }

  /** Every key listed is the key of some element. */
  lemma {:induction false} KeysInOrderSound<T, K>(s: seq<T>, key: T -> K)
    ensures forall k :: k in KeysInOrder(s, key) ==> exists x :: x in s && key(x) == k
  {
    if |s| > 0 {
      var init, last := s[..|s| - 1], s[|s| - 1];
      KeysInOrderSound(init, key);
      assert forall x :: x in init ==> x in s;
      assert last in s;
    }
  }

  /** The keys of a prefix of s are listed first, in the same order. */
  lemma {:induction false} KeysInOrderPrefix<T, K>(s: seq<T>, key: T -> K, a: nat)
    requires a <= |s|
    ensures KeysInOrder(s[..a], key) <= KeysInOrder(s, key)
    decreases |s| - a
  {
    if a == |s| {
      assert s[..a] == s;
    } else {
      KeysInOrderPrefix(s, key, a + 1);
      var p := s[..a + 1];
      assert p[..|p| - 1] == s[..a];
      var short, long := KeysInOrder(s[..a], key), KeysInOrder(s, key);
      assert short <= KeysInOrder(p, key);
      assert long[..|short|] == KeysInOrder(p, key)[..|short|];
    }
  }

  /** First-appearance order: when s[q] is the first element with its key,
      the key of any earlier element is listed before it. */
  lemma KeysInOrderFirstAppearance<T, K>(s: seq<T>, key: T -> K, p: nat, q: nat)
    requires p < q < |s|
    requires forall r :: 0 <= r < q ==> key(s[r]) != key(s[q])
    ensures exists i, j ::
      0 <= i < j < |KeysInOrder(s, key)| && KeysInOrder(s, key)[i] == key(s[p]) && KeysInOrder(s, key)[j] == key(s[q])
  {
    var before := KeysInOrder(s[..q], key);
    var upTo := s[..q + 1];
    assert upTo[..|upTo| - 1] == s[..q];
    assert s[p] in s[..q];
    KeysInOrderSound(s[..q], key);
    assert key(s[q]) !in before;
    KeysInOrderPrefix(s, key, q + 1);
    var ks := KeysInOrder(s, key);
    var i :| 0 <= i < |before| && before[i] == key(s[p]);
    assert KeysInOrder(upTo, key) == before + [key(s[q])];
    assert ks[i] == key(s[p]) && ks[|before|] == key(s[q]);
  }

  /** The set of keys of s. */
  ghost function KeySet<T, K>(s: seq<T>, key: T -> K): set<K>
  {
    set x | x in s :: key(x)
  }

  /** The number of keys listed is the number of distinct keys of s
      (`new Set(s.map(key)).size`). */
  lemma KeysInOrderCount<T, K>(s: seq<T>, key: T -> K)
    ensures |KeysInOrder(s, key)| == |KeySet(s, key)|
  {
    var ks := KeysInOrder(s, key);
    KeysInOrderSound(s, key);
    assert KeySet(s, key) == set k | k in ks;
    DistinctCard(ks);
  }

  /** A sequence without repetitions has as many elements as its set. */
  lemma {:induction false} DistinctCard<K>(ks: seq<K>)
    requires Distinct(ks)
    ensures |set k | k in ks| == |ks|
  {
    if |ks| > 0 {
      var init, last := ks[..|ks| - 1], ks[|ks| - 1];
      assert Distinct(init);
      DistinctCard(init);
      assert last !in init;
      assert (set k | k in ks) == (set k | k in init) + {last};
    }
  }

  /** Appending one element appends its key unless the key was already seen. */
  lemma KeysInOrderSnoc<T, K>(s: seq<T>, x: T, key: T -> K)
    ensures KeysInOrder(s + [x], key) == if key(x) in KeysInOrder(s, key) then KeysInOrder(s, key) else KeysInOrder(s, key) + [key(x)]
  {
    assert (s + [x])[..|s|] == s;
  }

  /** Reference definition: the sum of f over the elements whose key is k. */
  function GroupTotal<T, K(==)>(s: seq<T>, key: T -> K, k: K, f: T -> real): real
  {
    if |s| == 0 then 0.0
    else GroupTotal(s[..|s| - 1], key, k, f) + (if key(s[|s| - 1]) == k then f(s[|s| - 1]) else 0.0)
  }

  /** Appending one element adds its term to its own group only. */
  lemma GroupTotalSnoc<T, K>(s: seq<T>, x: T, key: T -> K, k: K, f: T -> real)
    ensures GroupTotal(s + [x], key, k, f) == GroupTotal(s, key, k, f) + (if key(x) == k then f(x) else 0.0)
  {
    assert (s + [x])[..|s|] == s;
  }

  /** A key that never occurs has total 0 (the source's `acc[k] || 0`). */
  lemma {:induction false} GroupTotalAbsent<T, K>(s: seq<T>, key: T -> K, k: K, f: T -> real)
    requires forall x :: x in s ==> key(x) != k
    ensures GroupTotal(s, key, k, f) == 0.0
  {
    if |s| > 0 {
      GroupTotalAbsent(s[..|s| - 1], key, k, f);
    }
  }

  /** With non-negative terms every group total is non-negative. */
  lemma {:induction false} GroupTotalNonNegative<T, K>(s: seq<T>, key: T -> K, k: K, f: T -> real)
    requires forall x :: x in s ==> f(x) >= 0.0
    ensures GroupTotal(s, key, k, f) >= 0.0
  {
    if |s| > 0 {
      GroupTotalNonNegative(s[..|s| - 1], key, k, f);
    }
  }

  /** The group total of k is the sum over the elements with key k. */
  lemma {:induction false} GroupTotalIsFilteredSum<T, K>(s: seq<T>, key: T -> K, k: K, f: T -> real, p: T -> bool)
    requires forall x :: x in s ==> p(x) == (key(x) == k)
    ensures GroupTotal(s, key, k, f) == Sum(Filter(s, p), f)
  {
    if |s| > 0 {
      var init, last := s[..|s| - 1], s[|s| - 1];
      GroupTotalIsFilteredSum(init, key, k, f, p);
      SumAppend(Filter(init, p), if p(last) then [last] else [], f);
      SumSingleton(last, f);
    }
  }

  /** The record built by the reduce: its keys are the keys of s, and the
      value at each key is that key's group total. */
  function GroupReduce<T, K(==)>(s: seq<T>, key: T -> K, f: T -> real): (m: map<K, real>)
    ensures forall k :: k in m ==> k in KeysInOrder(s, key)
    ensures forall k :: k in KeysInOrder(s, key) ==> k in m
    ensures forall k :: k in m ==> m[k] == GroupTotal(s, key, k, f)
  {
    if |s| == 0 then map[]
    else
      var init, last := s[..|s| - 1], s[|s| - 1];
      var m := GroupReduce(init, key, f);
      var k := key(last);
      assert k !in m ==> GroupTotal(init, key, k, f) == 0.0 by {
        if k !in m {
          GroupTotalAbsent(init, key, k, f);
        }
      }
      m[k := (if k in m then m[k] else 0.0) + f(last)]
  }

  // ------------------------------------------------------------------
  // Object.entries of a grouped record
  // ------------------------------------------------------------------

  datatype Entry<K> = Entry(key: K, amount: real)

  function Amount<K>(e: Entry<K>): real { e.amount }

  function EntryKey<K>(e: Entry<K>): K { e.key }

  /** `Object.entries(m)` for a record whose keys were inserted in the order ks. */
  function EntriesOf<K>(ks: seq<K>, m: map<K, real>): (r: seq<Entry<K>>)
    requires forall k :: k in ks ==> k in m
    ensures |r| == |ks|
    ensures forall i :: 0 <= i < |ks| ==> r[i] == Entry(ks[i], m[ks[i]])
  {
    if |ks| == 0 then []
    else EntriesOf(ks[..|ks| - 1], m) + [Entry(ks[|ks| - 1], m[ks[|ks| - 1]])]
  }

  /** `Object.entries` of the grouped record: one entry per distinct key, in
      first-appearance order, carrying that key's total. */
  function GroupEntries<T, K(==)>(s: seq<T>, key: T -> K, f: T -> real): (r: seq<Entry<K>>)
    ensures |r| == |KeysInOrder(s, key)|
    ensures forall i :: 0 <= i < |r| ==> r[i].key == KeysInOrder(s, key)[i]
    ensures forall i :: 0 <= i < |r| ==> r[i].amount == GroupTotal(s, key, r[i].key, f)
  {
    EntriesOf(KeysInOrder(s, key), GroupReduce(s, key, f))
  }

  /** Sum of the group totals of ks. */
  function SumGroups<T, K(==)>(ks: seq<K>, s: seq<T>, key: T -> K, f: T -> real): real
  {
    if |ks| == 0 then 0.0
    else SumGroups(ks[..|ks| - 1], s, key, f) + GroupTotal(s, key, ks[|ks| - 1], f)
  }

  lemma {:induction false} SumGroupsOfEmpty<T, K>(ks: seq<K>, key: T -> K, f: T -> real)
    ensures SumGroups(ks, [], key, f) == 0.0
  {
    if |ks| > 0 {
      SumGroupsOfEmpty(ks[..|ks| - 1], key, f);
    }
  }

  lemma {:induction false} SumGroupsSnoc<T, K>(ks: seq<K>, s: seq<T>, x: T, key: T -> K, f: T -> real)
    requires Distinct(ks)
    ensures SumGroups(ks, s + [x], key, f) == SumGroups(ks, s, key, f) + (if key(x) in ks then f(x) else 0.0)
  {
    assert (s + [x])[..|s + [x]| - 1] == s;
    if |ks| > 0 {
      var init := ks[..|ks| - 1];
      assert ks == init + [ks[|ks| - 1]];
      SumGroupsSnoc(init, s, x, key, f);
    }
  }

  /** Summing the group totals of keys that cover s gives the sum over s. */
  lemma {:induction false} SumGroupsCover<T, K>(ks: seq<K>, s: seq<T>, key: T -> K, f: T -> real)
    requires Distinct(ks)
    requires forall x :: x in s ==> key(x) in ks
    ensures SumGroups(ks, s, key, f) == Sum(s, f)
  {
    if |s| == 0 {
      SumGroupsOfEmpty(ks, key, f);
    } else {
      var init, last := s[..|s| - 1], s[|s| - 1];
      assert s == init + [last];
      SumGroupsCover(ks, init, key, f);
      SumGroupsSnoc(ks, init, last, key, f);
    }
  }

  /** A sum over keys of a measure that gives each key its group total is the
      sum of those group totals. */
  lemma {:induction false} SumOverKeys<T, K>(ks: seq<K>, h: K -> real, s: seq<T>, key: T -> K, f: T -> real)
    requires forall k :: k in ks ==> h(k) == GroupTotal(s, key, k, f)
    ensures Sum(ks, h) == SumGroups(ks, s, key, f)
  {
    if |ks| > 0 {
      var init := ks[..|ks| - 1];
      assert forall k :: k in init ==> k in ks;
      assert ks[|ks| - 1] in ks;
      SumOverKeys(init, h, s, key, f);
    }
  }

  lemma {:induction false} SumEntriesOf<T, K>(ks: seq<K>, s: seq<T>, key: T -> K, f: T -> real)
    requires forall k :: k in ks ==> k in GroupReduce(s, key, f)
    ensures Sum(EntriesOf(ks, GroupReduce(s, key, f)), Amount) == SumGroups(ks, s, key, f)
  {
    if |ks| > 0 {
      var m := GroupReduce(s, key, f);
      var init := ks[..|ks| - 1];
      SumEntriesOf(init, s, key, f);
      var es := EntriesOf(ks, m);
      assert es[..|es| - 1] == EntriesOf(init, m);
    }
  }

  /** The entries of a grouping sum to the ungrouped total: nothing is lost
      or counted twice. */
  lemma GroupEntriesSum<T, K>(s: seq<T>, key: T -> K, f: T -> real)
    ensures Sum(GroupEntries(s, key, f), Amount) == Sum(s, f)
  {
    var ks := KeysInOrder(s, key);
    SumEntriesOf(ks, s, key, f);
    SumGroupsCover(ks, s, key, f);
  }

  /** Each key has exactly one entry. */
  lemma GroupEntriesDistinct<T, K>(s: seq<T>, key: T -> K, f: T -> real)
    ensures DistinctBy(GroupEntries(s, key, f), EntryKey)
  {
    var es, ks := GroupEntries(s, key, f), KeysInOrder(s, key);
    forall i, j | 0 <= i < j < |es| ensures EntryKey(es[i]) != EntryKey(es[j]) {
      assert es[i].key == ks[i] && es[j].key == ks[j];
    }
  }

  // ------------------------------------------------------------------
  // sort((a, b) => key(b) - key(a)): stable, non-increasing
  // ------------------------------------------------------------------

  ghost predicate SortedDesc<T>(s: seq<T>, key: T -> real)
  {
    forall i, j :: 0 <= i < j < |s| ==> key(s[i]) >= key(s[j])
  }

  /** Inserts x before the first element whose key does not exceed x's, so
      that x stays ahead of the equal keys that came after it in the input. */
  function InsertBy<T>(x: T, s: seq<T>, key: T -> real): (r: seq<T>)
    ensures |r| == |s| + 1
    ensures multiset(r) == multiset(s) + multiset{x}
  {
    if |s| == 0 || key(s[0]) <= key(x) then [x] + s
    else
      assert s == [s[0]] + s[1..];
      [s[0]] + InsertBy(x, s[1..], key)
  }

  lemma {:induction false} InsertBySorted<T>(x: T, s: seq<T>, key: T -> real)
    requires SortedDesc(s, key)
    ensures SortedDesc(InsertBy(x, s, key), key)
    decreases |s|
  {
    var r := InsertBy(x, s, key);
    if |s| == 0 || key(s[0]) <= key(x) {
      assert forall j :: 0 <= j < |s| ==> key(x) >= key(s[j]) by {
        if |s| > 0 {
          forall j | 0 < j < |s| ensures key(s[0]) >= key(s[j]) {
          }
        }
      }
      SortedCons(x, s, key);
    } else {
      var t := InsertBy(x, s[1..], key);
      assert SortedDesc(s[1..], key) by {
        forall i, j | 0 <= i < j < |s[1..]| ensures key(s[1..][i]) >= key(s[1..][j]) {
          assert s[1..][i] == s[i + 1] && s[1..][j] == s[j + 1];
        }
      }
      InsertBySorted(x, s[1..], key);
      forall j | 0 <= j < |t| ensures key(s[0]) >= key(t[j]) {
        assert t[j] in multiset(t);
        if t[j] != x {
          assert t[j] in multiset(s[1..]);
          var k :| 0 <= k < |s[1..]| && s[1..][k] == t[j];
          assert s[k + 1] == t[j];
        }
      }
      SortedCons(s[0], t, key);
    }
  }

  /** A sorted sequence stays sorted behind a head no smaller than all of it. */
  lemma SortedCons<T>(h: T, t: seq<T>, key: T -> real)
    requires SortedDesc(t, key)
    requires forall j :: 0 <= j < |t| ==> key(h) >= key(t[j])
    ensures SortedDesc([h] + t, key)
  {
    var r := [h] + t;
    forall i, j | 0 <= i < j < |r| ensures key(r[i]) >= key(r[j]) {
      assert r[j] == t[j - 1];
      if i > 0 {
        assert r[i] == t[i - 1];
      }
    }
  }

  /** Insertion sort, non-increasing by key: a permutation of s that is sorted. */
  function SortBy<T>(s: seq<T>, key: T -> real): (r: seq<T>)
    ensures |r| == |s|
    ensures multiset(r) == multiset(s)
    ensures SortedDesc(r, key)
  {
    if |s| == 0 then []
    else
      var rest := SortBy(s[1..], key);
      InsertBySorted(s[0], rest, key);
      assert s == [s[0]] + s[1..];
      InsertBy(s[0], rest, key)
  }

  lemma SortByMembers<T>(s: seq<T>, key: T -> real)
    ensures forall x :: x in SortBy(s, key) <==> x in s
  {
    var r := SortBy(s, key);
    forall x ensures x in r <==> x in s {
      assert x in r <==> x in multiset(r);
      assert x in s <==> x in multiset(s);
    }
  }

  /** The first element of the sorted sequence has the largest key. */
  lemma SortByHeadIsMax<T>(s: seq<T>, key: T -> real)
    requires |s| > 0
    ensures forall x :: x in s ==> key(x) <= key(SortBy(s, key)[0])
  {
    var r := SortBy(s, key);
    SortByMembers(s, key);
    forall x | x in s ensures key(x) <= key(r[0]) {
      assert x in r;
      var i :| 0 <= i < |r| && r[i] == x;
      if i > 0 {
        assert key(r[0]) >= key(r[i]);
      }
    }
  }

  lemma {:induction false} InsertBySum<T>(x: T, s: seq<T>, key: T -> real, f: T -> real)
    ensures Sum(InsertBy(x, s, key), f) == f(x) + Sum(s, f)
    decreases |s|
  {
    if |s| == 0 || key(s[0]) <= key(x) {
      SumCons(x, s, f);
    } else {
      InsertBySum(x, s[1..], key, f);
      SumCons(s[0], InsertBy(x, s[1..], key), f);
      SumCons(s[0], s[1..], f);
      assert s == [s[0]] + s[1..];
    }
  }

  /** Sorting does not change a sum. */
  lemma {:induction false} SortBySum<T>(s: seq<T>, key: T -> real, f: T -> real)
    ensures Sum(SortBy(s, key), f) == Sum(s, f)
    decreases |s|
  {
    if |s| > 0 {
      SortBySum(s[1..], key, f);
      InsertBySum(s[0], SortBy(s[1..], key), key, f);
      SumCons(s[0], s[1..], f);
      assert s == [s[0]] + s[1..];
    }
  }

  lemma {:induction false} InsertByDistinct<T, K>(x: T, s: seq<T>, key: T -> real, g: T -> K)
    requires DistinctBy(s, g)
    requires forall y :: y in s ==> g(y) != g(x)
    ensures DistinctBy(InsertBy(x, s, key), g)
    decreases |s|
  {
    var r := InsertBy(x, s, key);
    if |s| == 0 || key(s[0]) <= key(x) {
      assert r == [x] + s;
      forall i, j | 0 <= i < j < |r| ensures g(r[i]) != g(r[j]) {
        assert r[j] == s[j - 1];
        if i > 0 {
          assert r[i] == s[i - 1];
        }
      }
    } else {
      var t := InsertBy(x, s[1..], key);
      assert DistinctBy(s[1..], g) by {
        forall i, j | 0 <= i < j < |s[1..]| ensures g(s[1..][i]) != g(s[1..][j]) {
          assert s[1..][i] == s[i + 1] && s[1..][j] == s[j + 1];
        }
      }
      InsertByDistinct(x, s[1..], key, g);
      assert r == [s[0]] + t;
      forall j | 0 <= j < |t| ensures g(s[0]) != g(t[j]) {
        assert t[j] in multiset(t);
        if t[j] != x {
          assert t[j] in multiset(s[1..]);
          var k :| 0 <= k < |s[1..]| && s[1..][k] == t[j];
          assert s[k + 1] == t[j];
        }
      }
      forall i, j | 0 <= i < j < |r| ensures g(r[i]) != g(r[j]) {
        assert r[j] == t[j - 1];
        if i > 0 {
          assert r[i] == t[i - 1];
        }
      }
    }
  }

  /** Sorting keeps a "no two elements share g" property. */
  lemma {:induction false} SortByDistinct<T, K>(s: seq<T>, key: T -> real, g: T -> K)
    requires DistinctBy(s, g)
    ensures DistinctBy(SortBy(s, key), g)
    decreases |s|
  {
    if |s| > 0 {
      assert DistinctBy(s[1..], g) by {
        forall i, j | 0 <= i < j < |s[1..]| ensures g(s[1..][i]) != g(s[1..][j]) {
          assert s[1..][i] == s[i + 1] && s[1..][j] == s[j + 1];
        }
      }
      SortByDistinct(s[1..], key, g);
      var rest := SortBy(s[1..], key);
      SortByMembers(s[1..], key);
      forall y | y in rest ensures g(y) != g(s[0]) {
        assert y in multiset(rest);
        assert y in multiset(s[1..]);
        var k :| 0 <= k < |s[1..]| && s[1..][k] == y;
        assert s[k + 1] == y;
      }
      InsertByDistinct(s[0], rest, key, g);
    }
  }

  // ------------------------------------------------------------------
  // The entries of a grouping, and its largest group
  // ------------------------------------------------------------------

  /** The entries are exactly the pairs (k, total of k) for the keys k of s. */
  lemma GroupEntriesMembers<T, K>(s: seq<T>, key: T -> K, f: T -> real)
    ensures forall e :: e in GroupEntries(s, key, f) ==>
      (exists x :: x in s && key(x) == e.key) && e.amount == GroupTotal(s, key, e.key, f)
    ensures forall x :: x in s ==> Entry(key(x), GroupTotal(s, key, key(x), f)) in GroupEntries(s, key, f)
  {
    var r := GroupEntries(s, key, f);
    var ks := KeysInOrder(s, key);
    KeysInOrderSound(s, key);
    forall e | e in r
      ensures (exists x :: x in s && key(x) == e.key) && e.amount == GroupTotal(s, key, e.key, f)
    {
      var i :| 0 <= i < |r| && r[i] == e;
      assert ks[i] in ks;
    }
    forall x | x in s ensures Entry(key(x), GroupTotal(s, key, key(x), f)) in r {
      var i :| 0 <= i < |ks| && ks[i] == key(x);
      assert r[i] == Entry(key(x), GroupTotal(s, key, key(x), f));
    }
  }

  /** There are no groups exactly when there is nothing to group. */
  lemma GroupEntriesEmpty<T, K>(s: seq<T>, key: T -> K, f: T -> real)
    ensures |GroupEntries(s, key, f)| == 0 <==> |s| == 0
  {
    if |s| > 0 {
      assert key(s[0]) in KeysInOrder(s, key);
    }
  }

  /** After sorting the entries by amount, the first one is a key of s whose
      total is at least every other key's total. */
  lemma TopGroup<T, K>(s: seq<T>, key: T -> K, f: T -> real) returns (top: Entry<K>)
    requires |s| > 0
    ensures |SortBy(GroupEntries(s, key, f), Amount)| > 0 && top == SortBy(GroupEntries(s, key, f), Amount)[0]
    ensures exists x :: x in s && key(x) == top.key
    ensures top.amount == GroupTotal(s, key, top.key, f)
    ensures forall x :: x in s ==> GroupTotal(s, key, key(x), f) <= top.amount
  {
    var g := GroupEntries(s, key, f);
    var r := SortBy(g, Amount);
    GroupEntriesEmpty(s, key, f);
    top := r[0];
    TopGroupFacts(s, key, f, g, r);
  }

  lemma TopGroupFacts<T, K>(s: seq<T>, key: T -> K, f: T -> real, g: seq<Entry<K>>, r: seq<Entry<K>>)
    requires g == GroupEntries(s, key, f)
    requires |r| > 0 && multiset(r) == multiset(g) && SortedDesc(r, Amount)
    ensures exists x :: x in s && key(x) == r[0].key
    ensures r[0].amount == GroupTotal(s, key, r[0].key, f)
    ensures forall x :: x in s ==> GroupTotal(s, key, key(x), f) <= r[0].amount
  {
    assert r[0] in multiset(g);
    GroupEntriesMembers(s, key, f);
    forall x | x in s ensures GroupTotal(s, key, key(x), f) <= r[0].amount {
      var e := Entry(key(x), GroupTotal(s, key, key(x), f));
      assert e in multiset(r);
      var i :| 0 <= i < |r| && r[i] == e;
      if i > 0 {
        assert Amount(r[0]) >= Amount(r[i]);
      }
    }
  }

  // ------------------------------------------------------------------
  // palette[index % palette.length]
  // ------------------------------------------------------------------

  /** The palette entry of the item at the given index, cycling through the
      palette. */
  function Cycle<T>(palette: seq<T>, index: nat): (r: T)
    requires |palette| > 0
    ensures r in palette
  {
    palette[index % |palette|]
  }

  /** The first |palette| items take the palette in order, and every item
      after them repeats the colour of the item |palette| places before. */
  lemma CycleRepeats<T>(palette: seq<T>, index: nat)
    requires |palette| > 0
    ensures index < |palette| ==> Cycle(palette, index) == palette[index]
    ensures Cycle(palette, index + |palette|) == Cycle(palette, index)
  {
    var n := |palette|;
    ModUnique(index + n, n, index / n + 1, index % n);
    if index < n {
      ModUnique(index, n, 0, index);
    }
  }

  /** The remainder is the unique r in 0..n-1 with a == q * n + r. */
  lemma ModUnique(a: int, n: int, q: int, r: int)
    requires n > 0 && 0 <= r < n && a == q * n + r
    ensures a % n == r
  {
    var q', r' := a / n, a % n;
    assert a == q' * n + r';
    assert (q - q') * n == r' - r;
    MultipleBounds(q - q', n);
  }

  /** A non-zero multiple of n is at least n away from zero. */
  lemma MultipleBounds(d: int, n: int)
    requires n > 0
    ensures d > 0 ==> d * n >= n
    ensures d < 0 ==> d * n <= -n
  {
    if d > 0 {
      PositiveMultiple(d, n);
    } else if d < 0 {
      PositiveMultiple(-d, n);
      assert d * n == -((-d) * n);
    }
  }

  lemma {:induction false} PositiveMultiple(d: int, n: int)
    requires d > 0 && n > 0
    ensures d * n >= n
  {
    if d > 1 {
      PositiveMultiple(d - 1, n);
      assert d * n == (d - 1) * n + n;
    }
  }

  // ------------------------------------------------------------------
  // slice(0, n)
  // ------------------------------------------------------------------

  function Take<T>(s: seq<T>, n: nat): (r: seq<T>)
    ensures |r| <= n && |r| <= |s|
    ensures |s| <= n ==> r == s
    ensures n <= |s| ==> |r| == n
    ensures forall i :: 0 <= i < |r| ==> r[i] == s[i]
  {
    if |s| <= n then s else s[..n]
  }

  /** The n largest groups: `Object.entries(acc).sort(by amount).slice(0, n)`. */
  function TopEntries<T, K(==)>(s: seq<T>, key: T -> K, f: T -> real, n: nat): seq<Entry<K>>
  {
    Take(SortBy(GroupEntries(s, key, f), Amount), n)
  }

  /** At most n entries, non-increasing, one per key; each is a key of s with
      its total; a key of s that is left out has a total no larger than any
      entry shown; and when s has at most n keys, every key is shown. */
  lemma TopEntriesSpec<T, K>(s: seq<T>, key: T -> K, f: T -> real, n: nat)
    ensures |TopEntries(s, key, f, n)| <= n
    ensures SortedDesc(TopEntries(s, key, f, n), Amount)
    ensures DistinctBy(TopEntries(s, key, f, n), EntryKey)
    ensures forall e :: e in TopEntries(s, key, f, n) ==>
      (exists x :: x in s && key(x) == e.key) && e.amount == GroupTotal(s, key, e.key, f)
    ensures forall x, e :: x in s && e in TopEntries(s, key, f, n) && !HasKey(TopEntries(s, key, f, n), key(x)) ==>
      GroupTotal(s, key, key(x), f) <= e.amount
    ensures |KeysInOrder(s, key)| <= n ==>
      forall x :: x in s ==> HasKey(TopEntries(s, key, f, n), key(x))
  {
    var g := GroupEntries(s, key, f);
    var sorted := SortBy(g, Amount);
    var r := TopEntries(s, key, f, n);
    GroupEntriesDistinct(s, key, f);
    SortByDistinct(g, Amount, EntryKey);
    TopEntriesMembers(s, key, f, n);
    TopEntriesLeftOut(s, key, f, n);
    if |KeysInOrder(s, key)| <= n {
      TopEntriesAllShown(s, key, f, n);
    }
  }

  lemma TopEntriesMembers<T, K>(s: seq<T>, key: T -> K, f: T -> real, n: nat)
    ensures forall e :: e in TopEntries(s, key, f, n) ==>
      (exists x :: x in s && key(x) == e.key) && e.amount == GroupTotal(s, key, e.key, f)
  {
    var g := GroupEntries(s, key, f);
    var r := TopEntries(s, key, f, n);
    forall e | e in r
      ensures (exists x :: x in s && key(x) == e.key) && e.amount == GroupTotal(s, key, e.key, f)
    {
      var i :| 0 <= i < |r| && r[i] == e;
      var sorted := SortBy(g, Amount);
      assert sorted[i] == e;
      assert e in multiset(sorted);
      assert e in multiset(g);
      var j :| 0 <= j < |g| && g[j] == e;
      var ks := KeysInOrder(s, key);
      KeysInOrderSound(s, key);
      assert ks[j] in ks;
    }
  }

  /** An entry of the sorted groups is a key of s with its total. */
  lemma SortedEntryOf<T, K>(s: seq<T>, key: T -> K, f: T -> real, e: Entry<K>)
    requires e in SortBy(GroupEntries(s, key, f), Amount)
    ensures exists x :: x in s && key(x) == e.key
    ensures e.amount == GroupTotal(s, key, e.key, f)
  {
    var g := GroupEntries(s, key, f);
    assert e in multiset(SortBy(g, Amount));
    assert e in multiset(g);
    var j :| 0 <= j < |g| && g[j] == e;
    var ks := KeysInOrder(s, key);
    KeysInOrderSound(s, key);
    assert ks[j] in ks;
  }

  /** The group of x's key sits at some position of the sorted groups. */
  lemma SortedGroupOf<T, K>(s: seq<T>, key: T -> K, f: T -> real, x: T) returns (j: nat)
    requires x in s
    ensures j < |SortBy(GroupEntries(s, key, f), Amount)|
    ensures SortBy(GroupEntries(s, key, f), Amount)[j] == Entry(key(x), GroupTotal(s, key, key(x), f))
  {
    var g := GroupEntries(s, key, f);
    var sorted := SortBy(g, Amount);
    GroupEntriesMembers(s, key, f);
    SortByMembers(g, Amount);
    assert Entry(key(x), GroupTotal(s, key, key(x), f)) in sorted;
    j :| 0 <= j < |sorted| && sorted[j] == Entry(key(x), GroupTotal(s, key, key(x), f));
  }

  lemma TopEntriesLeftOut<T, K>(s: seq<T>, key: T -> K, f: T -> real, n: nat)
    ensures forall x, e :: x in s && e in TopEntries(s, key, f, n) && !HasKey(TopEntries(s, key, f, n), key(x)) ==>
      GroupTotal(s, key, key(x), f) <= e.amount
  {
    var r := TopEntries(s, key, f, n);
    forall x, e | x in s && e in r && !HasKey(r, key(x))
      ensures GroupTotal(s, key, key(x), f) <= e.amount
    {
      LeftOutBelow(s, key, f, n, x, e);
    }
  }

  /** A key left out of the top n has a total no larger than any shown. */
  lemma LeftOutBelow<T, K>(s: seq<T>, key: T -> K, f: T -> real, n: nat, x: T, e: Entry<K>)
    requires x in s && e in TopEntries(s, key, f, n)
    requires !HasKey(TopEntries(s, key, f, n), key(x))
    ensures GroupTotal(s, key, key(x), f) <= e.amount
  {
    var sorted := SortBy(GroupEntries(s, key, f), Amount);
    var r := TopEntries(s, key, f, n);
    var i :| 0 <= i < |r| && r[i] == e;
    var j := SortedGroupOf(s, key, f, x);
    assert j >= |r|;
    assert r[i] == sorted[i];
    assert Amount(sorted[i]) >= Amount(sorted[j]);
  }

  lemma TopEntriesAllShown<T, K>(s: seq<T>, key: T -> K, f: T -> real, n: nat)
    requires |KeysInOrder(s, key)| <= n
    ensures forall x :: x in s ==> HasKey(TopEntries(s, key, f, n), key(x))
  {
    var r := TopEntries(s, key, f, n);
    forall x | x in s ensures HasKey(r, key(x)) {
      var j := SortedGroupOf(s, key, f, x);
      assert r[j].key == key(x);
    }
  }

  /** Some entry carries key k. */
  predicate HasKey<K(==)>(es: seq<Entry<K>>, k: K)
  {
    exists i :: 0 <= i < |es| && es[i].key == k
  }
}
