/**
 * Sequence operations behind Python list comprehensions, slices and counting
 * dictionaries. A Python `dict` that is filled in a loop keeps its keys in
 * insertion order; it is modelled as an association list (`Tally`) whose keys
 * are distinct and appear in the order they were first inserted.
 */
module Seqs {

  /** Python's `s[:k]` for any integer `k`; a negative `k` counts from the end. */
  function PyPrefix<T>(s: seq<T>, k: int): (r: seq<T>)
    ensures |r| <= |s| && r == s[..|r|]
    ensures k >= 0 ==> |r| == if k <= |s| then k else |s|
    ensures k < 0 ==> |r| == if |s| + k >= 0 then |s| + k else 0
  {
    if k >= 0 then (if k <= |s| then s[..k] else s)
    else if |s| + k >= 0 then s[..|s| + k]
    else []
  }

  /** `[f(x) for x in s]`. */
  function Map<A, B>(s: seq<A>, f: A -> B): (r: seq<B>)
    ensures |r| == |s| && forall i :: 0 <= i < |s| ==> r[i] == f(s[i])
  {
    seq(|s|, i requires 0 <= i < |s| => f(s[i]))
  }

  /** Mapping one element more appends its image. */
  lemma MapSnoc<A, B>(s: seq<A>, i: nat, f: A -> B)
    requires i < |s|
    ensures Map(s[..i + 1], f) == Map(s[..i], f) + [f(s[i])]
  {
  }

  /** `[x for xs in ss for x in xs]`. */
  function Concat<T>(ss: seq<seq<T>>): seq<T> {
    if ss == [] then [] else ss[0] + Concat(ss[1..])
  }

  /** `[x for x in s if p(x)]`. */
  function Filter<T(==)>(s: seq<T>, p: T -> bool): (r: seq<T>)
    ensures |r| <= |s|
    ensures forall i :: 0 <= i < |r| ==> r[i] in s && p(r[i])
    ensures forall i :: 0 <= i < |s| && p(s[i]) ==> s[i] in r
  {
    if s == [] then [] else (if p(s[0]) then [s[0]] else []) + Filter(s[1..], p)
  }

  lemma {:induction false} FilterAppend<T>(a: seq<T>, b: seq<T>, p: T -> bool)
    ensures Filter(a + b, p) == Filter(a, p) + Filter(b, p)
  {
    if a == [] {
      assert a + b == b;
    } else {
      var h: seq<T> := if p(a[0]) then [a[0]] else [];
      assert (a + b)[0] == a[0];
      assert (a + b)[1..] == a[1..] + b;
      FilterAppend(a[1..], b, p);
      calc {
        Filter(a + b, p);
        h + Filter(a[1..] + b, p);
        h + (Filter(a[1..], p) + Filter(b, p));
        (h + Filter(a[1..], p)) + Filter(b, p);
      }
    }
  }

  /** `r` is `s` with some elements left out, the rest kept in order. */
  predicate IsSubsequence<T(==)>(r: seq<T>, s: seq<T>) {
    if s == [] then r == []
    else (r != [] && r[0] == s[0] && IsSubsequence(r[1..], s[1..])) || IsSubsequence(r, s[1..])
  }

  lemma {:induction false} FilterIsSubsequence<T>(s: seq<T>, p: T -> bool)
    ensures IsSubsequence(Filter(s, p), s)
  {
    if s != [] {
      FilterIsSubsequence(s[1..], p);
      var r := Filter(s, p);
      if p(s[0]) {
        assert r == [s[0]] + Filter(s[1..], p);
        assert r[1..] == Filter(s[1..], p);
      } else {
        assert r == Filter(s[1..], p);
      }
    }
  }

  predicate Distinct<T(==)>(s: seq<T>) {
    forall i, j :: 0 <= i < j < |s| ==> s[i] != s[j]
  }

  /** `sum(s)`. */
  function Sum(s: seq<int>): int {
    if s == [] then 0 else s[0] + Sum(s[1..])
  }

  lemma {:induction false} SumAppend(a: seq<int>, b: seq<int>)
    ensures Sum(a + b) == Sum(a) + Sum(b)
  {
    if a == [] {
      assert a + b == b;
    } else {
      assert (a + b)[0] == a[0];
      assert (a + b)[1..] == a[1..] + b;
      SumAppend(a[1..], b);
    }
  }

  /** A sum of `n` integers in `[lo, hi]` lies in `[n * lo, n * hi]`. */
  lemma {:induction false} SumBounds(s: seq<int>, lo: int, hi: int)
    requires forall i :: 0 <= i < |s| ==> lo <= s[i] <= hi
    ensures |s| * lo <= Sum(s) <= |s| * hi
  {
    if s != [] {
      SumBounds(s[1..], lo, hi);
    }
  }

  /** A sum of `n` integers each at least `lo` is at least `n * lo`. */
  lemma {:induction false} SumAtLeast(s: seq<int>, lo: int)
    requires forall i :: 0 <= i < |s| ==> lo <= s[i]
    ensures |s| * lo <= Sum(s)
  {
    if s != [] {
      SumAtLeast(s[1..], lo);
    }
  }

  function Min(a: int, b: int): int { if a <= b then a else b }

  /**
   * Python's `int(a / b)` for a positive `b`: the exact quotient truncated
   * toward zero (the float rounding of the division is not modelled).
   */
  function TruncDiv(a: int, b: int): (q: int)
    requires b > 0
    ensures a >= 0 ==> q == a / b
  {
    if a >= 0 then a / b else -((-a) / b)
  }

  /** An insertion-ordered counting dictionary. */
  type Tally<K> = seq<(K, nat)>

  function TallyKeys<K>(t: Tally<K>): (ks: seq<K>)
    ensures |ks| == |t|
    ensures forall i :: 0 <= i < |t| ==> ks[i] == t[i].0
  {
    if t == [] then [] else [t[0].0] + TallyKeys(t[1..])
  }

  /** `d.get(k, 0)`. */
  function TallyGet<K(==)>(t: Tally<K>, k: K): nat {
    if t == [] then 0 else if t[0].0 == k then t[0].1 else TallyGet(t[1..], k)
  }

  /** `d[k] = d.get(k, 0) + 1`: a known key keeps its place, a new one goes last. */
  function TallyBump<K(==)>(t: Tally<K>, k: K): (r: Tally<K>)
    ensures |r| == if k in TallyKeys(t) then |t| else |t| + 1
  {
    if t == [] then [(k, 1)]
    else if t[0].0 == k then [(k, t[0].1 + 1)] + t[1..]
    else [t[0]] + TallyBump(t[1..], k)
  }

  /** The values of a tally added up. */
  function TallySum<K>(t: Tally<K>): nat {
    if t == [] then 0 else t[0].1 + TallySum(t[1..])
  }

  /** The dictionary a counting loop builds from the keys it meets, in order. */
  function TallyOf<K(==)>(ks: seq<K>): Tally<K> {
    if ks == [] then [] else TallyBump(TallyOf(ks[..|ks| - 1]), ks[|ks| - 1])
  }

  lemma {:induction false} BumpGet<K>(t: Tally<K>, k: K)
    ensures TallyGet(TallyBump(t, k), k) == TallyGet(t, k) + 1
    ensures forall j :: j != k ==> TallyGet(TallyBump(t, k), j) == TallyGet(t, j)
  {
    if t != [] && t[0].0 != k {
      BumpGet(t[1..], k);
    }
  }

  lemma {:induction false} BumpSum<K>(t: Tally<K>, k: K)
    ensures TallySum(TallyBump(t, k)) == TallySum(t) + 1
  {
    if t != [] && t[0].0 != k {
      BumpSum(t[1..], k);
    }
  }

  lemma {:induction false} BumpKeys<K>(t: Tally<K>, k: K)
    ensures TallyKeys(TallyBump(t, k)) == if k in TallyKeys(t) then TallyKeys(t) else TallyKeys(t) + [k]
  {
    if t != [] && t[0].0 != k {
      BumpKeys(t[1..], k);
      assert TallyKeys(t) == [t[0].0] + TallyKeys(t[1..]);
    }
  }

  /** Counting a key raises its count and the total by one and adds it as a key if it is new. */
  lemma BumpFacts<K>(t: Tally<K>, k: K)
    ensures TallyGet(TallyBump(t, k), k) == TallyGet(t, k) + 1
    ensures forall j :: j != k ==> TallyGet(TallyBump(t, k), j) == TallyGet(t, j)
    ensures TallySum(TallyBump(t, k)) == TallySum(t) + 1
    ensures TallyKeys(TallyBump(t, k)) == if k in TallyKeys(t) then TallyKeys(t) else TallyKeys(t) + [k]
  {
    BumpGet(t, k);
    BumpSum(t, k);
    BumpKeys(t, k);
  }

  lemma {:induction false} TallyOfCounts<K>(ks: seq<K>)
    ensures forall k :: TallyGet(TallyOf(ks), k) == multiset(ks)[k]
  {
    if ks != [] {
      var init, last := ks[..|ks| - 1], ks[|ks| - 1];
      TallyOfCounts(init);
      BumpGet(TallyOf(init), last);
      assert ks == init + [last];
      assert multiset(ks) == multiset(init) + multiset{last};
    }
  }

  lemma {:induction false} TallyOfSum<K>(ks: seq<K>)
    ensures TallySum(TallyOf(ks)) == |ks|
  {
    if ks != [] {
      TallyOfSum(ks[..|ks| - 1]);
      BumpSum(TallyOf(ks[..|ks| - 1]), ks[|ks| - 1]);
    }
  }

  lemma {:induction false} TallyOfKeys<K>(ks: seq<K>)
    ensures Distinct(TallyKeys(TallyOf(ks)))
    ensures forall k :: k in TallyKeys(TallyOf(ks)) <==> k in ks
  {
    if ks != [] {
      var init, last := ks[..|ks| - 1], ks[|ks| - 1];
      TallyOfKeys(init);
      BumpKeys(TallyOf(init), last);
      assert ks == init + [last];
    }
  }

  /**
   * The counting loop's dictionary has one entry per distinct key, in order of
   * first occurrence; each entry counts the occurrences of its key, and the
   * counts add up to the number of keys met.
   */
  lemma TallyOfFacts<K>(ks: seq<K>)
    ensures forall k :: TallyGet(TallyOf(ks), k) == multiset(ks)[k]
    ensures TallySum(TallyOf(ks)) == |ks|
    ensures Distinct(TallyKeys(TallyOf(ks)))
    ensures forall k :: k in TallyKeys(TallyOf(ks)) <==> k in ks
  {
    TallyOfCounts(ks);
    TallyOfSum(ks);
    TallyOfKeys(ks);
  }

  // ---------------------------------------------------------- first-by-key de-duplication

  /** The keys of the elements of `s`. */
  function KeySet<T, K(==)>(s: seq<T>, key: T -> K): set<K> {
    if s == [] then {} else KeySet(s[..|s| - 1], key) + {key(s[|s| - 1])}
  }

  /** The first element of every key, in input order. */
  function Dedup<T, K(==)>(s: seq<T>, key: T -> K): seq<T> {
    if s == [] then []
    else
      var d := Dedup(s[..|s| - 1], key);
      if key(s[|s| - 1]) in KeySet(d, key) then d else d + [s[|s| - 1]]
  }

  /** A key is in `KeySet(s, key)` exactly when some element of `s` has it. */
  lemma {:induction false} KeySetMembers<T, K>(s: seq<T>, key: T -> K)
    ensures forall i :: 0 <= i < |s| ==> key(s[i]) in KeySet(s, key)
    ensures forall k :: k in KeySet(s, key) ==> exists i :: 0 <= i < |s| && key(s[i]) == k
  {
    if s != [] {
      var init := s[..|s| - 1];
      KeySetMembers(init, key);
      assert KeySet(s, key) == KeySet(init, key) + {key(s[|s| - 1])};
      forall i | 0 <= i < |s| - 1 ensures key(s[i]) in KeySet(s, key) {
        assert s[i] == init[i];
      }
      forall k | k in KeySet(s, key) ensures exists i :: 0 <= i < |s| && key(s[i]) == k {
        if k in KeySet(init, key) {
          var i :| 0 <= i < |init| && key(init[i]) == k;
          assert s[i] == init[i];
        } else {
          assert key(s[|s| - 1]) == k;
        }
      }
    }
  }

  /** The input positions whose elements de-duplication keeps, increasing. */
  function Picks<T, K(==)>(s: seq<T>, key: T -> K): (p: seq<int>)
    ensures |p| == |Dedup(s, key)|
    ensures forall k :: 0 <= k < |p| ==> 0 <= p[k] < |s|
    ensures forall k, l :: 0 <= k < l < |p| ==> p[k] < p[l]
  {
    if s == [] then []
    else
      var p := Picks(s[..|s| - 1], key);
      if key(s[|s| - 1]) in KeySet(Dedup(s[..|s| - 1], key), key) then p else p + [|s| - 1]
  }

  /**
   * De-duplication keeps elements of the input, in input order: `Dedup(s, key)[k]` is
   * `s[Picks(s, key)[k]]` with the picked positions increasing, so the output is a
   * subsequence of the input; and the output carries every input key.
   */
  lemma {:induction false} DedupPicks<T, K>(s: seq<T>, key: T -> K)
    ensures forall k :: 0 <= k < |Picks(s, key)| ==> Dedup(s, key)[k] == s[Picks(s, key)[k]]
    ensures KeySet(Dedup(s, key), key) == KeySet(s, key)
  {
    if s != [] {
      var init, last := s[..|s| - 1], s[|s| - 1];
      DedupPicks(init, key);
      var d0, p0 := Dedup(init, key), Picks(init, key);
      assert KeySet(s, key) == KeySet(init, key) + {key(last)};
      if key(last) !in KeySet(d0, key) {
        var d := d0 + [last];
        assert d[..|d| - 1] == d0;
        assert KeySet(d, key) == KeySet(d0, key) + {key(last)};
        forall k | 0 <= k < |p0| ensures d[k] == s[p0[k]] {
          assert d[k] == d0[k] == init[p0[k]];
        }
      }
    }
  }

  /** Each kept element is the first of its key: no earlier input element has that key. */
  lemma {:induction false} DedupKeepsFirst<T, K>(s: seq<T>, key: T -> K)
    ensures forall k :: 0 <= k < |Picks(s, key)| ==> key(s[Picks(s, key)[k]]) !in KeySet(s[..Picks(s, key)[k]], key)
  {
    if s != [] {
      var n := |s| - 1;
      var init := s[..n];
      DedupKeepsFirst(init, key);
      DedupPicks(init, key);
      var p0 := Picks(init, key);
      var isNew := key(s[n]) !in KeySet(Dedup(init, key), key);
      assert Picks(s, key) == if isNew then p0 + [n] else p0;
      FirstInPrefix(s, n, p0, key);
    }
  }

  /** Positions holding the first of their key in a prefix hold the first of their key in the whole. */
  lemma FirstInPrefix<T, K>(s: seq<T>, n: nat, p: seq<int>, key: T -> K)
    requires n <= |s|
    requires forall k :: 0 <= k < |p| ==> 0 <= p[k] < n && key(s[..n][p[k]]) !in KeySet(s[..n][..p[k]], key)
    ensures forall k :: 0 <= k < |p| ==> key(s[p[k]]) !in KeySet(s[..p[k]], key)
  {
    forall k | 0 <= k < |p| ensures key(s[p[k]]) !in KeySet(s[..p[k]], key) {
      assert s[..n][..p[k]] == s[..p[k]];
      assert s[..n][p[k]] == s[p[k]];
    }
  }

  /** The kept elements have pairwise distinct keys. */
  lemma {:induction false} DedupDistinct<T, K>(s: seq<T>, key: T -> K)
    ensures forall k, l :: 0 <= k < l < |Dedup(s, key)| ==> key(Dedup(s, key)[k]) != key(Dedup(s, key)[l])
  {
    if s != [] {
      var init, last := s[..|s| - 1], s[|s| - 1];
      DedupDistinct(init, key);
      var d0 := Dedup(init, key);
      if key(last) !in KeySet(d0, key) {
        KeySetMembers(d0, key);
        var d := d0 + [last];
        forall k, l | 0 <= k < l < |d| ensures key(d[k]) != key(d[l]) {
          assert d[k] == d0[k];
          if l < |d0| {
            assert d[l] == d0[l];
          }
        }
      }
    }
  }

  /** Once de-duplicated, a list is its own de-duplication. */
  lemma {:induction false} DedupIdempotent<T, K>(s: seq<T>, key: T -> K)
    ensures Dedup(Dedup(s, key), key) == Dedup(s, key)
  {
    DedupDistinct(s, key);
    DedupOfDistinct(Dedup(s, key), key);
  }

  lemma {:induction false} DedupOfDistinct<T, K>(s: seq<T>, key: T -> K)
    requires forall k, l :: 0 <= k < l < |s| ==> key(s[k]) != key(s[l])
    ensures Dedup(s, key) == s
  {
    if s != [] {
      var init, last := s[..|s| - 1], s[|s| - 1];
      DedupOfDistinct(init, key);
      KeySetMembers(init, key);
      forall i | 0 <= i < |init| ensures key(init[i]) != key(last) {
        assert s[i] == init[i];
      }
      assert init + [last] == s;
    }
  }

  /** Every kept element is an element of the input. */
  lemma DedupSubset<T, K>(s: seq<T>, key: T -> K)
    ensures forall x :: x in Dedup(s, key) ==> x in s
  {
    DedupPicks(s, key);
    forall x | x in Dedup(s, key) ensures x in s {
      var k :| 0 <= k < |Dedup(s, key)| && Dedup(s, key)[k] == x;
      assert x == s[Picks(s, key)[k]];
    }
  }
}
