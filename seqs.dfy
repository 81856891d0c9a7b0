/**
 * Sequence operations the services use on arrays: `filter`, `slice(0, k)`,
 * de-duplication through a `Set` (first occurrences, in order), and the
 * stable descending sort `arr.sort((a, b) => key(b) - key(a))`.
 */
module Seqs {

  predicate Distinct<T(==)>(s: seq<T>) {
    forall i, j :: 0 <= i < j < |s| ==> s[i] != s[j]
  }

  /** `arr.slice(0, k)`. */
  function Take<T>(s: seq<T>, k: nat): (r: seq<T>)
    ensures |r| == if k < |s| then k else |s|
    ensures r == s[..|r|]
  {
    if k < |s| then s[..k] else s
  }

  /** `arr.filter(p)`. */
  function Filter<T>(s: seq<T>, p: T -> bool): (r: seq<T>)
    ensures |r| <= |s|
    ensures forall i :: 0 <= i < |r| ==> p(r[i])
    ensures forall i :: 0 <= i < |r| ==> r[i] in s
    ensures forall i :: 0 <= i < |s| && p(s[i]) ==> s[i] in r
  {
    if s == [] then []
    else if p(s[0]) then [s[0]] + Filter(s[1..], p)
    else Filter(s[1..], p)
  }

  /** The filter keeps everything exactly when every element passes. */
  lemma {:induction false} FilterAll<T>(s: seq<T>, p: T -> bool)
    ensures |Filter(s, p)| == |s| <==> forall i :: 0 <= i < |s| ==> p(s[i])
  {
    if s != [] {
      FilterAll(s[1..], p);
      assert forall i :: 1 <= i < |s| ==> s[i] == s[1..][i - 1];
    }
  }

  lemma {:induction false} FilterMultiset<T>(s: seq<T>, p: T -> bool)
    ensures multiset(Filter(s, p)) <= multiset(s)
  {
    if s != [] {
      FilterMultiset(s[1..], p);
      assert s == [s[0]] + s[1..];
      assert multiset(s) == multiset{s[0]} + multiset(s[1..]);
      if p(s[0]) {
        assert multiset(Filter(s, p)) == multiset{s[0]} + multiset(Filter(s[1..], p));
      } else {
        assert Filter(s, p) == Filter(s[1..], p);
      }
    }
  }

  lemma {:induction false} FilterDistinct<T>(s: seq<T>, p: T -> bool)
    requires Distinct(s)
    ensures Distinct(Filter(s, p))
  {
    if s != [] {
      FilterDistinct(s[1..], p);
    }
  }

  /** Filtering elements told apart by a name keeps their names apart. */
  lemma {:induction false} FilterNames<T, K>(s: seq<T>, p: T -> bool, name: T -> K)
    requires forall i, j :: 0 <= i < j < |s| ==> name(s[i]) != name(s[j])
    ensures forall i, j :: 0 <= i < j < |Filter(s, p)| ==> name(Filter(s, p)[i]) != name(Filter(s, p)[j])
  {
    if s != [] {
      var tail := s[1..];
      assert forall i, j :: 0 <= i < j < |tail| ==> name(tail[i]) != name(tail[j]) by {
        forall i, j | 0 <= i < j < |tail| ensures name(tail[i]) != name(tail[j]) {
          assert tail[i] == s[i + 1] && tail[j] == s[j + 1];
        }
      }
      FilterNames(tail, p, name);
      var r := Filter(s, p);
      var rt := Filter(tail, p);
      if p(s[0]) {
        assert r == [s[0]] + rt;
        forall i, j | 0 <= i < j < |r| ensures name(r[i]) != name(r[j]) {
          if i == 0 {
            assert r[j] == rt[j - 1] && rt[j - 1] in tail;
            var b :| 0 <= b < |tail| && tail[b] == rt[j - 1];
            assert s[b + 1] == r[j] && r[0] == s[0];
          } else {
            assert r[i] == rt[i - 1] && r[j] == rt[j - 1];
          }
        }
      } else {
        assert r == rt;
      }
    }
  }

  // ---------------------------------------------------------------------
  // De-duplication in insertion order (`Array.from(new Set(arr))`).
  // ---------------------------------------------------------------------

  /** `set.add(x)` on a set kept as the sequence of its insertion order. */
  function SetAdd<T(==)>(acc: seq<T>, x: T): (r: seq<T>)
    ensures Distinct(acc) ==> Distinct(r)
    ensures x in r
    ensures forall i :: 0 <= i < |r| ==> r[i] in acc || r[i] == x
    ensures |acc| <= |r| && r[..|acc|] == acc
  {
    if x in acc then acc else acc + [x]
  }

  /** `xs.forEach(x => set.add(x))`. */
  function AddAll<T(==)>(acc: seq<T>, xs: seq<T>): (r: seq<T>)
    ensures Distinct(acc) ==> Distinct(r)
    ensures forall i :: 0 <= i < |xs| ==> xs[i] in r
    ensures forall i :: 0 <= i < |r| ==> r[i] in acc || r[i] in xs
    ensures |acc| <= |r| && r[..|acc|] == acc
    decreases |xs|
  {
    if xs == [] then acc else SetAdd(AddAll(acc, xs[..|xs| - 1]), xs[|xs| - 1])
  }

  /** `Array.from(new Set(xs))`. */
  function Dedupe<T(==)>(xs: seq<T>): (r: seq<T>)
    ensures Distinct(r)
    ensures forall i :: 0 <= i < |xs| ==> xs[i] in r
    ensures forall i :: 0 <= i < |r| ==> r[i] in xs
    ensures |r| <= |xs|
  {
    DedupeShorter(xs);
    AddAll([], xs)
  }

  lemma {:induction false} DedupeShorter<T>(xs: seq<T>)
    ensures |AddAll([], xs)| <= |xs|
    decreases |xs|
  {
    if xs != [] {
      DedupeShorter(xs[..|xs| - 1]);
    }
  }

  /** Adding two batches one after the other is adding their concatenation. */
  lemma {:induction false} AddAllAppend<T>(acc: seq<T>, xs: seq<T>, ys: seq<T>)
    ensures AddAll(acc, xs + ys) == AddAll(AddAll(acc, xs), ys)
    decreases |ys|
  {
    if ys == [] {
      assert xs + ys == xs;
    } else {
      assert (xs + ys)[..|xs + ys| - 1] == xs + ys[..|ys| - 1];
      assert (xs + ys)[|xs + ys| - 1] == ys[|ys| - 1];
      AddAllAppend(acc, xs, ys[..|ys| - 1]);
    }
  }

  /** De-duplicating a concatenation keeps the first part's de-duplication as a prefix. */
  lemma DedupeAppendPrefix<T>(xs: seq<T>, ys: seq<T>)
    ensures |Dedupe(xs)| <= |Dedupe(xs + ys)|
    ensures Dedupe(xs + ys)[..|Dedupe(xs)|] == Dedupe(xs)
  {
    AddAllAppend([], xs, ys);
  }

  /** Taking at least a prefix's length keeps the prefix. */
  lemma TakeKeepsPrefix<T>(s: seq<T>, p: seq<T>, k: nat)
    requires |p| <= k && |p| <= |s| && s[..|p|] == p
    ensures |p| <= |Take(s, k)| && Take(s, k)[..|p|] == p
  {
  }

  /** A de-duplicated sequence that already has no repeats is left unchanged. */
  lemma {:induction false} DedupeDistinct<T>(xs: seq<T>)
    requires Distinct(xs)
    ensures Dedupe(xs) == xs
    decreases |xs|
  {
    if xs != [] {
      var init := xs[..|xs| - 1];
      assert Distinct(init);
      DedupeDistinct(init);
      assert xs[|xs| - 1] !in init;
      assert init + [xs[|xs| - 1]] == xs;
    }
  }

  // ---------------------------------------------------------------------
  // De-duplication by a key (a `seen` Set of keys, first occurrence kept).
  // ---------------------------------------------------------------------

  /** The keys of the elements, as a `Set`. */
  function KeySet<T, K(==)>(s: seq<T>, key: T -> K): set<K> {
    if s == [] then {} else KeySet(s[..|s| - 1], key) + {key(s[|s| - 1])}
  }

  lemma {:induction false} KeySetMembers<T, K>(s: seq<T>, key: T -> K)
    ensures forall i :: 0 <= i < |s| ==> key(s[i]) in KeySet(s, key)
    ensures forall k :: k in KeySet(s, key) ==> exists i :: 0 <= i < |s| && key(s[i]) == k
  {
    if s != [] {
      var init := s[..|s| - 1];
      KeySetMembers(init, key);
      assert forall i :: 0 <= i < |init| ==> init[i] == s[i];
    }
  }

  /** Each element whose key was not seen before, in order. */
  function DedupeBy<T, K(==)>(s: seq<T>, key: T -> K): (r: seq<T>)
    ensures |r| <= |s|
  {
    if s == [] then []
    else
      var init := s[..|s| - 1];
      if key(s[|s| - 1]) in KeySet(init, key) then DedupeBy(init, key)
      else DedupeBy(init, key) + [s[|s| - 1]]
  }

  /** `DedupeBy` keeps elements of the input and every key of the input. */
  lemma {:induction false} DedupeByKeys<T, K>(s: seq<T>, key: T -> K)
    ensures forall i :: 0 <= i < |DedupeBy(s, key)| ==> DedupeBy(s, key)[i] in s
    ensures KeySet(DedupeBy(s, key), key) == KeySet(s, key)
  {
    if s != [] {
      var init := s[..|s| - 1];
      var x := s[|s| - 1];
      var p := DedupeBy(init, key);
      DedupeByKeys(init, key);
      assert forall i :: 0 <= i < |init| ==> init[i] in s;
      if key(x) !in KeySet(init, key) {
        assert (p + [x])[..|p|] == p;
        assert KeySet(p + [x], key) == KeySet(p, key) + {key(x)};
      }
    }
  }

  /** No two elements `DedupeBy` keeps share a key. */
  lemma {:induction false} DedupeByDistinct<T, K>(s: seq<T>, key: T -> K)
    ensures forall i, j :: 0 <= i < j < |DedupeBy(s, key)| ==> key(DedupeBy(s, key)[i]) != key(DedupeBy(s, key)[j])
  {
    if s != [] {
      var init := s[..|s| - 1];
      var x := s[|s| - 1];
      var p := DedupeBy(init, key);
      DedupeByDistinct(init, key);
      if key(x) !in KeySet(init, key) {
        var r := p + [x];
        DedupeByKeys(init, key);
        KeySetMembers(p, key);
        forall i, j | 0 <= i < j < |r| ensures key(r[i]) != key(r[j]) {
          if j == |p| {
            assert r[i] == p[i];
            assert key(p[i]) in KeySet(p, key);
          } else {
            assert r[i] == p[i] && r[j] == p[j];
          }
        }
      }
    }
  }

  /** De-duplicating a sequence sorted by decreasing score keeps it sorted. */
  lemma {:induction false} DedupeBySortedDesc<T, K>(s: seq<T>, key: T -> K, score: T -> real)
    requires SortedDesc(s, score)
    ensures SortedDesc(DedupeBy(s, key), score)
  {
    if s != [] {
      var init := s[..|s| - 1];
      var x := s[|s| - 1];
      var p := DedupeBy(init, key);
      DedupeBySortedDesc(init, key, score);
      if key(x) !in KeySet(init, key) {
        DedupeByKeys(init, key);
        var r := p + [x];
        forall i, j | 0 <= i < j < |r| ensures score(r[i]) >= score(r[j]) {
          assert r[i] == p[i];
          if j == |p| {
            var k :| 0 <= k < |init| && init[k] == p[i];
            assert s[k] == p[i];
          } else {
            assert r[j] == p[j];
          }
        }
      }
    }
  }

  /** Some element of `r` has the key of `x` and at least its score. */
  ghost predicate Covered<T, K>(r: seq<T>, x: T, key: T -> K, score: T -> real) {
    exists j :: 0 <= j < |r| && key(r[j]) == key(x) && score(r[j]) >= score(x)
  }

  /**
   * In a sequence sorted by decreasing score, every element has a kept
   * one with its key and at least its score.
   */
  lemma {:induction false} DedupeByCovers<T, K>(s: seq<T>, key: T -> K, score: T -> real)
    requires SortedDesc(s, score)
    ensures forall i :: 0 <= i < |s| ==> Covered(DedupeBy(s, key), s[i], key, score)
  {
    if s != [] {
      var init := s[..|s| - 1];
      var x := s[|s| - 1];
      var p := DedupeBy(init, key);
      var r := DedupeBy(s, key);
      assert SortedDesc(init, score);
      DedupeByCovers(init, key, score);
      assert r[..|p|] == p;
      forall i | 0 <= i < |s| ensures Covered(r, s[i], key, score) {
        if i < |init| {
          assert s[i] == init[i];
          var j :| 0 <= j < |p| && key(p[j]) == key(init[i]) && score(p[j]) >= score(init[i]);
          assert r[j] == p[j];
        } else if key(x) in KeySet(init, key) {
          KeySetMembers(init, key);
          var k :| 0 <= k < |init| && key(init[k]) == key(x);
          assert s[k] == init[k];
          var j :| 0 <= j < |p| && key(p[j]) == key(init[k]) && score(p[j]) >= score(init[k]);
          assert r[j] == p[j];
        } else {
          assert r[|p|] == x;
        }
      }
    }
  }

  // ---------------------------------------------------------------------
  // Stable descending sort.
  // ---------------------------------------------------------------------

  predicate SortedDesc<T>(s: seq<T>, key: T -> real) {
    forall i, j :: 0 <= i < j < |s| ==> key(s[i]) >= key(s[j])
  }

  /** Insert `x` in front of the first element whose key is not larger. */
  function InsertDesc<T>(x: T, s: seq<T>, key: T -> real): (r: seq<T>)
    requires SortedDesc(s, key)
    ensures |r| == |s| + 1
    ensures SortedDesc(r, key)
    ensures r[0] == x || (s != [] && r[0] == s[0])
  {
    if s == [] then [x]
    else if key(s[0]) > key(x) then
      var rest := InsertDesc(x, s[1..], key);
      assert s == [s[0]] + s[1..];
      assert key(s[0]) >= key(rest[0]);
      var r := [s[0]] + rest;
      assert forall j :: 0 < j < |r| ==> key(r[0]) >= key(r[j]) by {
        forall j | 0 < j < |r| ensures key(r[0]) >= key(r[j]) {
          assert r[j] == rest[j - 1];
          assert key(rest[0]) >= key(rest[j - 1]);
        }
      }
      r
    else
      [x] + s
  }

  lemma {:induction false} InsertDescMultiset<T>(x: T, s: seq<T>, key: T -> real)
    requires SortedDesc(s, key)
    ensures multiset(InsertDesc(x, s, key)) == multiset(s) + multiset{x}
  {
    if s != [] && key(s[0]) > key(x) {
      InsertDescMultiset(x, s[1..], key);
      assert s == [s[0]] + s[1..];
      assert InsertDesc(x, s, key) == [s[0]] + InsertDesc(x, s[1..], key);
    }
  }

  /** `arr.sort((a, b) => key(b) - key(a))`: stable, ordered by decreasing key. */
  function SortDesc<T>(s: seq<T>, key: T -> real): (r: seq<T>)
    ensures |r| == |s|
    ensures multiset(r) == multiset(s)
    ensures SortedDesc(r, key)
  {
    if s == [] then []
    else
      assert s == [s[0]] + s[1..];
      InsertDescMultiset(s[0], SortDesc(s[1..], key), key);
      InsertDesc(s[0], SortDesc(s[1..], key), key)
  }

  lemma SortDescMembers<T>(s: seq<T>, key: T -> real)
    ensures forall x :: x in SortDesc(s, key) <==> x in s
  {
    var r := SortDesc(s, key);
    forall x ensures x in r <==> x in s {
      assert x in r <==> x in multiset(r);
      assert x in s <==> x in multiset(s);
    }
  }

  lemma SortDescDistinct<T>(s: seq<T>, key: T -> real)
    requires Distinct(s)
    ensures Distinct(SortDesc(s, key))
  {
    var r := SortDesc(s, key);
    DistinctMultiset(s);
    DistinctMultiset(r);
  }

  /** A sequence has no repeats exactly when every element occurs once in its multiset. */
  lemma {:induction false} DistinctMultiset<T>(s: seq<T>)
    ensures Distinct(s) <==> forall x :: x in s ==> multiset(s)[x] == 1
    decreases |s|
  {
    if s != [] {
      DistinctMultiset(s[1..]);
      assert s == [s[0]] + s[1..];
      if Distinct(s) {
        assert s[0] !in s[1..];
      }
      if forall x :: x in s ==> multiset(s)[x] == 1 {
        assert forall x :: x in s[1..] ==> multiset(s[1..])[x] == 1 by {
          forall x | x in s[1..] ensures multiset(s[1..])[x] == 1 {
            assert multiset(s)[x] == multiset(s[1..])[x] + (if x == s[0] then 1 else 0);
          }
        }
        assert multiset(s) == multiset{s[0]} + multiset(s[1..]);
        assert multiset(s)[s[0]] == 1;
        assert multiset(s[1..])[s[0]] == 0;
        forall i, j | 0 <= i < j < |s| ensures s[i] != s[j] {
          if i == 0 {
            assert s[j] in s[1..];
          }
        }
      }
    }
  }

  /**
   * Top-k completeness: an element of a sorted sequence that `slice(0, k)`
   * leaves out is outranked by every element kept, and k elements were kept.
   */
  lemma TopKComplete<T>(s: seq<T>, key: T -> real, k: nat, x: T)
    requires SortedDesc(s, key) && x in s && x !in Take(s, k)
    ensures |Take(s, k)| == k
    ensures forall y :: y in Take(s, k) ==> key(y) >= key(x)
  {
    var j :| 0 <= j < |s| && s[j] == x;
    assert j >= k;
  }

  /**
   * `sort` then `slice(0, k)` of distinct elements: distinct, sorted members
   * of the input, and every member left out is outranked by all k kept.
   */
  lemma RankedSelection<T>(s: seq<T>, key: T -> real, k: nat)
    requires Distinct(s)
    ensures var r := Take(SortDesc(s, key), k);
      && Distinct(r)
      && SortedDesc(r, key)
      && (forall i :: 0 <= i < |r| ==> r[i] in s)
      && (forall x | x in s && x !in r :: |r| == k && forall i :: 0 <= i < |r| ==> key(r[i]) >= key(x))
  {
    var sorted := SortDesc(s, key);
    var r := Take(sorted, k);
    SortDescDistinct(s, key);
    SortDescMembers(s, key);
    assert forall i :: 0 <= i < |r| ==> r[i] == sorted[i];
    forall x | x in s && x !in r ensures |r| == k && forall i :: 0 <= i < |r| ==> key(r[i]) >= key(x) {
      TopKComplete(sorted, key, k, x);
      assert forall i :: 0 <= i < |r| ==> r[i] in r;
    }
  }

  /** `RankedSelection` for elements told apart by a name: the names kept are distinct. */
  lemma RankedNames<T, K>(s: seq<T>, key: T -> real, name: T -> K, k: nat)
    requires forall i, j :: 0 <= i < j < |s| ==> name(s[i]) != name(s[j])
    ensures var r := Take(SortDesc(s, key), k);
      && SortedDesc(r, key)
      && (forall i :: 0 <= i < |r| ==> r[i] in s)
      && (forall i, j :: 0 <= i < j < |r| ==> name(r[i]) != name(r[j]))
      && (forall x | x in s && x !in r :: |r| == k && forall i :: 0 <= i < |r| ==> key(r[i]) >= key(x))
  {
    var r := Take(SortDesc(s, key), k);
    assert Distinct(s);
    RankedSelection(s, key, k);
    forall i, j | 0 <= i < j < |r| ensures name(r[i]) != name(r[j]) {
      var a :| 0 <= a < |s| && s[a] == r[i];
      var b :| 0 <= b < |s| && s[b] == r[j];
      assert a != b;
    }
  }

  // ---------------------------------------------------------------------
  // A Map and the array of its entries (`Array.from(m.entries())`, `new Map(arr)`).
  // ---------------------------------------------------------------------

  /** `new Map(entries)`: a later entry for the same key wins. */
  function MapOf<K, V>(entries: seq<(K, V)>): (m: map<K, V>)
    ensures forall i :: 0 <= i < |entries| ==> entries[i].0 in m
    decreases |entries|
  {
    if entries == [] then map[]
    else MapOf(entries[..|entries| - 1])[entries[|entries| - 1].0 := entries[|entries| - 1].1]
  }

  /** `entries` lists every entry of `m` exactly once. */
  predicate ListsEntries<K(!new), V(==)>(entries: seq<(K, V)>, m: map<K, V>) {
    && (forall i, j :: 0 <= i < j < |entries| ==> entries[i].0 != entries[j].0)
    && (forall i :: 0 <= i < |entries| ==> entries[i].0 in m && m[entries[i].0] == entries[i].1)
    && (forall k :: k in m ==> exists i :: 0 <= i < |entries| && entries[i].0 == k)
  }

  /** `Array.from(m.entries())`, in some order of the keys. */
  method MapEntries<K(!new), V(==)>(m: map<K, V>) returns (entries: seq<(K, V)>)
    ensures ListsEntries(entries, m)
  {
    entries := [];
    var rest := m.Keys;
    while rest != {}
      invariant rest <= m.Keys
      invariant forall i :: 0 <= i < |entries| ==>
        entries[i].0 in m && m[entries[i].0] == entries[i].1 && entries[i].0 !in rest
      invariant forall i, j :: 0 <= i < j < |entries| ==> entries[i].0 != entries[j].0
      invariant forall k :: k in m && k !in rest ==> exists i :: 0 <= i < |entries| && entries[i].0 == k
      decreases |rest|
    {
      var k :| k in rest;
      ghost var before := entries;
      entries := entries + [(k, m[k])];
      rest := rest - {k};
      forall k' | k' in m && k' !in rest ensures exists i :: 0 <= i < |entries| && entries[i].0 == k' {
        if k' == k {
          assert entries[|before|].0 == k';
        } else {
          var i :| 0 <= i < |before| && before[i].0 == k';
          assert entries[i].0 == k';
        }
      }
    }
  }

  /** Rebuilding a Map from the list of its entries gives the Map back. */
  lemma {:induction false} MapOfListed<K(!new), V>(entries: seq<(K, V)>, m: map<K, V>)
    requires ListsEntries(entries, m)
    ensures MapOf(entries) == m
    decreases |entries|
  {
    if entries == [] {
      assert forall k :: k !in m;
    } else {
      var init := entries[..|entries| - 1];
      var (k, v) := entries[|entries| - 1];
      var m' := m - {k};
      assert ListsEntries(init, m') by {
        forall k' | k' in m' ensures exists i :: 0 <= i < |init| && init[i].0 == k' {
          var i :| 0 <= i < |entries| && entries[i].0 == k';
          assert i < |init|;
          assert init[i].0 == k';
        }
      }
      MapOfListed(init, m');
      assert m'[k := v] == m;
    }
  }

  /** Setting a key after deleting it is setting it. */
  lemma MapReplace<K, V>(m: map<K, V>, k: K, v: V)
    ensures (m - {k})[k := v] == m[k := v]
  {
  }

  // ---------------------------------------------------------------------
  // Counting (`counts[x] = (counts[x] || 0) + 1` over a list).
  // ---------------------------------------------------------------------

  /** One more `x`: its entry goes up by one, or a new entry is added at the end. */
  function TallyAdd<T(==)>(counts: seq<(T, nat)>, x: T): (r: seq<(T, nat)>)
    ensures |r| == |counts| || |r| == |counts| + 1
  {
    if counts == [] then [(x, 1)]
    else if counts[0].0 == x then [(x, counts[0].1 + 1)] + counts[1..]
    else [counts[0]] + TallyAdd(counts[1..], x)
  }

  /** Each value with its count, in the order values first appear. */
  function Tally<T(==)>(xs: seq<T>): seq<(T, nat)>
    decreases |xs|
  {
    if xs == [] then [] else TallyAdd(Tally(xs[..|xs| - 1]), xs[|xs| - 1])
  }

  /** The count recorded for `y`, 0 when it has no entry. */
  function CountOf<T(==)>(counts: seq<(T, nat)>, y: T): nat {
    if counts == [] then 0 else if counts[0].0 == y then counts[0].1 else CountOf(counts[1..], y)
  }

  function TallySum<T>(counts: seq<(T, nat)>): nat {
    if counts == [] then 0 else counts[0].1 + TallySum(counts[1..])
  }

  lemma {:induction false} TallyAddSpec<T>(counts: seq<(T, nat)>, x: T, y: T)
    ensures TallySum(TallyAdd(counts, x)) == TallySum(counts) + 1
    ensures CountOf(TallyAdd(counts, x), y) == CountOf(counts, y) + (if y == x then 1 else 0)
  {
    if counts != [] && counts[0].0 != x {
      TallyAddSpec(counts[1..], x, y);
    }
  }

  /** The counts add up to the length, and each value's count is its number of occurrences. */
  lemma {:induction false} TallySpec<T>(xs: seq<T>, y: T)
    ensures TallySum(Tally(xs)) == |xs|
    ensures CountOf(Tally(xs), y) == multiset(xs)[y]
    decreases |xs|
  {
    if xs != [] {
      var init := xs[..|xs| - 1];
      TallySpec(init, y);
      TallyAddSpec(Tally(init), xs[|xs| - 1], y);
      assert xs == init + [xs[|xs| - 1]];
    }
  }
}
