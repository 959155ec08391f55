/** The array operations the source applies to its lists (`filter`,
    `filter(...).length`, `find`, `map` with a conditional replacement),
    written once for every element type. */
module SeqOps {
  import opened Wrappers

  /** `s.filter(p).length`. */
  function Count<T>(s: seq<T>, p: T -> bool): (n: nat)
    ensures n <= |s|
  {
    if s == [] then 0 else (if p(s[0]) then 1 else 0) + Count(s[1..], p)
  }

  /** `s.filter(keep)`: the elements that pass, in their original order. */
  function Filter<T>(s: seq<T>, keep: T -> bool): (r: seq<T>)
    ensures |r| == Count(s, keep)
    ensures forall i :: 0 <= i < |r| ==> r[i] in s && keep(r[i])
    ensures forall i :: 0 <= i < |s| && keep(s[i]) ==> s[i] in r
    ensures multiset(r) <= multiset(s)
  {
    if s == [] then []
    else
      var rest := Filter(s[1..], keep);
      KeepHead(s, keep, rest);
      if keep(s[0]) then [s[0]] + rest else rest
  }

  /** The recursive step of `Filter`: what holds of the filtered tail
      holds of the whole list, with the head put back when it passes. */
  lemma KeepHead<T>(s: seq<T>, keep: T -> bool, rest: seq<T>)
    requires s != []
    requires forall i :: 0 <= i < |rest| ==> rest[i] in s[1..] && keep(rest[i])
    requires forall i :: 0 <= i < |s[1..]| && keep(s[1..][i]) ==> s[1..][i] in rest
    requires multiset(rest) <= multiset(s[1..])
    ensures var r := if keep(s[0]) then [s[0]] + rest else rest;
      && (forall i :: 0 <= i < |r| ==> r[i] in s && keep(r[i]))
      && (forall i :: 0 <= i < |s| && keep(s[i]) ==> s[i] in r)
      && multiset(r) <= multiset(s)
  {
    assert s == [s[0]] + s[1..];
    forall i | 1 <= i < |s| && keep(s[i])
      ensures s[i] in rest
    {
      assert s[i] == s[1..][i - 1];
    }
  }

  /** `s.map(x => sel(x) ? f(x) : x)`: the shape every "update the element
      with this id" takes in the source. */
  function MapWhere<T>(s: seq<T>, sel: T -> bool, f: T -> T): (r: seq<T>)
    ensures |r| == |s|
    ensures forall i :: 0 <= i < |s| ==> r[i] == if sel(s[i]) then f(s[i]) else s[i]
  {
    seq(|s|, i requires 0 <= i < |s| => if sel(s[i]) then f(s[i]) else s[i])
  }

  /** The index `s.findIndex(p)` would return, or `|s|` when no element
      passes. */
  function IndexOf<T>(s: seq<T>, p: T -> bool): (k: nat)
    ensures k <= |s|
    ensures forall j :: 0 <= j < k ==> !p(s[j])
    ensures k < |s| ==> p(s[k])
  {
    if s == [] then 0
    else if p(s[0]) then 0
    else 1 + IndexOf(s[1..], p)
  }

  /** `s.find(p)`: the first element that passes, or nothing. */
  function Find<T>(s: seq<T>, p: T -> bool): (r: Option<T>)
    ensures r.None? <==> forall i :: 0 <= i < |s| ==> !p(s[i])
    ensures r.Some? ==> r.value in s && p(r.value)
    ensures r.Some? ==> exists k :: 0 <= k < |s| && r.value == s[k] && forall j :: 0 <= j < k ==> !p(s[j])
  {
    var k := IndexOf(s, p);
    if k < |s| then Some(s[k]) else None
  }

  /** `filter(p).length + filter(!p).length == length`: a predicate and its
      negation partition a list. */
  lemma {:induction false} CountComplement<T>(s: seq<T>, p: T -> bool, q: T -> bool)
    requires forall x :: q(x) == !p(x)
    ensures Count(s, p) + Count(s, q) == |s|
  {
    if s != [] {
      CountComplement(s[1..], p, q);
    }
  }

  /** Every element passes exactly when the count is the whole length. */
  lemma {:induction false} CountAll<T>(s: seq<T>, p: T -> bool)
    ensures Count(s, p) == |s| <==> forall i :: 0 <= i < |s| ==> p(s[i])
  {
    if s != [] {
      CountAll(s[1..], p);
      assert forall i :: 1 <= i < |s| ==> s[i] == s[1..][i - 1];
    }
  }

  /** Counting over a concatenation adds up. */
  lemma {:induction false} CountAppend<T>(s: seq<T>, t: seq<T>, p: T -> bool)
    ensures Count(s + t, p) == Count(s, p) + Count(t, p)
  {
    if s == [] {
      assert s + t == t;
    } else {
      assert (s + t)[1..] == s[1..] + t;
      CountAppend(s[1..], t, p);
    }
  }

  /** A count with a stronger predicate is no larger. */
  lemma {:induction false} CountMonotone<T>(s: seq<T>, p: T -> bool, q: T -> bool)
    requires forall x :: p(x) ==> q(x)
    ensures Count(s, p) <= Count(s, q)
  {
    if s != [] {
      CountMonotone(s[1..], p, q);
    }
  }

  /** Filtering a concatenation filters each part. */
  lemma {:induction false} FilterAppend<T>(s: seq<T>, t: seq<T>, keep: T -> bool)
    ensures Filter(s + t, keep) == Filter(s, keep) + Filter(t, keep)
  {
    if s == [] {
      assert s + t == t;
    } else {
      assert (s + t)[1..] == s[1..] + t;
      FilterAppend(s[1..], t, keep);
    }
  }

  /** A filter every element passes returns the list unchanged. */
  lemma {:induction false} FilterAll<T>(s: seq<T>, keep: T -> bool)
    requires forall i :: 0 <= i < |s| ==> keep(s[i])
    ensures Filter(s, keep) == s
  {
    if s != [] {
      FilterAll(s[1..], keep);
    }
  }

  /** A filter no element passes returns nothing. */
  lemma {:induction false} FilterNone<T>(s: seq<T>, keep: T -> bool)
    requires forall i :: 0 <= i < |s| ==> !keep(s[i])
    ensures Filter(s, keep) == []
  {
    if s != [] {
      FilterNone(s[1..], keep);
    }
  }

  /** A filter that drops exactly the element at `k` removes that one
      element and keeps the order of the rest. */
  lemma {:induction false} FilterDropsOne<T>(s: seq<T>, k: nat, keep: T -> bool)
    requires k < |s| && !keep(s[k])
    requires forall i :: 0 <= i < |s| && i != k ==> keep(s[i])
    ensures Filter(s, keep) == s[..k] + s[k + 1..]
  {
    var before, after := s[..k], s[k + 1..];
    assert s == before + ([s[k]] + after);
    FilterAppend(before, [s[k]] + after, keep);
    FilterAppend([s[k]], after, keep);
    assert Filter([s[k]], keep) == [] by {
      assert [s[k]][1..] == [];
    }
    forall i | 0 <= i < |before|
      ensures keep(before[i])
    {
      assert before[i] == s[i];
    }
    FilterAll(before, keep);
    forall i | 0 <= i < |after|
      ensures keep(after[i])
    {
      assert after[i] == s[k + 1 + i];
    }
    FilterAll(after, keep);
  }

  /** Two lists of the same length that agree on which positions pass a
      filter, and on the elements there, filter to the same list. */
  lemma {:induction false} FilterSameKept<T>(s: seq<T>, t: seq<T>, keep: T -> bool)
    requires |s| == |t|
    requires forall i :: 0 <= i < |s| ==> keep(t[i]) == keep(s[i])
    requires forall i :: 0 <= i < |s| && keep(s[i]) ==> t[i] == s[i]
    ensures Filter(t, keep) == Filter(s, keep)
  {
    if s != [] {
      var s', t' := s[1..], t[1..];
      forall i | 0 <= i < |s'|
        ensures keep(t'[i]) == keep(s'[i]) && (keep(s'[i]) ==> t'[i] == s'[i])
      {
        assert s'[i] == s[i + 1] && t'[i] == t[i + 1];
      }
      FilterSameKept(s', t', keep);
    }
  }

  /** Filtering first by a weaker predicate does not change the outcome of
      a later filter by a stronger one. */
  lemma {:induction false} FilterFilter<T>(s: seq<T>, p: T -> bool, q: T -> bool)
    requires forall i :: 0 <= i < |s| && q(s[i]) ==> p(s[i])
    ensures Filter(Filter(s, p), q) == Filter(s, q)
  {
    if s != [] {
      FilterFilter(s[1..], p, q);
    }
  }

  /** A conditional map that only touches elements a later filter drops,
      and keeps every element on the same side of that filter, is invisible
      through the filter. */
  lemma {:induction false} FilterMapWhere<T>(s: seq<T>, sel: T -> bool, f: T -> T, q: T -> bool)
    requires forall x :: q(f(x)) == q(x)
    requires forall x :: sel(x) ==> !q(x)
    ensures Filter(MapWhere(s, sel, f), q) == Filter(s, q)
  {
    if s != [] {
      var m := MapWhere(s, sel, f);
      assert m[1..] == MapWhere(s[1..], sel, f);
      FilterMapWhere(s[1..], sel, f, q);
    }
  }
  /** `x => key(x) === k`: the test behind one tab of a tab bar. */
  function HasKey<T(!new), K(==)>(key: T -> K, k: K): (p: T -> bool)
    ensures forall x :: p(x) == (key(x) == k)
  {
    (x: T) => key(x) == k
  }

  /** `x => ks.includes(key(x))`. */
  function KeyIn<T(!new), K(==)>(key: T -> K, ks: seq<K>): (p: T -> bool)
    ensures forall x :: p(x) == (key(x) in ks)
  {
    (x: T) => key(x) in ks
  }

  /** The badge counts of a tab bar with one tab per key:
      `ks.map(k => s.filter(x => key(x) === k).length)`. */
  function KeyCounts<T(!new), K(==)>(s: seq<T>, key: T -> K, ks: seq<K>): (r: seq<nat>)
    ensures |r| == |ks|
    ensures forall i :: 0 <= i < |ks| ==> r[i] == Count(s, HasKey(key, ks[i]))
  {
    seq(|ks|, i requires 0 <= i < |ks| => Count(s, HasKey(key, ks[i])))
  }

  function Sum(ns: seq<nat>): (t: nat)
    ensures ns != [] ==> t >= ns[0]
  {
    if ns == [] then 0 else ns[0] + Sum(ns[1..])
  }

  /** A predicate nothing passes counts nothing. */
  lemma {:induction false} CountNone<T>(s: seq<T>, p: T -> bool)
    requires forall x :: !p(x)
    ensures Count(s, p) == 0
  {
    if s != [] {
      CountNone(s[1..], p);
    }
  }

  /** Counting by a disjoint union of two tests adds the two counts. */
  lemma {:induction false} CountSplit<T>(s: seq<T>, p: T -> bool, q: T -> bool, r: T -> bool)
    requires forall x :: r(x) == (p(x) || q(x))
    requires forall x :: !(p(x) && q(x))
    ensures Count(s, r) == Count(s, p) + Count(s, q)
  {
    if s != [] {
      CountSplit(s[1..], p, q, r);
    }
  }

  /** Counting what a filter kept by a second test is counting by both
      tests at once. */
  lemma {:induction false} CountOfFilter<T>(s: seq<T>, p: T -> bool, q: T -> bool, both: T -> bool)
    requires forall x :: both(x) == (p(x) && q(x))
    ensures Count(Filter(s, p), q) == Count(s, both)
  {
    if s != [] {
      var rest := Filter(s[1..], p);
      assert Filter(s, p) == if p(s[0]) then [s[0]] + rest else rest;
      if p(s[0]) {
        assert ([s[0]] + rest)[1..] == rest;
      }
      CountOfFilter(s[1..], p, q, both);
    }
  }

  /** With distinct keys the tab badges add up to the number of elements
      whose key has a tab. */
  lemma {:induction false} SumKeyCounts<T(!new), K>(s: seq<T>, key: T -> K, ks: seq<K>)
    requires forall i, j :: 0 <= i < j < |ks| ==> ks[i] != ks[j]
    ensures Sum(KeyCounts(s, key, ks)) == Count(s, KeyIn(key, ks))
  {
    if ks == [] {
      CountNone(s, KeyIn(key, ks));
    } else {
      var t := ks[1..];
      assert KeyCounts(s, key, ks)[1..] == KeyCounts(s, key, t);
      SumKeyCounts(s, key, t);
      assert forall j :: 0 <= j < |t| ==> t[j] == ks[j + 1];
      assert ks[0] !in t;
      assert ks == [ks[0]] + t;
      CountSplit(s, HasKey(key, ks[0]), KeyIn(key, t), KeyIn(key, ks));
    }
  }

  /** When every element's key has a tab, the badges add up to the length
      of the list. */
  lemma SumKeyCountsIsLength<T(!new), K>(s: seq<T>, key: T -> K, ks: seq<K>)
    requires forall i, j :: 0 <= i < j < |ks| ==> ks[i] != ks[j]
    requires forall x :: key(x) in ks
    ensures Sum(KeyCounts(s, key, ks)) == |s|
  {
    SumKeyCounts(s, key, ks);
    CountAll(s, KeyIn(key, ks));
  }
}
