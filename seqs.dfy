/**
 * Sequence vocabulary shared by the analysis: distinct elements in
 * first-occurrence order (the order in which a JS dictionary receives its
 * keys), sums, and how occurrence counts add up over the distinct keys.
 */
module Seqs {

  predicate NoDup<T(==)>(s: seq<T>) {
    forall i, j :: 0 <= i < j < |s| ==> s[i] != s[j]
  }

  /** The distinct elements of `s`, each where it first occurs. */
  function Distinct<T(==)>(s: seq<T>): (d: seq<T>)
    ensures NoDup(d)
    ensures forall i :: 0 <= i < |s| ==> s[i] in d
    ensures forall i :: 0 <= i < |d| ==> d[i] in s
    ensures |d| <= |s|
  {
    if s == [] then []
    else
      var p := Distinct(s[..|s| - 1]);
      assert s == s[..|s| - 1] + [s[|s| - 1]];
      if s[|s| - 1] in p then p else p + [s[|s| - 1]]
  }

  /** Appending an element extends the distinct elements only when it is new. */
  lemma DistinctSnoc<T>(s: seq<T>, x: T)
    ensures Distinct(s + [x]) == if x in Distinct(s) then Distinct(s) else Distinct(s) + [x]
  {
    assert (s + [x])[..|s|] == s;
  }

  /** A sequence without duplicates has as many elements as its set. */
  lemma {:induction false} NoDupCardinality<T>(d: seq<T>)
    requires NoDup(d)
    ensures |set x | x in d| == |d|
  {
    if d != [] {
      var p := d[..|d| - 1];
      NoDupCardinality(p);
      assert d == p + [d[|d| - 1]];
      assert (set x | x in d) == (set x | x in p) + {d[|d| - 1]};
      assert d[|d| - 1] !in p;
    }
  }

  /** The distinct elements are as many as the elements of the set. */
  lemma DistinctCardinality<T>(s: seq<T>)
    ensures |Distinct(s)| == |set x | x in s|
  {
    var d := Distinct(s);
    NoDupCardinality(d);
    assert (set x | x in d) == (set x | x in s);
  }

  function SumReals(s: seq<real>): real {
    if s == [] then 0.0 else SumReals(s[..|s| - 1]) + s[|s| - 1]
  }

  /** The occurrence counts in `s` of the elements of `labels`, added up. */
  function SumCounts<T(==)>(labels: seq<T>, s: seq<T>): nat {
    if labels == [] then 0 else SumCounts(labels[..|labels| - 1], s) + multiset(s)[labels[|labels| - 1]]
  }

  lemma {:induction false} SumCountsSnoc<T>(labels: seq<T>, s: seq<T>, x: T)
    ensures SumCounts(labels, s + [x]) == SumCounts(labels, s) + multiset(labels)[x]
  {
    if labels != [] {
      var p := labels[..|labels| - 1];
      SumCountsSnoc(p, s, x);
      assert labels == p + [labels[|labels| - 1]];
      assert multiset(labels) == multiset(p) + multiset{labels[|labels| - 1]};
    }
  }

  lemma {:induction false} CountInNoDup<T>(labels: seq<T>, x: T)
    requires NoDup(labels) && x in labels
    ensures multiset(labels)[x] == 1
  {
    var p := labels[..|labels| - 1];
    assert labels == p + [labels[|labels| - 1]];
    assert multiset(labels) == multiset(p) + multiset{labels[|labels| - 1]};
    if labels[|labels| - 1] == x {
      assert x !in p;
    } else {
      CountInNoDup(p, x);
    }
  }

  /** Over keys that list every element of `s` once, the counts add up to `|s|`. */
  lemma {:induction false} SumCountsOfKeys<T>(labels: seq<T>, s: seq<T>)
    requires NoDup(labels)
    requires forall i :: 0 <= i < |s| ==> s[i] in labels
    ensures SumCounts(labels, s) == |s|
  {
    if s == [] {
      SumCountsEmpty(labels, s);
    } else {
      var p := s[..|s| - 1];
      assert s == p + [s[|s| - 1]];
      SumCountsOfKeys(labels, p);
      SumCountsSnoc(labels, p, s[|s| - 1]);
      CountInNoDup(labels, s[|s| - 1]);
    }
  }

  lemma {:induction false} SumCountsEmpty<T>(labels: seq<T>, s: seq<T>)
    requires s == []
    ensures SumCounts(labels, s) == 0
  {
    if labels != [] {
      SumCountsEmpty(labels[..|labels| - 1], s);
    }
  }

  /** A sequence of reals that lists the counts of `labels` sums to their total. */
  lemma {:induction false} SumRealsOfCounts<T>(values: seq<real>, labels: seq<T>, s: seq<T>)
    requires |values| == |labels|
    requires forall i :: 0 <= i < |values| ==> values[i] == multiset(s)[labels[i]] as real
    ensures SumReals(values) == SumCounts(labels, s) as real
  {
    if values != [] {
      SumRealsOfCounts(values[..|values| - 1], labels[..|labels| - 1], s);
    }
  }

  /** `s.filter(p)`: the elements satisfying `p`, in their order. */
  function Filter<T>(s: seq<T>, p: T -> bool): (f: seq<T>)
    ensures |f| <= |s|
  {
    if s == [] then [] else Filter(s[..|s| - 1], p) + if p(s[|s| - 1]) then [s[|s| - 1]] else []
  }

  /** A one-element sequence keeps its element or nothing. */
  lemma FilterOne<T>(x: T, p: T -> bool)
    ensures Filter([x], p) == if p(x) then [x] else []
  {
    assert [x][..0] == [];
  }

  /** Filtering distributes over concatenation: the kept elements stay in order. */
  lemma {:induction false} FilterAppend<T>(a: seq<T>, b: seq<T>, p: T -> bool)
    ensures Filter(a + b, p) == Filter(a, p) + Filter(b, p)
    decreases |b|
  {
    if b == [] {
      assert a + b == a;
    } else {
      FilterAppend(a, b[..|b| - 1], p);
      assert (a + b)[..|a + b| - 1] == a + b[..|b| - 1];
    }
  }

  /** The kept elements are exactly the elements satisfying `p`. */
  lemma {:induction false} FilterMembers<T>(s: seq<T>, p: T -> bool)
    ensures forall x :: x in Filter(s, p) <==> x in s && p(x)
  {
    if s != [] {
      FilterMembers(s[..|s| - 1], p);
      assert s == s[..|s| - 1] + [s[|s| - 1]];
    }
  }

  /** Every kept element satisfies `p`; when all or none of `s` satisfy `p`, all or none are kept. */
  lemma FilterAll<T>(s: seq<T>, p: T -> bool)
    ensures forall i :: 0 <= i < |Filter(s, p)| ==> p(Filter(s, p)[i])
    ensures (forall i :: 0 <= i < |s| ==> p(s[i])) ==> Filter(s, p) == s
    ensures (forall i :: 0 <= i < |s| ==> !p(s[i])) ==> Filter(s, p) == []
  {
    FilterKeepsPassing(s, p);
    if forall i :: 0 <= i < |s| ==> p(s[i]) {
      FilterKeepsAll(s, p);
    }
    if forall i :: 0 <= i < |s| ==> !p(s[i]) {
      FilterKeepsNone(s, p);
    }
  }

  lemma {:induction false} FilterKeepsPassing<T>(s: seq<T>, p: T -> bool)
    ensures forall i :: 0 <= i < |Filter(s, p)| ==> p(Filter(s, p)[i])
  {
    if s != [] {
      FilterKeepsPassing(s[..|s| - 1], p);
    }
  }

  lemma {:induction false} FilterKeepsAll<T>(s: seq<T>, p: T -> bool)
    requires forall i :: 0 <= i < |s| ==> p(s[i])
    ensures Filter(s, p) == s
  {
    if s != [] {
      FilterKeepsAll(s[..|s| - 1], p);
      assert s == s[..|s| - 1] + [s[|s| - 1]];
    }
  }

  lemma {:induction false} FilterKeepsNone<T>(s: seq<T>, p: T -> bool)
    requires forall i :: 0 <= i < |s| ==> !p(s[i])
    ensures Filter(s, p) == []
  {
    if s != [] {
      FilterKeepsNone(s[..|s| - 1], p);
    }
  }

  /** A filter and its complement split the multiset of elements. */
  lemma {:induction false} FilterSplit<T>(s: seq<T>, p: T -> bool, q: T -> bool)
    requires forall x :: q(x) == !p(x)
    ensures multiset(Filter(s, p)) + multiset(Filter(s, q)) == multiset(s)
  {
    if s != [] {
      FilterSplit(s[..|s| - 1], p, q);
      assert s == s[..|s| - 1] + [s[|s| - 1]];
    }
  }

  /**
   * A JavaScript counting dictionary after counting `seen`: its keys, in
   * insertion order, are the distinct elements, and each maps to how often
   * it occurs.
   */
  ghost predicate Tallies<T(!new)>(keys: seq<T>, counts: map<T, nat>, seen: seq<T>) {
    && keys == Distinct(seen)
    && (forall k :: k in counts <==> k in keys)
    && (forall k :: k in counts ==> counts[k] == multiset(seen)[k])
  }

  /** `counts[key] = (counts[key] || 0) + 1`. */
  method CountValue<T(==,!new)>(keys: seq<T>, counts: map<T, nat>, key: T, ghost seen: seq<T>)
    returns (keys': seq<T>, counts': map<T, nat>)
    requires Tallies(keys, counts, seen)
    ensures Tallies(keys', counts', seen + [key])
  {
    DistinctSnoc(seen, key);
    CountStep(seen, key);
    var previous := if key in counts then counts[key] else 0;
    assert previous == multiset(seen)[key];
    counts' := counts[key := previous + 1];
    keys' := if key in keys then keys else keys + [key];
    assert keys' == Distinct(seen + [key]);
    forall k | k in counts'
      ensures counts'[k] == multiset(seen + [key])[k]
    {
      if k != key {
        assert counts'[k] == counts[k];
      }
    }
  }

  lemma CountStep<T>(s: seq<T>, x: T)
    ensures forall k :: multiset(s + [x])[k] == multiset(s)[k] + (if k == x then 1 else 0)
  {
    assert multiset(s + [x]) == multiset(s) + multiset{x};
  }
}
