/**
  * The array operations the registry is built from: `filter` (here `Select`) and
  * `find`, with the facts about them that the filter chains and lookups rely on.
  */
module Seqs {
  import opened Wrappers

  /** `a` can be obtained from `b` by deleting elements: the relative order is kept. */
  ghost predicate SubsequenceOf<T>(a: seq<T>, b: seq<T>)
    decreases |b|
  {
    if a == [] then true
    else if b == [] then false
    else (a[0] == b[0] && SubsequenceOf(a[1..], b[1..])) || SubsequenceOf(a, b[1..])
  }

  /** An element of a subsequence is an element of the whole. */
  lemma {:induction false} SubsequenceMembers<T>(a: seq<T>, b: seq<T>, k: nat)
    requires SubsequenceOf(a, b) && k < |a|
    ensures a[k] in b
  {
    if b != [] {
      if a[0] == b[0] && SubsequenceOf(a[1..], b[1..]) {
        if k > 0 {
          SubsequenceMembers(a[1..], b[1..], k - 1);
        }
      } else {
        SubsequenceMembers(a, b[1..], k);
      }
    }
  }

  /**
    * `xs.filter(p)`: the elements that satisfy `p`, in their original order, and every
    * one of them.
    */
  function Select<T>(xs: seq<T>, p: T -> bool): (r: seq<T>)
    ensures |r| <= |xs|
    ensures SubsequenceOf(r, xs)
    ensures forall k :: 0 <= k < |r| ==> p(r[k])
    ensures forall k :: 0 <= k < |xs| && p(xs[k]) ==> xs[k] in r
  {
    if xs == [] then []
    else if p(xs[0]) then
      var rest := Select(xs[1..], p);
      assert ([xs[0]] + rest)[1..] == rest;
      [xs[0]] + rest
    else
      Select(xs[1..], p)
  }

  /** Filtering a one-element sequence keeps the element exactly when it passes. */
  lemma SelectSingle<T>(x: T, p: T -> bool)
    ensures Select([x], p) == if p(x) then [x] else []
  {
    assert [x][1..] == [];
  }

  /** A prefix of a prefix is a prefix. */
  lemma TakeTake<T>(xs: seq<T>, n: nat, i: nat)
    requires i <= n <= |xs|
    ensures xs[..n][..i] == xs[..i]
  {
  }

  /** Filtering a sequence with a first element: that element, if it passes, then the rest filtered. */
  lemma SelectCons<T>(x: T, xs: seq<T>, p: T -> bool)
    ensures Select([x] + xs, p) == (if p(x) then [x] else []) + Select(xs, p)
  {
    assert ([x] + xs)[0] == x;
    assert ([x] + xs)[1..] == xs;
  }

  /** Filtering distributes over concatenation. */
  lemma {:induction false} SelectAppend<T>(xs: seq<T>, ys: seq<T>, p: T -> bool)
    ensures Select(xs + ys, p) == Select(xs, p) + Select(ys, p)
  {
    if xs == [] {
      assert xs + ys == ys;
    } else {
      var x, rest := xs[0], xs[1..];
      var head := if p(x) then [x] else [];
      assert Select(xs + ys, p) == head + Select(rest + ys, p) by {
        assert xs + ys == [x] + (rest + ys);
        SelectCons(x, rest + ys, p);
      }
      assert Select(xs, p) == head + Select(rest, p) by {
        assert xs == [x] + rest;
        SelectCons(x, rest, p);
      }
      SelectAppend(rest, ys, p);
      ConcatAssoc(head, Select(rest, p), Select(ys, p));
    }
  }

  lemma ConcatAssoc<T>(a: seq<T>, b: seq<T>, c: seq<T>)
    ensures a + (b + c) == (a + b) + c
  {
  }

  /** Filtering depends only on which elements pass, not on how the test is written. */
  lemma {:induction false} SelectSameTest<T>(xs: seq<T>, p: T -> bool, q: T -> bool)
    requires forall k :: 0 <= k < |xs| ==> p(xs[k]) == q(xs[k])
    ensures Select(xs, p) == Select(xs, q)
  {
    if xs != [] {
      SelectSameTest(xs[1..], p, q);
    }
  }

  /** A filter that every element passes returns its input unchanged. */
  lemma {:induction false} SelectKeepsAll<T>(xs: seq<T>, p: T -> bool)
    requires forall k :: 0 <= k < |xs| ==> p(xs[k])
    ensures Select(xs, p) == xs
  {
    if xs != [] {
      SelectKeepsAll(xs[1..], p);
    }
  }

  /** A filter that no element passes returns the empty sequence. */
  lemma {:induction false} SelectDropsAll<T>(xs: seq<T>, p: T -> bool)
    requires forall k :: 0 <= k < |xs| ==> !p(xs[k])
    ensures Select(xs, p) == []
  {
    if xs != [] {
      SelectDropsAll(xs[1..], p);
    }
  }

  /** Filtering again with the same predicate changes nothing. */
  lemma SelectIdempotent<T>(xs: seq<T>, p: T -> bool)
    ensures Select(Select(xs, p), p) == Select(xs, p)
  {
    SelectKeepsAll(Select(xs, p), p);
  }

  /** Two filters in a row are one filter by the conjunction of their predicates. */
  lemma {:induction false} SelectFuse<T>(xs: seq<T>, p: T -> bool, q: T -> bool, pq: T -> bool)
    requires forall x :: pq(x) == (p(x) && q(x))
    ensures Select(Select(xs, p), q) == Select(xs, pq)
  {
    if xs != [] {
      SelectFuse(xs[1..], p, q, pq);
      if p(xs[0]) {
        assert Select(xs, p) == [xs[0]] + Select(xs[1..], p);
        assert Select(xs, p)[1..] == Select(xs[1..], p);
      }
    }
  }

  /** Consecutive filters commute. */
  lemma SelectCommute<T>(xs: seq<T>, p: T -> bool, q: T -> bool)
    ensures Select(Select(xs, p), q) == Select(Select(xs, q), p)
  {
    var pq := x => p(x) && q(x);
    SelectFuse(xs, p, q, pq);
    SelectFuse(xs, q, p, pq);
  }

  /** Each element goes to exactly one side of a filter: kept plus dropped is all. */
  lemma {:induction false} SelectPartition<T>(xs: seq<T>, p: T -> bool, notP: T -> bool)
    requires forall x :: notP(x) == !p(x)
    ensures |Select(xs, p)| + |Select(xs, notP)| == |xs|
  {
    if xs != [] {
      SelectPartition(xs[1..], p, notP);
    }
  }

  /** `xs.filter(x => x !== null)` over optional values: the present values, in order. */
  function Somes<T>(xs: seq<Option<T>>): (r: seq<T>)
    ensures |r| <= |xs|
    ensures forall k :: 0 <= k < |r| ==> Some(r[k]) in xs
    ensures forall k :: 0 <= k < |xs| && xs[k].Some? ==> xs[k].value in r
  {
    if xs == [] then []
    else if xs[0].Some? then [xs[0].value] + Somes(xs[1..])
    else Somes(xs[1..])
  }

  /** A present first value leads the result; an absent one is dropped. */
  lemma SomesCons<T>(x: Option<T>, xs: seq<Option<T>>)
    ensures Somes([x] + xs) == (if x.Some? then [x.value] else []) + Somes(xs)
  {
    assert ([x] + xs)[0] == x;
    assert ([x] + xs)[1..] == xs;
  }

  /** Dropping the absent values distributes over concatenation. */
  lemma {:induction false} SomesAppend<T>(xs: seq<Option<T>>, ys: seq<Option<T>>)
    ensures Somes(xs + ys) == Somes(xs) + Somes(ys)
  {
    if xs == [] {
      assert xs + ys == ys;
    } else {
      assert (xs + ys)[1..] == xs[1..] + ys;
      SomesAppend(xs[1..], ys);
    }
  }

  /** `xs.map(f)`: `f` applied to every element, in order. */
  function MapSeq<A, B>(xs: seq<A>, f: A -> B): (r: seq<B>)
    ensures |r| == |xs|
    ensures forall k :: 0 <= k < |xs| ==> r[k] == f(xs[k])
  {
    seq(|xs|, k requires 0 <= k < |xs| => f(xs[k]))
  }

  /** Mapping distributes over concatenation. */
  lemma MapAppend<A, B>(xs: seq<A>, ys: seq<A>, f: A -> B)
    ensures MapSeq(xs + ys, f) == MapSeq(xs, f) + MapSeq(ys, f)
  {
    var whole, parts := MapSeq(xs + ys, f), MapSeq(xs, f) + MapSeq(ys, f);
    forall k | 0 <= k < |whole|
      ensures whole[k] == parts[k]
    {
      if k < |xs| {
        assert (xs + ys)[k] == xs[k];
      } else {
        assert (xs + ys)[k] == ys[k - |xs|];
      }
    }
  }

  /** Filtering then mapping a sequence with one more element at its end. */
  lemma MapSelectSnoc<A, B>(xs: seq<A>, x: A, p: A -> bool, f: A -> B)
    ensures MapSeq(Select(xs + [x], p), f) == MapSeq(Select(xs, p), f) + MapSeq(Select([x], p), f)
  {
    SelectAppend(xs, [x], p);
    MapAppend(Select(xs, p), Select([x], p), f);
  }

  /** Filtering then mapping a one-element sequence. */
  lemma MapSelectSingle<A, B>(x: A, p: A -> bool, f: A -> B)
    ensures MapSeq(Select([x], p), f) == if p(x) then [f(x)] else []
  {
    SelectSingle(x, p);
  }

  /** `xs.find(p)`: the first element that satisfies `p`, or nothing when none does. */
  function Find<T>(xs: seq<T>, p: T -> bool): (r: Option<T>)
    ensures r.None? <==> forall k :: 0 <= k < |xs| ==> !p(xs[k])
    ensures r.Some? ==> exists i :: 0 <= i < |xs| && xs[i] == r.value && p(xs[i]) &&
                                    forall j :: 0 <= j < i ==> !p(xs[j])
  {
    if xs == [] then None
    else if p(xs[0]) then Some(xs[0])
    else
      Find(xs[1..], p)
  }

  /** Looking up an element that sits at the front of everything it matches finds it. */
  lemma {:induction false} FindAt<T>(xs: seq<T>, p: T -> bool, i: nat)
    requires i < |xs| && p(xs[i])
    requires forall j :: 0 <= j < i ==> !p(xs[j])
    ensures Find(xs, p) == Some(xs[i])
  {
    if i > 0 {
      FindAt(xs[1..], p, i - 1);
    }
  }
}
