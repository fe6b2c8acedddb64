/**
 Order-preserving deduplication, as `[... new Set(list)]` computes it in JavaScript:
 a set remembers insertion order, so every distinct element is kept once, at the
 position of its first occurrence.
 */
module Deduplication {

  /** True iff no element occurs twice. */
  predicate NoDuplicates<T(==)>(xs: seq<T>) {
    forall i, j :: 0 <= i < j < |xs| ==> xs[i] != xs[j]
  }

  /** The position of the first occurrence of `x` in `xs`. */
  function FirstIndex<T(==)>(xs: seq<T>, x: T): (k: nat)
    requires x in xs
    ensures k < |xs| && xs[k] == x
    ensures forall j :: 0 <= j < k ==> xs[j] != x
  {
    if xs[0] == x then 0 else 1 + FirstIndex(xs[1..], x)
  }

  /** Any position holding `x` with no earlier `x` is the first index. */
  lemma FirstIndexUnique<T>(xs: seq<T>, x: T, k: nat)
    requires k < |xs| && xs[k] == x
    requires forall j :: 0 <= j < k ==> xs[j] != x
    ensures FirstIndex(xs, x) == k
  {
  }

  /** Every element of `r` occurs in `xs` and every element of `xs` occurs in `r`. */
  predicate SameElements<T(==)>(r: seq<T>, xs: seq<T>) {
    && (forall i :: 0 <= i < |r| ==> r[i] in xs)
    && (forall i :: 0 <= i < |xs| ==> xs[i] in r)
  }

  /** The elements of `r` appear in the order of their first occurrence in `xs`. */
  predicate InFirstOccurrenceOrder<T(==)>(r: seq<T>, xs: seq<T>) {
    forall i, j :: 0 <= i < j < |r| && r[i] in xs && r[j] in xs ==> FirstIndex(xs, r[i]) < FirstIndex(xs, r[j])
  }

  /**
   The distinct elements of `xs`, each once, ordered by first occurrence. Defined
   as the JavaScript set builds it: walking the list, an element is appended
   unless it has been seen.
   */
  function Dedup<T(==)>(xs: seq<T>): (r: seq<T>)
    ensures NoDuplicates(r)
    ensures SameElements(r, xs)
    ensures InFirstOccurrenceOrder(r, xs)
  {
    if |xs| == 0 then []
    else
      var init := xs[..|xs| - 1];
      var x := xs[|xs| - 1];
      var d := Dedup(init);
      assert xs == init + [x];
      if x in d then
        StepSeen(init, x, d);
        d
      else
        StepUnseen(init, x, d);
        d + [x]
  }

  /** Walking past an element already seen keeps the properties of `Dedup`. */
  lemma StepSeen<T>(init: seq<T>, x: T, d: seq<T>)
    requires SameElements(d, init) && InFirstOccurrenceOrder(d, init)
    requires x in d
    ensures SameElements(d, init + [x])
    ensures InFirstOccurrenceOrder(d, init + [x])
  {
    var xs := init + [x];
    forall i | 0 <= i < |xs| ensures xs[i] in d {
      if i < |init| {
        assert xs[i] == init[i];
      }
    }
    forall i | 0 <= i < |d| ensures d[i] in xs {
      var k := FirstIndex(init, d[i]);
      assert xs[k] == d[i];
    }
    FirstIndexOfPrefix(init, x, d);
  }

  /** Walking past a new element and appending it keeps the properties of `Dedup`. */
  lemma StepUnseen<T>(init: seq<T>, x: T, d: seq<T>)
    requires NoDuplicates(d) && SameElements(d, init) && InFirstOccurrenceOrder(d, init)
    requires x !in d
    ensures NoDuplicates(d + [x])
    ensures SameElements(d + [x], init + [x])
    ensures InFirstOccurrenceOrder(d + [x], init + [x])
  {
    var xs, r := init + [x], d + [x];
    assert x !in init;
    forall i | 0 <= i < |xs| ensures xs[i] in r {
      if i < |init| {
        assert xs[i] == init[i];
        var k := FirstIndex(d, init[i]);
        assert r[k] == xs[i];
      }
    }
    forall i | 0 <= i < |r| ensures r[i] in xs {
      if i < |d| {
        var k := FirstIndex(init, d[i]);
        assert xs[k] == r[i];
      }
    }
    FirstIndexOfPrefix(init, x, d);
    FirstIndexUnique(xs, x, |init|);
    forall i, j | 0 <= i < j < |r| && r[i] in xs && r[j] in xs
      ensures FirstIndex(xs, r[i]) < FirstIndex(xs, r[j])
    {
      assert r[i] == d[i];
      if j < |d| {
        assert r[j] == d[j];
      }
    }
  }

  /** Extending a list does not move the first occurrence of anything already in it. */
  lemma FirstIndexOfPrefix<T>(init: seq<T>, x: T, d: seq<T>)
    requires forall i :: 0 <= i < |d| ==> d[i] in init
    ensures forall i :: 0 <= i < |d| ==> FirstIndex(init + [x], d[i]) == FirstIndex(init, d[i])
  {
    forall i | 0 <= i < |d|
      ensures FirstIndex(init + [x], d[i]) == FirstIndex(init, d[i])
    {
      var k := FirstIndex(init, d[i]);
      FirstIndexUnique(init + [x], d[i], k);
    }
  }

  /** A repeated element adds nothing: only its first occurrence counts. */
  lemma DedupIgnoresRepeat<T>(xs: seq<T>, x: T)
    requires x in xs
    ensures Dedup(xs + [x]) == Dedup(xs)
  {
    assert (xs + [x])[..|xs|] == xs;
  }

  /** A list without repetitions is its own deduplication. */
  lemma {:induction false} DedupOfDistinct<T>(xs: seq<T>)
    requires NoDuplicates(xs)
    ensures Dedup(xs) == xs
  {
    if |xs| > 0 {
      var init := xs[..|xs| - 1];
      DedupOfDistinct(init);
      assert xs[|xs| - 1] !in init;
      assert xs == init + [xs[|xs| - 1]];
    }
  }

  /** Deduplicating twice is the same as deduplicating once. */
  lemma DedupIdempotent<T>(xs: seq<T>)
    ensures Dedup(Dedup(xs)) == Dedup(xs)
  {
    DedupOfDistinct(Dedup(xs));
  }

  /**
   The deduplication loop of the program: a set of already seen entries and an
   output list that grows in input order.
   */
  method DedupInOrder<T(==)>(xs: seq<T>) returns (r: seq<T>)
    ensures r == Dedup(xs)
  {
    var seen: set<T> := {};
    r := [];
    var i := 0;
    while i < |xs|
      invariant 0 <= i <= |xs|
      invariant r == Dedup(xs[..i])
      invariant forall y :: y in seen <==> y in xs[..i]
    {
      assert xs[..i + 1][..i] == xs[..i];
      if xs[i] !in seen {
        seen := seen + {xs[i]};
        r := r + [xs[i]];
      }
      i := i + 1;
    }
    assert xs[..i] == xs;
  }
}
