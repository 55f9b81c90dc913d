/** The JavaScript array built-ins that the application's rules rely on:
    Array.prototype.filter and `Array.from(new Set(xs))`. */
module JsArrays {

  /** Array.prototype.filter: the elements satisfying `p`, in their order. */
  function Filter<T(!new)>(s: seq<T>, p: T -> bool): (r: seq<T>)
    ensures |r| <= |s|
    ensures forall x :: x in r <==> x in s && p(x)
    decreases |s|
  {
    if s == [] then []
    else
      var rest := Filter(s[1..], p);
      assert s == [s[0]] + s[1..];
      if p(s[0]) then [s[0]] + rest else rest
  }

  lemma {:induction false} FilterAppend<T(!new)>(s: seq<T>, t: seq<T>, p: T -> bool)
    ensures Filter(s + t, p) == Filter(s, p) + Filter(t, p)
    decreases |s|
  {
    if s != [] {
      assert (s + t)[1..] == s[1..] + t;
      FilterAppend(s[1..], t, p);
    } else {
      assert s + t == t;
    }
  }

  /** Filtering with a predicate that every element satisfies keeps the sequence. */
  lemma {:induction false} FilterAll<T(!new)>(s: seq<T>, p: T -> bool)
    requires forall x :: x in s ==> p(x)
    ensures Filter(s, p) == s
    decreases |s|
  {
    if s != [] {
      FilterAll(s[1..], p);
    }
  }

  /** Filtering keeps every element exactly when every element satisfies
      the predicate. */
  lemma {:induction false} FilterLengthAll<T(!new)>(s: seq<T>, p: T -> bool)
    ensures |Filter(s, p)| == |s| <==> forall x :: x in s ==> p(x)
    decreases |s|
  {
    if s != [] {
      FilterLengthAll(s[1..], p);
      assert s == [s[0]] + s[1..];
      if !p(s[0]) {
        assert |Filter(s, p)| <= |s[1..]|;
      }
    }
  }

  /** Filtering with a predicate no element satisfies gives the empty sequence. */
  lemma FilterNone<T(!new)>(s: seq<T>, p: T -> bool)
    requires forall x :: x in s ==> !p(x)
    ensures Filter(s, p) == []
  {
  }

  /** Filtering by `p` first changes nothing for a predicate `q` that implies `p`. */
  lemma {:induction false} FilterFilter<T(!new)>(s: seq<T>, p: T -> bool, q: T -> bool)
    requires forall x :: q(x) ==> p(x)
    ensures Filter(Filter(s, p), q) == Filter(s, q)
    decreases |s|
  {
    if s != [] {
      FilterFilter(s[1..], p, q);
      if p(s[0]) {
        assert Filter(s, p)[1..] == Filter(s[1..], p);
      }
    }
  }

  /** When `p` and `q` never hold together and `pq` holds exactly when one of
      them does, the two filters split the `pq` filter between them. */
  lemma {:induction false} FilterPartition<T(!new)>(s: seq<T>, p: T -> bool, q: T -> bool, pq: T -> bool)
    requires forall x :: pq(x) <==> p(x) || q(x)
    requires forall x :: !(p(x) && q(x))
    ensures multiset(Filter(s, p)) + multiset(Filter(s, q)) == multiset(Filter(s, pq))
    decreases |s|
  {
    if s != [] {
      FilterPartition(s[1..], p, q, pq);
    }
  }

  /** No element occurs twice. */
  predicate Distinct<T(==)>(s: seq<T>) {
    forall i, j :: 0 <= i < j < |s| ==> s[i] != s[j]
  }

  /** `xs.filter(y => y !== x)`: every occurrence of `x` removed, the rest
      kept in order. */
  function Without<T(==,!new)>(xs: seq<T>, x: T): (r: seq<T>)
    ensures |r| <= |xs|
    ensures x !in r
    ensures forall y :: y != x ==> (y in r <==> y in xs)
    decreases |xs|
  {
    if xs == [] then []
    else
      assert xs == [xs[0]] + xs[1..];
      (if xs[0] == x then [] else [xs[0]]) + Without(xs[1..], x)
  }

  lemma {:induction false} WithoutSnoc<T(!new)>(xs: seq<T>, last: T, x: T)
    ensures Without(xs + [last], x) == Without(xs, x) + (if last == x then [] else [last])
    decreases |xs|
  {
    if xs == [] {
      assert Without([last], x) == (if last == x then [] else [last]) + Without([], x);
    } else {
      assert (xs + [last])[1..] == xs[1..] + [last];
      WithoutSnoc(xs[1..], last, x);
    }
  }

  /** Removing an element that does not occur changes nothing. */
  lemma {:induction false} WithoutAbsent<T(!new)>(xs: seq<T>, x: T)
    requires x !in xs
    ensures Without(xs, x) == xs
    decreases |xs|
  {
    if xs != [] {
      assert xs == [xs[0]] + xs[1..];
      WithoutAbsent(xs[1..], x);
    }
  }

  /** `Array.from(new Set(xs))`: a Set keeps the first occurrence of each
      element, in order, and ignores the later ones. */
  function Dedupe<T(==,!new)>(xs: seq<T>): (r: seq<T>)
    ensures |r| <= |xs|
    decreases |xs|
  {
    if xs == [] then [] else [xs[0]] + Dedupe(Without(xs[1..], xs[0]))
  }

  /** Deduplication keeps exactly the elements of the input and repeats none. */
  lemma {:induction false} DedupeSpec<T(!new)>(xs: seq<T>)
    ensures forall x :: x in Dedupe(xs) <==> x in xs
    ensures Distinct(Dedupe(xs))
    decreases |xs|
  {
    if xs != [] {
      var w := Without(xs[1..], xs[0]);
      DedupeSpec(w);
      assert xs == [xs[0]] + xs[1..];
      var d := Dedupe(w);
      assert xs[0] !in d;
      assert Dedupe(xs) == [xs[0]] + d;
    }
  }

  /** A sequence without repetitions is its own deduplication. */
  lemma {:induction false} DedupeDistinct<T(!new)>(xs: seq<T>)
    requires Distinct(xs)
    ensures Dedupe(xs) == xs
    decreases |xs|
  {
    if xs != [] {
      assert xs[0] !in xs[1..];
      WithoutAbsent(xs[1..], xs[0]);
      DedupeDistinct(xs[1..]);
    }
  }

  /** Deduplicating `xs + [x]` appends `x` to the deduplicated `xs` unless it
      already occurs in `xs`. */
  lemma {:induction false} DedupeSnoc<T(!new)>(xs: seq<T>, x: T)
    ensures Dedupe(xs + [x]) == Dedupe(xs) + (if x in xs then [] else [x])
    decreases |xs|
  {
    if xs == [] {
      assert Dedupe([x]) == [x] + Dedupe(Without([], x));
    } else {
      var h := xs[0];
      assert (xs + [x])[0] == h && (xs + [x])[1..] == xs[1..] + [x];
      WithoutSnoc(xs[1..], x, h);
      var w := Without(xs[1..], h);
      if x == h {
        assert Without(xs[1..] + [x], h) == w;
        assert Dedupe(xs + [x]) == [h] + Dedupe(w);
      } else {
        DedupeSnoc(w, x);
        assert x in w <==> x in xs;
        assert Dedupe(xs + [x]) == [h] + Dedupe(w + [x]);
      }
    }
  }
}
