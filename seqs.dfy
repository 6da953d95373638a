/** Order-preserving sequence operations (JavaScript's `filter`, `slice`) and the
    facts about them that the rest of the model relies on. */
module Seqs {

  /** `xs.filter(p)`: the elements satisfying p, in their original order. */
  function Filter<T>(p: T -> bool, xs: seq<T>): (r: seq<T>)
    ensures |r| <= |xs|
    ensures forall i :: 0 <= i < |r| ==> p(r[i])
    ensures forall i :: 0 <= i < |r| ==> r[i] in xs
    ensures forall i :: 0 <= i < |xs| && p(xs[i]) ==> xs[i] in r
    decreases |xs|
  {
    if xs == [] then [] else (if p(xs[0]) then [xs[0]] else []) + Filter(p, xs[1..])
  }

  /** `a` is obtained from `b` by deleting elements: an order-preserving sublist. */
  ghost predicate IsSubsequence<T>(a: seq<T>, b: seq<T>)
    decreases |b|
  {
    if b == [] then a == []
    else (a != [] && a[0] == b[0] && IsSubsequence(a[1..], b[1..])) || IsSubsequence(a, b[1..])
  }

  /** `xs.slice(0, n)`: at most the first n elements. */
  function Take<T>(xs: seq<T>, n: nat): (r: seq<T>)
    ensures |r| == if |xs| < n then |xs| else n
    ensures forall i :: 0 <= i < |r| ==> r[i] == xs[i]
  {
    if |xs| < n then xs else xs[..n]
  }

  /** A sublist is never longer than the list. */
  lemma {:induction false} SubsequenceLength<T>(a: seq<T>, b: seq<T>)
    requires IsSubsequence(a, b)
    ensures |a| <= |b|
    decreases |b|
  {
    if b != [] {
      if a != [] && a[0] == b[0] && IsSubsequence(a[1..], b[1..]) {
        SubsequenceLength(a[1..], b[1..]);
      } else {
        SubsequenceLength(a, b[1..]);
      }
    }
  }

  /** The filter keeps something exactly when some element satisfies the predicate. */
  lemma FilterNonEmpty<T>(p: T -> bool, xs: seq<T>)
    ensures Filter(p, xs) != [] <==> exists i :: 0 <= i < |xs| && p(xs[i])
  {
    var r := Filter(p, xs);
    if r != [] {
      assert p(r[0]) && r[0] in xs;
    }
  }

  /** Extending the longer list keeps a sublist a sublist. */
  lemma {:induction false} SubsequenceExtend<T>(a: seq<T>, b: seq<T>, x: T)
    requires IsSubsequence(a, b)
    ensures IsSubsequence(a, b + [x])
    decreases |b|
  {
    if b != [] {
      assert (b + [x])[1..] == b[1..] + [x];
      if a != [] && a[0] == b[0] && IsSubsequence(a[1..], b[1..]) {
        SubsequenceExtend(a[1..], b[1..], x);
      } else {
        SubsequenceExtend(a, b[1..], x);
      }
    }
  }

  /** Extending both lists by the same element keeps a sublist a sublist. */
  lemma {:induction false} SubsequenceExtendBoth<T>(a: seq<T>, b: seq<T>, x: T)
    requires IsSubsequence(a, b)
    ensures IsSubsequence(a + [x], b + [x])
    decreases |b|
  {
    if b == [] {
      assert a + [x] == [x];
      assert ([x] + [])[1..] == [];
    } else {
      assert (b + [x])[1..] == b[1..] + [x];
      if a != [] && a[0] == b[0] && IsSubsequence(a[1..], b[1..]) {
        assert (a + [x])[1..] == a[1..] + [x];
        SubsequenceExtendBoth(a[1..], b[1..], x);
      } else {
        SubsequenceExtendBoth(a, b[1..], x);
      }
    }
  }

  lemma {:induction false} FilterIsSubsequence<T>(p: T -> bool, xs: seq<T>)
    ensures IsSubsequence(Filter(p, xs), xs)
    decreases |xs|
  {
    if xs != [] {
      FilterIsSubsequence(p, xs[1..]);
      if p(xs[0]) {
        assert Filter(p, xs) == [xs[0]] + Filter(p, xs[1..]);
      } else {
        assert Filter(p, xs) == Filter(p, xs[1..]);
      }
    }
  }

  /** A stricter predicate keeps a sublist of what a weaker one keeps. */
  lemma {:induction false} FilterStrongerIsSubsequence<T>(p: T -> bool, q: T -> bool, xs: seq<T>)
    requires forall x :: q(x) ==> p(x)
    ensures IsSubsequence(Filter(q, xs), Filter(p, xs))
    decreases |xs|
  {
    if xs != [] {
      FilterStrongerIsSubsequence(p, q, xs[1..]);
      var fq, fp := Filter(q, xs[1..]), Filter(p, xs[1..]);
      if q(xs[0]) {
        assert Filter(q, xs) == [xs[0]] + fq;
        assert Filter(p, xs) == [xs[0]] + fp;
        assert ([xs[0]] + fp)[1..] == fp;
        assert ([xs[0]] + fq)[1..] == fq;
      } else if p(xs[0]) {
        assert Filter(q, xs) == fq;
        assert Filter(p, xs) == [xs[0]] + fp;
        assert ([xs[0]] + fp)[1..] == fp;
      } else {
        assert Filter(q, xs) == fq;
        assert Filter(p, xs) == fp;
      }
    }
  }

  /** Filtering by p after a weaker q is filtering by p alone. */
  lemma {:induction false} FilterAfterWeaker<T>(p: T -> bool, q: T -> bool, xs: seq<T>)
    requires forall x :: p(x) ==> q(x)
    ensures Filter(p, Filter(q, xs)) == Filter(p, xs)
    decreases |xs|
  {
    if xs != [] {
      FilterAfterWeaker(p, q, xs[1..]);
      var fq := Filter(q, xs[1..]);
      if q(xs[0]) {
        assert Filter(q, xs) == [xs[0]] + fq;
        assert ([xs[0]] + fq)[1..] == fq;
        assert Filter(p, [xs[0]] + fq) == (if p(xs[0]) then [xs[0]] else []) + Filter(p, fq);
      } else {
        assert Filter(q, xs) == fq;
        assert Filter(p, xs) == Filter(p, xs[1..]);
      }
    }
  }

  /** Nothing is kept when no element satisfies the predicate. */
  lemma {:induction false} FilterNone<T>(p: T -> bool, xs: seq<T>)
    requires forall i :: 0 <= i < |xs| ==> !p(xs[i])
    ensures Filter(p, xs) == []
    decreases |xs|
  {
    if xs != [] {
      assert !p(xs[0]);
      FilterNone(p, xs[1..]);
    }
  }

  lemma {:induction false} FilterAppend<T>(p: T -> bool, xs: seq<T>, ys: seq<T>)
    ensures Filter(p, xs + ys) == Filter(p, xs) + Filter(p, ys)
    decreases |xs|
  {
    if xs == [] {
      assert xs + ys == ys;
    } else {
      assert (xs + ys)[1..] == xs[1..] + ys;
      FilterAppend(p, xs[1..], ys);
    }
  }

  /** Filtering the list extended by one element. */
  lemma FilterSnoc<T>(p: T -> bool, xs: seq<T>, x: T)
    ensures Filter(p, xs + [x]) == Filter(p, xs) + (if p(x) then [x] else [])
  {
    FilterAppend(p, xs, [x]);
    assert Filter(p, [x]) == (if p(x) then [x] else []) + Filter(p, []);
  }

  lemma {:induction false} FilterAll<T>(p: T -> bool, xs: seq<T>)
    requires forall i :: 0 <= i < |xs| ==> p(xs[i])
    ensures Filter(p, xs) == xs
    decreases |xs|
  {
    if xs != [] {
      FilterAll(p, xs[1..]);
    }
  }

  /** A filter and its complement split the list: together they hold every element
      exactly as often as the list does. */
  lemma {:induction false} FilterPartition<T>(p: T -> bool, q: T -> bool, xs: seq<T>)
    requires forall x :: q(x) == !p(x)
    ensures multiset(Filter(p, xs)) + multiset(Filter(q, xs)) == multiset(xs)
    ensures |Filter(p, xs)| + |Filter(q, xs)| == |xs|
    decreases |xs|
  {
    if xs != [] {
      FilterPartition(p, q, xs[1..]);
      assert xs == [xs[0]] + xs[1..];
    }
  }

  /** The filter keeps the whole list exactly when every element satisfies the predicate. */
  lemma FilterKeepsAllIff<T>(p: T -> bool, xs: seq<T>)
    ensures |Filter(p, xs)| == |xs| <==> forall i :: 0 <= i < |xs| ==> p(xs[i])
  {
    FilterPartition(p, x => !p(x), xs);
    if forall i :: 0 <= i < |xs| ==> p(xs[i]) {
      FilterAll(p, xs);
    } else {
      var i :| 0 <= i < |xs| && !p(xs[i]);
      var rest := Filter(x => !p(x), xs);
      assert xs[i] in rest;
    }
  }

  /** Applying the same filter twice changes nothing. */
  lemma {:induction false} FilterIdempotent<T>(p: T -> bool, xs: seq<T>)
    ensures Filter(p, Filter(p, xs)) == Filter(p, xs)
  {
    var r := Filter(p, xs);
    FilterAll(p, r);
  }
}
