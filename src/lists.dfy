/** `Array.prototype.filter`, counting and order-preserving subsequences, shared
    by the list pages. */
module Lists {

  /** `a` is `b` with some elements dropped, order kept. */
  predicate Subsequence<T(==)>(a: seq<T>, b: seq<T>)
    decreases |b|
  {
    if a == [] then true
    else if b == [] then false
    else if a[0] == b[0] then Subsequence(a[1..], b[1..])
    else Subsequence(a, b[1..])
  }

  /** A subsequence of `b` stays one when an element is put in front of `b`. */
  lemma {:induction false} SubsequenceExtend<T>(a: seq<T>, x: T, b: seq<T>)
    requires Subsequence(a, b)
    ensures Subsequence(a, [x] + b)
    decreases |b| + 1, 0
  {
    if a != [] && a[0] == x {
      SubsequenceTail(a, b);
      assert ([x] + b)[1..] == b;
    } else if a != [] {
      assert ([x] + b)[1..] == b;
    }
  }

  /** Dropping the first element of a subsequence leaves a subsequence. */
  lemma {:induction false} SubsequenceTail<T>(a: seq<T>, b: seq<T>)
    requires Subsequence(a, b) && a != []
    ensures Subsequence(a[1..], b)
    decreases |b|, 1
  {
    if a[0] == b[0] {
      SubsequenceExtend(a[1..], b[0], b[1..]);
      assert [b[0]] + b[1..] == b;
    } else {
      SubsequenceTail(a, b[1..]);
      SubsequenceExtend(a[1..], b[0], b[1..]);
      assert [b[0]] + b[1..] == b;
    }
  }

  /** `l.filter(keep)`. */
  function Filter<T(!new)>(l: seq<T>, keep: T -> bool): (r: seq<T>)
    ensures |r| <= |l|
    ensures forall x :: x in r <==> x in l && keep(x)
  {
    if l == [] then [] else (if keep(l[0]) then [l[0]] else []) + Filter(l[1..], keep)
  }

  /** The kept elements are in their original order. */
  lemma {:induction false} FilterSubsequence<T(!new)>(l: seq<T>, keep: T -> bool)
    ensures Subsequence(Filter(l, keep), l)
  {
    if l != [] {
      FilterSubsequence(l[1..], keep);
      var rest := Filter(l[1..], keep);
      if keep(l[0]) {
        assert Filter(l, keep) == [l[0]] + rest;
        assert ([l[0]] + rest)[1..] == rest;
      } else {
        assert Filter(l, keep) == rest;
        SubsequenceExtend(rest, l[0], l[1..]);
        assert [l[0]] + l[1..] == l;
      }
    }
  }

  /** A test every element passes keeps the whole list. */
  lemma {:induction false} FilterAll<T(!new)>(l: seq<T>, keep: T -> bool)
    requires forall x :: x in l ==> keep(x)
    ensures Filter(l, keep) == l
  {
    if l != [] {
      FilterAll(l[1..], keep);
      assert [l[0]] + l[1..] == l;
    }
  }

  /** `l.filter(keep).length`. */
  function Count<T>(l: seq<T>, keep: T -> bool): (n: nat)
    ensures n <= |l|
  {
    if l == [] then 0 else (if keep(l[0]) then 1 else 0) + Count(l[1..], keep)
  }

  lemma {:induction false} CountIsFilterLength<T(!new)>(l: seq<T>, keep: T -> bool)
    ensures Count(l, keep) == |Filter(l, keep)|
  {
    if l != [] {
      CountIsFilterLength(l[1..], keep);
    }
  }

  /** `l.map(f)`. */
  function Map<T, U>(l: seq<T>, f: T -> U): (r: seq<U>)
    ensures |r| == |l|
    ensures forall i :: 0 <= i < |l| ==> r[i] == f(l[i])
  {
    if l == [] then [] else [f(l[0])] + Map(l[1..], f)
  }

  /** `l.reduce((acc, x) => acc + value(x), 0)`. */
  function SumOf<T>(l: seq<T>, value: T -> int): int {
    if l == [] then 0 else SumOf(l[..|l| - 1], value) + value(l[|l| - 1])
  }

  lemma {:induction false} SumOfAppend<T>(a: seq<T>, b: seq<T>, value: T -> int)
    ensures SumOf(a + b, value) == SumOf(a, value) + SumOf(b, value)
    decreases |b|
  {
    if b != [] {
      SumOfAppend(a, b[..|b| - 1], value);
      assert (a + b)[..|a + b| - 1] == a + b[..|b| - 1];
    } else {
      assert a + b == a;
    }
  }
}
