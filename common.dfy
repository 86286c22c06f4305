/** Shared building blocks: optional values and the order-preserving
    `Array.prototype.filter` that every component of the application uses. */
module Common {

  /** A value that JavaScript may leave `null` or `undefined`. */
  datatype Option<+T> = None | Some(value: T)

  /** The outcome of an operation that may throw. */
  datatype Result<+T, +E> = Success(value: T) | Failure(error: E)

  /** `v || d` on a number that may be missing: `undefined`, `NaN` and `0`
      are falsy and give the default. */
  function IntOr(v: Option<int>, d: int): (r: int)
    ensures v.Some? && v.value != 0 ==> r == v.value
    ensures v.None? || v.value == 0 ==> r == d
  {
    if v.Some? && v.value != 0 then v.value else d
  }

  /** Applying the same `|| d` fallback to its own result changes nothing:
      a default applied once is never undone by a second application. */
  lemma IntOrStable(v: Option<int>, d: int)
    ensures IntOr(Some(IntOr(v, d)), d) == IntOr(v, d)
  {
  }

  /** `s.filter(p)`: the elements of `s` that satisfy `p`, in their order. */
  function Filter<T>(p: T -> bool, s: seq<T>): (r: seq<T>)
    ensures |r| <= |s|
    ensures forall i :: 0 <= i < |r| ==> p(r[i]) && r[i] in s
  {
    if s == [] then []
    else if p(s[0]) then [s[0]] + Filter(p, s[1..])
    else Filter(p, s[1..])
  }

  /** `a` can be obtained from `b` by deleting elements (order kept). */
  ghost predicate IsSubsequence<T>(a: seq<T>, b: seq<T>)
    decreases |b|
  {
    if a == [] then true
    else if b == [] then false
    else (a[0] == b[0] && IsSubsequence(a[1..], b[1..])) || IsSubsequence(a, b[1..])
  }

  lemma {:induction false} FilterIsSubsequence<T>(p: T -> bool, s: seq<T>)
    ensures IsSubsequence(Filter(p, s), s)
    decreases |s|
  {
    if s != [] {
      FilterIsSubsequence(p, s[1..]);
      var r := Filter(p, s);
      if p(s[0]) {
        assert r[0] == s[0] && r[1..] == Filter(p, s[1..]);
      } else {
        if r != [] {
          assert r == Filter(p, s[1..]);
        }
      }
    }
  }

  /** The filter keeps every occurrence of a satisfying element and drops
      every occurrence of the others: together with `FilterIsSubsequence`
      this pins the result down completely. */
  lemma {:induction false} FilterCounts<T>(p: T -> bool, s: seq<T>)
    ensures forall x :: multiset(Filter(p, s))[x] == if p(x) then multiset(s)[x] else 0
    decreases |s|
  {
    if s == [] {
    } else {
      FilterCounts(p, s[1..]);
      assert s == [s[0]] + s[1..];
      assert multiset(s) == multiset{s[0]} + multiset(s[1..]);
      if p(s[0]) {
        assert multiset(Filter(p, s)) == multiset{s[0]} + multiset(Filter(p, s[1..]));
      }
    }
  }

  /** Membership in the result is exactly membership in the input plus the test. */
  lemma {:induction false} FilterMembership<T>(p: T -> bool, s: seq<T>)
    ensures forall x :: x in Filter(p, s) <==> x in s && p(x)
  {
    FilterCounts(p, s);
    forall x
      ensures x in Filter(p, s) <==> x in s && p(x)
    {
      assert x in Filter(p, s) <==> multiset(Filter(p, s))[x] > 0;
      assert x in s <==> multiset(s)[x] > 0;
    }
  }

  /** A sequence all of whose elements pass is returned unchanged. */
  lemma {:induction false} FilterAllPass<T>(p: T -> bool, s: seq<T>)
    requires forall i :: 0 <= i < |s| ==> p(s[i])
    ensures Filter(p, s) == s
    decreases |s|
  {
    if s != [] {
      FilterAllPass(p, s[1..]);
      assert [s[0]] + s[1..] == s;
    }
  }

  /** A sequence none of whose elements pass filters to nothing. */
  lemma {:induction false} FilterNonePass<T>(p: T -> bool, s: seq<T>)
    requires forall i :: 0 <= i < |s| ==> !p(s[i])
    ensures Filter(p, s) == []
    decreases |s|
  {
    if s != [] {
      FilterNonePass(p, s[1..]);
    }
  }

  /** The first element kept is the first element of `s` that passes. */
  lemma {:induction false} FilterHead<T>(p: T -> bool, s: seq<T>)
    requires Filter(p, s) != []
    ensures exists k :: 0 <= k < |s| && Filter(p, s)[0] == s[k] && p(s[k])
                        && forall j :: 0 <= j < k ==> !p(s[j])
    decreases |s|
  {
    if p(s[0]) {
      assert Filter(p, s)[0] == s[0];
    } else {
      var t := s[1..];
      assert Filter(p, s) == Filter(p, t);
      FilterHead(p, t);
      var k :| 0 <= k < |t| && Filter(p, t)[0] == t[k] && p(t[k]) && forall j :: 0 <= j < k ==> !p(t[j]);
      assert s[k + 1] == t[k];
      forall j | 0 <= j < k + 1
        ensures !p(s[j])
      {
        if j > 0 {
          assert s[j] == t[j - 1];
        }
      }
    }
  }

  /** Filtering twice with the same test is filtering once. */
  lemma {:induction false} FilterIdempotent<T>(p: T -> bool, s: seq<T>)
    ensures Filter(p, Filter(p, s)) == Filter(p, s)
  {
    FilterAllPass(p, Filter(p, s));
  }

  /** Filtering a concatenation filters each part. */
  lemma {:induction false} FilterAppend<T>(p: T -> bool, s: seq<T>, t: seq<T>)
    ensures Filter(p, s + t) == Filter(p, s) + Filter(p, t)
    decreases |s|
  {
    if s == [] {
      assert s + t == t;
    } else {
      FilterAppend(p, s[1..], t);
      assert (s + t)[1..] == s[1..] + t;
    }
  }

  /** Two tests that agree on every element filter alike. */
  lemma {:induction false} FilterSameTest<T>(p: T -> bool, q: T -> bool, s: seq<T>)
    requires forall x :: p(x) == q(x)
    ensures Filter(p, s) == Filter(q, s)
    decreases |s|
  {
    if s != [] {
      FilterSameTest(p, q, s[1..]);
    }
  }

  /** `s.slice(0, n)`. */
  function Take<T>(s: seq<T>, n: nat): (r: seq<T>)
    ensures |r| == if |s| < n then |s| else n
    ensures r <= s
  {
    if |s| < n then s else s[..n]
  }
}
