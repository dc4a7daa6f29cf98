/** Small value types and sequence facts shared by the whole model. */
module Prelude {

  datatype Option<+T> = None | Some(value: T)

  datatype Result<+T, +E> = Ok(value: T) | Err(error: E)

  function Pow2(k: nat): (p: nat)
    ensures p > 0
  {
    if k == 0 then 1 else 2 * Pow2(k - 1)
  }

  ghost predicate Distinct<T>(s: seq<T>) {
    forall i, j :: 0 <= i < j < |s| ==> s[i] != s[j]
  }

  /** The elements of `s` that satisfy `p`, in order. */
  function Filter<T(!new)>(s: seq<T>, p: T -> bool): (r: seq<T>)
    ensures forall x :: x in r <==> x in s && p(x)
    ensures |r| <= |s|
  {
    if s == [] then []
    else
      var front := Filter(s[..|s| - 1], p);
      var last := s[|s| - 1];
      assert s == s[..|s| - 1] + [last];
      if p(last) then front + [last] else front
  }

  lemma {:induction false} FilterStep<T(!new)>(s: seq<T>, x: T, p: T -> bool)
    ensures Filter(s + [x], p) == if p(x) then Filter(s, p) + [x] else Filter(s, p)
  {
    assert (s + [x])[..|s + [x]| - 1] == s;
  }

  lemma {:induction false} FilterConcat<T(!new)>(a: seq<T>, b: seq<T>, p: T -> bool)
    ensures Filter(a + b, p) == Filter(a, p) + Filter(b, p)
    decreases |b|
  {
    if b == [] {
      assert a + b == a;
    } else {
      var front, last := b[..|b| - 1], b[|b| - 1];
      assert a + b == (a + front) + [last] && b == front + [last];
      FilterConcat(a, front, p);
      FilterStep(a + front, last, p);
      FilterStep(front, last, p);
    }
  }

  lemma {:induction false} FilterTwice<T(!new)>(s: seq<T>, p: T -> bool, q: T -> bool, both: T -> bool)
    requires forall x :: x in s ==> both(x) == (p(x) && q(x))
    ensures Filter(Filter(s, p), q) == Filter(s, both)
    decreases |s|
  {
    if s != [] {
      assert s[|s| - 1] in s;
      FilterTwice(s[..|s| - 1], p, q, both);
      FilterStep(Filter(s[..|s| - 1], p), s[|s| - 1], q);
    }
  }

  lemma FilterAgrees<T(!new)>(s: seq<T>, p: T -> bool, q: T -> bool)
    requires forall x :: x in s ==> p(x) == q(x)
    ensures Filter(s, p) == Filter(s, q)
    decreases |s|
  {
    if s != [] {
      assert s[|s| - 1] in s;
      FilterAgrees(s[..|s| - 1], p, q);
    }
  }

  lemma FilterEverything<T(!new)>(s: seq<T>, p: T -> bool)
    requires forall x :: x in s ==> p(x)
    ensures Filter(s, p) == s
    decreases |s|
  {
    if s != [] {
      assert s[|s| - 1] in s;
      FilterEverything(s[..|s| - 1], p);
      assert s == s[..|s| - 1] + [s[|s| - 1]];
    }
  }

  lemma {:induction false} FilterDistinct<T(!new)>(s: seq<T>, p: T -> bool)
    requires Distinct(s)
    ensures Distinct(Filter(s, p))
    decreases |s|
  {
    if s != [] {
      var front := s[..|s| - 1];
      FilterDistinct(front, p);
      assert s[|s| - 1] !in front;
    }
  }

  /** `retain(|y| y != x)`. */
  function Drop<T(==, !new)>(s: seq<T>, x: T): seq<T> {
    Filter(s, y => y != x)
  }

  /** `push` guarded by `contains`. */
  function AddIfAbsent<T(==)>(s: seq<T>, x: T): seq<T> {
    if x in s then s else s + [x]
  }

  /** Pushes every element of `xs` that is not there yet: an order-preserving union. */
  function AddAll<T(==, !new)>(base: seq<T>, xs: seq<T>): (r: seq<T>)
    ensures forall x :: x in r <==> x in base || x in xs
    ensures base <= r
    decreases |xs|
  {
    if xs == [] then base
    else
      assert xs == xs[..|xs| - 1] + [xs[|xs| - 1]];
      AddIfAbsent(AddAll(base, xs[..|xs| - 1]), xs[|xs| - 1])
  }

  lemma {:induction false} AddAllStep<T(!new)>(base: seq<T>, xs: seq<T>, x: T)
    ensures AddAll(base, xs + [x]) == AddIfAbsent(AddAll(base, xs), x)
  {
    assert (xs + [x])[..|xs + [x]| - 1] == xs;
  }

  lemma {:induction false} AddAllAssociative<T(!new)>(a: seq<T>, b: seq<T>, c: seq<T>)
    ensures AddAll(AddAll(a, b), c) == AddAll(a, AddAll(b, c))
    decreases |c|
  {
    if c != [] {
      var front, last := c[..|c| - 1], c[|c| - 1];
      AddAllAssociative(a, b, front);
      var inner := AddAll(b, front);
      if last !in inner {
        AddAllStep(a, inner, last);
      }
    }
  }

  lemma {:induction false} AddAllDistinct<T(!new)>(base: seq<T>, xs: seq<T>)
    requires Distinct(base)
    ensures Distinct(AddAll(base, xs))
    decreases |xs|
  {
    if xs != [] {
      AddAllDistinct(base, xs[..|xs| - 1]);
    }
  }

  /** On distinct elements the union with nothing is the list itself. */
  lemma {:induction false} AddAllToEmpty<T(!new)>(xs: seq<T>)
    requires Distinct(xs)
    ensures AddAll([], xs) == xs
    decreases |xs|
  {
    hide AddAll;
    if xs == [] {
      AddAllNothing<T>([]);
    } else {
      var front, last := xs[..|xs| - 1], xs[|xs| - 1];
      AddAllToEmpty(front);
      assert last !in front;
      AddAllStep([], front, last);
      assert xs == front + [last];
    }
  }

  lemma AddAllNothing<T(!new)>(base: seq<T>)
    ensures AddAll(base, []) == base
  {
  }

  lemma {:induction false} FewerThan<T(!new)>(a: seq<T>, b: seq<T>)
    requires Distinct(a) && forall x :: x in a ==> x in b
    ensures |a| <= |b|
    decreases |a|
  {
    if a != [] {
      var front, last := a[..|a| - 1], a[|a| - 1];
      assert last in b;
      DropShrinks(b, last);
      FewerThan(front, Drop(b, last));
    }
  }

  lemma {:induction false} DropShrinks<T(!new)>(s: seq<T>, x: T)
    requires x in s
    ensures |Drop(s, x)| < |s|
    decreases |s|
  {
    var front := s[..|s| - 1];
    assert s == front + [s[|s| - 1]];
    if s[|s| - 1] != x {
      DropShrinks(front, x);
    }
  }
}
