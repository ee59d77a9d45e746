/**
 * The array operations the components apply to the lists they hold: `filter(y => y !== x)`,
 * the add-or-remove toggle of a multi-select, `filter((_, j) => j !== i)`, `filter`, `map`
 * and `slice(0, n)`.
 */
module Lists {

  /** No element occurs twice. */
  predicate Distinct<T(==,!new)>(xs: seq<T>) {
    forall i, j :: 0 <= i < j < |xs| ==> xs[i] != xs[j]
  }

  /** `xs.filter(y => y !== x)`: every occurrence of `x` dropped, the rest kept in order. */
  function Remove<T(==,!new)>(xs: seq<T>, x: T): (r: seq<T>)
    ensures x !in r
    ensures forall y :: y != x ==> (y in r <==> y in xs)
    ensures |r| <= |xs|
  {
    if xs == [] then []
    else if xs[0] == x then Remove(xs[1..], x)
    else [xs[0]] + Remove(xs[1..], x)
  }

  /** Removing distributes over concatenation. */
  lemma {:induction false} RemoveAppend<T(!new)>(a: seq<T>, b: seq<T>, x: T)
    ensures Remove(a + b, x) == Remove(a, x) + Remove(b, x)
  {
    if a != [] {
      assert (a + b)[1..] == a[1..] + b;
      RemoveAppend(a[1..], b, x);
    } else {
      assert a + b == b;
    }
  }

  /** Removing an element that is not there changes nothing. */
  lemma {:induction false} RemoveAbsent<T(!new)>(xs: seq<T>, x: T)
    requires x !in xs
    ensures Remove(xs, x) == xs
  {
    if xs != [] {
      assert xs[0] in xs;
      RemoveAbsent(xs[1..], x);
      assert [xs[0]] + xs[1..] == xs;
    }
  }

  /** Removing keeps a list free of duplicates. */
  lemma {:induction false} RemoveDistinct<T(!new)>(xs: seq<T>, x: T)
    requires Distinct(xs)
    ensures Distinct(Remove(xs, x))
  {
    if xs != [] {
      RemoveDistinct(xs[1..], x);
      if xs[0] != x {
        assert xs[0] !in xs[1..] by {
          forall k | 0 <= k < |xs[1..]| ensures xs[1..][k] != xs[0] {
            assert xs[1..][k] == xs[k + 1];
          }
        }
        assert xs[0] !in Remove(xs[1..], x);
        var r := Remove(xs, x);
        forall i, j | 0 <= i < j < |r| ensures r[i] != r[j] {
          if i == 0 {
            assert r[j] in Remove(xs[1..], x);
          } else {
            assert r[i] == Remove(xs[1..], x)[i - 1] && r[j] == Remove(xs[1..], x)[j - 1];
          }
        }
      }
    }
  }

  /**
   * The toggle of a multi-select: `xs.includes(x) ? xs.filter(y => y !== x) : [...xs, x]`.
   * Afterwards `x` is selected exactly when it was not before; nothing else changes.
   */
  function Toggle<T(==,!new)>(xs: seq<T>, x: T): (r: seq<T>)
    ensures x in r <==> x !in xs
    ensures forall y :: y != x ==> (y in r <==> y in xs)
  {
    if x in xs then Remove(xs, x) else xs + [x]
  }

  /** Toggling an unselected item twice restores the list exactly, order included. */
  lemma ToggleTwice<T(!new)>(xs: seq<T>, x: T)
    requires x !in xs
    ensures Toggle(Toggle(xs, x), x) == xs
  {
    RemoveAppend(xs, [x], x);
    RemoveAbsent(xs, x);
    assert Remove([x], x) == [];
  }

  /** Toggling keeps a selection free of duplicates. */
  lemma ToggleDistinct<T(!new)>(xs: seq<T>, x: T)
    requires Distinct(xs)
    ensures Distinct(Toggle(xs, x))
  {
    if x in xs {
      RemoveDistinct(xs, x);
    }
  }

  /** `xs.filter((_, j) => j !== i)`: the element at position `i` dropped, if there is one. */
  function RemoveAt<T>(xs: seq<T>, i: int): (r: seq<T>)
    ensures 0 <= i < |xs| ==> r == xs[..i] + xs[i + 1..]
    ensures !(0 <= i < |xs|) ==> r == xs
  {
    if xs == [] then []
    else if i == 0 then xs[1..]
    else
      var rest := RemoveAt(xs[1..], i - 1);
      assert 0 <= i < |xs| ==> [xs[0]] + xs[1..][..i - 1] + xs[1..][i..] == xs[..i] + xs[i + 1..];
      [xs[0]] + rest
  }

  /** `xs.filter(p)`. */
  function Filter<T>(xs: seq<T>, p: T -> bool): (r: seq<T>)
    ensures |r| <= |xs|
    ensures forall k :: 0 <= k < |r| ==> p(r[k])
  {
    if xs == [] then []
    else if p(xs[0]) then [xs[0]] + Filter(xs[1..], p)
    else Filter(xs[1..], p)
  }

  /** Every element of `xs` that satisfies `p` is kept. */
  lemma {:induction false} FilterKeeps<T>(xs: seq<T>, p: T -> bool, y: T)
    requires y in xs && p(y)
    ensures y in Filter(xs, p)
  {
    if xs[0] != y {
      FilterKeeps(xs[1..], p, y);
    }
  }

  /** Only elements of `xs` are kept. */
  lemma {:induction false} FilterSubset<T>(xs: seq<T>, p: T -> bool, y: T)
    requires y in Filter(xs, p)
    ensures y in xs && p(y)
  {
    if xs[0] != y {
      FilterSubset(xs[1..], p, y);
    }
  }

  /** An element kept after mapping `f` and filtering by `p` is the image of an input and passes `p`. */
  lemma FilterMapSource<T, U>(xs: seq<T>, f: T -> U, p: U -> bool, y: U)
    requires y in Filter(Map(xs, f), p)
    ensures p(y) && exists k :: 0 <= k < |xs| && y == f(xs[k])
  {
    FilterSubset(Map(xs, f), p, y);
    MapSource(xs, f, y);
  }

  /** An element of a mapped sequence is the image of an input. */
  lemma {:induction false} MapSource<T, U>(xs: seq<T>, f: T -> U, y: U)
    requires y in Map(xs, f)
    ensures exists k :: 0 <= k < |xs| && y == f(xs[k])
  {
    if f(xs[0]) != y {
      assert Map(xs, f) == [f(xs[0])] + Map(xs[1..], f);
      MapSource(xs[1..], f, y);
      var k :| 0 <= k < |xs[1..]| && y == f(xs[1..][k]);
      assert y == f(xs[k + 1]);
    }
  }

  lemma {:induction false} FilterAppend<T>(a: seq<T>, b: seq<T>, p: T -> bool)
    ensures Filter(a + b, p) == Filter(a, p) + Filter(b, p)
  {
    if a != [] {
      assert (a + b)[1..] == a[1..] + b;
      FilterAppend(a[1..], b, p);
    } else {
      assert a + b == b;
    }
  }

  /** `xs.map(f)`. */
  function Map<T, U>(xs: seq<T>, f: T -> U): (r: seq<U>)
    ensures |r| == |xs|
    ensures forall k :: 0 <= k < |xs| ==> r[k] == f(xs[k])
  {
    if xs == [] then [] else [f(xs[0])] + Map(xs[1..], f)
  }

  lemma {:induction false} MapAppend<T, U>(a: seq<T>, b: seq<T>, f: T -> U)
    ensures Map(a + b, f) == Map(a, f) + Map(b, f)
  {
  }

  /**
   * `xs.slice(0, n)`: the first `n` elements; a negative `n` counts from the end, so
   * `slice(0, -k)` drops the last `k` elements.
   */
  function Take<T>(xs: seq<T>, n: int): (r: seq<T>)
    ensures 0 <= n ==> |r| == (if n < |xs| then n else |xs|)
    ensures n < 0 ==> |r| == (if -n < |xs| then |xs| + n else 0)
    ensures r == xs[..|r|]
  {
    if n >= |xs| then xs
    else if n >= 0 then xs[..n]
    else if -n < |xs| then xs[..|xs| + n]
    else []
  }
}
