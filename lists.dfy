/** Python list comprehensions with a condition, `[x for x in xs if keep(x)]`. */
module Lists {

  /** The elements of `xs` that satisfy `keep`, in their original order. */
  function Filter<T(!new)>(xs: seq<T>, keep: T -> bool): (r: seq<T>)
    ensures |r| <= |xs|
    ensures forall x :: x in r <==> x in xs && keep(x)
    ensures r == [] <==> forall x :: x in xs ==> !keep(x)
  {
    if |xs| == 0 then []
    else if keep(xs[0]) then [xs[0]] + Filter(xs[1..], keep)
    else Filter(xs[1..], keep)
  }

  /** Filtering goes element by element: the kept elements of a concatenation
      are the kept elements of each part, in order. */
  lemma {:induction false} FilterAppend<T(!new)>(xs: seq<T>, ys: seq<T>, keep: T -> bool)
    ensures Filter(xs + ys, keep) == Filter(xs, keep) + Filter(ys, keep)
  {
    if |xs| == 0 {
      assert xs + ys == ys;
    } else {
      assert (xs + ys)[1..] == xs[1..] + ys;
      FilterAppend(xs[1..], ys, keep);
    }
  }

  /** A filter that keeps everything changes nothing. */
  lemma {:induction false} FilterAll<T(!new)>(xs: seq<T>, keep: T -> bool)
    requires forall x :: x in xs ==> keep(x)
    ensures Filter(xs, keep) == xs
  {
    if |xs| > 0 {
      FilterAll(xs[1..], keep);
    }
  }

  /** Filtering twice keeps what both conditions keep. */
  lemma {:induction false} FilterFilter<T(!new)>(xs: seq<T>, first: T -> bool, second: T -> bool)
    ensures Filter(Filter(xs, first), second) == Filter(xs, x => first(x) && second(x))
  {
    if |xs| > 0 {
      FilterFilter(xs[1..], first, second);
      if first(xs[0]) {
        assert Filter(xs, first)[1..] == Filter(xs[1..], first);
      }
    }
  }
}
