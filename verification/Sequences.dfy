/** Comprehensions over lists, as the source writes them. */
module Sequences {

  function Filter<T>(xs: seq<T>, keep: T -> bool): seq<T> {
    if xs == [] then [] else (if keep(xs[0]) then [xs[0]] else []) + Filter(xs[1..], keep)
  }

  lemma {:induction false} FilterMembers<T>(xs: seq<T>, keep: T -> bool)
    ensures forall y :: y in Filter(xs, keep) ==> y in xs && keep(y)
    ensures forall y :: y in xs && keep(y) ==> y in Filter(xs, keep)
    ensures |Filter(xs, keep)| <= |xs|
  {
    if xs != [] {
      FilterMembers(xs[1..], keep);
      assert xs == [xs[0]] + xs[1..];
    }
  }

  lemma {:induction false} FilterCounts<T>(xs: seq<T>, keep: T -> bool, x: T)
    ensures multiset(Filter(xs, keep))[x] == if keep(x) then multiset(xs)[x] else 0
  {
    if xs != [] {
      FilterCounts(xs[1..], keep, x);
      assert xs == [xs[0]] + xs[1..];
    }
  }

  lemma FilterPermutation<T(!new)>(xs: seq<T>, ys: seq<T>, keep: T -> bool)
    requires multiset(xs) == multiset(ys)
    ensures multiset(Filter(xs, keep)) == multiset(Filter(ys, keep))
  {
    forall x ensures multiset(Filter(xs, keep))[x] == multiset(Filter(ys, keep))[x] {
      FilterCounts(xs, keep, x);
      FilterCounts(ys, keep, x);
    }
  }

  lemma {:induction false} FilterConcat<T>(xs: seq<T>, ys: seq<T>, keep: T -> bool)
    ensures Filter(xs + ys, keep) == Filter(xs, keep) + Filter(ys, keep)
  {
    hide Filter;
    FilterStep(xs, keep);
    if xs == [] {
      assert xs + ys == ys;
    } else {
      FilterConcat(xs[1..], ys, keep);
      FilterStep(xs + ys, keep);
      assert (xs + ys)[1..] == xs[1..] + ys;
    }
  }

  lemma FilterStep<T>(xs: seq<T>, keep: T -> bool)
    ensures xs == [] ==> Filter(xs, keep) == []
    ensures xs != [] ==> Filter(xs, keep) == (if keep(xs[0]) then [xs[0]] else []) + Filter(xs[1..], keep)
  {
  }

  lemma {:induction false} FilterNone<T>(xs: seq<T>, keep: T -> bool)
    requires forall x :: x in xs ==> !keep(x)
    ensures Filter(xs, keep) == []
  {
    if xs != [] {
      FilterNone(xs[1..], keep);
    }
  }

  lemma {:induction false} FilterSame<T>(xs: seq<T>, keep: T -> bool, keep': T -> bool)
    requires forall x :: x in xs ==> keep(x) == keep'(x)
    ensures Filter(xs, keep) == Filter(xs, keep')
  {
    FilterStep(xs, keep);
    FilterStep(xs, keep');
    hide Filter;
    if xs != [] {
      assert xs[0] in xs && forall x :: x in xs[1..] ==> x in xs;
      FilterSame(xs[1..], keep, keep');
    }
  }

  lemma FilterOne<T>(xs: seq<T>, keep: T -> bool, n: nat)
    requires n < |xs| && keep(xs[n]) && forall i :: 0 <= i < |xs| && i != n ==> !keep(xs[i])
    ensures Filter(xs, keep) == [xs[n]]
  {
    assert xs == xs[..n] + ([xs[n]] + xs[n + 1..]);
    FilterConcat(xs[..n], [xs[n]] + xs[n + 1..], keep);
    FilterConcat([xs[n]], xs[n + 1..], keep);
    FilterNone(xs[..n], keep);
    FilterNone(xs[n + 1..], keep);
    assert [xs[n]][1..] == [];
    FilterStep([xs[n]], keep);
    FilterStep([xs[n]][1..], keep);
  }

  lemma {:induction false} FilterAgree<T>(xs: seq<T>, keep: T -> bool, keep': T -> bool)
    requires forall x :: x in xs ==> keep(x) == keep'(x)
    ensures Filter(xs, keep) == Filter(xs, keep')
  {
    if xs != [] {
      FilterAgree(xs[1..], keep, keep');
    }
  }

  /** list.remove(x): the first occurrence goes. */
  function Remove<T(==)>(xs: seq<T>, x: T): seq<T> {
    if xs == [] then [] else if xs[0] == x then xs[1..] else [xs[0]] + Remove(xs[1..], x)
  }
}
