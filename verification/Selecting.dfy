/** Picking and counting elements of a list, and the facts that make both
    independent of the list's order. */
module Selecting {
  import opened Sorting

  /** The images of the elements that satisfy `p`, in order. */
  function Selected<T, U>(xs: seq<T>, p: T -> bool, f: T -> U): seq<U> {
    if xs == [] then []
    else Selected(xs[..|xs| - 1], p, f) + (if p(xs[|xs| - 1]) then [f(xs[|xs| - 1])] else [])
  }

  function Total<T>(xs: seq<T>, f: T -> nat): nat {
    if xs == [] then 0 else Total(xs[..|xs| - 1], f) + f(xs[|xs| - 1])
  }

  lemma SelectedSnoc<T, U>(xs: seq<T>, x: T, p: T -> bool, f: T -> U)
    ensures Selected(xs + [x], p, f) == if p(x) then Selected(xs, p, f) + [f(x)] else Selected(xs, p, f)
  {
    assert Selected(xs, p, f) + [] == Selected(xs, p, f);
  }

  lemma TotalSnoc<T>(xs: seq<T>, x: T, f: T -> nat)
    ensures Total(xs + [x], f) == Total(xs, f) + f(x)
  {
  }

  lemma {:induction false} SelectedAppend<T, U>(xs: seq<T>, ys: seq<T>, p: T -> bool, f: T -> U)
    ensures Selected(xs + ys, p, f) == Selected(xs, p, f) + Selected(ys, p, f)
  {
    if ys == [] {
      assert xs + ys == xs;
    } else {
      var init, last := ys[..|ys| - 1], ys[|ys| - 1];
      SelectedAppend(xs, init, p, f);
      assert xs + ys == (xs + init) + [last];
      SelectedSnoc(xs + init, last, p, f);
    }
  }

  lemma {:induction false} TotalAppend<T>(xs: seq<T>, ys: seq<T>, f: T -> nat)
    ensures Total(xs + ys, f) == Total(xs, f) + Total(ys, f)
  {
    if ys == [] {
      assert xs + ys == xs;
    } else {
      var init, last := ys[..|ys| - 1], ys[|ys| - 1];
      TotalAppend(xs, init, f);
      assert xs + ys == (xs + init) + [last];
      TotalSnoc(xs + init, last, f);
    }
  }

  lemma Extracted<T>(xs: seq<T>, ys: seq<T>) returns (at: nat)
    requires xs != [] && multiset(xs) == multiset(ys)
    ensures at < |ys| && ys[at] == xs[|xs| - 1]
    ensures multiset(xs[..|xs| - 1]) == multiset(ys[..at] + ys[at + 1..])
    ensures ys == ys[..at] + [ys[at]] + ys[at + 1..]
  {
    SameElements(xs, ys);
    var x := xs[|xs| - 1];
    assert x in ys;
    at :| 0 <= at < |ys| && ys[at] == x;
    assert xs == xs[..|xs| - 1] + [x];
    assert ys == ys[..at] + [x] + ys[at + 1..];
    var a, b := multiset(xs[..|xs| - 1]), multiset(ys[..at]) + multiset(ys[at + 1..]);
    assert multiset(xs) == a + multiset{x};
    assert multiset(ys) == multiset(ys[..at]) + multiset{x} + multiset(ys[at + 1..]) == b + multiset{x};
    Cancel(a, b, x);
  }

  lemma Cancel<T>(a: multiset<T>, b: multiset<T>, x: T)
    requires a + multiset{x} == b + multiset{x}
    ensures a == b
  {
    assert a == a + multiset{x} - multiset{x};
    assert b == b + multiset{x} - multiset{x};
  }

  /** What is selected, as a multiset, does not depend on the order. */
  lemma {:induction false} SelectedPermutes<T, U>(xs: seq<T>, ys: seq<T>, p: T -> bool, f: T -> U)
    requires multiset(xs) == multiset(ys)
    ensures multiset(Selected(xs, p, f)) == multiset(Selected(ys, p, f))
  {
    if xs != [] {
      var at := Extracted(xs, ys);
      var rest := ys[..at] + ys[at + 1..];
      SelectedPermutes(xs[..|xs| - 1], rest, p, f);
      SelectedAppend(ys[..at], ys[at + 1..], p, f);
      SelectedAppend(ys[..at] + [ys[at]], ys[at + 1..], p, f);
      SelectedSnoc(ys[..at], ys[at], p, f);
    } else {
      assert ys == [];
    }
  }

  lemma {:induction false} TotalPermutes<T>(xs: seq<T>, ys: seq<T>, f: T -> nat)
    requires multiset(xs) == multiset(ys)
    ensures Total(xs, f) == Total(ys, f)
  {
    if xs != [] {
      var at := Extracted(xs, ys);
      TotalPermutes(xs[..|xs| - 1], ys[..at] + ys[at + 1..], f);
      TotalAppend(ys[..at], ys[at + 1..], f);
      TotalAppend(ys[..at] + [ys[at]], ys[at + 1..], f);
      TotalSnoc(ys[..at], ys[at], f);
    } else {
      assert ys == [];
    }
  }

  /** Every selected element comes from one that satisfies `p`. */
  lemma {:induction false} SelectedFrom<T, U>(xs: seq<T>, p: T -> bool, f: T -> U, u: U)
    ensures u in Selected(xs, p, f) <==> exists x :: x in xs && p(x) && f(x) == u
  {
    if xs != [] {
      var init, last := xs[..|xs| - 1], xs[|xs| - 1];
      SelectedFrom(init, p, f, u);
      assert xs == init + [last];
    }
  }

  /** The elements of a list, each once, in the order they are first seen. */
  function Unique<T(==)>(xs: seq<T>): seq<T> {
    if xs == [] then []
    else
      var before := Unique(xs[..|xs| - 1]);
      if xs[|xs| - 1] in before then before else before + [xs[|xs| - 1]]
  }

  lemma {:induction false} UniqueIs<T>(xs: seq<T>)
    ensures Distinct(Unique(xs))
    ensures forall x :: x in Unique(xs) <==> x in xs
  {
    if xs != [] {
      UniqueIs(xs[..|xs| - 1]);
      assert xs == xs[..|xs| - 1] + [xs[|xs| - 1]];
    }
  }

  lemma UniqueSnoc<T>(xs: seq<T>, x: T)
    ensures Unique(xs + [x]) == if x in Unique(xs) then Unique(xs) else Unique(xs) + [x]
  {
  }

  lemma {:induction false} DistinctMultiset<T>(xs: seq<T>, x: T)
    requires Distinct(xs)
    ensures multiset(xs)[x] == if x in xs then 1 else 0
  {
    DistinctMultiplicity(xs, x);
    assert x in xs <==> x in multiset(xs);
  }

  /** Two lists without repetition that have the same elements are rearrangements
      of each other. */
  lemma DistinctSameElements<T>(xs: seq<T>, ys: seq<T>)
    requires Distinct(xs) && Distinct(ys) && forall x :: x in xs <==> x in ys
    ensures multiset(xs) == multiset(ys)
  {
    forall x: T | x in multiset(xs) + multiset(ys) ensures multiset(xs)[x] == multiset(ys)[x] {
      DistinctMultiset(xs, x);
      DistinctMultiset(ys, x);
    }
    assert multiset(xs) == multiset(ys) by {
      assert forall x: T :: x in multiset(xs) || x in multiset(ys) ==> multiset(xs)[x] == multiset(ys)[x];
    }
  }
}
