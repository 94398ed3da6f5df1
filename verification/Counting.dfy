/** Counting the elements of a sequence that satisfy a predicate. */
module Counting {

  function CountIf<T>(xs: seq<T>, f: T -> bool): nat {
    if xs == [] then 0
    else CountIf(xs[..|xs| - 1], f) + (if f(xs[|xs| - 1]) then 1 else 0)
  }

  lemma {:induction false} CountAppend<T>(xs: seq<T>, ys: seq<T>, f: T -> bool)
    ensures CountIf(xs + ys, f) == CountIf(xs, f) + CountIf(ys, f)
  {
    if ys == [] {
      assert xs + ys == xs;
    } else {
      CountAppend(xs, ys[..|ys| - 1], f);
      assert (xs + ys)[..|xs + ys| - 1] == xs + ys[..|ys| - 1];
    }
  }

  lemma {:induction false} CountNone<T>(xs: seq<T>, f: T -> bool)
    requires forall x :: x in xs ==> !f(x)
    ensures CountIf(xs, f) == 0
  {
    if xs != [] {
      CountNone(xs[..|xs| - 1], f);
    }
  }

  lemma CountOne<T>(x: T, f: T -> bool)
    ensures CountIf([x], f) == if f(x) then 1 else 0
  {
  }

  lemma CountSnoc<T>(xs: seq<T>, x: T, f: T -> bool)
    ensures CountIf(xs + [x], f) == CountIf(xs, f) + if f(x) then 1 else 0
  {
  }
}
