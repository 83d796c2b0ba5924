/** Filtering, mapping and flattening of sequences, the shapes of the "for
    each entry, if it passes the test, append what it becomes" loops and
    comprehensions of the core. */
module Keeping {

  /** `[f(x) for x in xs if keep(x)]`. */
  function Keep<T, U>(xs: seq<T>, keep: T -> bool, f: T -> U): (r: seq<U>)
    ensures |r| <= |xs|
  {
    if xs == [] then []
    else Keep(xs[..|xs| - 1], keep, f) + (if keep(xs[|xs| - 1]) then [f(xs[|xs| - 1])] else [])
  }

  /** Extending the input by one element extends the output by that
      element's image exactly when it passes. */
  lemma KeepSnoc<T, U>(xs: seq<T>, j: nat, keep: T -> bool, f: T -> U)
    requires j < |xs|
    ensures Keep(xs[..j + 1], keep, f) == Keep(xs[..j], keep, f) + (if keep(xs[j]) then [f(xs[j])] else [])
  {
    assert xs[..j + 1][..j] == xs[..j];
  }

  /** An output element is the image of some input element that passes, and
      every passing input element has its image in the output. */
  lemma {:induction false} KeepMembers<T, U>(xs: seq<T>, keep: T -> bool, f: T -> U, y: U)
    ensures y in Keep(xs, keep, f) <==> exists i :: 0 <= i < |xs| && keep(xs[i]) && y == f(xs[i])
  {
    if xs != [] {
      var init, last := xs[..|xs| - 1], xs[|xs| - 1];
      KeepMembers(init, keep, f, y);
      if y in Keep(init, keep, f) {
        var i :| 0 <= i < |init| && keep(init[i]) && y == f(init[i]);
        assert xs[i] == init[i];
      }
      forall i | 0 <= i < |xs| && keep(xs[i]) && y == f(xs[i])
        ensures y in Keep(xs, keep, f)
      {
        if i < |init| {
          assert init[i] == xs[i];
        }
      }
    }
  }

  /** Keeping commutes with concatenation, so the output keeps input order. */
  lemma {:induction false} KeepAppend<T, U>(a: seq<T>, b: seq<T>, keep: T -> bool, f: T -> U)
    ensures Keep(a + b, keep, f) == Keep(a, keep, f) + Keep(b, keep, f)
  {
    if b == [] {
      assert a + b == a;
    } else {
      var init := b[..|b| - 1];
      assert (a + b)[..|a + b| - 1] == a + init;
      KeepAppend(a, init, keep, f);
    }
  }

  /** `f(x0) + f(x1) + ...`: the outputs of every element, in order. */
  function ConcatMap<T, U>(xs: seq<T>, f: T -> seq<U>): seq<U> {
    if xs == [] then [] else ConcatMap(xs[..|xs| - 1], f) + f(xs[|xs| - 1])
  }

  lemma ConcatMapSnoc<T, U>(xs: seq<T>, j: nat, f: T -> seq<U>)
    requires j < |xs|
    ensures ConcatMap(xs[..j + 1], f) == ConcatMap(xs[..j], f) + f(xs[j])
  {
    assert xs[..j + 1][..j] == xs[..j];
  }

  /** An element of the result comes from the output of some input element,
      and every output of every input element is in the result. */
  lemma {:induction false} ConcatMapMembers<T, U>(xs: seq<T>, f: T -> seq<U>, y: U)
    ensures y in ConcatMap(xs, f) <==> exists i :: 0 <= i < |xs| && y in f(xs[i])
  {
    if xs != [] {
      var init := xs[..|xs| - 1];
      ConcatMapMembers(init, f, y);
      if y in ConcatMap(init, f) {
        var i :| 0 <= i < |init| && y in f(init[i]);
        assert xs[i] == init[i];
      }
      forall i | 0 <= i < |xs| && y in f(xs[i])
        ensures y in ConcatMap(xs, f)
      {
        if i < |init| {
          assert init[i] == xs[i];
        }
      }
    }
  }
}
