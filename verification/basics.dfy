/** Stock pieces: an option type and a counting argument. */
module Basics {

  datatype Option<+T> = None | Some(value: T)

  /** If `f` sends `xs` into `ys` without collisions then `xs` is no larger than `ys`. */
  lemma {:induction false} InjectionBound<A(!new), B(!new)>(xs: set<A>, ys: set<B>, f: A -> B)
    requires forall x | x in xs :: f(x) in ys
    requires forall x, x' | x in xs && x' in xs && f(x) == f(x') :: x == x'
    ensures |xs| <= |ys|
  {
    if xs != {} {
      var x :| x in xs;
      InjectionBound(xs - {x}, ys - {f(x)}, f);
    }
  }

  /** A number above all of `xs`. */
  lemma {:induction false} Above(xs: set<nat>) returns (n: nat)
    ensures forall x | x in xs :: x < n
  {
    n := 0;
    if xs != {} {
      var x :| x in xs;
      n := Above(xs - {x});
      assert forall y | y in xs :: y == x || y in xs - {x};
      n := if n <= x then x + 1 else n;
    }
  }
}
