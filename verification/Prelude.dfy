/** Result types shared by the models, and the byte-string conventions they use.

    A Go string or byte slice is modelled as a Dafny `string` whose characters
    are bytes (values below 256). */
module Prelude {

  datatype Option<+T> = None | Some(value: T)

  datatype Result<+T, +E> = Ok(value: T) | Err(error: E)

  const NUL: char := 0 as char

  predicate NulFree(s: string) {
    NUL !in s
  }

  /** A NUL-terminated field can be cut off the front of a byte string in one way only. */
  lemma SplitAtNul(a: string, x: string, b: string, y: string)
    requires NulFree(a) && NulFree(b)
    requires a + [NUL] + x == b + [NUL] + y
    ensures a == b && x == y
  {
    var l, r := a + [NUL] + x, b + [NUL] + y;
    assert l[|a|] == NUL && r[|b|] == NUL;
    assert forall i | 0 <= i < |a| :: l[i] == a[i];
    assert forall i | 0 <= i < |b| :: r[i] == b[i];
    assert |a| == |b|;
    assert a == l[..|a|] == r[..|b|] == b;
    assert x == l[|a| + 1..] == r[|b| + 1..] == y;
  }

  /** The concatenation of the pieces f makes of each element. */
  function Concat<T>(f: T -> string, xs: seq<T>): string {
    if xs == [] then "" else f(xs[0]) + Concat(f, xs[1..])
  }

  lemma {:induction false} ConcatAppend<T>(f: T -> string, xs: seq<T>, ys: seq<T>)
    ensures Concat(f, xs + ys) == Concat(f, xs) + Concat(f, ys)
  {
    if xs == [] {
      assert xs + ys == ys;
    } else {
      ConcatAppend(f, xs[1..], ys);
      assert (xs + ys)[1..] == xs[1..] + ys;
    }
  }

  lemma ConcatOne<T>(f: T -> string, x: T)
    ensures Concat(f, [x]) == f(x)
  {
    assert [x][1..] == [];
  }

  lemma Associates<T>(xs: seq<T>, ys: seq<T>, zs: seq<T>)
    ensures xs + (ys + zs) == (xs + ys) + zs
  {
  }

  function Pow256(k: nat): (p: nat)
    ensures p > 0
  {
    if k == 0 then 1 else 256 * Pow256(k - 1)
  }

  /** A loop over xs that carries st. */
  function Fold<S, T>(step: (S, T) -> S, st: S, xs: seq<T>): S
    decreases |xs|
  {
    if xs == [] then st else Fold(step, step(st, xs[0]), xs[1..])
  }

  lemma {:induction false} FoldAppend<S, T>(step: (S, T) -> S, st: S, xs: seq<T>, ys: seq<T>)
    ensures Fold(step, st, xs + ys) == Fold(step, Fold(step, st, xs), ys)
    decreases |xs|
  {
    if xs == [] {
      assert xs + ys == ys;
    } else {
      assert (xs + ys)[1..] == xs[1..] + ys;
      FoldAppend(step, step(st, xs[0]), xs[1..], ys);
    }
  }
}
