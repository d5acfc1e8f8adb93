/** Sequences of steps of any deterministic transition system. */
module Paths {
  /** The steps can be taken one after another from s, and end in t. */
  ghost predicate Path<S, L>(can: (S, L) -> bool, next: (S, L) -> S, s: S, steps: seq<L>, t: S)
    decreases |steps|
  {
    if steps == [] then s == t else can(s, steps[0]) && Path(can, next, next(s, steps[0]), steps[1..], t)
  }

  lemma {:induction false} JoinPaths<S, L>(can: (S, L) -> bool, next: (S, L) -> S, s: S, x: seq<L>, t: S, y: seq<L>,
      u: S)
    requires Path(can, next, s, x, t) && Path(can, next, t, y, u)
    ensures Path(can, next, s, x + y, u)
    decreases |x|
  {
    if x == [] {
      assert x + y == y;
    } else {
      JoinPaths(can, next, next(s, x[0]), x[1..], t, y, u);
      assert (x + y)[1..] == x[1..] + y && (x + y)[0] == x[0];
    }
  }

  lemma OnePath<S, L>(can: (S, L) -> bool, next: (S, L) -> S, s: S, l: L)
    requires can(s, l)
    ensures Path(can, next, s, [l], next(s, l))
  {
    assert [l][1..] == [];
  }
}
