/** `ORDER BY … LIMIT n` over a table. */
module Paging {
  /** Sort keys of two columns, compared lexicographically. */
  datatype Rank = Rank(major: int, minor: int) {
    predicate Before(o: Rank) { major < o.major || (major == o.major && minor < o.minor) }
  }

  ghost predicate Distinct<T(!new)>(S: set<T>, rank: T -> Rank) {
    forall x, y | x in S && y in S && rank(x) == rank(y) :: x == y
  }

  ghost predicate Sorted<T>(page: seq<T>, rank: T -> Rank) {
    forall i, j | 0 <= i < j < |page| :: rank(page[i]).Before(rank(page[j]))
  }

  /** The first `limit` members of S in order: a short page is everything, a full one precedes the rest. */
  ghost predicate FirstOf<T(!new)>(S: set<T>, rank: T -> Rank, limit: nat, page: seq<T>) {
    && Sorted(page, rank) && |page| <= limit
    && (forall x | x in page :: x in S)
    && (forall x | x in S && x !in page :: |page| == limit && forall y | y in page :: rank(y).Before(rank(x)))
  }

  method Least<T(==, !new)>(S: set<T>, rank: T -> Rank) returns (least: T)
    requires S != {} && Distinct(S, rank)
    ensures least in S && forall x | x in S && x != least :: rank(least).Before(rank(x))
  {
    least :| least in S;
    var rest := S - {least};
    while rest != {}
      invariant rest <= S && least in S && least !in rest
      invariant forall x | x in S && x != least && x !in rest :: rank(least).Before(rank(x))
      decreases |rest|
    {
      var x :| x in rest;
      rest := rest - {x};
      if rank(x).Before(rank(least)) { least := x; }
    }
  }

  method Select<T(==, !new)>(S: set<T>, rank: T -> Rank, limit: nat) returns (page: seq<T>)
    requires Distinct(S, rank)
    ensures FirstOf(S, rank, limit, page)
  {
    page := [];
    var rest := S;
    while |page| < limit && rest != {}
      invariant rest <= S && |page| <= limit && Sorted(page, rank)
      invariant forall x :: x in S <==> x in page || x in rest
      invariant forall x, y | x in page && y in rest :: rank(x).Before(rank(y))
      decreases |rest|
    {
      var x := Least(rest, rank);
      page, rest := page + [x], rest - {x};
    }
  }

  /** A page repeats nothing. */
  lemma NoRepeats<T>(page: seq<T>, rank: T -> Rank)
    requires Sorted(page, rank)
    ensures forall i, j | 0 <= i < j < |page| :: page[i] != page[j]
  {
  }

  lemma {:induction false} SetSize<T>(page: seq<T>, rank: T -> Rank)
    requires Sorted(page, rank)
    ensures |set x | x in page| == |page|
  {
    if page != [] {
      var n := |page| - 1;
      SetSize(page[..n], rank);
      NoRepeats(page, rank);
      assert (set x | x in page) == (set x | x in page[..n]) + {page[n]};
    }
  }

  lemma {:induction false} SubsetSize<T>(A: set<T>, B: set<T>)
    requires A <= B
    ensures |A| <= |B|
  {
    if x :| x in A { SubsetSize(A - {x}, B - {x}); }
  }
}
