/** Layered reachability over a position graph: the reference definition
    against which the breadth-first search of the player directory and the
    proximity score are proved. */
module Graphs {
  import opened Positions

  /** The list a graph gives for a position; a missing key reads as empty,
      like indexing a Go map of slices. */
  function Succ(g: Graph, p: Position): seq<Position> {
    if p in g then g[p] else []
  }

  /** Every position one edge away from some position of s. */
  function Step(g: Graph, s: set<Position>): set<Position> {
    set u, v | u in s && v in Succ(g, u) :: v
  }

  /** Positions reachable from the seeds in at most k edges. */
  function Reach(g: Graph, seeds: set<Position>, k: nat): set<Position> {
    if k == 0 then seeds else Reach(g, seeds, k - 1) + Step(g, Reach(g, seeds, k - 1))
  }

  /** p is exactly d edges from the nearest seed. */
  predicate AtDistance(g: Graph, seeds: set<Position>, p: Position, d: nat) {
    p in Reach(g, seeds, d) && (d == 0 || p !in Reach(g, seeds, d - 1))
  }

  lemma StepMember(g: Graph, s: set<Position>, u: Position, v: Position)
    requires u in s && v in Succ(g, u)
    ensures v in Step(g, s)
  {
  }

  /** Every member of a step has a predecessor in the set stepped from. */
  lemma StepSource(g: Graph, s: set<Position>, v: Position) returns (u: Position)
    requires v in Step(g, s)
    ensures u in s && v in Succ(g, u)
  {
    u :| u in s && v in Succ(g, u);
  }

  lemma {:induction false} ReachMonotone(g: Graph, seeds: set<Position>, a: nat, b: nat)
    requires a <= b
    ensures Reach(g, seeds, a) <= Reach(g, seeds, b)
  {
    if a < b {
      ReachMonotone(g, seeds, a, b - 1);
    }
  }

  /** A position not reachable in f edges is not reachable in fewer. */
  lemma NotReachedBelow(g: Graph, seeds: set<Position>, p: Position, f: nat, e: nat)
    requires e <= f && p !in Reach(g, seeds, f)
    ensures p !in Reach(g, seeds, e)
  {
    ReachMonotone(g, seeds, e, f);
  }

  /** A position at distance d is not reachable in fewer edges. */
  lemma NotReachedEarlier(g: Graph, seeds: set<Position>, p: Position, d: nat, e: nat)
    requires AtDistance(g, seeds, p, d) && e < d
    ensures p !in Reach(g, seeds, e)
  {
    NotReachedBelow(g, seeds, p, d - 1, e);
  }

  /** The distance of a position, when it has one, is unique. */
  lemma DistanceUnique(g: Graph, seeds: set<Position>, p: Position, d1: nat, d2: nat)
    requires AtDistance(g, seeds, p, d1) && AtDistance(g, seeds, p, d2)
    ensures d1 == d2
  {
    if d1 < d2 {
      NotReachedEarlier(g, seeds, p, d2, d1);
    } else if d2 < d1 {
      NotReachedEarlier(g, seeds, p, d1, d2);
    }
  }

  /** A position reached within k edges is at some distance d <= k. */
  lemma {:induction false} HasDistance(g: Graph, seeds: set<Position>, p: Position, k: nat)
    requires p in Reach(g, seeds, k)
    ensures exists d: nat :: d <= k && AtDistance(g, seeds, p, d)
  {
    if k > 0 && p in Reach(g, seeds, k - 1) {
      HasDistance(g, seeds, p, k - 1);
    } else {
      assert AtDistance(g, seeds, p, k);
    }
  }
}
