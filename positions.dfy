/** The field positions of models/types.go and their static "similar
    positions" graph. */
module Positions {

  /** PlayerPosition: the sixteen roles, in the declaration order of the source. */
  datatype Position =
    | Goalkeeper
    | RightBack
    | RightWingBack
    | LeftCentreBack
    | RightCentreBack
    | LeftBack
    | LeftWingBack
    | LeftMidfielder
    | LeftWinger
    | CentralMidfielder
    | CentralDefensiveMidfielder
    | CentralAttackingMidfielder
    | CentreForward
    | RightMidfielder
    | RightWinger
    | Striker

  /** A position graph: each position maps to an ordered list of related
      positions. A missing key behaves like an empty list (a nil slice). */
  type Graph = map<Position, seq<Position>>

  const AllPositions: set<Position> := {
    Goalkeeper, RightBack, RightWingBack, LeftCentreBack, RightCentreBack,
    LeftBack, LeftWingBack, LeftMidfielder, LeftWinger, CentralMidfielder,
    CentralDefensiveMidfielder, CentralAttackingMidfielder, CentreForward,
    RightMidfielder, RightWinger, Striker
  }

  lemma AllPositionsComplete()
    ensures forall p: Position :: p in AllPositions
  {
    forall p: Position ensures p in AllPositions {
      match p
      case Goalkeeper =>
      case RightBack =>
      case RightWingBack =>
      case LeftCentreBack =>
      case RightCentreBack =>
      case LeftBack =>
      case LeftWingBack =>
      case LeftMidfielder =>
      case LeftWinger =>
      case CentralMidfielder =>
      case CentralDefensiveMidfielder =>
      case CentralAttackingMidfielder =>
      case CentreForward =>
      case RightMidfielder =>
      case RightWinger =>
      case Striker =>
    }
  }

  /** The "similar positions" list of one position, as in SimilarPositions. */
  function SimilarTo(p: Position): seq<Position> {
    match p
    case Goalkeeper => []
    case RightBack => [RightWingBack]
    case RightWingBack => [RightBack, RightMidfielder, RightWinger]
    case RightMidfielder => [RightWingBack, RightWinger]
    case RightWinger => [RightMidfielder, RightWingBack]
    case LeftCentreBack => [CentralDefensiveMidfielder, RightCentreBack]
    case RightCentreBack => [CentralDefensiveMidfielder, LeftCentreBack]
    case LeftBack => [LeftWingBack]
    case LeftWingBack => [LeftBack, LeftMidfielder, LeftWinger]
    case LeftMidfielder => [LeftWingBack, LeftWinger]
    case LeftWinger => [LeftMidfielder, LeftWingBack]
    case CentralMidfielder => [CentralDefensiveMidfielder, CentralAttackingMidfielder]
    case CentralDefensiveMidfielder => [CentralMidfielder, LeftCentreBack, RightCentreBack]
    case CentralAttackingMidfielder => [CentralMidfielder, CentreForward]
    case CentreForward => [Striker, CentralAttackingMidfielder]
    case Striker => [CentreForward, LeftWinger, RightWinger]
  }

  /** SimilarPositions: the graph the player directory walks breadth-first. */
  const SimilarPositions: Graph := map p | p in AllPositions :: SimilarTo(p)

  lemma {:induction false} SubsetSize(a: set<Position>, b: set<Position>)
    requires a <= b
    ensures |a| <= |b|
    decreases a
  {
    if a != {} {
      var x :| x in a;
      SubsetSize(a - {x}, b - {x});
    }
  }

  /** There are sixteen positions, so no set of them is larger. */
  lemma AtMostSixteen(s: set<Position>)
    ensures |s| <= 16
  {
    AllPositionsComplete();
    SubsetSize(s, AllPositions);
  }

  /** Every position has an entry, the goalkeeper's is empty, and no
      position lists itself as similar. */
  lemma SimilarPositionsShape()
    ensures SimilarPositions.Keys == AllPositions
    ensures SimilarPositions[Goalkeeper] == []
    ensures forall p :: p in SimilarPositions ==> p !in SimilarPositions[p]
  {
    AllPositionsComplete();
    forall p | p in SimilarPositions ensures p !in SimilarPositions[p] {
      assert SimilarPositions[p] == SimilarTo(p);
    }
  }
}
