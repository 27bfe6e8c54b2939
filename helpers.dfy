/** The position-class predicates of helpers/helpers.go. */
module Helpers {
  import opened Positions

  /** Wide roles: wingers, wide midfielders and wing-backs. */
  predicate IsWinger(pos: Position) {
    pos == LeftWinger || pos == RightWinger ||
    pos == LeftMidfielder || pos == RightMidfielder ||
    pos == LeftWingBack || pos == RightWingBack
  }

  /** Attacking roles: striker, centre-forward, attacking midfielder. */
  predicate IsAttacker(pos: Position) {
    pos == Striker || pos == CentreForward ||
    pos == CentralAttackingMidfielder
  }

  /** Exactly three positions are attacking. */
  lemma AttackerPositions()
    ensures (set p | p in AllPositions && IsAttacker(p)) == {Striker, CentreForward, CentralAttackingMidfielder}
  {
  }

  /** Exactly six positions are wide. */
  lemma WingerPositions()
    ensures (set p | p in AllPositions && IsWinger(p)) ==
            {LeftWinger, RightWinger, LeftMidfielder, RightMidfielder, LeftWingBack, RightWingBack}
  {
  }

  /** The goalkeeper, the full-backs, the centre-backs and the central and
      defensive midfielders are neither attacking nor wide, and no position
      is both. */
  lemma NeitherPositions()
    ensures (set p | p in AllPositions && !IsAttacker(p) && !IsWinger(p)) ==
            {Goalkeeper, RightBack, LeftBack, LeftCentreBack, RightCentreBack,
             CentralMidfielder, CentralDefensiveMidfielder}
    ensures forall p: Position :: !(IsAttacker(p) && IsWinger(p))
  {
  }
}
