/** How close two positions are on an adjacency graph, and the scans that
    pick the nearest team-mate or opponent (simulation/simulation.go). */
module Proximity {
  import opened Outcomes
  import opened Positions
  import opened Graphs
  import opened Players
  import opened Argmax

  /** Whether some position of the list has target among its own
      neighbours; a position missing from the graph is skipped. */
  function SecondDegree(adjacents: Graph, list: seq<Position>, target: Position): bool {
    if |list| == 0 then false
    else (list[0] in adjacents && target in adjacents[list[0]]) || SecondDegree(adjacents, list[1..], target)
  }

  /** positionProximityScore, scaled by four so that the scores are the
      integers 4 (same position), 3 (direct neighbour), 2 (neighbour of a
      neighbour) and 0 (anything else, or no graph entry). */
  function ProximityScore(playerPos: Position, adjacentPos: Position, adjacents: Graph): (score: int)
    ensures score == 0 || score == 2 || score == 3 || score == 4
    ensures score == 4 <==> playerPos == adjacentPos
  {
    if playerPos == adjacentPos then 4
    else if playerPos !in adjacents then 0
    else if adjacentPos in adjacents[playerPos] then 3
    else if SecondDegree(adjacents, adjacents[playerPos], adjacentPos) then 2
    else 0
  }

  /** A second-degree match names the neighbour it goes through. */
  lemma {:induction false} SecondDegreeWitness(adjacents: Graph, list: seq<Position>, target: Position) returns (u: Position)
    requires SecondDegree(adjacents, list, target)
    ensures u in list && target in Succ(adjacents, u)
  {
    if list[0] in adjacents && target in adjacents[list[0]] {
      u := list[0];
    } else {
      u := SecondDegreeWitness(adjacents, list[1..], target);
    }
  }

  /** Any neighbour of the list that has target as a neighbour is found. */
  lemma {:induction false} SecondDegreeFound(adjacents: Graph, list: seq<Position>, target: Position, u: Position)
    requires u in list && target in Succ(adjacents, u)
    ensures SecondDegree(adjacents, list, target)
  {
    if u != list[0] {
      SecondDegreeFound(adjacents, list[1..], target, u);
    }
  }

  lemma SecondDegreeStep(adjacents: Graph, list: seq<Position>, target: Position)
    ensures SecondDegree(adjacents, list, target) <==> exists u :: u in list && target in Succ(adjacents, u)
  {
    if SecondDegree(adjacents, list, target) {
      var u := SecondDegreeWitness(adjacents, list, target);
    }
    if exists u :: u in list && target in Succ(adjacents, u) {
      var u :| u in list && target in Succ(adjacents, u);
      SecondDegreeFound(adjacents, list, target, u);
    }
  }

  /** One edge from a reaches a and its neighbours. */
  lemma ReachOne(g: Graph, a: Position, b: Position)
    ensures b in Reach(g, {a}, 1) <==> b == a || b in Succ(g, a)
  {
    assert Reach(g, {a}, 1) == {a} + Step(g, {a});
    if b in Succ(g, a) {
      StepMember(g, {a}, a, b);
    }
  }

  /** Two edges from a add the neighbours of a's neighbours. */
  lemma ReachTwo(g: Graph, a: Position, b: Position)
    ensures b in Reach(g, {a}, 2) <==>
            b == a || b in Succ(g, a) || exists u :: u in Succ(g, a) && b in Succ(g, u)
  {
    var r1 := Reach(g, {a}, 1);
    assert Reach(g, {a}, 2) == r1 + Step(g, r1);
    ReachOne(g, a, b);
    if b in Step(g, r1) {
      var u := StepSource(g, r1, b);
      ReachOne(g, a, u);
    }
    if exists u :: u in Succ(g, a) && b in Succ(g, u) {
      var u :| u in Succ(g, a) && b in Succ(g, u);
      ReachOne(g, a, u);
      StepMember(g, r1, u, b);
    }
  }

  /** The score is the graph distance from the first position, read off
      its breadth-first layers: distance 0, 1 and 2 score 4, 3 and 2, and
      a position not reached within two edges scores 0. */
  lemma ProximityByDistance(a: Position, b: Position, g: Graph)
    ensures ProximityScore(a, b, g) == 4 <==> AtDistance(g, {a}, b, 0)
    ensures ProximityScore(a, b, g) == 3 <==> AtDistance(g, {a}, b, 1)
    ensures ProximityScore(a, b, g) == 2 <==> AtDistance(g, {a}, b, 2)
    ensures ProximityScore(a, b, g) == 0 <==> b !in Reach(g, {a}, 2)
  {
    ReachOne(g, a, b);
    ReachTwo(g, a, b);
    SecondDegreeStep(g, Succ(g, a), b);
  }

  /** The score every roster entry gets in teamMateNearest; a player in the
      attacker's own position is skipped, which counts as scoring 0. */
  function TeamMateScores(attackerPos: Position, players: seq<Player>, adjacents: Graph): (scores: seq<int>)
    ensures |scores| == |players|
  {
    seq(|players|, i requires 0 <= i < |players| =>
      if players[i].position == attackerPos then 0 else ProximityScore(attackerPos, players[i].position, adjacents))
  }

  /** The score every opponent gets in opponentNearestTo. */
  function OpponentScores(attackerPos: Position, opponents: seq<Player>, adjacents: Graph): (scores: seq<int>)
    ensures |scores| == |opponents|
  {
    seq(|opponents|, i requires 0 <= i < |opponents| => ProximityScore(attackerPos, opponents[i].position, adjacents))
  }

  /** The player at the chosen index, or nil. */
  function PlayerAt(players: seq<Player>, index: Option<nat>): Option<Player>
    requires index.Some? ==> index.value < |players|
  {
    if index.Some? then Some(players[index.value]) else None
  }

  /** The team-mate teamMateNearest settles on. */
  function NearestTeamMate(attackerPos: Position, players: seq<Player>, adjacents: Graph): Option<Player> {
    PlayerAt(players, FirstMax(TeamMateScores(attackerPos, players, adjacents)))
  }

  /** The opponent opponentNearestTo settles on. */
  function NearestOpponent(attackerPos: Position, opponents: seq<Player>, adjacents: Graph): Option<Player> {
    PlayerAt(opponents, FirstMax(OpponentScores(attackerPos, opponents, adjacents)))
  }

  /** teamMateNearest (simulation.go:685-704): keep the first player with
      the strictly highest proximity score to the attacker's position,
      skipping players in that very position; nil when nobody scores. */
  method TeamMateNearest(attackerPos: Position, players: seq<Player>, adjacents: Graph) returns (closest: Option<Player>)
    ensures closest == NearestTeamMate(attackerPos, players, adjacents)
  {
    ghost var scores := TeamMateScores(attackerPos, players, adjacents);
    var best: Option<nat> := None;
    var bestScore := 0;
    for i := 0 to |players|
      invariant best == FirstMax(scores[..i])
      invariant bestScore == if best.None? then 0 else scores[best.value]
    {
      FirstMaxExtend(scores, i);
      if players[i].position == attackerPos {
        continue;
      }
      var score := ProximityScore(attackerPos, players[i].position, adjacents);
      if score > bestScore {
        bestScore := score;
        best := Some(i);
      }
    }
    assert scores[..|players|] == scores;
    closest := PlayerAt(players, best);
  }

  /** opponentNearestTo (simulation.go:706-721): keep the first opponent
      with the strictly highest proximity score; nil when nobody scores. */
  method OpponentNearestTo(attackerPos: Position, opponents: seq<Player>, adjacents: Graph) returns (closest: Option<Player>)
    ensures closest == NearestOpponent(attackerPos, opponents, adjacents)
  {
    ghost var scores := OpponentScores(attackerPos, opponents, adjacents);
    var best: Option<nat> := None;
    var bestScore := 0;
    for i := 0 to |opponents|
      invariant best == FirstMax(scores[..i])
      invariant bestScore == if best.None? then 0 else scores[best.value]
    {
      FirstMaxExtend(scores, i);
      var score := ProximityScore(attackerPos, opponents[i].position, adjacents);
      if score > bestScore {
        bestScore := score;
        best := Some(i);
      }
    }
    assert scores[..|opponents|] == scores;
    closest := PlayerAt(opponents, best);
  }

  /** The nearest team-mate is never a player in the attacker's own
      position, is the earliest of the best-scoring players, and exists
      exactly when some other player is within two edges. */
  lemma TeamMateNearestMeaning(attackerPos: Position, players: seq<Player>, adjacents: Graph)
    ensures var best := FirstMax(TeamMateScores(attackerPos, players, adjacents));
            && (best.Some? ==> players[best.value].position != attackerPos)
            && (best.None? <==> forall j :: 0 <= j < |players| && players[j].position != attackerPos ==>
                                  players[j].position !in Reach(adjacents, {attackerPos}, 2))
  {
    var scores := TeamMateScores(attackerPos, players, adjacents);
    forall j | 0 <= j < |players| && players[j].position != attackerPos
      ensures scores[j] <= 0 <==> players[j].position !in Reach(adjacents, {attackerPos}, 2)
    {
      ProximityByDistance(attackerPos, players[j].position, adjacents);
    }
  }

  /** An opponent in the attacker's own position scores highest, so the
      first such opponent is always the one chosen. */
  lemma OpponentSamePositionWins(attackerPos: Position, opponents: seq<Player>, adjacents: Graph, k: nat)
    requires k < |opponents| && opponents[k].position == attackerPos
    requires forall j :: 0 <= j < k ==> opponents[j].position != attackerPos
    ensures NearestOpponent(attackerPos, opponents, adjacents) == Some(opponents[k])
  {
    var scores := OpponentScores(attackerPos, opponents, adjacents);
    assert IsFirstMax(scores, k);
    FirstMaxUnique(scores, k, FirstMax(scores).value);
  }
}
