/** The player directory: Team.SearchPlayers (models/search.go, and its
    single-position variant in models/types.go), RandomPlayerInGroup and
    ChooseReceiver. Scores are scaled by 4 so that they are integers: the
    similarity weights 2.0, 1.0, 0.5, 0.25 become 8, 4, 2, 1 and each exact
    match bonus of 2 becomes 8. Every one of these values is exact in binary
    floating point, so the scaling changes no comparison. */
module Search {
  import opened Outcomes
  import opened Positions
  import opened Graphs
  import opened Players
  import opened Argmax

  /** Weight of a position first reached at breadth-first depth d, x4. */
  function DepthWeight(d: nat): int {
    if d == 0 then 8 else if d == 1 then 4 else if d == 2 then 2 else if d == 3 then 1 else 0
  }

  function SeedsOf(positions: seq<Position>): set<Position> {
    set p | p in positions
  }

  /** The fewest edges from a seed, for positions within three edges. */
  function Layer(g: Graph, seeds: set<Position>, p: Position): nat {
    if p in Reach(g, seeds, 0) then 0
    else if p in Reach(g, seeds, 1) then 1
    else if p in Reach(g, seeds, 2) then 2
    else 3
  }

  /** The similarity weights the search is meant to build: every position
      within three edges of a requested position, weighted by how far the
      nearest requested position is. */
  function LayeredWeights(g: Graph, seeds: set<Position>): map<Position, int> {
    map p | p in Reach(g, seeds, 3) :: DepthWeight(Layer(g, seeds, p))
  }

  lemma LayerIsDistance(g: Graph, seeds: set<Position>, p: Position, d: nat)
    requires d <= 3 && AtDistance(g, seeds, p, d)
    ensures Layer(g, seeds, p) == d
  {
    if d > 0 {
      NotReachedEarlier(g, seeds, p, d, 0);
    }
    if d > 1 {
      NotReachedEarlier(g, seeds, p, d, 1);
    }
    if d > 2 {
      NotReachedEarlier(g, seeds, p, d, 2);
    }
  }

  /** Requested positions weigh 8 (2.0); a position at distance d = 1, 2, 3
      weighs 4, 2, 1; a position further than three edges from every
      requested position has no weight at all. */
  lemma LayeredWeightsByDistance(g: Graph, positions: seq<Position>, p: Position)
    ensures p in positions ==> p in LayeredWeights(g, SeedsOf(positions)) && LayeredWeights(g, SeedsOf(positions))[p] == 8
    ensures forall d: nat :: 1 <= d <= 3 && AtDistance(g, SeedsOf(positions), p, d) ==>
              p in LayeredWeights(g, SeedsOf(positions)) && LayeredWeights(g, SeedsOf(positions))[p] == DepthWeight(d)
    ensures p !in Reach(g, SeedsOf(positions), 3) ==> p !in LayeredWeights(g, SeedsOf(positions))
  {
    var seeds := SeedsOf(positions);
    if p in positions {
      ReachMonotone(g, seeds, 0, 3);
    }
    forall d: nat | 1 <= d <= 3 && AtDistance(g, seeds, p, d)
      ensures p in LayeredWeights(g, seeds) && LayeredWeights(g, seeds)[p] == DepthWeight(d)
    {
      ReachMonotone(g, seeds, d, 3);
      LayerIsDistance(g, seeds, p, d);
    }
  }

  /** An entry of the breadth-first queue. */
  datatype Pending = Pending(pos: Position, depth: nat)

  /** The weights the walk hands out. */
  predicate IsWeight(w: int) {
    w == 8 || w == 4 || w == 2 || w == 1
  }

  /** The depth a weight stands for; the inverse of DepthWeight on weights. */
  function WeightDepth(w: int): nat {
    if w == 8 then 0 else if w == 4 then 1 else if w == 2 then 2 else 3
  }

  ghost function QueuedSet(q: seq<Pending>): set<Position> {
    if |q| == 0 then {} else {q[0].pos} + QueuedSet(q[1..])
  }

  lemma {:induction false} QueuedSetAppend(q: seq<Pending>, x: Pending)
    ensures QueuedSet(q + [x]) == QueuedSet(q) + {x.pos}
  {
    if |q| > 0 {
      assert (q + [x])[1..] == q[1..] + [x];
      QueuedSetAppend(q[1..], x);
    }
  }

  lemma {:induction false} QueuedSetDepth(q: seq<Pending>, weights: map<Position, int>, d: nat, p: Position)
    requires forall k :: 0 <= k < |q| ==>
               q[k].pos in weights && WeightDepth(weights[q[k].pos]) == q[k].depth && d <= q[k].depth
    requires p in QueuedSet(q)
    ensures p in weights && d <= WeightDepth(weights[p])
  {
    if p != q[0].pos {
      QueuedSetDepth(q[1..], weights, d, p);
    }
  }

  /** Every neighbour of p has been visited (weighted). */
  ghost predicate Expanded(g: Graph, p: Position, weights: map<Position, int>) {
    forall s :: s in Succ(g, p) ==> s in weights
  }

  /** Every weighted position sits at the distance its weight stands for. */
  ghost predicate Distances(g: Graph, seeds: set<Position>, weights: map<Position, int>) {
    forall p {:trigger AtDistance(g, seeds, p, WeightDepth(weights[p]))} ::
      p in weights ==> AtDistance(g, seeds, p, WeightDepth(weights[p]))
  }

  /** If every weighted position closer than k edges has had its neighbours
      weighted, then everything within k edges has been weighted. */
  lemma {:induction false} Closure(g: Graph, seeds: set<Position>, weights: map<Position, int>, k: nat)
    requires seeds <= weights.Keys && Distances(g, seeds, weights)
    requires forall p :: p in weights && WeightDepth(weights[p]) < k ==> Expanded(g, p, weights)
    ensures Reach(g, seeds, k) <= weights.Keys
  {
    if k > 0 {
      Closure(g, seeds, weights, k - 1);
      var previous := Reach(g, seeds, k - 1);
      assert Reach(g, seeds, k) == previous + Step(g, previous);
      forall v | v in Step(g, previous) ensures v in weights {
        var u := StepSource(g, previous, v);
        ClosureStep(g, seeds, weights, k, u);
      }
    }
  }

  lemma ClosureStep(g: Graph, seeds: set<Position>, weights: map<Position, int>, k: nat, u: Position)
    requires k > 0 && u in weights && u in Reach(g, seeds, k - 1)
    requires AtDistance(g, seeds, u, WeightDepth(weights[u]))
    requires WeightDepth(weights[u]) < k ==> Expanded(g, u, weights)
    ensures Expanded(g, u, weights)
  {
    if WeightDepth(weights[u]) > k - 1 {
      NotReachedEarlier(g, seeds, u, WeightDepth(weights[u]), k - 1);
    }
  }

  /** What the walk knows about every weighted position: its weight stands
      for its distance from the requested positions. */
  ghost predicate Discovered(g: Graph, seeds: set<Position>, weights: map<Position, int>) {
    && seeds <= weights.Keys
    && (forall p :: p in weights ==> IsWeight(weights[p]))
    && Distances(g, seeds, weights)
  }

  /** The queue holds weighted positions with their depths, in order of
      depth, spanning at most two consecutive levels. */
  ghost predicate QueueShape(queue: seq<Pending>, weights: map<Position, int>, level: nat) {
    && (forall k :: 0 <= k < |queue| ==>
          queue[k].pos in weights && WeightDepth(weights[queue[k].pos]) == queue[k].depth
          && level <= queue[k].depth <= level + 1)
    && (forall k, l :: 0 <= k < l < |queue| ==> queue[k].depth <= queue[l].depth)
  }

  /** Every weighted position short of depth 3 has had its neighbours
      weighted, except those still waiting in the queue. */
  ghost predicate ExpandedBeyond(g: Graph, weights: map<Position, int>, pending: set<Position>) {
    forall p :: p in weights && WeightDepth(weights[p]) < 3 && p !in pending ==> Expanded(g, p, weights)
  }

  /** The state of the walk while the neighbours of current are visited. */
  ghost predicate Expanding(g: Graph, seeds: set<Position>, current: Pending, weights: map<Position, int>,
                            queue: seq<Pending>)
  {
    && Discovered(g, seeds, weights)
    && QueueShape(queue, weights, current.depth)
    && current.pos in weights && WeightDepth(weights[current.pos]) == current.depth && current.depth < 3
    && ExpandedBeyond(g, weights, QueuedSet(queue) + {current.pos})
  }

  /** A neighbour of the position being expanded that is not yet visited is
      exactly one edge further from the requested positions. */
  lemma NewlyReached(g: Graph, seeds: set<Position>, current: Pending, weights: map<Position, int>,
                     queue: seq<Pending>, s: Position)
    requires Expanding(g, seeds, current, weights, queue)
    requires s in Succ(g, current.pos) && s !in weights
    ensures AtDistance(g, seeds, s, current.depth + 1)
  {
    forall p | p in weights && WeightDepth(weights[p]) < current.depth ensures Expanded(g, p, weights) {
      if p in QueuedSet(queue) {
        QueuedSetDepth(queue, weights, current.depth, p);
      }
    }
    Closure(g, seeds, weights, current.depth);
    assert AtDistance(g, seeds, current.pos, WeightDepth(weights[current.pos]));
    StepMember(g, Reach(g, seeds, current.depth), current.pos, s);
  }

  /** Weighting a position by its distance keeps what the walk knows. */
  lemma Record(g: Graph, seeds: set<Position>, weights: map<Position, int>, s: Position, d: nat)
    requires Discovered(g, seeds, weights)
    requires d <= 3 && AtDistance(g, seeds, s, d)
    ensures Discovered(g, seeds, weights[s := DepthWeight(d)])
  {
    var weights' := weights[s := DepthWeight(d)];
    forall p | p in weights' ensures AtDistance(g, seeds, p, WeightDepth(weights'[p])) {
      if p != s {
        assert weights'[p] == weights[p];
        assert AtDistance(g, seeds, p, WeightDepth(weights[p]));
      }
    }
  }

  /** Queueing a position one level below the current one keeps the queue
      in order of depth. */
  lemma Enqueue(queue: seq<Pending>, weights: map<Position, int>, level: nat, s: Position)
    requires QueueShape(queue, weights, level)
    requires s !in weights && level < 3
    ensures QueueShape(queue + [Pending(s, level + 1)], weights[s := DepthWeight(level + 1)], level)
  {
    var queue', weights' := queue + [Pending(s, level + 1)], weights[s := DepthWeight(level + 1)];
    forall k | 0 <= k < |queue'|
      ensures queue'[k].pos in weights' && WeightDepth(weights'[queue'[k].pos]) == queue'[k].depth
      ensures level <= queue'[k].depth <= level + 1
    {
      if k < |queue| {
        assert queue'[k] == queue[k];
      }
    }
    forall k, l | 0 <= k < l < |queue'| ensures queue'[k].depth <= queue'[l].depth {
      assert queue'[k] == queue[k];
      if l < |queue| {
        assert queue'[l] == queue[l];
      }
    }
  }

  /** A weighted position stays expanded when more positions are weighted. */
  lemma StillExpanded(g: Graph, weights: map<Position, int>, queue: seq<Pending>, current: Position, s: Position, w: int)
    requires s !in weights
    requires ExpandedBeyond(g, weights, QueuedSet(queue) + {current})
    ensures ExpandedBeyond(g, weights[s := w], QueuedSet(queue + [Pending(s, WeightDepth(w))]) + {current})
  {
    QueuedSetAppend(queue, Pending(s, WeightDepth(w)));
    forall p | p in weights[s := w] && WeightDepth(weights[s := w][p]) < 3 && p !in QueuedSet(queue + [Pending(s, WeightDepth(w))]) + {current}
      ensures Expanded(g, p, weights[s := w])
    {
      assert p in weights && weights[s := w][p] == weights[p];
    }
  }

  /** Visiting a neighbour s of current that is not yet visited, one level
      deeper, keeps the state of the walk. */
  lemma Visit(g: Graph, seeds: set<Position>, current: Pending, weights: map<Position, int>,
              queue: seq<Pending>, s: Position)
    requires Expanding(g, seeds, current, weights, queue)
    requires s in Succ(g, current.pos) && s !in weights
    ensures Expanding(g, seeds, current, weights[s := DepthWeight(current.depth + 1)],
                      queue + [Pending(s, current.depth + 1)])
  {
    NewlyReached(g, seeds, current, weights, queue, s);
    Record(g, seeds, weights, s, current.depth + 1);
    Enqueue(queue, weights, current.depth, s);
    StillExpanded(g, weights, queue, current.pos, s, DepthWeight(current.depth + 1));
  }

  /** One step of the breadth-first walk (search.go:39-55): every
      neighbour of the popped position that is not yet visited is marked,
      weighted one level deeper and queued. Afterwards the popped position
      counts as expanded. */
  method ExpandPosition(g: Graph, ghost seeds: set<Position>, current: Pending,
                        weights: map<Position, int>, visited: set<Position>, queue: seq<Pending>)
    returns (weights': map<Position, int>, visited': set<Position>, queue': seq<Pending>)
    requires Expanding(g, seeds, current, weights, queue) && visited == weights.Keys
    ensures Expanding(g, seeds, current, weights', queue') && visited' == weights'.Keys
    ensures Expanded(g, current.pos, weights')
    ensures |queue'| - |queue| == |visited'| - |visited| >= 0
  {
    weights', visited', queue' := weights, visited, queue;
    var similar := Succ(g, current.pos);
    for j := 0 to |similar|
      invariant Expanding(g, seeds, current, weights', queue') && visited' == weights'.Keys
      invariant forall k :: 0 <= k < j ==> similar[k] in visited'
      invariant |queue'| - |queue| == |visited'| - |visited| >= 0
    {
      var s := similar[j];
      if s !in visited' {
        Visit(g, seeds, current, weights', queue', s);
        visited' := visited' + {s};
        weights' := weights'[s := DepthWeight(current.depth + 1)];
        queue' := queue' + [Pending(s, current.depth + 1)];
      }
    }
  }

  /** The state of the walk between two pops of the queue. */
  ghost predicate Walking(g: Graph, seeds: set<Position>, weights: map<Position, int>, queue: seq<Pending>, level: nat) {
    && Discovered(g, seeds, weights)
    && QueueShape(queue, weights, level)
    && ExpandedBeyond(g, weights, QueuedSet(queue))
  }

  /** Popping the head of the queue: a position at depth 3 is dropped, any
      other is ready to be expanded. */
  lemma Pop(g: Graph, seeds: set<Position>, weights: map<Position, int>, queue: seq<Pending>, level: nat)
    requires Walking(g, seeds, weights, queue, level) && |queue| > 0
    ensures queue[0].depth >= 3 ==> Walking(g, seeds, weights, queue[1..], queue[0].depth)
    ensures queue[0].depth < 3 ==> Expanding(g, seeds, queue[0], weights, queue[1..])
  {
    assert QueuedSet(queue) == {queue[0].pos} + QueuedSet(queue[1..]);
    assert forall k :: 0 <= k < |queue| - 1 ==> queue[1..][k] == queue[k + 1];
  }

  /** Once current is expanded, it no longer needs to wait in the queue. */
  lemma Expansion(g: Graph, seeds: set<Position>, current: Pending, weights: map<Position, int>, queue: seq<Pending>)
    requires Expanding(g, seeds, current, weights, queue)
    requires Expanded(g, current.pos, weights)
    ensures Walking(g, seeds, weights, queue, current.depth)
  {
  }

  /** The requested positions, each queued once per occurrence, start the walk. */
  lemma Seeded(g: Graph, positions: seq<Position>, weights: map<Position, int>, queue: seq<Pending>)
    requires weights.Keys == SeedsOf(positions) == QueuedSet(queue)
    requires forall p :: p in weights ==> weights[p] == 8
    requires forall k :: 0 <= k < |queue| ==> queue[k].pos in weights && queue[k].depth == 0
    ensures Walking(g, SeedsOf(positions), weights, queue, 0)
  {
    forall p | p in weights ensures AtDistance(g, SeedsOf(positions), p, WeightDepth(weights[p])) {
    }
  }

  /** When the queue runs dry, every position within three edges has been
      weighted by its distance and no other has. */
  lemma WalkDone(g: Graph, seeds: set<Position>, weights: map<Position, int>, level: nat)
    requires Walking(g, seeds, weights, [], level)
    ensures weights == LayeredWeights(g, seeds)
  {
    Closure(g, seeds, weights, 3);
    forall p | p in weights ensures p in Reach(g, seeds, 3) && weights[p] == DepthWeight(Layer(g, seeds, p)) {
      WeightIsLayer(g, seeds, weights, p);
    }
  }

  lemma WeightIsLayer(g: Graph, seeds: set<Position>, weights: map<Position, int>, p: Position)
    requires p in weights && IsWeight(weights[p]) && Distances(g, seeds, weights)
    ensures p in Reach(g, seeds, 3) && weights[p] == DepthWeight(Layer(g, seeds, p))
  {
    var d := WeightDepth(weights[p]);
    assert AtDistance(g, seeds, p, d);
    ReachMonotone(g, seeds, d, 3);
    LayerIsDistance(g, seeds, p, d);
  }

  /** The breadth-first walk of SearchPlayers (search.go:14-56): seed every
      requested position with weight 8 and depth 0, then pop the queue;
      a position at depth 3 or more is not expanded, any other is expanded
      by ExpandPosition. The result weighs every position by its distance
      from the requested ones. */
  method SimilarityWeights(g: Graph, positions: seq<Position>) returns (weights: map<Position, int>)
    ensures weights == LayeredWeights(g, SeedsOf(positions))
  {
    weights := map[];
    var visited: set<Position> := {};
    var queue: seq<Pending> := [];
    for i := 0 to |positions|
      invariant visited == weights.Keys == SeedsOf(positions[..i]) == QueuedSet(queue)
      invariant forall p :: p in weights ==> weights[p] == 8
      invariant forall k :: 0 <= k < |queue| ==> queue[k].pos in weights && queue[k].depth == 0
    {
      assert positions[..i + 1] == positions[..i] + [positions[i]];
      QueuedSetAppend(queue, Pending(positions[i], 0));
      weights := weights[positions[i] := 8];
      visited := visited + {positions[i]};
      queue := queue + [Pending(positions[i], 0)];
    }
    assert positions[..|positions|] == positions;
    Seeded(g, positions, weights, queue);
    ghost var seeds, level: nat := SeedsOf(positions), 0;
    AtMostSixteen(visited);
    while |queue| > 0
      invariant Walking(g, seeds, weights, queue, level) && visited == weights.Keys
      invariant |visited| <= 16
      decreases 16 - |visited|, |queue|
    {
      Pop(g, seeds, weights, queue, level);
      var current := queue[0];
      queue := queue[1..];
      level := current.depth;
      if current.depth < 3 {
        weights, visited, queue := ExpandPosition(g, seeds, current, weights, visited, queue);
        Expansion(g, seeds, current, weights, queue);
        AtMostSixteen(visited);
      }
    }
    WalkDone(g, seeds, weights, level);
  }

  /** PlayerSearchOptions in the shape its callers use (search.go:8-96):
      several positions, a name and a shirt number to match exactly, and the
      shirt numbers to skip. An empty name or number 0 still takes part in
      the comparisons, as Go's zero values do. */
  datatype SearchOptions = SearchOptions(positions: seq<Position>, name: string, number: int, exclusions: set<int>)

  /** The single-position PlayerSearchOptions of types.go:18-23; exclusions
      are the keys of a map, so only their presence matters. */
  datatype PositionSearchOptions = PositionSearchOptions(position: Position, name: string, number: int, exclusions: set<int>)

  /** The single-position options as a one-position request. */
  function AsRequest(options: PositionSearchOptions): SearchOptions {
    SearchOptions([options.position], options.name, options.number, options.exclusions)
  }

  /** An exact-match bonus: 2, scaled by 4. */
  function Bonus(matches: bool): int {
    if matches then 8 else 0
  }

  /** The score of one roster player, x4 (search.go:59-80). An excluded
      player is given 0, which the scan skips exactly as it skips the
      excluded player. */
  function CandidateScore(teamName: string, weights: map<Position, int>, options: SearchOptions, teamBonus: bool, p: Player): int {
    if p.number in options.exclusions then 0
    else
      (if p.position in weights then weights[p.position] else 0)
      + Bonus(p.name == options.name)
      + Bonus(teamBonus && teamName == options.name)
      + Bonus(p.number == options.number)
  }

  /** The score of every roster player, in roster order. */
  function Scores(team: Team, weights: map<Position, int>, options: SearchOptions, teamBonus: bool): (scores: seq<int>)
    ensures |scores| == |team.players|
    ensures forall i :: 0 <= i < |scores| ==> scores[i] == CandidateScore(team.name, weights, options, teamBonus, team.players[i])
  {
    seq(|team.players|, i requires 0 <= i < |team.players| => CandidateScore(team.name, weights, options, teamBonus, team.players[i]))
  }

  /** The player an index names, or the panic of a search that found nobody. */
  function Chosen(team: Team, best: Option<nat>): Fallible<Player>
    requires best.Some? ==> best.value < |team.players|
  {
    match best
    case None => Panic("no player found")
    case Some(i) => Ok(team.players[i])
  }

  /** The roster scan of SearchPlayers (search.go:57-95, types.go:69-102):
      skip excluded numbers and zero scores, keep the first player whose
      score beats the best so far, panic when nobody was kept. */
  method HighestScoring(team: Team, weights: map<Position, int>, options: SearchOptions, teamBonus: bool)
    returns (r: Fallible<Player>)
    requires forall p :: p in weights ==> weights[p] >= 0
    ensures FirstMax(Scores(team, weights, options, teamBonus)).Some? ==> r == Ok(team.players[FirstMax(Scores(team, weights, options, teamBonus)).value])
    ensures FirstMax(Scores(team, weights, options, teamBonus)).None? ==> r.Panic?
    ensures r == Chosen(team, FirstMax(Scores(team, weights, options, teamBonus)))
  {
    ghost var scores := Scores(team, weights, options, teamBonus);
    var highest: Option<nat> := None;
    var highestScore := 0;
    for i := 0 to |team.players|
      invariant highest == FirstMax(scores[..i])
      invariant highest.Some? ==> highestScore == scores[highest.value]
    {
      assert scores[..i + 1][..i] == scores[..i];
      var player := team.players[i];
      if player.number in options.exclusions {
        continue;
      }
      var score := 0;
      if player.position in weights {
        score := score + weights[player.position];
      }
      if player.name == options.name {
        score := score + 8;
      }
      if teamBonus && team.name == options.name {
        score := score + 8;
      }
      if player.number == options.number {
        score := score + 8;
      }
      if score == 0 {
        continue;
      }
      if highest.None? || score > highestScore {
        highest, highestScore := Some(i), score;
      }
    }
    assert scores[..|team.players|] == scores;
    r := Chosen(team, highest);
  }

  lemma LayeredWeightsPositive(g: Graph, seeds: set<Position>)
    ensures forall p :: p in LayeredWeights(g, seeds) ==> LayeredWeights(g, seeds)[p] > 0
  {
  }

  /** The scores SearchPlayers ranks the roster by. */
  function SearchScores(team: Team, options: SearchOptions): seq<int> {
    Scores(team, LayeredWeights(SimilarPositions, SeedsOf(options.positions)), options, true)
  }

  /** What Team.SearchPlayers returns: the first best-scoring player, or a
      panic when nobody scores. */
  function Searched(team: Team, options: SearchOptions): Fallible<Player> {
    Chosen(team, FirstMax(SearchScores(team, options)))
  }

  /** A search returns a roster player whose number is not excluded, and
      panics exactly when no player scores above zero. */
  lemma SearchedMeaning(team: Team, options: SearchOptions)
    ensures Searched(team, options).Ok? ==>
              Searched(team, options).value in team.players && Searched(team, options).value.number !in options.exclusions
    ensures Searched(team, options).Panic? <==> forall i :: 0 <= i < |team.players| ==> SearchScores(team, options)[i] <= 0
  {
    var best := FirstMax(SearchScores(team, options));
    if best.Some? {
      assert team.players[best.value] in team.players;
    }
  }

  /** Team.SearchPlayers (search.go:8-96): weigh positions by their distance
      from the requested ones, then return the first roster player with the
      highest positive score; when no player that is not excluded scores
      anything, panic. */
  method SearchPlayers(team: Team, options: SearchOptions) returns (r: Fallible<Player>)
    ensures FirstMax(SearchScores(team, options)).Some? ==> r == Ok(team.players[FirstMax(SearchScores(team, options)).value])
    ensures r.Ok? ==> r.value in team.players && r.value.number !in options.exclusions
    ensures r.Panic? <==> forall i :: 0 <= i < |team.players| ==> SearchScores(team, options)[i] == 0
    ensures r == Searched(team, options)
  {
    var weights := SimilarityWeights(SimilarPositions, options.positions);
    LayeredWeightsPositive(SimilarPositions, SeedsOf(options.positions));
    r := HighestScoring(team, weights, options, true);
  }

  /** The scores the single-position search ranks the roster by: the same
      weights for one position, without the team-name bonus. */
  function PositionScores(team: Team, options: PositionSearchOptions): seq<int> {
    Scores(team, LayeredWeights(SimilarPositions, {options.position}), AsRequest(options), false)
  }

  /** The single-position Team.SearchPlayers (types.go:25-103). */
  method SearchPlayersByPosition(team: Team, options: PositionSearchOptions) returns (r: Fallible<Player>)
    ensures FirstMax(PositionScores(team, options)).Some? ==> r == Ok(team.players[FirstMax(PositionScores(team, options)).value])
    ensures r.Ok? ==> r.value in team.players && r.value.number !in options.exclusions
    ensures r.Panic? <==> forall i :: 0 <= i < |team.players| ==> PositionScores(team, options)[i] == 0
  {
    var weights := SimilarityWeights(SimilarPositions, [options.position]);
    assert SeedsOf([options.position]) == {options.position};
    LayeredWeightsPositive(SimilarPositions, {options.position});
    r := HighestScoring(team, weights, AsRequest(options), false);
  }

  /** The team-name bonus is the same for every player, so it never changes
      which player wins once some player scores without it. */
  lemma TeamBonusNeutral(team: Team, weights: map<Position, int>, options: SearchOptions)
    requires forall p :: p in weights ==> weights[p] >= 0
    requires FirstMax(Scores(team, weights, options, false)).Some? || team.name != options.name
    ensures FirstMax(Scores(team, weights, options, true)) == FirstMax(Scores(team, weights, options, false))
  {
    var without, with := Scores(team, weights, options, false), Scores(team, weights, options, true);
    if team.name != options.name {
      assert without == with;
    } else {
      FirstMaxShift(without, with, 8);
    }
  }

  /** With the bonus and no other match, the first player who is not
      excluded is returned. */
  lemma TeamBonusFallback(team: Team, weights: map<Position, int>, options: SearchOptions)
    requires forall p :: p in weights ==> weights[p] >= 0
    requires FirstMax(Scores(team, weights, options, false)).None? && team.name == options.name
    ensures FirstMax(Scores(team, weights, options, true)).Some? <==> exists p :: p in team.players && p.number !in options.exclusions
    ensures FirstMax(Scores(team, weights, options, true)).Some? ==>
              var i := FirstMax(Scores(team, weights, options, true)).value;
              team.players[i].number !in options.exclusions &&
              forall j :: 0 <= j < i ==> team.players[j].number in options.exclusions
  {
    var without, with := Scores(team, weights, options, false), Scores(team, weights, options, true);
    assert forall j :: 0 <= j < |with| ==> with[j] == if team.players[j].number in options.exclusions then 0 else 8;
    if exists p :: p in team.players && p.number !in options.exclusions {
      var p :| p in team.players && p.number !in options.exclusions;
      var k :| 0 <= k < |team.players| && team.players[k] == p;
      assert with[k] > 0;
    }
  }

  /** The single-position search is the multi-position search asked for that
      one position, except for the team-name bonus; whenever the bonus does
      not decide, the two choose the same player. */
  lemma SinglePositionAgrees(team: Team, options: PositionSearchOptions)
    requires FirstMax(PositionScores(team, options)).Some? || team.name != options.name
    ensures FirstMax(SearchScores(team, AsRequest(options))) == FirstMax(PositionScores(team, options))
  {
    assert SeedsOf([options.position]) == {options.position};
    LayeredWeightsPositive(SimilarPositions, {options.position});
    TeamBonusNeutral(team, LayeredWeights(SimilarPositions, {options.position}), AsRequest(options));
  }

  /** The goalkeeper has no similar positions, so a search for it weighs the
      goalkeeper alone. */
  lemma GoalkeeperSearchWeights()
    ensures LayeredWeights(SimilarPositions, {Goalkeeper}) == map[Goalkeeper := 8]
  {
    SimilarPositionsShape();
    var seeds := {Goalkeeper};
    assert Step(SimilarPositions, seeds) == {};
    assert Reach(SimilarPositions, seeds, 1) == seeds;
    assert Reach(SimilarPositions, seeds, 2) == seeds;
    assert Reach(SimilarPositions, seeds, 3) == seeds;
  }

  /** The roster members whose position is in the group, in roster order. */
  function InGroup(players: seq<Player>, group: seq<Position>): (members: seq<Player>)
    ensures forall p :: p in members ==> p in players && p.position in group
    ensures forall p :: p in players && p.position in group ==> p in members
  {
    if |players| == 0 then []
    else
      var last := players[|players| - 1];
      InGroup(players[..|players| - 1], group) + (if last.position in group then [last] else [])
  }

  /** The index RandomPlayerInGroup takes for a draw in [0, 1) over n
      members: k = floor(draw * n), lowered by one when positive. */
  function GroupIndex(draw: real, n: nat): (i: nat)
    requires 0.0 <= draw < 1.0 && n > 0
    ensures i < n
    ensures n >= 2 ==> i < n - 1
  {
    var k := (draw * n as real).Floor;
    assert 0.0 <= draw * n as real < n as real;
    if k > 0 then k - 1 else 0
  }

  /** The member a draw picks from a group, or a panic for an empty group. */
  function GroupPick(team: Team, group: seq<Position>, draw: real): Fallible<Player>
    requires 0.0 <= draw < 1.0
  {
    var members := InGroup(team.players, group);
    if |members| == 0 then Panic("index out of range") else Ok(members[GroupIndex(draw, |members|)])
  }

  /** A pick is a roster player of the group; it fails exactly when no
      roster player belongs to the group. */
  lemma GroupPickMeaning(team: Team, group: seq<Position>, draw: real)
    requires 0.0 <= draw < 1.0
    ensures GroupPick(team, group, draw).Ok? ==>
              GroupPick(team, group, draw).value in team.players && GroupPick(team, group, draw).value.position in group
    ensures GroupPick(team, group, draw).Panic? <==> forall p :: p in team.players ==> p.position !in group
  {
    var members := InGroup(team.players, group);
    if |members| > 0 {
      assert members[0] in members;
    }
  }

  /** Team.RandomPlayerInGroup (search.go:98-110): collect the roster
      members whose position is in the group, then take the member at
      GroupIndex; an empty group indexes past the end and panics. */
  method RandomPlayerInGroup(team: Team, group: seq<Position>, draw: real) returns (r: Fallible<Player>)
    requires 0.0 <= draw < 1.0
    ensures r == GroupPick(team, group, draw)
  {
    var players: seq<Player> := [];
    for i := 0 to |team.players|
      invariant players == InGroup(team.players[..i], group)
    {
      assert team.players[..i + 1][..i] == team.players[..i];
      if team.players[i].position in group {
        players := players + [team.players[i]];
      }
    }
    assert team.players[..|team.players|] == team.players;
    if |players| == 0 {
      return Panic("index out of range");
    }
    var randomIndex := GroupIndex(draw, |players|);
    r := Ok(players[randomIndex]);
  }

  /** A group of at least two members never yields its last member. */
  lemma LastMemberNeverChosen(team: Team, group: seq<Position>, draw: real)
    requires 0.0 <= draw < 1.0 && |InGroup(team.players, group)| >= 2
    ensures var members := InGroup(team.players, group);
            GroupPick(team, group, draw) == Ok(members[GroupIndex(draw, |members|)]) &&
            GroupIndex(draw, |members|) != |members| - 1
  {
  }

  /** The position groups the receiver choice draws from. Their contents are
      declared outside the shown source, so they are parameters here. */
  datatype Groups = Groups(forwards: seq<Position>, midfielders: seq<Position>, defenders: seq<Position>)

  /** Team.ChooseReceiver (search.go:112-132): the group depends on pressure,
      on the passer's group and on the pass length; the receiver is drawn
      from it by RandomPlayerInGroup. */
  method ChooseReceiver(team: Team, groups: Groups, passer: Player, underPressure: bool, isLongPass: bool, draw: real)
    returns (r: Fallible<Player>)
    requires 0.0 <= draw < 1.0
    ensures underPressure && passer.position in groups.forwards ==> r == GroupPick(team, groups.midfielders, draw)
    ensures underPressure && passer.position !in groups.forwards ==> r == GroupPick(team, groups.defenders, draw)
    ensures !underPressure && passer.position in groups.defenders && isLongPass ==> r == GroupPick(team, groups.forwards, draw)
    ensures !underPressure && passer.position in groups.defenders && !isLongPass ==> r == GroupPick(team, groups.midfielders, draw)
    ensures !underPressure && passer.position !in groups.defenders ==> r == GroupPick(team, groups.forwards, draw)
  {
    if underPressure {
      if passer.position in groups.forwards {
        r := RandomPlayerInGroup(team, groups.midfielders, draw);
      } else {
        r := RandomPlayerInGroup(team, groups.defenders, draw);
      }
    } else {
      if passer.position in groups.defenders {
        if isLongPass {
          r := RandomPlayerInGroup(team, groups.forwards, draw);
        } else {
          r := RandomPlayerInGroup(team, groups.midfielders, draw);
        }
      } else {
        r := RandomPlayerInGroup(team, groups.forwards, draw);
      }
    }
  }
}
