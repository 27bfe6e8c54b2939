/** What the player on the ball decides and how the decision turns out
    (simulation/simulation.go:445-654, 723-743, 777-833). */
module Decisions {
  import opened Outcomes
  import opened Positions
  import opened Graphs
  import opened Players
  import opened Helpers
  import opened Search
  import opened Proximity
  import opened Events
  import opened Plays

  /** What an action reads from the running match: the teams, both
      momentum values, the event log so far, and the team-mate and opponent
      adjacency graphs (TeammateAdjacents and OpponentAdjacents are not part
      of this model, so they are parameters). */
  datatype Context = Context(
    game: Match,
    homeMomentum: real,
    awayMomentum: real,
    log: seq<Event>,
    teammateAdjacents: Graph,
    opponentAdjacents: Graph
  )

  /** The random draws one action consumes, each from [0, 1): the decision
      draw, the pass-type draw and the success draw; shotScores stands for
      the outcome of evaluateShot's sigmoid test. */
  datatype ActionDraws = ActionDraws(decision: real, passType: real, success: real, shotScores: bool)

  // ---------------------------------------------------------------------
  // Success chances, over exact reals

  /** evaluateLongPass's chance (simulation.go:565-590). */
  function LongPassChance(r: Ratings, momentum: real): real {
    ((r.passingVision as real) * 0.4 + (r.longPass as real) * 0.4 + (r.agility as real) * 0.3 + momentum * 0.1) / 100.0
  }

  /** evaluateShortPass's chance (simulation.go:592-608). */
  function ShortPassChance(r: Ratings): real {
    ((r.passingVision as real) * 0.2 + (r.shortPass as real) * 0.6 + (r.agility as real) * 0.2) / 100.0
  }

  /** evaluateDribble's ability score before clamping, halved right after a
      dribble (simulation.go:614-627). */
  function DribbleScore(r: Ratings, afterDribble: bool): real {
    var score := (r.dribbling as real) * 0.5 + (r.dribbleAgility as real) * 0.3 + (r.composure as real) * 0.2;
    if afterDribble then score * 0.5 else score
  }

  /** evaluateDribble's chance: the score clamped to [0, 100], over 100
      (simulation.go:645-653). */
  function DribbleChance(r: Ratings, afterDribble: bool): (chance: real)
    ensures 0.0 <= chance <= 1.0
  {
    var score := DribbleScore(r, afterDribble);
    (if score < 0.0 then 0.0 else if score > 100.0 then 100.0 else score) / 100.0
  }

  /** evaluateHold's chance for an outfield player (simulation.go:728-742). */
  function HoldChance(r: Ratings): real {
    ((r.agility as real) * 0.4 + (r.strength as real) * 0.4 + (r.passingVision as real) * 0.2) / 100.0
  }

  /** Every rating on the 0-100 scale. */
  predicate OnScale(r: Ratings) {
    && 0 <= r.shortPass <= 100 && 0 <= r.longPass <= 100 && 0 <= r.cross <= 100
    && 0 <= r.power <= 100 && 0 <= r.curve <= 100 && 0 <= r.finishing <= 100
    && 0 <= r.dribbling <= 100 && 0 <= r.dribbleAgility <= 100
    && 0 <= r.passingVision <= 100 && 0 <= r.shootingVision <= 100
    && 0 <= r.composure <= 100 && 0 <= r.agility <= 100 && 0 <= r.strength <= 100
  }

  /** With ratings on their scale, the short-pass and hold chances are
      probabilities, since their weights add up to one. */
  lemma ChancesAreProbabilities(r: Ratings)
    requires OnScale(r)
    ensures 0.0 <= ShortPassChance(r) <= 1.0
    ensures 0.0 <= HoldChance(r) <= 1.0
  {
  }

  /** The long-pass weights add up to more than one, so a player rated 91
      or more for vision, long passing and agility never misplaces a long
      pass while momentum is not negative. */
  lemma LongPassSureForTopRatings(r: Ratings, momentum: real, draw: real)
    requires r.passingVision >= 91 && r.longPass >= 91 && r.agility >= 91
    requires momentum >= 0.0 && draw < 1.0
    ensures draw < LongPassChance(r, momentum)
  {
  }

  /** A dribble straight after a dribble has half the chance, as long as the
      unclamped score lies on the 0-100 scale. */
  lemma DribbleAfterDribbleHalved(r: Ratings)
    requires 0.0 <= DribbleScore(r, false) <= 100.0
    ensures DribbleChance(r, true) == DribbleChance(r, false) * 0.5
  {
  }

  // ---------------------------------------------------------------------
  // The recent-event window

  /** LastEvents (simulation.go:159-165): the whole log while it holds no
      more than count events, otherwise the count events that come just
      before the newest one. */
  function LastEventsOf(log: seq<Event>, count: nat): (window: seq<Event>)
    ensures |log| <= count ==> window == log
    ensures |log| > count ==> |window| == count && window + [log[|log| - 1]] == log[|log| - count - 1..]
  {
    if |log| <= count then log else log[|log| - count - 1..|log| - 1]
  }

  /** Once the log is longer than the window, the newest event is left out
      of it, while a short log includes it. */
  lemma WindowAndNewest(log: seq<Event>, count: nat)
    requires |log| > 0
    ensures |log| <= count ==> log[|log| - 1] in LastEventsOf(log, count)
    ensures |log| > count ==> LastEventsOf(log, count) == log[|log| - count - 1..|log| - 1]
  {
  }

  /** How makeDecision reads one logged event: no finishing player means not
      involved; a finishing player in the position means involved; otherwise
      the starting player is read, which panics when there is none. */
  function Touches(e: Event, pos: Position): Fallible<bool> {
    if e.finishing.None? then Ok(false)
    else if e.finishing.value.position == pos then Ok(true)
    else if e.starting.None? then Panic("nil pointer dereference")
    else Ok(e.starting.value.position == pos)
  }

  /** The involvement loop over a window, event by event. */
  function Involvement(window: seq<Event>, pos: Position): Fallible<bool> {
    if |window| == 0 then Ok(false)
    else
      match Involvement(window[..|window| - 1], pos)
      case Panic(m) => Panic(m)
      case Ok(before) =>
        match Touches(window[|window| - 1], pos)
        case Panic(m) => Panic(m)
        case Ok(now) => Ok(before || now)
  }

  /** The event involves a player in the position. */
  predicate Involves(e: Event, pos: Position) {
    e.finishing.Some? && (e.finishing.value.position == pos || (e.starting.Some? && e.starting.value.position == pos))
  }

  /** The event makes the loop read a starting player that is missing. */
  predicate Dangling(e: Event, pos: Position) {
    e.finishing.Some? && e.finishing.value.position != pos && e.starting.None?
  }

  /** The loop panics exactly when some event of the window is dangling;
      otherwise it reports whether some event involves the position. */
  lemma {:induction false} InvolvementMeaning(window: seq<Event>, pos: Position)
    ensures Involvement(window, pos).Panic? <==> exists i :: 0 <= i < |window| && Dangling(window[i], pos)
    ensures Involvement(window, pos).Ok? ==>
              (Involvement(window, pos).value <==> exists i :: 0 <= i < |window| && Involves(window[i], pos))
  {
    if |window| > 0 {
      var prefix := window[..|window| - 1];
      var last := window[|window| - 1];
      InvolvementMeaning(prefix, pos);
      assert forall i :: 0 <= i < |prefix| ==> prefix[i] == window[i];
      if exists i :: 0 <= i < |window| && Dangling(window[i], pos) {
        var i :| 0 <= i < |window| && Dangling(window[i], pos);
        if i < |prefix| {
          assert Dangling(prefix[i], pos);
        }
      }
      if exists i :: 0 <= i < |window| && Involves(window[i], pos) {
        var i :| 0 <= i < |window| && Involves(window[i], pos);
        if i < |prefix| {
          assert Involves(prefix[i], pos);
        }
      }
    }
  }

  /** A panic in a prefix of the window is the panic of the whole loop. */
  lemma {:induction false} InvolvementPanicStays(window: seq<Event>, pos: Position, i: nat)
    requires i <= |window| && Involvement(window[..i], pos).Panic?
    ensures Involvement(window, pos) == Involvement(window[..i], pos)
    decreases |window| - i
  {
    if i < |window| {
      assert window[..i + 1][..i] == window[..i];
      InvolvementPanicStays(window, pos, i + 1);
    } else {
      assert window[..i] == window;
    }
  }

  // ---------------------------------------------------------------------
  // makeDecision and decidePassType

  /** The shooting rating makeDecision weighs. */
  function Shooting(r: Ratings): real {
    (r.finishing as real) * 0.5 + (r.shootingVision as real) * 0.5
  }

  /** decidePassType as written (simulation.go:826-833): the draw is
      compared with vision x 0.8, a number on the 0-80 scale. */
  function DecidePassTypeAsWritten(p: Player, draw: real): Decision {
    if draw < (p.ratings.passingVision as real) * 0.8 then DecisionLongPass else DecisionShortPass
  }

  /** As written, any passing vision of 2 or more makes every pass long. */
  lemma AsWrittenAlwaysLong(p: Player, draw: real)
    requires p.ratings.passingVision >= 2 && draw < 1.0
    ensures DecidePassTypeAsWritten(p, draw) == DecisionLongPass
  {
  }

  /** decidePassType as its "up to 80% chance" comment intends: the
      probability vision x 0.8 is on the percent scale. */
  function DecidePassType(p: Player, draw: real): (d: Decision)
    ensures d == DecisionLongPass || d == DecisionShortPass
  {
    if draw < (p.ratings.passingVision as real) * 0.8 / 100.0 then DecisionLongPass else DecisionShortPass
  }

  /** Intended behaviour: with vision on its scale a draw of 0.8 or more is
      always a short pass, so long passes take at most 80% of draws, and
      every draw below vision x 0.008 is a long pass. */
  lemma PassTypeAtMostEightyPercent(p: Player, draw: real)
    requires 0 <= p.ratings.passingVision <= 100
    ensures draw >= 0.8 ==> DecidePassType(p, draw) == DecisionShortPass
    ensures draw < (p.ratings.passingVision as real) * 0.008 ==> DecidePassType(p, draw) == DecisionLongPass
  {
  }

  /** The input that shows the difference: vision 50 and a draw of 0.9. */
  lemma PassTypeDiscrepancy()
    ensures var p := Player("", CentralMidfielder, 8, Ratings(50, 50, 50, 50, 50, 50, 50, 50, 50, 50, 50, 50, 50));
            DecidePassTypeAsWritten(p, 0.9) == DecisionLongPass && DecidePassType(p, 0.9) == DecisionShortPass
  {
  }

  /** The dribble-decision threshold of makeDecision (simulation.go:815-819). */
  function DribbleDecisionChance(r: Ratings): real {
    ((r.dribbling as real) * 0.6 + (r.agility as real) * 0.4) / 100.0 * 0.6
  }

  /** The decision makeDecision reaches for the player finishing an event.
      The fall-through pass type is the intended DecidePassType, not the
      code's DecidePassTypeAsWritten, which passes long for any vision of 2
      or more. */
  function DecisionOf(e: Event, log: seq<Event>, rng: real, passDraw: real): Fallible<Decision> {
    if e.finishing.None? then Ok(NoDecision)
    else
      var p := e.finishing.value;
      var shooting := Shooting(p.ratings);
      var crossing := p.ratings.cross as real;
      if IsAttacker(p.position) && shooting > 70.0 && rng < shooting / 200.0 then Ok(DecisionShoot)
      else
        match Involvement(LastEventsOf(log, 5), p.position)
        case Panic(m) => Panic(m)
        case Ok(involved) =>
          if (IsAttacker(p.position) || IsWinger(p.position)) && involved then Ok(DecisionShoot)
          else if IsWinger(p.position) && crossing > 60.0 && rng < crossing / 200.0 then Ok(DecisionCross)
          else if rng < DribbleDecisionChance(p.ratings) then Ok(DecisionDribble)
          else Ok(DecidePassType(p, passDraw))
  }

  /** makeDecision (simulation.go:777-824). */
  method MakeDecision(e: Event, log: seq<Event>, rng: real, passDraw: real) returns (d: Fallible<Decision>)
    ensures d == DecisionOf(e, log, rng, passDraw)
  {
    if e.finishing.None? {
      return Ok(NoDecision);
    }
    var player := e.finishing.value;
    var shooting := Shooting(player.ratings);
    var crossing := player.ratings.cross as real;
    var position := player.position;
    if IsAttacker(position) && shooting > 70.0 && rng < shooting / 200.0 {
      return Ok(DecisionShoot);
    }
    var window := LastEventsOf(log, 5);
    var involved := false;
    for i := 0 to |window|
      invariant Involvement(window[..i], position) == Ok(involved)
    {
      assert window[..i + 1][..i] == window[..i];
      var event := window[i];
      if event.finishing.None? {
        continue;
      }
      if event.finishing.value.position == position {
        involved := true;
      } else if event.starting.None? {
        InvolvementPanicStays(window, position, i + 1);
        return Panic("nil pointer dereference");
      } else if event.starting.value.position == position {
        involved := true;
      }
    }
    assert window[..|window|] == window;
    if (IsAttacker(position) || IsWinger(position)) && involved {
      return Ok(DecisionShoot);
    }
    if IsWinger(position) && crossing > 60.0 && rng < crossing / 200.0 {
      return Ok(DecisionCross);
    }
    if rng < DribbleDecisionChance(player.ratings) {
      return Ok(DecisionDribble);
    }
    d := Ok(DecidePassType(player, passDraw));
  }

  /** What the decisions mean: no finishing player is exactly the case of
      no decision; only attackers and wide players shoot; only wide players
      with a crossing rating above 60 cross; an attacker or wide player
      involved in the recent events always shoots; the decision panics
      exactly when the early shot is not taken and the recent window holds
      a dangling event. */
  lemma DecisionMeaning(e: Event, log: seq<Event>, rng: real, passDraw: real)
    ensures var d := DecisionOf(e, log, rng, passDraw);
            && (d == Ok(NoDecision) <==> e.finishing.None?)
            && (d == Ok(DecisionShoot) ==> IsAttacker(e.finishing.value.position) || IsWinger(e.finishing.value.position))
            && (d == Ok(DecisionCross) ==> IsWinger(e.finishing.value.position) && e.finishing.value.ratings.cross > 60)
    ensures e.finishing.Some? ==>
              var p := e.finishing.value;
              var window := LastEventsOf(log, 5);
              var early := IsAttacker(p.position) && Shooting(p.ratings) > 70.0 && rng < Shooting(p.ratings) / 200.0;
              && (DecisionOf(e, log, rng, passDraw).Panic? <==>
                    !early && exists i :: 0 <= i < |window| && Dangling(window[i], p.position))
              && (((IsAttacker(p.position) || IsWinger(p.position)) &&
                   (forall i :: 0 <= i < |window| ==> !Dangling(window[i], p.position)) &&
                   (exists i :: 0 <= i < |window| && Involves(window[i], p.position)))
                  ==> DecisionOf(e, log, rng, passDraw) == Ok(DecisionShoot))
  {
    if e.finishing.Some? {
      InvolvementMeaning(LastEventsOf(log, 5), e.finishing.value.position);
    }
  }

  // ---------------------------------------------------------------------
  // evaluateDecision and action

  /** The momentum of the team in possession. */
  function MomentumOf(ctx: Context, team: Team): real {
    if IsHome(ctx.game, team) then ctx.homeMomentum else ctx.awayMomentum
  }

  /** Whether the log's newest event is a dribble. */
  predicate AfterDribble(log: seq<Event>) {
    |log| > 0 && log[|log| - 1].kind == ETDribble
  }

  /** The success test of each decision: a draw below the chance, a cross
      always, a shot as evaluateShot decides, and a goalkeeper always keeps
      the ball. */
  predicate Succeeds(ctx: Context, team: Team, p: Player, decision: Decision, draws: ActionDraws) {
    match decision
    case DecisionLongPass => draws.success < LongPassChance(p.ratings, MomentumOf(ctx, team))
    case DecisionShortPass => draws.success < ShortPassChance(p.ratings)
    case DecisionDribble => draws.success < DribbleChance(p.ratings, AfterDribble(ctx.log))
    case DecisionCross => true
    case DecisionShoot => draws.shotScores
    case NoDecision => p.position == Goalkeeper || draws.success < HoldChance(p.ratings)
  }

  /** The event type a successful decision produces. */
  function SuccessKind(decision: Decision): EventType {
    match decision
    case DecisionLongPass => ETPass
    case DecisionShortPass => ETPass
    case DecisionDribble => ETDribble
    case DecisionCross => ETCross
    case DecisionShoot => ETGoal
    case NoDecision => ETPossession
  }

  const LongPassTargets := [Striker, RightWinger, LeftWinger]

  /** The positions a cross looks for after the nearest team-mate's own. */
  const CrossTargets := [LeftWinger, RightWinger, Striker, CentralAttackingMidfielder, CentreForward]

  /** An event from the player to the receiver a search finds, or its panic. */
  function PassTo(kind: EventType, team: Team, p: Player, receiver: Fallible<Player>): Fallible<Event> {
    match receiver
    case Panic(m) => Panic(m)
    case Ok(r) => Ok(Event(kind, team, Some(p), Some(r), map[]))
  }

  /** The same player starts and finishes the event. */
  function Keep(kind: EventType, team: Team, p: Player): Event {
    Event(kind, team, Some(p), Some(p), map[])
  }

  /** The event evaluateDecision produces. */
  function EvaluatedOf(ctx: Context, team: Team, player: Option<Player>, decision: Decision, draws: ActionDraws): Fallible<Event> {
    if player.None? then Panic("nil pointer dereference")
    else
      var p := player.value;
      var success := Succeeds(ctx, team, p, decision, draws);
      var lost := Ok(TurnoverOf(ctx.game, team, p, ctx.opponentAdjacents));
      match decision
      case DecisionLongPass =>
        if success then PassTo(ETPass, team, p, Searched(team, Request(LongPassTargets, {p.number}))) else lost
      case DecisionShortPass =>
        (match NearestTeamMate(p.position, team.players, ctx.teammateAdjacents)
         case None => Panic("nil pointer dereference")
         case Some(nearest) =>
           match Searched(team, Request([nearest.position], {p.number}))
           case Panic(m) => Panic(m)
           case Ok(receiver) => if success then Ok(Event(ETPass, team, Some(p), Some(receiver), map[])) else lost)
      case DecisionDribble =>
        if |ctx.log| == 0 then Panic("index out of range")
        else if success then Ok(Keep(ETDribble, team, p)) else lost
      case DecisionCross =>
        (match NearestTeamMate(p.position, team.players, ctx.teammateAdjacents)
         case None => Panic("nil pointer dereference")
         case Some(nearest) =>
           PassTo(ETCross, team, p, Searched(team, Request([nearest.position] + CrossTargets, {p.number}))))
      case DecisionShoot =>
        (match Searched(OpposingTeam(ctx.game, team), Request([Goalkeeper], {p.number}))
         case Panic(m) => Panic(m)
         case Ok(_) => if success then Ok(Keep(ETGoal, team, p)) else SaveOf(ctx.game, p, team))
      case NoDecision =>
        if success then Ok(Keep(ETPossession, team, p)) else lost
  }

  /** evaluateDecision (simulation.go:453-539), with turnover and save, the
      success tests of simulation.go:565-654 and 723-743, and evaluateShot's
      search for the opposing goalkeeper; the remaining arithmetic of
      evaluateShot is the draw shotScores. */
  method EvaluateDecision(ctx: Context, team: Team, player: Option<Player>, decision: Decision, draws: ActionDraws)
    returns (r: Fallible<Event>)
    ensures r == EvaluatedOf(ctx, team, player, decision, draws)
  {
    if player.None? {
      return Panic("nil pointer dereference");
    }
    var p := player.value;
    match decision {
      case DecisionLongPass =>
        if draws.success < LongPassChance(p.ratings, MomentumOf(ctx, team)) {
          var receiver := SearchPlayers(team, Request(LongPassTargets, {p.number}));
          r := PassTo(ETPass, team, p, receiver);
        } else {
          var e := Turnover(ctx.game, team, p, ctx.opponentAdjacents);
          r := Ok(e);
        }
      case DecisionShortPass =>
        var nearest := TeamMateNearest(p.position, team.players, ctx.teammateAdjacents);
        if nearest.None? {
          return Panic("nil pointer dereference");
        }
        var receiver := SearchPlayers(team, Request([nearest.value.position], {p.number}));
        if receiver.Panic? {
          return Panic(receiver.reason);
        }
        if draws.success < ShortPassChance(p.ratings) {
          r := Ok(Event(ETPass, team, Some(p), Some(receiver.value), map[]));
        } else {
          var e := Turnover(ctx.game, team, p, ctx.opponentAdjacents);
          r := Ok(e);
        }
      case DecisionDribble =>
        if |ctx.log| == 0 {
          return Panic("index out of range");
        }
        if draws.success < DribbleChance(p.ratings, ctx.log[|ctx.log| - 1].kind == ETDribble) {
          r := Ok(Keep(ETDribble, team, p));
        } else {
          var e := Turnover(ctx.game, team, p, ctx.opponentAdjacents);
          r := Ok(e);
        }
      case DecisionCross =>
        var nearest := TeamMateNearest(p.position, team.players, ctx.teammateAdjacents);
        if nearest.None? {
          return Panic("nil pointer dereference");
        }
        var receiver := SearchPlayers(team, Request([nearest.value.position] + CrossTargets, {p.number}));
        r := PassTo(ETCross, team, p, receiver);
      case DecisionShoot =>
        var keeper := SearchPlayers(OpposingTeam(ctx.game, team), Request([Goalkeeper], {p.number}));
        if keeper.Panic? {
          return Panic(keeper.reason);
        }
        if draws.shotScores {
          r := Ok(Keep(ETGoal, team, p));
        } else {
          r := Save(ctx.game, p, team);
        }
      case NoDecision =>
        if p.position == Goalkeeper || draws.success < HoldChance(p.ratings) {
          r := Ok(Keep(ETPossession, team, p));
        } else {
          var e := Turnover(ctx.game, team, p, ctx.opponentAdjacents);
          r := Ok(e);
        }
    }
  }

  /** What an evaluated decision means: it starts with the player on the
      ball; success keeps the ball with the team under the decision's event
      type; failure is the turnover to the nearest opponent, or for a shot
      the other side's save; passes and crosses reach a team-mate other than
      the passer, and dribbles, goals and possession stay with the player. */
  lemma EvaluatedMeaning(ctx: Context, team: Team, player: Option<Player>, decision: Decision, draws: ActionDraws)
    ensures player.None? ==> EvaluatedOf(ctx, team, player, decision, draws).Panic?
    ensures var r := EvaluatedOf(ctx, team, player, decision, draws);
            r.Ok? ==>
              var p := player.value;
              var opposing := OpposingTeam(ctx.game, team);
              var success := Succeeds(ctx, team, p, decision, draws);
              && r.value.starting == player
              && (success ==> r.value.kind == SuccessKind(decision) && r.value.team == team)
              && (!success && decision != DecisionShoot ==> r.value == TurnoverOf(ctx.game, team, p, ctx.opponentAdjacents))
              && (!success && decision == DecisionShoot ==>
                    r.value.kind == ETSave && r.value.team == opposing &&
                    r.value.finishing.Some? && r.value.finishing.value in opposing.players)
              && (success && (decision == DecisionLongPass || decision == DecisionShortPass || decision == DecisionCross) ==>
                    r.value.finishing.Some? && r.value.finishing.value in team.players &&
                    r.value.finishing.value.number != p.number)
              && (success && (decision == DecisionDribble || decision == DecisionShoot || decision == NoDecision) ==>
                    r.value.finishing == player)
  {
    var r := EvaluatedOf(ctx, team, player, decision, draws);
    if r.Ok? {
      var p := player.value;
      var opposing := OpposingTeam(ctx.game, team);
      match decision
      case DecisionLongPass =>
        SearchedMeaning(team, Request(LongPassTargets, {p.number}));
      case DecisionShortPass =>
        var nearest := NearestTeamMate(p.position, team.players, ctx.teammateAdjacents);
        SearchedMeaning(team, Request([nearest.value.position], {p.number}));
      case DecisionCross =>
        var nearest := NearestTeamMate(p.position, team.players, ctx.teammateAdjacents);
        SearchedMeaning(team, Request([nearest.value.position] + CrossTargets, {p.number}));
      case DecisionShoot =>
        SaveMeaning(ctx.game, p, team);
      case DecisionDribble =>
      case NoDecision =>
    }
  }

  /** A cross never loses the ball: it panics or produces a cross; and a
      goalkeeper with no decision always keeps the ball. */
  lemma CrossAndKeeperHold(ctx: Context, team: Team, player: Option<Player>, draws: ActionDraws)
    ensures EvaluatedOf(ctx, team, player, DecisionCross, draws).Ok? ==>
              EvaluatedOf(ctx, team, player, DecisionCross, draws).value.kind == ETCross
    ensures player.Some? && player.value.position == Goalkeeper ==>
              EvaluatedOf(ctx, team, player, NoDecision, draws) == Ok(Keep(ETPossession, team, player.value))
  {
  }

  /** The event the next action produces from an event: the decision of the
      player who finished it, evaluated. */
  function ActionOf(ctx: Context, e: Event, draws: ActionDraws): Fallible<Event> {
    match DecisionOf(e, ctx.log, draws.decision, draws.passType)
    case Panic(m) => Panic(m)
    case Ok(decision) => EvaluatedOf(ctx, e.team, e.finishing, decision, draws)
  }

  /** action (simulation.go:445-451). */
  method Action(ctx: Context, e: Event, draws: ActionDraws) returns (r: Fallible<Event>)
    ensures r == ActionOf(ctx, e, draws)
  {
    var player := e.finishing;
    var decision := MakeDecision(e, ctx.log, draws.decision, draws.passType);
    if decision.Panic? {
      return Panic(decision.reason);
    }
    r := EvaluateDecision(ctx, e.team, player, decision.value, draws);
  }

  /** An event nobody finished leads to no decision, and holding the ball
      then dereferences the missing player: the action panics. */
  lemma NoFinisherPanics(ctx: Context, e: Event, draws: ActionDraws)
    requires e.finishing.None?
    ensures ActionOf(ctx, e, draws).Panic?
  {
  }
}
