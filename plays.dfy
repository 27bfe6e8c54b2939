/** The match and the events that restart or hand over play
    (simulation/simulation.go): kick-off, goal, reset, goal kick, free kick,
    turnover and save. */
module Plays {
  import opened Outcomes
  import opened Positions
  import opened Graphs
  import opened Players
  import opened Search
  import opened Proximity
  import opened Events
  import opened Argmax

  /** The two teams of a match. */
  datatype Match = Match(home: Team, away: Team)

  /** Simulation.opposingTeam: teams are told apart by name only, and any
      team not named like the away side is taken for the home side. */
  function OpposingTeam(m: Match, team: Team): Team {
    if m.away.name == team.name then m.home else m.away
  }

  /** SimulationState.isHome: a team is at home when it bears the home
      side's name. */
  predicate IsHome(m: Match, team: Team) {
    team.name == m.home.name
  }

  /** When the two sides have different names, each one's opponent is the
      other side, the home side is the one that is at home, and taking the
      opponent twice gives back the team. */
  lemma OpposingSides(m: Match)
    requires m.home.name != m.away.name
    ensures OpposingTeam(m, m.home) == m.away && OpposingTeam(m, m.away) == m.home
    ensures IsHome(m, m.home) && !IsHome(m, m.away)
    ensures forall t: Team :: t.name == m.home.name || t.name == m.away.name ==>
              (IsHome(m, t) <==> OpposingTeam(m, t) == m.away) &&
              OpposingTeam(m, OpposingTeam(m, t)).name == t.name
  {
  }

  /** A search of the roster for some positions, with no name or number to
      match and the given shirt numbers excluded. */
  function Request(positions: seq<Position>, exclusions: set<int>): SearchOptions {
    SearchOptions(positions, "", 0, exclusions)
  }

  /** A pass from the striker to the central midfielder, as kick-off and
      every restart after a goal begin. */
  function KickOffOf(team: Team, meta: map<string, int>): Fallible<Event> {
    match Searched(team, Request([Striker], {}))
    case Panic(m) => Panic(m)
    case Ok(starter) =>
      match Searched(team, Request([CentralMidfielder], {}))
      case Panic(m) => Panic(m)
      case Ok(receiver) => Ok(Event(ETPass, team, Some(starter), Some(receiver), meta))
  }

  /** Both players of a kick-off pass come from the team kicking off. */
  lemma KickOffFromOwnTeam(team: Team, meta: map<string, int>)
    requires KickOffOf(team, meta).Ok?
    ensures var e := KickOffOf(team, meta).value;
            e.kind == ETPass && e.team == team &&
            e.starting.Some? && e.starting.value in team.players &&
            e.finishing.Some? && e.finishing.value in team.players
  {
    var first := FirstMax(SearchScores(team, Request([Striker], {})));
    var second := FirstMax(SearchScores(team, Request([CentralMidfielder], {})));
    assert first.Some? && second.Some?;
    assert team.players[first.value] in team.players;
    assert team.players[second.value] in team.players;
  }

  /** The first pass of the match (simulation.go:373-389), with quality 100. */
  method StartingEvent(team: Team) returns (r: Fallible<Event>)
    ensures r == KickOffOf(team, map["quality" := 100])
  {
    var starter := SearchPlayers(team, Request([Striker], {}));
    if starter.Panic? {
      return Panic(starter.reason);
    }
    var receiver := SearchPlayers(team, Request([CentralMidfielder], {}));
    if receiver.Panic? {
      return Panic(receiver.reason);
    }
    r := Ok(Event(ETPass, team, Some(starter.value), Some(receiver.value), map["quality" := 100]));
  }

  /** reset (simulation.go:419-432): the team restarts play with the same
      pass as at kick-off, without metadata. */
  method Reset(e: Event) returns (r: Fallible<Event>)
    ensures r == KickOffOf(e.team, map[])
  {
    var starter := SearchPlayers(e.team, Request([Striker], {}));
    if starter.Panic? {
      return Panic(starter.reason);
    }
    var receiver := SearchPlayers(e.team, Request([CentralMidfielder], {}));
    if receiver.Panic? {
      return Panic(receiver.reason);
    }
    r := Ok(Event(ETPass, e.team, Some(starter.value), Some(receiver.value), map[]));
  }

  /** goal (simulation.go:411-417): after a goal the other side restarts. */
  function Goal(m: Match, e: Event): (r: Event)
    ensures r.kind == ETReset && r.starting.None? && r.finishing.None?
    ensures m.home.name != m.away.name && e.team.name == m.home.name ==> r.team == m.away
    ensures m.home.name != m.away.name && e.team.name == m.away.name ==> r.team == m.home
  {
    Event(ETReset, OpposingTeam(m, e.team), None, None, map[])
  }

  /** The positions a goal kick looks for: attackers on heads, defenders
      on tails. */
  const KickForwards := [Striker, LeftWinger, LeftMidfielder, RightWinger, RightMidfielder, CentreForward, CentralAttackingMidfielder]
  const KickDefenders := [LeftBack, LeftCentreBack, RightCentreBack, RightBack]

  /** The goal kick after a save: the saving keeper passes to a forward
      when the coin lands below one half, otherwise to a defender. */
  function KeeperKickOf(e: Event, coin: real): Fallible<Event> {
    match Searched(e.team, Request(if coin < 0.5 then KickForwards else KickDefenders, {}))
    case Panic(m) => Panic(m)
    case Ok(receiver) => Ok(Event(ETPass, e.team, e.finishing, Some(receiver), map[]))
  }

  /** goalKeeperKick (simulation.go:391-409). */
  method GoalKeeperKick(e: Event, coin: real) returns (r: Fallible<Event>)
    ensures r == KeeperKickOf(e, coin)
  {
    var receiver: Fallible<Player>;
    if coin < 0.5 {
      receiver := SearchPlayers(e.team, Request(KickForwards, {}));
    } else {
      receiver := SearchPlayers(e.team, Request(KickDefenders, {}));
    }
    if receiver.Panic? {
      return Panic(receiver.reason);
    }
    r := Ok(Event(ETPass, e.team, e.finishing, Some(receiver.value), map[]));
  }

  /** A goal kick stays with the keeper's team: the keeper starts it and a
      team-mate receives it. */
  lemma KeeperKickStaysWithTeam(e: Event, coin: real)
    requires KeeperKickOf(e, coin).Ok?
    ensures var k := KeeperKickOf(e, coin).value;
            k.kind == ETPass && k.team == e.team && k.starting == e.finishing &&
            k.finishing.Some? && k.finishing.value in e.team.players
  {
    var best := FirstMax(SearchScores(e.team, Request(if coin < 0.5 then KickForwards else KickDefenders, {})));
    assert e.team.players[best.value] in e.team.players;
  }

  /** The free kick after a card: the opponent nearest to the offender
      takes it, for the other side; the offender must be known. */
  function FreeKickOf(m: Match, e: Event, adjacents: Graph): Fallible<Event> {
    if e.finishing.None? then Panic("nil pointer dereference")
    else
      var opposing := OpposingTeam(m, e.team);
      var taker := NearestOpponent(e.finishing.value.position, opposing.players, adjacents);
      Ok(Event(ETFreeKickOnGoal, opposing, taker, taker, map[]))
  }

  /** freeKick (simulation.go:434-443). */
  method FreeKick(m: Match, e: Event, adjacents: Graph) returns (r: Fallible<Event>)
    ensures r == FreeKickOf(m, e, adjacents)
  {
    if e.finishing.None? {
      return Panic("nil pointer dereference");
    }
    var opposing := OpposingTeam(m, e.team);
    var taker := OpponentNearestTo(e.finishing.value.position, opposing.players, adjacents);
    r := Ok(Event(ETFreeKickOnGoal, opposing, taker, taker, map[]));
  }

  /** Losing the ball: the other side gains it through the opponent nearest
      to the player, or through nobody when no opponent is near. */
  function TurnoverOf(m: Match, team: Team, player: Player, adjacents: Graph): Event {
    var opposing := OpposingTeam(m, team);
    Event(ETInterception, opposing, Some(player), NearestOpponent(player.position, opposing.players, adjacents), map[])
  }

  /** turnover (simulation.go:541-550). */
  method Turnover(m: Match, team: Team, player: Player, adjacents: Graph) returns (r: Event)
    ensures r == TurnoverOf(m, team, player, adjacents)
  {
    var opposing := OpposingTeam(m, team);
    var interceptor := OpponentNearestTo(player.position, opposing.players, adjacents);
    r := Event(ETInterception, opposing, Some(player), interceptor, map[]);
  }

  /** An interception credits the other side; its interceptor, when there
      is one, is an opposing player, and the first one standing in the
      loser's own position if any does. */
  lemma TurnoverMeaning(m: Match, team: Team, player: Player, adjacents: Graph)
    ensures var e := TurnoverOf(m, team, player, adjacents);
            var opposing := OpposingTeam(m, team);
            e.kind == ETInterception && e.team == opposing && e.starting == Some(player) &&
            (e.finishing.Some? ==> e.finishing.value in opposing.players) &&
            ((exists k :: 0 <= k < |opposing.players| && opposing.players[k].position == player.position) ==>
               e.finishing.Some? && e.finishing.value.position == player.position)
  {
    var opposing := OpposingTeam(m, team);
    var best := FirstMax(OpponentScores(player.position, opposing.players, adjacents));
    if best.Some? {
      assert opposing.players[best.value] in opposing.players;
    }
    if exists k :: 0 <= k < |opposing.players| && opposing.players[k].position == player.position {
      var k := FirstInPosition(opposing.players, player.position);
      OpponentSamePositionWins(player.position, opposing.players, adjacents, k);
    }
  }

  /** The first index of a player in the given position, given one exists. */
  lemma {:induction false} FirstInPosition(players: seq<Player>, pos: Position) returns (k: nat)
    requires exists j :: 0 <= j < |players| && players[j].position == pos
    ensures k < |players| && players[k].position == pos
    ensures forall j :: 0 <= j < k ==> players[j].position != pos
  {
    if players[0].position == pos {
      k := 0;
    } else {
      var j :| 0 <= j < |players| && players[j].position == pos;
      assert players[1..][j - 1] == players[j];
      var k' := FirstInPosition(players[1..], pos);
      k := k' + 1;
      assert forall i :: 1 <= i < k ==> players[i] == players[1..][i - 1];
    }
  }

  /** The save of a missed shot: the other side's goalkeeper holds it. */
  function SaveOf(m: Match, player: Player, team: Team): Fallible<Event> {
    var opposing := OpposingTeam(m, team);
    match Searched(opposing, Request([Goalkeeper], {}))
    case Panic(msg) => Panic(msg)
    case Ok(keeper) => Ok(Event(ETSave, opposing, Some(player), Some(keeper), map[]))
  }

  /** save (simulation.go:552-563). */
  method Save(m: Match, player: Player, team: Team) returns (r: Fallible<Event>)
    ensures r == SaveOf(m, player, team)
  {
    var opposing := OpposingTeam(m, team);
    var keeper := SearchPlayers(opposing, Request([Goalkeeper], {}));
    if keeper.Panic? {
      return Panic(keeper.reason);
    }
    r := Ok(Event(ETSave, opposing, Some(player), Some(keeper.value), map[]));
  }

  /** A save is credited to the other side, finished by one of its players,
      who is its goalkeeper whenever it fields one that is scored highest. */
  lemma SaveMeaning(m: Match, player: Player, team: Team)
    ensures var opposing := OpposingTeam(m, team);
            var r := SaveOf(m, player, team);
            (r.Ok? ==> r.value.kind == ETSave && r.value.team == opposing && r.value.starting == Some(player) &&
                       r.value.finishing.Some? && r.value.finishing.value in opposing.players) &&
            (r.Panic? <==> forall i :: 0 <= i < |opposing.players| ==> SearchScores(opposing, Request([Goalkeeper], {}))[i] <= 0)
  {
    var opposing := OpposingTeam(m, team);
    var best := FirstMax(SearchScores(opposing, Request([Goalkeeper], {})));
    if best.Some? {
      assert opposing.players[best.value] in opposing.players;
    }
  }
}
