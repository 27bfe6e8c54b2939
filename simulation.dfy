/** The match engine's mutable state and its goroutines
    (simulation/simulation.go:13-48, 58-324): a SimulationState whose
    methods update its fields in place, each proved against the step of
    MatchState it performs. */
module Simulation {
  import opened Outcomes
  import opened Positions
  import opened Players
  import opened Events
  import opened Plays
  import opened Decisions
  import opened MatchState

  /** The final score Run records. */
  datatype Outcome = Outcome(homeScore: int, awayScore: int)

  class SimulationState {
    /** The teams and both adjacency graphs, fixed for the match. */
    const setup: Setup
    /** The side CreateSimulation's coin flip chose to kick off. */
    const kickoffTeam: Team

    /** Time, the half-time flags and the stoppage totals. */
    var clock: Clock
    /** Scores, cards and momentum. */
    var tally: Tally
    /** The buffered EventQueue channel, oldest event first. */
    var queue: seq<Event>
    /** The events Listen has handled, in order. */
    var events: seq<Event>

    /** The whole mutable state as a value. */
    function Snapshot(): GameState
      reads this
    {
      GameState(clock, tally, queue, events)
    }

    predicate Valid()
      reads this
    {
      MatchState.Valid(Snapshot())
    }

    /** CreateSimulation (simulation.go:58-98): zero scores and cards, both
        momenta at 1.0, an empty queue and log; a coin below 0.5 gives the
        kick-off to the home side. */
    constructor (home: Team, away: Team, teammateAdjacents: Graph, opponentAdjacents: Graph, coin: real)
      ensures Snapshot() == Initial() && Valid()
      ensures setup == Setup(Match(home, away), teammateAdjacents, opponentAdjacents)
      ensures kickoffTeam == (if coin < 0.5 then home else away)
    {
      setup := Setup(Match(home, away), teammateAdjacents, opponentAdjacents);
      kickoffTeam := if coin < 0.5 then home else away;
      clock := Clock(0, false, false, false, false, false, false, 0, 0);
      tally := Tally(0, 0, 0, 0, 0, 0, 1.0, 1.0);
      queue, events := [], [];
    }

    /** CaptureEvent (simulation.go:142-153). */
    method CaptureEvent(e: Event)
      modifies this
      ensures Snapshot() == CaptureOf(old(Snapshot()), e)
    {
      if clock.fullTime {
        return;
      }
      if |queue| < Capacity {
        queue := queue + [e];
      }
    }

    /** LastEvent (simulation.go:155-157): indexing an empty log panics. */
    method LastEvent() returns (r: Fallible<Event>)
      ensures |events| == 0 <==> r.Panic?
      ensures r.Ok? ==> r.value == events[|events| - 1] && r.value in events
    {
      if |events| == 0 {
        return Panic("index out of range");
      }
      return Ok(events[|events| - 1]);
    }

    /** addTime (simulation.go:312-315). */
    method AddTime(seconds: nat, draw: real)
      modifies this
      ensures Snapshot() == AddTimeOf(old(Snapshot()), seconds, draw)
    {
      clock := clock.(time := clock.time + Truncate((seconds as real) * (draw * 2.0)));
    }

    /** addExtraTime (simulation.go:317-324). */
    method AddExtraTime(seconds: nat)
      modifies this
      ensures Snapshot() == AddExtraTimeOf(old(Snapshot()), seconds)
    {
      if !clock.firstHalfEnded {
        clock := clock.(firstHalfExtraTime := clock.firstHalfExtraTime + seconds);
      }
      if clock.secondHalfStarted && !clock.secondHalfEnded {
        clock := clock.(secondHalfExtraTime := clock.secondHalfExtraTime + seconds);
      }
    }

    /** One pass of runGame's loop (simulation.go:180-195). */
    method ClockStep()
      modifies this
      ensures Snapshot() == ClockStepOf(old(Snapshot()))
    {
      var c := clock;
      if !c.firstHalfEnded && c.time >= HalfLength {
        CaptureEvent(Marker(ETEndOfFirstHalf));
        clock := clock.(firstHalfEnded := true);
      } else if c.firstHalfEnded && !c.firstHalfExtraEnded && c.time >= HalfLength + c.firstHalfExtraTime {
        CaptureEvent(Marker(ETEndOfFirstHalfExtraTime));
        clock := clock.(firstHalfExtraEnded := true, secondHalfStarted := true);
      } else if c.secondHalfStarted && !c.secondHalfEnded && c.time >= 2 * HalfLength {
        CaptureEvent(Marker(ETEndOfSecondHalf));
        clock := clock.(secondHalfEnded := true);
      } else if c.secondHalfEnded && !c.secondHalfExtraEnded && c.time >= 2 * HalfLength + c.secondHalfExtraTime {
        CaptureEvent(Marker(ETEndOfSecondHalfExtraTime));
        clock := clock.(secondHalfExtraEnded := true, fullTime := true);
      }
    }

    /** The pass, cross, dribble, interception and possession triggers
        (simulation.go:217-237, 261-274). */
    method OnAction(e: Event, seconds: nat, draws: Draws) returns (crash: Option<string>)
      modifies this
      ensures Resulting(crash, Snapshot()) == ActionTriggerOf(setup, old(Snapshot()), e, seconds, draws)
    {
      if LogFails(e) {
        return Some("nil pointer dereference");
      }
      AddTime(seconds, draws.clock);
      var next := Action(ContextOf(setup, Snapshot()), e, draws.action);
      if next.Panic? {
        return Some(next.reason);
      }
      CaptureEvent(next.value);
      crash := None;
    }

    /** The goal trigger (simulation.go:238-253). */
    method OnGoal(e: Event, draws: Draws) returns (crash: Option<string>)
      modifies this
      ensures Resulting(crash, Snapshot()) == GoalTriggerOf(setup, old(Snapshot()), e, draws)
    {
      if LogFails(e) {
        return Some("nil pointer dereference");
      }
      AddTime(120, draws.clock);
      if IsHome(setup.game, e.team) {
        tally := tally.(homeScore := tally.homeScore + 1, homeMomentum := tally.homeMomentum + 0.1,
                        awayMomentum := tally.awayMomentum - 0.2);
      } else {
        tally := tally.(awayScore := tally.awayScore + 1, awayMomentum := tally.awayMomentum + 0.1,
                        homeMomentum := tally.homeMomentum - 0.2);
      }
      CaptureEvent(Goal(setup.game, e));
      crash := None;
    }

    /** The reset trigger (simulation.go:254-260). */
    method OnReset(e: Event, draws: Draws) returns (crash: Option<string>)
      modifies this
      ensures Resulting(crash, Snapshot()) == ResetTriggerOf(old(Snapshot()), e, draws)
    {
      AddTime(3, draws.clock);
      var next := Reset(e);
      if next.Panic? {
        return Some(next.reason);
      }
      CaptureEvent(next.value);
      crash := None;
    }

    /** The yellow-card trigger (simulation.go:275-288). */
    method OnYellowCard(e: Event, draws: Draws) returns (crash: Option<string>)
      modifies this
      ensures Resulting(crash, Snapshot()) == YellowCardTriggerOf(setup, old(Snapshot()), e, draws)
    {
      if LogFails(e) {
        return Some("nil pointer dereference");
      }
      var kick := FreeKick(setup.game, e, setup.opponentAdjacents);
      if kick.Panic? {
        return Some(kick.reason);
      }
      CaptureEvent(kick.value);
      AddTime(3, draws.clock);
      AddExtraTime(3);
      if IsHome(setup.game, e.team) {
        tally := tally.(homeYellowCards := tally.homeYellowCards + 1);
      } else {
        tally := tally.(awayYellowCards := tally.awayYellowCards + 1);
      }
      crash := None;
    }

    /** The red-card trigger (simulation.go:289-301), booking the card
        against the side shown it. */
    method OnRedCard(e: Event, draws: Draws) returns (crash: Option<string>)
      modifies this
      ensures Resulting(crash, Snapshot()) == RedCardTriggerOf(setup, old(Snapshot()), e, draws)
    {
      var kick := FreeKick(setup.game, e, setup.opponentAdjacents);
      if kick.Panic? {
        return Some(kick.reason);
      }
      CaptureEvent(kick.value);
      AddTime(20, draws.clock);
      AddExtraTime(20);
      if IsHome(setup.game, e.team) {
        tally := tally.(homeRedCards := tally.homeRedCards + 1);
      } else {
        tally := tally.(awayRedCards := tally.awayRedCards + 1);
      }
      crash := None;
    }

    /** The save trigger (simulation.go:302-309). */
    method OnSave(e: Event, draws: Draws) returns (crash: Option<string>)
      modifies this
      ensures Resulting(crash, Snapshot()) == SaveTriggerOf(old(Snapshot()), e, draws)
    {
      if LogFails(e) {
        return Some("nil pointer dereference");
      }
      AddTime(3, draws.clock);
      AddExtraTime(1);
      var kick := GoalKeeperKick(e, draws.coin);
      if kick.Panic? {
        return Some(kick.reason);
      }
      CaptureEvent(kick.value);
      crash := None;
    }

    /** The trigger registered for the event's type, or only the log line
        when there is none (simulation.go:133-138, 199-310). */
    method Trigger(e: Event, draws: Draws) returns (crash: Option<string>)
      modifies this
      ensures Resulting(crash, Snapshot()) == TriggerOf(setup, old(Snapshot()), e, draws)
    {
      crash := None;
      match e.kind {
        case ETEndOfFirstHalfExtraTime =>
          clock := clock.(time := HalfLength);
        case ETEndOfSecondHalfExtraTime =>
          if tally.homeScore < tally.awayScore {
            tally := tally.(homeMomentum := tally.homeMomentum + 0.5);
          } else {
            tally := tally.(awayMomentum := tally.awayMomentum + 0.5);
          }
        case ETPass => crash := OnAction(e, 3, draws);
        case ETCross => crash := OnAction(e, 3, draws);
        case ETDribble => crash := OnAction(e, 5, draws);
        case ETGoal => crash := OnGoal(e, draws);
        case ETReset => crash := OnReset(e, draws);
        case ETInterception => crash := OnAction(e, 3, draws);
        case ETPossession => crash := OnAction(e, 3, draws);
        case ETYellowCard => crash := OnYellowCard(e, draws);
        case ETRedCard => crash := OnRedCard(e, draws);
        case ETSave => crash := OnSave(e, draws);
        case _ =>
      }
    }

    /** One pass of Listen (simulation.go:131-140). */
    method ListenStep(draws: Draws) returns (crash: Option<string>)
      requires |queue| > 0
      modifies this
      ensures Resulting(crash, Snapshot()) == ListenStepOf(setup, old(Snapshot()), draws)
    {
      var e := queue[0];
      queue := queue[1..];
      events := events + [e];
      crash := Trigger(e, draws);
    }

    /** One tick: runGame's pass while the match runs, then Listen's pass
        when an event waits. */
    method Tick(draws: Draws) returns (crash: Option<string>)
      modifies this
      ensures Resulting(crash, Snapshot()) == TickOf(setup, old(Snapshot()), draws)
    {
      if !clock.fullTime {
        ClockStep();
      }
      crash := None;
      if |queue| > 0 {
        crash := ListenStep(draws);
      }
    }

    /** The concurrent part of Simulation.Run (simulation.go:27-30, 38-44),
        as ticks: one per draw, until the match is finished or a step
        crashes. */
    method Play(schedule: seq<Draws>) returns (crash: Option<string>)
      modifies this
      ensures Resulting(crash, Snapshot()) == PlayedOf(setup, old(Snapshot()), schedule)
      ensures old(Valid()) && ClockDraws(schedule) && crash.None? ==>
                Valid() && FlagsKept(old(clock), clock) && TallyFrame(old(tally), tally) && old(events) <= events
    {
      ghost var start := Snapshot();
      crash := None;
      var i := 0;
      while i < |schedule| && !(clock.fullTime && |queue| == 0)
        invariant 0 <= i <= |schedule| && crash.None?
        invariant PlayedOf(setup, start, schedule) == PlayedOf(setup, Snapshot(), schedule[i..])
        decreases |schedule| - i
      {
        PlayedFrom(setup, Snapshot(), schedule, i);
        crash := Tick(schedule[i]);
        if crash.Some? {
          return;
        }
        i := i + 1;
      }
      PlayedStops(setup, Snapshot(), schedule, i);
      if MatchState.Valid(start) && ClockDraws(schedule) {
        PlayedMeaning(setup, start, schedule);
      }
    }

    /** Simulation.Run (simulation.go:23-48): capture the kick-off, then
        play; a finished match reports its score. */
    method Run(schedule: seq<Draws>) returns (crash: Option<string>, outcome: Option<Outcome>)
      modifies this
      ensures Resulting(crash, Snapshot()) == RunOf(setup, kickoffTeam, old(Snapshot()), schedule)
      ensures outcome.Some? <==> crash.None? && Finished(Snapshot())
      ensures outcome.Some? ==> outcome.value == Outcome(tally.homeScore, tally.awayScore)
    {
      outcome := None;
      var kick := StartingEvent(kickoffTeam);
      if kick.Panic? {
        return Some(kick.reason), None;
      }
      CaptureEvent(kick.value);
      crash := Play(schedule);
      if crash.None? && clock.fullTime && |queue| == 0 {
        outcome := Some(Outcome(tally.homeScore, tally.awayScore));
      }
    }
  }
}
