/** The state of a running match and how each step changes it
    (simulation/simulation.go:101-324): the bounded event queue, the clock
    and its stoppage time, the half-time flags, the score, the cards and
    the momentum. The class SimulationState performs these steps in place;
    the functions here are what each of its methods is proved against. */
module MatchState {
  import opened Outcomes
  import opened Positions
  import opened Players
  import opened Events
  import opened Plays
  import opened Decisions

  /** The event queue is a channel buffered for 100 events. */
  const Capacity := 100

  /** Forty-five minutes, in seconds since kick-off. */
  const HalfLength := 2700

  /** The match clock: whole seconds since the start, the half-time flags
      and the stoppage time accrued to each half. */
  datatype Clock = Clock(
    time: int,
    firstHalfEnded: bool,
    firstHalfExtraEnded: bool,
    secondHalfStarted: bool,
    secondHalfEnded: bool,
    secondHalfExtraEnded: bool,
    fullTime: bool,
    firstHalfExtraTime: int,
    secondHalfExtraTime: int
  )

  /** Score, cards and momentum; momentum stays a real, as the source keeps
      it a float. */
  datatype Tally = Tally(
    homeScore: int,
    awayScore: int,
    homeYellowCards: int,
    awayYellowCards: int,
    homeRedCards: int,
    awayRedCards: int,
    homeMomentum: real,
    awayMomentum: real
  )

  /** Everything the engine mutates: the clock, the tally, the buffered
      queue of events still to be handled and the log of handled ones. */
  datatype GameState = GameState(clock: Clock, tally: Tally, queue: seq<Event>, events: seq<Event>)

  /** What never changes during a match: the teams and both adjacency
      graphs. */
  datatype Setup = Setup(game: Match, teammateAdjacents: Graph, opponentAdjacents: Graph)

  /** The draws one dispatched event consumes: the clock draw of addTime,
      the draws of an action, and the coin of a goal kick. */
  datatype Draws = Draws(clock: real, action: ActionDraws, coin: real)

  /** The state CreateSimulation sets up (simulation.go:62-77). */
  function Initial(): GameState {
    GameState(Clock(0, false, false, false, false, false, false, 0, 0), Tally(0, 0, 0, 0, 0, 0, 1.0, 1.0), [], [])
  }

  /** The half-time flags are raised in their order, the second half starts
      with the end of first-half stoppage time, and full time comes with
      the end of second-half stoppage time. */
  predicate FlagsOrdered(c: Clock) {
    && (c.firstHalfExtraEnded ==> c.firstHalfEnded)
    && (c.secondHalfStarted <==> c.firstHalfExtraEnded)
    && (c.secondHalfEnded ==> c.secondHalfStarted)
    && (c.secondHalfExtraEnded ==> c.secondHalfEnded)
    && (c.fullTime <==> c.secondHalfExtraEnded)
  }

  /** No count is negative. */
  predicate Counted(t: Tally) {
    && t.homeScore >= 0 && t.awayScore >= 0
    && t.homeYellowCards >= 0 && t.awayYellowCards >= 0
    && t.homeRedCards >= 0 && t.awayRedCards >= 0
  }

  /** What holds in every reachable state. */
  predicate Valid(s: GameState) {
    && FlagsOrdered(s.clock)
    && s.clock.firstHalfExtraTime >= 0 && s.clock.secondHalfExtraTime >= 0
    && Counted(s.tally)
    && |s.queue| <= Capacity
  }

  lemma InitialValid()
    ensures Valid(Initial())
    ensures Initial().queue == [] && Initial().tally.homeMomentum == Initial().tally.awayMomentum == 1.0
  {
  }

  /** Flags already raised stay raised. */
  predicate FlagsKept(c: Clock, d: Clock) {
    && (c.firstHalfEnded ==> d.firstHalfEnded)
    && (c.firstHalfExtraEnded ==> d.firstHalfExtraEnded)
    && (c.secondHalfStarted ==> d.secondHalfStarted)
    && (c.secondHalfEnded ==> d.secondHalfEnded)
    && (c.secondHalfExtraEnded ==> d.secondHalfExtraEnded)
    && (c.fullTime ==> d.fullTime)
  }

  // ---------------------------------------------------------------------
  // CaptureEvent, addTime, addExtraTime

  /** CaptureEvent (simulation.go:142-153): nothing after full time; a full
      buffer drops the event; otherwise it joins the back of the queue. */
  function CaptureOf(s: GameState, e: Event): GameState {
    if s.clock.fullTime || |s.queue| >= Capacity then s else s.(queue := s.queue + [e])
  }

  lemma CaptureMeaning(s: GameState, e: Event)
    ensures s.clock.fullTime ==> CaptureOf(s, e) == s
    ensures |s.queue| >= Capacity ==> CaptureOf(s, e) == s
    ensures !s.clock.fullTime && |s.queue| < Capacity ==> CaptureOf(s, e).queue == s.queue + [e]
    ensures CaptureOf(s, e).(queue := s.queue) == s
    ensures |s.queue| <= Capacity ==> |CaptureOf(s, e).queue| <= Capacity
  {
  }

  /** A Go conversion of a float to a duration: truncation toward zero. */
  function Truncate(x: real): int {
    if x >= 0.0 then x.Floor else -((-x).Floor)
  }

  /** The clock after addTime: the base duration times a draw times two,
      truncated to whole seconds. */
  function Advanced(c: Clock, seconds: nat, draw: real): Clock {
    c.(time := c.time + Truncate((seconds as real) * (draw * 2.0)))
  }

  /** With a draw from [0, 1) the clock moves forward, by less than twice
      the base duration, and nothing else on it changes. */
  lemma AdvancedForward(c: Clock, seconds: nat, draw: real)
    requires 0.0 <= draw < 1.0
    ensures c.time <= Advanced(c, seconds, draw).time
    ensures seconds > 0 ==> Advanced(c, seconds, draw).time < c.time + 2 * seconds
    ensures Advanced(c, seconds, draw).(time := c.time) == c
  {
    var x := (seconds as real) * (draw * 2.0);
    assert 0.0 <= x;
    if seconds > 0 {
      assert x < (seconds as real) * 2.0;
    }
  }

  /** addTime (simulation.go:312-315). */
  function AddTimeOf(s: GameState, seconds: nat, draw: real): GameState {
    s.(clock := Advanced(s.clock, seconds, draw))
  }

  /** The clock after addExtraTime: stoppage time accrues to the first half
      until it ends, and to the second half while it runs. */
  function Stoppage(c: Clock, seconds: nat): Clock {
    var d := if !c.firstHalfEnded then c.(firstHalfExtraTime := c.firstHalfExtraTime + seconds) else c;
    if d.secondHalfStarted && !d.secondHalfEnded then d.(secondHalfExtraTime := d.secondHalfExtraTime + seconds) else d
  }

  /** In a valid clock the two totals are never both credited: the first
      half's while it runs, the second half's while it runs, and nothing
      during first-half stoppage time or after the second half. */
  lemma StoppageMeaning(c: Clock, seconds: nat)
    requires FlagsOrdered(c)
    ensures var d := Stoppage(c, seconds);
            && d.firstHalfExtraTime == c.firstHalfExtraTime + (if !c.firstHalfEnded then seconds else 0)
            && d.secondHalfExtraTime ==
                 c.secondHalfExtraTime + (if c.secondHalfStarted && !c.secondHalfEnded then seconds else 0)
            && d.(firstHalfExtraTime := c.firstHalfExtraTime, secondHalfExtraTime := c.secondHalfExtraTime) == c
    ensures !c.firstHalfEnded ==> Stoppage(c, seconds).secondHalfExtraTime == c.secondHalfExtraTime
  {
  }

  /** addExtraTime (simulation.go:317-324). */
  function AddExtraTimeOf(s: GameState, seconds: nat): GameState {
    s.(clock := Stoppage(s.clock, seconds))
  }

  // ---------------------------------------------------------------------
  // runGame

  /** One pass of runGame's loop (simulation.go:177-196): the first case
      whose condition holds fires, capturing its marker before raising its
      flags. */
  function ClockStepOf(s: GameState): GameState {
    var c := s.clock;
    if !c.firstHalfEnded && c.time >= HalfLength then
      CaptureOf(s, Marker(ETEndOfFirstHalf)).(clock := c.(firstHalfEnded := true))
    else if c.firstHalfEnded && !c.firstHalfExtraEnded && c.time >= HalfLength + c.firstHalfExtraTime then
      CaptureOf(s, Marker(ETEndOfFirstHalfExtraTime)).(clock := c.(firstHalfExtraEnded := true, secondHalfStarted := true))
    else if c.secondHalfStarted && !c.secondHalfEnded && c.time >= 2 * HalfLength then
      CaptureOf(s, Marker(ETEndOfSecondHalf)).(clock := c.(secondHalfEnded := true))
    else if c.secondHalfEnded && !c.secondHalfExtraEnded && c.time >= 2 * HalfLength + c.secondHalfExtraTime then
      CaptureOf(s, Marker(ETEndOfSecondHalfExtraTime)).(clock := c.(secondHalfExtraEnded := true, fullTime := true))
    else s
  }

  /** How far the match has gone: the number of half-time flags raised. */
  function Stage(c: Clock): nat {
    (if c.firstHalfEnded then 1 else 0) + (if c.firstHalfExtraEnded then 1 else 0) +
    (if c.secondHalfEnded then 1 else 0) + (if c.secondHalfExtraEnded then 1 else 0)
  }

  /** A pass of the loop raises at most one stage, never lowers a flag,
      keeps the flags in order and the queue within its bound, and leaves
      the time, the stoppage totals, the tally and the log alone. */
  lemma ClockStepMeaning(s: GameState)
    requires Valid(s)
    ensures var t := ClockStepOf(s);
            && Valid(t) && FlagsKept(s.clock, t.clock)
            && Stage(s.clock) <= Stage(t.clock) <= Stage(s.clock) + 1
            && t.clock.time == s.clock.time
            && t.clock.firstHalfExtraTime == s.clock.firstHalfExtraTime
            && t.clock.secondHalfExtraTime == s.clock.secondHalfExtraTime
            && t.tally == s.tally && t.events == s.events
            && s.queue <= t.queue && |t.queue| <= |s.queue| + 1
            && (t.clock.fullTime && !s.clock.fullTime ==> t.clock.secondHalfExtraEnded && !s.clock.secondHalfExtraEnded)
  {
  }

  /** Full time is reached through the marker that ends second-half
      stoppage time, which is queued whenever the buffer has room. */
  lemma FullTimeWhistle(s: GameState)
    requires Valid(s) && !s.clock.fullTime && ClockStepOf(s).clock.fullTime && |s.queue| < Capacity
    ensures ClockStepOf(s).queue == s.queue + [Marker(ETEndOfSecondHalfExtraTime)]
    ensures s.clock.time >= 2 * HalfLength + s.clock.secondHalfExtraTime
  {
  }

  // ---------------------------------------------------------------------
  // The triggers

  /** The console line of an event names players the event may lack: such
      an event makes log dereference nil and panic (simulation.go:326-360).
      The cases mirror log's own switch, red card included; the red-card
      trigger never calls log, so RedCardTriggerOf does not consult this. */
  predicate LogFails(e: Event) {
    match e.kind
    case ETPass => e.starting.None? || e.finishing.None?
    case ETCross => e.starting.None? || e.finishing.None?
    case ETInterception => e.starting.None? || e.finishing.None?
    case ETSave => e.starting.None? || e.finishing.None?
    case ETGoal => e.finishing.None?
    case ETPossession => e.finishing.None?
    case ETYellowCard => e.finishing.None?
    case ETRedCard => e.finishing.None?
    case ETDribble => e.starting.None?
    case _ => false
  }

  /** The match as an action reads it. */
  function ContextOf(setup: Setup, s: GameState): Context {
    Context(setup.game, s.tally.homeMomentum, s.tally.awayMomentum, s.events,
            setup.teammateAdjacents, setup.opponentAdjacents)
  }

  /** The pass, cross, dribble, interception and possession triggers
      (simulation.go:217-237, 261-274): the clock moves, and the event the
      next action produces is captured. */
  function ActionTriggerOf(setup: Setup, s: GameState, e: Event, seconds: nat, draws: Draws): Fallible<GameState> {
    if LogFails(e) then Panic("nil pointer dereference")
    else
      var t := AddTimeOf(s, seconds, draws.clock);
      match ActionOf(ContextOf(setup, t), e, draws.action)
      case Panic(m) => Panic(m)
      case Ok(next) => Ok(CaptureOf(t, next))
  }

  /** The tally after a goal by the home side (home true) or the away side:
      its score rises by one, its momentum by 0.1, and the other side's
      momentum falls by 0.2. */
  function Scored(t: Tally, home: bool): Tally {
    if home then
      t.(homeScore := t.homeScore + 1, homeMomentum := t.homeMomentum + 0.1, awayMomentum := t.awayMomentum - 0.2)
    else
      t.(awayScore := t.awayScore + 1, awayMomentum := t.awayMomentum + 0.1, homeMomentum := t.homeMomentum - 0.2)
  }

  /** The goal trigger (simulation.go:238-253). */
  function GoalTriggerOf(setup: Setup, s: GameState, e: Event, draws: Draws): Fallible<GameState> {
    if LogFails(e) then Panic("nil pointer dereference")
    else
      var t := AddTimeOf(s, 120, draws.clock);
      var u := t.(tally := Scored(t.tally, IsHome(setup.game, e.team)));
      Ok(CaptureOf(u, Goal(setup.game, e)))
  }

  /** A goal raises exactly the scoring side's score by one and queues the
      other side's restart. */
  lemma GoalMeaning(setup: Setup, s: GameState, e: Event, draws: Draws)
    requires !LogFails(e) && !s.clock.fullTime && |s.queue| < Capacity
    requires setup.game.home.name != setup.game.away.name
    requires e.team.name == setup.game.home.name || e.team.name == setup.game.away.name
    ensures var t := GoalTriggerOf(setup, s, e, draws).value;
            && (IsHome(setup.game, e.team) ==> t.tally.homeScore == s.tally.homeScore + 1 && t.tally.awayScore == s.tally.awayScore)
            && (!IsHome(setup.game, e.team) ==> t.tally.awayScore == s.tally.awayScore + 1 && t.tally.homeScore == s.tally.homeScore)
            && t.queue == s.queue + [Event(ETReset, OpposingTeam(setup.game, e.team), None, None, map[])]
            && OpposingTeam(setup.game, e.team).name != e.team.name
  {
  }

  /** The reset trigger (simulation.go:254-260). */
  function ResetTriggerOf(s: GameState, e: Event, draws: Draws): Fallible<GameState> {
    var t := AddTimeOf(s, 3, draws.clock);
    match KickOffOf(e.team, map[])
    case Panic(m) => Panic(m)
    case Ok(next) => Ok(CaptureOf(t, next))
  }

  /** The clock and queue steps a card shares: the free kick is captured,
      then the clock and stoppage time move by the same number of seconds. */
  function Booked(s: GameState, kick: Event, seconds: nat, draw: real): GameState {
    AddExtraTimeOf(AddTimeOf(CaptureOf(s, kick), seconds, draw), seconds)
  }

  /** The tally after a yellow card for the home side (home true) or the
      away side. */
  function Cautioned(t: Tally, home: bool): Tally {
    if home then t.(homeYellowCards := t.homeYellowCards + 1) else t.(awayYellowCards := t.awayYellowCards + 1)
  }

  /** The yellow-card trigger (simulation.go:275-288): the free kick is
      captured first, then the clock and stoppage time move by three
      seconds and the offending side's count rises. */
  function YellowCardTriggerOf(setup: Setup, s: GameState, e: Event, draws: Draws): Fallible<GameState> {
    if LogFails(e) then Panic("nil pointer dereference")
    else
      match FreeKickOf(setup.game, e, setup.opponentAdjacents)
      case Panic(m) => Panic(m)
      case Ok(kick) =>
        var t := Booked(s, kick, 3, draws.clock);
        Ok(t.(tally := Cautioned(t.tally, IsHome(setup.game, e.team))))
  }

  /** The red-card count as written (simulation.go:289-301): both branches
      raise the home side's count. */
  function SentOffAsWritten(t: Tally, home: bool): Tally {
    if home then t.(homeRedCards := t.homeRedCards + 1) else t.(homeRedCards := t.homeRedCards + 1)
  }

  /** As written, a red card is booked against the home side whichever side
      is shown it, and the away count never moves. */
  lemma SentOffAsWrittenBooksHome(t: Tally, home: bool)
    ensures SentOffAsWritten(t, home).homeRedCards == t.homeRedCards + 1
    ensures SentOffAsWritten(t, home).awayRedCards == t.awayRedCards
  {
  }

  /** The red-card count as intended: like the yellow card, the offending
      side's count rises. */
  function SentOff(t: Tally, home: bool): Tally {
    if home then t.(homeRedCards := t.homeRedCards + 1) else t.(awayRedCards := t.awayRedCards + 1)
  }

  /** The red-card trigger (simulation.go:289-301), with the intended
      count. It does not log, so it never dereferences the players itself;
      its free kick still needs a finishing player. */
  function RedCardTriggerOf(setup: Setup, s: GameState, e: Event, draws: Draws): Fallible<GameState> {
    match FreeKickOf(setup.game, e, setup.opponentAdjacents)
    case Panic(m) => Panic(m)
    case Ok(kick) =>
      var t := Booked(s, kick, 20, draws.clock);
      Ok(t.(tally := SentOff(t.tally, IsHome(setup.game, e.team))))
  }

  /** A card is booked against the side that offended, and only against
      it. */
  lemma CardsBookOffender(t: Tally, home: bool)
    ensures home ==> Cautioned(t, home).homeYellowCards == t.homeYellowCards + 1 &&
                     Cautioned(t, home).awayYellowCards == t.awayYellowCards
    ensures !home ==> Cautioned(t, home).awayYellowCards == t.awayYellowCards + 1 &&
                      Cautioned(t, home).homeYellowCards == t.homeYellowCards
    ensures home ==> SentOff(t, home).homeRedCards == t.homeRedCards + 1 &&
                     SentOff(t, home).awayRedCards == t.awayRedCards
    ensures !home ==> SentOff(t, home).awayRedCards == t.awayRedCards + 1 &&
                      SentOff(t, home).homeRedCards == t.homeRedCards
    ensures Cautioned(t, home).(homeYellowCards := t.homeYellowCards, awayYellowCards := t.awayYellowCards) == t
    ensures SentOff(t, home).(homeRedCards := t.homeRedCards, awayRedCards := t.awayRedCards) == t
  {
  }

  /** The input that shows the red-card discrepancy: an away player sent
      off leaves the away count where it was. */
  lemma RedCardDiscrepancy(t: Tally)
    ensures SentOffAsWritten(t, false).awayRedCards == t.awayRedCards
    ensures SentOffAsWritten(t, false).homeRedCards == t.homeRedCards + 1
    ensures SentOff(t, false).awayRedCards == t.awayRedCards + 1
  {
  }

  /** A red card adds twenty seconds of stoppage time to a half that is
      still running and queues the free kick. */
  lemma RedCardStoppage(setup: Setup, s: GameState, e: Event, draws: Draws)
    requires FlagsOrdered(s.clock) && RedCardTriggerOf(setup, s, e, draws).Ok?
    ensures var t := RedCardTriggerOf(setup, s, e, draws).value;
            && (!s.clock.firstHalfEnded ==> t.clock.firstHalfExtraTime == s.clock.firstHalfExtraTime + 20)
            && (s.clock.secondHalfStarted && !s.clock.secondHalfEnded ==>
                  t.clock.secondHalfExtraTime == s.clock.secondHalfExtraTime + 20)
            && (!s.clock.fullTime && |s.queue| < Capacity ==>
                  t.queue == s.queue + [FreeKickOf(setup.game, e, setup.opponentAdjacents).value])
  {
    var kick := FreeKickOf(setup.game, e, setup.opponentAdjacents).value;
    CaptureFrame(s, kick);
    StoppageMeaning(Advanced(s.clock, 20, draws.clock), 20);
  }

  /** The save trigger (simulation.go:302-309). */
  function SaveTriggerOf(s: GameState, e: Event, draws: Draws): Fallible<GameState> {
    if LogFails(e) then Panic("nil pointer dereference")
    else
      var t := AddExtraTimeOf(AddTimeOf(s, 3, draws.clock), 1);
      match KeeperKickOf(e, draws.coin)
      case Panic(m) => Panic(m)
      case Ok(kick) => Ok(CaptureOf(t, kick))
  }

  /** The tally after the end of second-half stoppage time
      (simulation.go:209-216): the side behind, or the away side when not
      behind, gains 0.5 momentum. */
  function FinalWhistle(t: Tally): Tally {
    if t.homeScore < t.awayScore then t.(homeMomentum := t.homeMomentum + 0.5)
    else t.(awayMomentum := t.awayMomentum + 0.5)
  }

  /** What the trigger for an event does; events without a trigger are only
      logged (simulation.go:133-138). */
  function TriggerOf(setup: Setup, s: GameState, e: Event, draws: Draws): Fallible<GameState> {
    match e.kind
    case ETEndOfFirstHalf => Ok(s)
    case ETEndOfFirstHalfExtraTime => Ok(s.(clock := s.clock.(time := HalfLength)))
    case ETEndOfSecondHalfExtraTime => Ok(s.(tally := FinalWhistle(s.tally)))
    case ETPass => ActionTriggerOf(setup, s, e, 3, draws)
    case ETCross => ActionTriggerOf(setup, s, e, 3, draws)
    case ETDribble => ActionTriggerOf(setup, s, e, 5, draws)
    case ETGoal => GoalTriggerOf(setup, s, e, draws)
    case ETReset => ResetTriggerOf(s, e, draws)
    case ETInterception => ActionTriggerOf(setup, s, e, 3, draws)
    case ETPossession => ActionTriggerOf(setup, s, e, 3, draws)
    case ETYellowCard => YellowCardTriggerOf(setup, s, e, draws)
    case ETRedCard => RedCardTriggerOf(setup, s, e, draws)
    case ETSave => SaveTriggerOf(s, e, draws)
    case _ => Ok(s)
  }

  /** One pass of Listen (simulation.go:131-140): take the oldest queued
      event, append it to the log and run its trigger. */
  function ListenStepOf(setup: Setup, s: GameState, draws: Draws): Fallible<GameState>
    requires |s.queue| > 0
  {
    var e := s.queue[0];
    TriggerOf(setup, s.(queue := s.queue[1..], events := s.events + [e]), e, draws)
  }

  // ---------------------------------------------------------------------
  // What a trigger may change

  /** The clock of a trigger: flags untouched, stoppage totals never lower. */
  predicate ClockFrame(c: Clock, d: Clock) {
    && d.firstHalfEnded == c.firstHalfEnded && d.firstHalfExtraEnded == c.firstHalfExtraEnded
    && d.secondHalfStarted == c.secondHalfStarted && d.secondHalfEnded == c.secondHalfEnded
    && d.secondHalfExtraEnded == c.secondHalfExtraEnded && d.fullTime == c.fullTime
    && c.firstHalfExtraTime <= d.firstHalfExtraTime && c.secondHalfExtraTime <= d.secondHalfExtraTime
  }

  /** The tally of a trigger: no score or card count lower. */
  predicate TallyFrame(t: Tally, u: Tally) {
    && t.homeScore <= u.homeScore && t.awayScore <= u.awayScore
    && t.homeYellowCards <= u.homeYellowCards && t.awayYellowCards <= u.awayYellowCards
    && t.homeRedCards <= u.homeRedCards && t.awayRedCards <= u.awayRedCards
  }

  /** What any trigger may do: leave the log and the flags alone, lower no
      count or stoppage total, and queue at most one event, within the
      bound. */
  predicate TriggerFrame(s: GameState, t: GameState) {
    && t.events == s.events
    && ClockFrame(s.clock, t.clock)
    && TallyFrame(s.tally, t.tally)
    && s.queue <= t.queue && |t.queue| <= |s.queue| + 1
    && (|s.queue| <= Capacity ==> |t.queue| <= Capacity)
  }

  lemma CaptureFrame(s: GameState, e: Event)
    ensures TriggerFrame(s, CaptureOf(s, e))
    ensures CaptureOf(s, e).clock == s.clock && CaptureOf(s, e).tally == s.tally
  {
  }

  /** A trigger step that only moves the clock forward and only adds
      stoppage time, followed by a capture. */
  lemma ThenCapture(s: GameState, c: Clock, u: Tally, e: Event)
    requires ClockFrame(s.clock, c) && s.clock.time <= c.time && TallyFrame(s.tally, u)
    ensures var t := CaptureOf(s.(clock := c, tally := u), e);
            TriggerFrame(s, t) && s.clock.time <= t.clock.time
  {
    CaptureFrame(s.(clock := c, tally := u), e);
  }

  lemma AdvancedFrame(c: Clock, seconds: nat, draw: real)
    requires 0.0 <= draw < 1.0
    ensures ClockFrame(c, Advanced(c, seconds, draw)) && c.time <= Advanced(c, seconds, draw).time
  {
    AdvancedForward(c, seconds, draw);
  }

  lemma StoppageFrame(c: Clock, seconds: nat)
    ensures ClockFrame(c, Stoppage(c, seconds)) && Stoppage(c, seconds).time == c.time
  {
  }

  lemma ActionTriggerFrame(setup: Setup, s: GameState, e: Event, seconds: nat, draws: Draws)
    requires 0.0 <= draws.clock < 1.0
    requires ActionTriggerOf(setup, s, e, seconds, draws).Ok?
    ensures TriggerFrame(s, ActionTriggerOf(setup, s, e, seconds, draws).value)
    ensures s.clock.time <= ActionTriggerOf(setup, s, e, seconds, draws).value.clock.time
  {
    AdvancedFrame(s.clock, seconds, draws.clock);
    var t := AddTimeOf(s, seconds, draws.clock);
    ThenCapture(s, t.clock, s.tally, ActionOf(ContextOf(setup, t), e, draws.action).value);
  }

  lemma GoalTriggerFrame(setup: Setup, s: GameState, e: Event, draws: Draws)
    requires 0.0 <= draws.clock < 1.0
    requires GoalTriggerOf(setup, s, e, draws).Ok?
    ensures TriggerFrame(s, GoalTriggerOf(setup, s, e, draws).value)
    ensures s.clock.time <= GoalTriggerOf(setup, s, e, draws).value.clock.time
  {
    AdvancedFrame(s.clock, 120, draws.clock);
    var c := Advanced(s.clock, 120, draws.clock);
    var u := Scored(s.tally, IsHome(setup.game, e.team));
    ThenCapture(s, c, u, Goal(setup.game, e));
  }

  lemma ResetTriggerFrame(s: GameState, e: Event, draws: Draws)
    requires 0.0 <= draws.clock < 1.0
    requires ResetTriggerOf(s, e, draws).Ok?
    ensures TriggerFrame(s, ResetTriggerOf(s, e, draws).value)
    ensures s.clock.time <= ResetTriggerOf(s, e, draws).value.clock.time
  {
    AdvancedFrame(s.clock, 3, draws.clock);
    ThenCapture(s, Advanced(s.clock, 3, draws.clock), s.tally, KickOffOf(e.team, map[]).value);
  }

  /** The steps of a card keep within the frame; the card itself only
      changes the tally. */
  lemma BookedFrame(s: GameState, kick: Event, seconds: nat, draw: real, u: Tally)
    requires 0.0 <= draw < 1.0 && TallyFrame(s.tally, u)
    ensures var t := Booked(s, kick, seconds, draw).(tally := u);
            TriggerFrame(s, t) && s.clock.time <= t.clock.time
  {
    CaptureFrame(s, kick);
    var c := Advanced(s.clock, seconds, draw);
    AdvancedFrame(s.clock, seconds, draw);
    StoppageFrame(c, seconds);
  }

  lemma YellowCardTriggerFrame(setup: Setup, s: GameState, e: Event, draws: Draws)
    requires 0.0 <= draws.clock < 1.0
    requires YellowCardTriggerOf(setup, s, e, draws).Ok?
    ensures TriggerFrame(s, YellowCardTriggerOf(setup, s, e, draws).value)
    ensures s.clock.time <= YellowCardTriggerOf(setup, s, e, draws).value.clock.time
  {
    var kick := FreeKickOf(setup.game, e, setup.opponentAdjacents).value;
    BookedFrame(s, kick, 3, draws.clock, Cautioned(s.tally, IsHome(setup.game, e.team)));
  }

  lemma RedCardTriggerFrame(setup: Setup, s: GameState, e: Event, draws: Draws)
    requires 0.0 <= draws.clock < 1.0
    requires RedCardTriggerOf(setup, s, e, draws).Ok?
    ensures TriggerFrame(s, RedCardTriggerOf(setup, s, e, draws).value)
    ensures s.clock.time <= RedCardTriggerOf(setup, s, e, draws).value.clock.time
  {
    var kick := FreeKickOf(setup.game, e, setup.opponentAdjacents).value;
    BookedFrame(s, kick, 20, draws.clock, SentOff(s.tally, IsHome(setup.game, e.team)));
  }

  lemma SaveTriggerFrame(s: GameState, e: Event, draws: Draws)
    requires 0.0 <= draws.clock < 1.0
    requires SaveTriggerOf(s, e, draws).Ok?
    ensures TriggerFrame(s, SaveTriggerOf(s, e, draws).value)
    ensures s.clock.time <= SaveTriggerOf(s, e, draws).value.clock.time
  {
    var c := Advanced(s.clock, 3, draws.clock);
    AdvancedFrame(s.clock, 3, draws.clock);
    StoppageFrame(c, 1);
    ThenCapture(s, Stoppage(c, 1), s.tally, KeeperKickOf(e, draws.coin).value);
  }

  /** Every trigger keeps within TriggerFrame; the clock moves back only
      when first-half stoppage time ends and the second half starts at
      forty-five minutes. */
  lemma TriggerMeaning(setup: Setup, s: GameState, e: Event, draws: Draws)
    requires 0.0 <= draws.clock < 1.0
    requires TriggerOf(setup, s, e, draws).Ok?
    ensures TriggerFrame(s, TriggerOf(setup, s, e, draws).value)
    ensures e.kind != ETEndOfFirstHalfExtraTime ==> s.clock.time <= TriggerOf(setup, s, e, draws).value.clock.time
    ensures e.kind == ETEndOfFirstHalfExtraTime ==> TriggerOf(setup, s, e, draws).value.clock.time == HalfLength
  {
    match e.kind
    case ETPass => ActionTriggerFrame(setup, s, e, 3, draws);
    case ETCross => ActionTriggerFrame(setup, s, e, 3, draws);
    case ETDribble => ActionTriggerFrame(setup, s, e, 5, draws);
    case ETInterception => ActionTriggerFrame(setup, s, e, 3, draws);
    case ETPossession => ActionTriggerFrame(setup, s, e, 3, draws);
    case ETGoal => GoalTriggerFrame(setup, s, e, draws);
    case ETReset => ResetTriggerFrame(s, e, draws);
    case ETYellowCard => YellowCardTriggerFrame(setup, s, e, draws);
    case ETRedCard => RedCardTriggerFrame(setup, s, e, draws);
    case ETSave => SaveTriggerFrame(s, e, draws);
    case _ =>
  }

  /** A pass of Listen logs the oldest queued event, keeps the state valid,
      leaves the flags alone, never lowers a score or a card count, and
      moves the clock back only for the end of first-half stoppage time. */
  lemma ListenStepMeaning(setup: Setup, s: GameState, draws: Draws)
    requires Valid(s) && |s.queue| > 0 && 0.0 <= draws.clock < 1.0
    requires ListenStepOf(setup, s, draws).Ok?
    ensures var t := ListenStepOf(setup, s, draws).value;
            && Valid(t)
            && t.events == s.events + [s.queue[0]]
            && s.queue[1..] <= t.queue && |t.queue| <= |s.queue|
            && ClockFrame(s.clock, t.clock) && TallyFrame(s.tally, t.tally)
            && (s.queue[0].kind != ETEndOfFirstHalfExtraTime ==> s.clock.time <= t.clock.time)
  {
    var e := s.queue[0];
    TriggerMeaning(setup, s.(queue := s.queue[1..], events := s.events + [e]), e, draws);
  }

  /** An event without a trigger, such as the free kick on goal a card
      leads to, is only logged: nothing new is queued, so play rests until
      the clock queues the next half-time marker. */
  lemma UntriggeredEventsQueueNothing(setup: Setup, s: GameState, draws: Draws)
    requires |s.queue| > 0
    requires s.queue[0].kind in {ETFreeKickOnGoal, ETFreeKickDefensiveHalf, ETEndOfSecondHalf, ETFoul, ETPenalty}
    ensures ListenStepOf(setup, s, draws) == Ok(s.(queue := s.queue[1..], events := s.events + [s.queue[0]]))
  {
  }

  // ---------------------------------------------------------------------
  // A whole match

  /** A step that either crashed with a reason or left a state. */
  function Resulting(crash: Option<string>, s: GameState): Fallible<GameState> {
    if crash.Some? then Panic(crash.value) else Ok(s)
  }

  /** The match is over: full time has been called and Listen has drained
      the queue. */
  predicate Finished(s: GameState) {
    s.clock.fullTime && |s.queue| == 0
  }

  /** One tick of the two goroutines, interleaved: a pass of runGame's loop
      while it runs, then a pass of Listen when an event is waiting. */
  function TickOf(setup: Setup, s: GameState, draws: Draws): Fallible<GameState> {
    var c := if s.clock.fullTime then s else ClockStepOf(s);
    if |c.queue| > 0 then ListenStepOf(setup, c, draws) else Ok(c)
  }

  /** A tick keeps the state valid, never lowers a flag, a score or a card
      count, and only extends the log. */
  lemma TickMeaning(setup: Setup, s: GameState, draws: Draws)
    requires Valid(s) && 0.0 <= draws.clock < 1.0
    requires TickOf(setup, s, draws).Ok?
    ensures var t := TickOf(setup, s, draws).value;
            Valid(t) && FlagsKept(s.clock, t.clock) && TallyFrame(s.tally, t.tally) && s.events <= t.events
  {
    var c := if s.clock.fullTime then s else ClockStepOf(s);
    if !s.clock.fullTime {
      ClockStepMeaning(s);
    }
    if |c.queue| > 0 {
      ListenStepMeaning(setup, c, draws);
    }
  }

  /** Ticks with the given draws until the match is finished, a step
      crashes or the draws run out. */
  function PlayedOf(setup: Setup, s: GameState, schedule: seq<Draws>): Fallible<GameState>
    decreases |schedule|
  {
    if |schedule| == 0 || Finished(s) then Ok(s)
    else
      match TickOf(setup, s, schedule[0])
      case Panic(m) => Panic(m)
      case Ok(t) => PlayedOf(setup, t, schedule[1..])
  }

  /** Playing from the i-th draw on is one tick followed by the rest. */
  lemma PlayedFrom(setup: Setup, s: GameState, schedule: seq<Draws>, i: nat)
    requires i < |schedule| && !Finished(s)
    ensures TickOf(setup, s, schedule[i]).Panic? ==>
              PlayedOf(setup, s, schedule[i..]) == Panic(TickOf(setup, s, schedule[i]).reason)
    ensures TickOf(setup, s, schedule[i]).Ok? ==>
              PlayedOf(setup, s, schedule[i..]) == PlayedOf(setup, TickOf(setup, s, schedule[i]).value, schedule[i + 1..])
  {
    assert schedule[i..][0] == schedule[i] && schedule[i..][1..] == schedule[i + 1..];
  }

  /** Nothing more is played once the match is finished or the draws run
      out. */
  lemma PlayedStops(setup: Setup, s: GameState, schedule: seq<Draws>, i: nat)
    requires i <= |schedule| && (i == |schedule| || Finished(s))
    ensures PlayedOf(setup, s, schedule[i..]) == Ok(s)
  {
  }

  /** Every draw the clock uses lies in [0, 1), as rand.Float64 returns. */
  predicate ClockDraws(schedule: seq<Draws>) {
    forall i :: 0 <= i < |schedule| ==> 0.0 <= schedule[i].clock < 1.0
  }

  /** However far a match is played, the state stays valid, no flag is
      lowered, no score or card count falls and the log only grows. */
  lemma {:induction false} PlayedMeaning(setup: Setup, s: GameState, schedule: seq<Draws>)
    requires Valid(s) && ClockDraws(schedule)
    requires PlayedOf(setup, s, schedule).Ok?
    ensures var t := PlayedOf(setup, s, schedule).value;
            Valid(t) && FlagsKept(s.clock, t.clock) && TallyFrame(s.tally, t.tally) && s.events <= t.events
    decreases |schedule|
  {
    if |schedule| > 0 && !Finished(s) {
      TickMeaning(setup, s, schedule[0]);
      var t := TickOf(setup, s, schedule[0]).value;
      PlayedMeaning(setup, t, schedule[1..]);
    }
  }

  /** Simulation.Run (simulation.go:23-48) without its goroutines: the
      kick-off is captured, then the match is played tick by tick. */
  function RunOf(setup: Setup, kickoffTeam: Team, s: GameState, schedule: seq<Draws>): Fallible<GameState> {
    match KickOffOf(kickoffTeam, map["quality" := 100])
    case Panic(m) => Panic(m)
    case Ok(kick) => PlayedOf(setup, CaptureOf(s, kick), schedule)
  }

  /** A match run from the initial state ends valid, with the kick-off
      first in its log. */
  lemma RunMeaning(setup: Setup, kickoffTeam: Team, schedule: seq<Draws>)
    requires ClockDraws(schedule) && |schedule| > 0
    requires RunOf(setup, kickoffTeam, Initial(), schedule).Ok?
    ensures var t := RunOf(setup, kickoffTeam, Initial(), schedule).value;
            Valid(t) && |t.events| > 0 && t.events[0] == KickOffOf(kickoffTeam, map["quality" := 100]).value
  {
    var kick := KickOffOf(kickoffTeam, map["quality" := 100]).value;
    var s := CaptureOf(Initial(), kick);
    assert s.queue == [kick] && s.events == [];
    assert ClockStepOf(s) == s;
    assert schedule[0..] == schedule;
    PlayedFrom(setup, s, schedule, 0);
    ListenStepMeaning(setup, s, schedule[0]);
    PlayedMeaning(setup, TickOf(setup, s, schedule[0]).value, schedule[1..]);
  }
}
