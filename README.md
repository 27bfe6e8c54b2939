# football-game match engine, modelled in Dafny

This project models the deterministic core of the football-game match
engine, written in Go, and proves properties of that model. The engine
simulates a match between two teams of rated players. Each kick-off,
pass, dribble, cross, shot, card or stoppage is an *event*, and the
engine:

- captures each event into a bounded queue;
- drains the queue into an append-only log;
- fires a trigger per event type. Triggers move the clock, count goals and
  cards, add stoppage time, and compute the next event from a player's
  decision.

A separate loop watches the clock and raises the half-time and full-time
flags.

The model covers the following areas. Each is listed with its module and
file.

- **Positions.** `positions.dfy`, `helpers.dfy`. The sixteen field
  positions, the static "similar positions" graph, and the attacker and
  winger classes.
- **Player directory.** `search.dfy`, `graphs.dfy`, `argmax.dfy`.
  - `Team.SearchPlayers`: a breadth-first walk over the similarity graph
    that weighs positions by depth, then a roster scan that keeps the first
    best-scoring player.
  - Its single-position variant.
  - `RandomPlayerInGroup` and `ChooseReceiver`.
- **Player initials.** `players.dfy`. `Player.Initials`, with Go's
  `strings.Fields` word splitting.
- **Weighted event sampler.** `events.dfy`. The event and decision
  enumerations, the cumulative-weight sampler `RandomWeightedEvent`,
  `mergeWeights`, and the weight tables.
- **Proximity and nearest players.** `proximity.dfy`. The position
  proximity score and the nearest team-mate and opponent scans.
- **Event constructors.** `plays.dfy`. The kick-off, goal, reset, goal
  kick, free kick, turnover and save events, plus `opposingTeam` and
  `isHome`.
- **Decisions.** `decisions.dfy`. The recent-event window, `makeDecision`,
  `decidePassType`, the success chances, and `evaluateDecision` together
  with `action`.
- **Match state.** `match_state.dfy`. The state machine of the match as
  functions on a `GameState` value, and the lemmas about it. This covers:
  - the queue's capture rule;
  - the clock and stoppage-time arithmetic;
  - one pass of `runGame`;
  - every trigger of `registerTriggers`;
  - one pass of `Listen`;
  - a whole match driven by a schedule of draws.
- **The simulation object.** `simulation.dfy`. `SimulationState` as a
  class whose fields the methods update in place. Every method is proved
  to produce exactly the state the `MatchState` functions describe.

## Scaling and representation

- Similarity weights 2, 1, 0.5 and 0.25 are scaled by 4 to 8, 4, 2 and 1.
  The exact-match bonus 2 becomes 8.
- Proximity scores 1, 0.75, 0.5 and 0 become 4, 3, 2 and 0.
- Scaling by 4 preserves every comparison the scans make.
- Event weights and chances are exact `real`s.
- Simulated time is whole seconds from kick-off. The first half ends at
  2700.
- Every random number is a parameter: a `draw`, a `coin`, or a field of a
  `Draws` record.
- Go's iteration order over a map is unspecified, so it is an explicit
  `order` parameter, constrained to enumerate the keys.
- A Go panic is the `Panic` case of `Fallible<T>`, and a nil pointer is
  `None`.
- `addTime` computes `time.Duration(d.Seconds()*rand)*time.Second`. That
  truncates to whole seconds, and the model's `Truncate` does the same.

## Code and design description disagree

In each case below the model follows the code.

- **Every dispatch advances time.** The design description says so. In the
  code, `addTime` multiplies the base duration by a draw in [0, 2) and
  truncates. A draw below 1/(2·base) therefore adds nothing.
  `MatchState.AdvancedForward` states only that time never decreases.
- **The recent-event window.** The description calls `LastEvents(count)`
  the most recent `count` events. Once the log is longer than `count`, the
  code's slice stops one short of the newest event.
  `Decisions.LastEventsOf` and `Decisions.WindowAndNewest` state the
  window as written.
- **Decision and search signatures.** `PlayerSearchOptions` in
  models/types.go has a single position and boolean exclusions. Both
  `Team.SearchPlayers` definitions exist, and their callers pass a position
  list and a set of excluded numbers. The model follows models/search.go,
  with exclusions as `set<int>`. The models/types.go search is
  `Search.SearchPlayersByPosition`, which has no team-name bonus.

## Model

| member | source | states |
|---|---|---|
| Positions.AllPositionsComplete | models/types.go:197-216 | the sixteen `PlayerPosition` constants are all the positions there are |
| Positions.SimilarPositionsShape | models/types.go:218-240 | `SimilarPositions` has an entry for every position, Goalkeeper's list is empty, and no position lists itself |
| Helpers.AttackerPositions | helpers/helpers.go:11-14 | `IsAttacker` holds for exactly Striker, CentreForward and CentralAttackingMidfielder |
| Helpers.WingerPositions | helpers/helpers.go:5-9 | `IsWinger` holds for exactly the two wingers, the two wide midfielders and the two wing-backs |
| Helpers.NeitherPositions | helpers/helpers.go:5-14 | the positions that are neither attacker nor winger are exactly Goalkeeper, the full-backs, the centre-backs and the central and defensive midfielders (so no position is both) |
| Players.Fields | models/types.go:177-178 | the words `strings.Fields` returns are non-empty and contain no white space |
| Players.FieldsOfJoin | models/types.go:177-178 | splitting words joined by single spaces gives back exactly those words |
| Players.Initials | models/types.go:177-192 | the loop gives the initials of the name's words: for the first and last of more than two words, each word's first byte read as a Latin-1 rune and upper-cased, with one space appended when the result is shorter than two bytes |
| Players.InitialsMeaning | models/types.go:177-192 | a blank name gives one space; one word gives its initial, padded with a space only when that initial is a single byte; two or more words give the initials of the first and last word; the result is at least two bytes exactly when the name is not blank |
| Players.AsciiInitials | models/types.go:183-190 | for words that begin with ASCII characters, the initials are their ASCII upper-cased first letters, two characters long unless the name is blank |
| Players.NameInitials | models/types.go:177-187 | for a name of two or more words joined by spaces, the result is the initial of the first word followed by that of the last word |
| Players.NonAsciiInitials | models/types.go:183-187 | a word beginning outside ASCII contributes its first byte as a rune: "Martin Ødegaard" gives "MÃ" |
| Players.NonAsciiSingleInitial | models/types.go:183-190 | "Ødegaard" alone gives "Ã", which is two bytes long and so is not padded |
| Argmax.FirstMax | models/search.go:82-88 | the scan's index is None exactly when no score is positive; otherwise it holds a positive maximal score that no earlier entry reaches |
| Argmax.FirstMaxShift | models/search.go:74-76 | adding the same bonus to every positive score, and no more than it to the others, keeps the chosen index |
| Search.LayeredWeightsByDistance | models/search.go:21-56 | a requested position weighs 8, a position first reached at depth 1, 2 or 3 weighs 4, 2 or 1, and one beyond three hops has no weight |
| Search.ExpandPosition | models/search.go:39-55 | expanding one position weighs all its unvisited neighbours one level deeper, queues them in order, and keeps the walk's invariant |
| Search.SimilarityWeights | models/search.go:14-56 | the breadth-first walk produces exactly the layered weights of the requested positions, never re-weighting a visited position and not expanding depth 3 |
| Search.Scores | models/search.go:58-80 | each roster player's score is its position weight plus 8 for each exact name, team name and number match, and an excluded player scores 0 |
| Search.HighestScoring | models/search.go:82-95 | the roster scan returns the earliest player with the maximal positive score, and panics when no player scores above zero |
| Search.SearchedMeaning | models/search.go:58-95 | a search returns a roster player whose number is not excluded, and panics exactly when no score is positive |
| Search.SearchPlayers | models/search.go:8-96 | the multi-position search returns the first best-scoring non-excluded player, and panics exactly when every score is 0 |
| Search.SearchPlayersByPosition | models/types.go:25-103 | the single-position search returns the first best-scoring non-excluded player, and panics exactly when every score is 0 |
| Search.TeamBonusNeutral | models/search.go:74-76 | the team-name bonus, which every player gets alike, never changes the chosen player when some player scores or the names differ |
| Search.TeamBonusFallback | models/search.go:74-76 | when nobody scores otherwise and the team name matches, the bonus picks the first non-excluded player, and there is one exactly when some player is not excluded |
| Search.SinglePositionAgrees | models/types.go:75-95 | the single-position search picks the player the multi-position search picks for that one position, unless only the team bonus would make a score positive |
| Search.LayeredWeightsPositive | models/search.go:21-56 | every similarity weight is positive |
| Search.GoalkeeperSearchWeights | models/types.go:199-219 | a search for Goalkeeper weighs only Goalkeeper, because its similar-positions list is empty |
| Search.InGroup | models/search.go:99-104 | the group holds exactly the roster players whose position is in the group's positions |
| Search.GroupIndex | models/search.go:105-108 | the index max(floor(draw·n) − 1, 0) is within the group, and below n − 1 whenever n ≥ 2 |
| Search.GroupPickMeaning | models/search.go:98-110 | the pick is a roster player in the group, and it panics exactly when no roster player is in the group |
| Search.RandomPlayerInGroup | models/search.go:98-110 | the loop's result is the group pick for the draw |
| Search.LastMemberNeverChosen | models/search.go:105-108 | in a group of two or more, the last member is never chosen |
| Search.ChooseReceiver | models/search.go:112-132 | under pressure, forwards pass to midfielders and others to defenders; otherwise defenders pass long to forwards and short to midfielders, and everyone else passes to forwards |
| Events.CumulativeWeights | simulation/events.go:102-108 | the first loop's total is the sum of all weights, each key's cdf entry is the running sum up to and including it, and with no negative weight every entry lies between 0 and the total |
| Events.CdfWithinTotal | simulation/events.go:102-108 | with no negative weight, every cdf entry lies between 0 and the total |
| Events.CdfKeys | simulation/events.go:102-108 | the cdf has an entry for exactly the keys iterated |
| Events.CdfAt | simulation/events.go:102-108 | the cdf entry of the j-th key is the sum of the weights of the first j+1 keys |
| Events.FirstReaching | simulation/events.go:110-117 | the second loop returns the first scanned key whose cdf value reaches the scaled draw, or ETNone |
| Events.FirstAtLeastIs | simulation/events.go:110-115 | the scan returns the i-th key exactly when that key's value reaches r and no earlier key's does |
| Events.RandomWeightedEvent | simulation/events.go:97-118 | the sampler returns the key the two loops define, and ETNone for an empty weight set |
| Events.SampledIsKey | simulation/events.go:103-117 | for a non-empty set of non-negative weights and a draw in [0, 1], the result is always a key of the set, so the fall-through ETNone is unreachable |
| Events.SampledInterval | simulation/events.go:103-115 | with one iteration order for both loops, the i-th key is drawn exactly when draw·total falls in its interval (previous running sum, own running sum] |
| Events.MergeWeights | simulation/events.go:120-128 | the nested copy loops produce the merged map |
| Events.MergedKeys | simulation/events.go:120-128 | the merged keys are exactly the union of the sets' keys |
| Events.MergedLastWins | simulation/events.go:120-128 | a key takes its value from the last set that holds it |
| Events.AllWeightedEventsContents | simulation/events.go:78-95 | the general and attacking tables have disjoint keys, and their merge holds all eight entries with their weights unchanged |
| Proximity.ProximityScore | simulation/simulation.go:656-683 | the score is one of 4, 3, 2 and 0, and it is 4 exactly for the same position, even with no graph entry |
| Proximity.ProximityByDistance | simulation/simulation.go:656-683 | the score is 4, 3 or 2 exactly at graph distance 0, 1 or 2, and 0 exactly beyond two edges (or with no graph entry) |
| Proximity.TeamMateNearest | simulation/simulation.go:685-704 | the scan returns the earliest team-mate with the strictly highest positive score, skipping the attacker's own position, or nil |
| Proximity.OpponentNearestTo | simulation/simulation.go:706-721 | the scan returns the earliest opponent with the strictly highest positive score, or nil |
| Proximity.TeamMateNearestMeaning | simulation/simulation.go:685-704 | the team-mate found never plays the attacker's position, and none is found exactly when every other-position team-mate is more than two edges away |
| Proximity.OpponentSamePositionWins | simulation/simulation.go:706-721 | the first opponent in the attacker's own position is always the one chosen |
| Plays.OpposingSides | simulation/simulation.go:50-56 | for two differently named sides, the opposing team of each is the other, `isHome` holds only for the home side, and taking the opponent twice gives back the team |
| Plays.StartingEvent | simulation/simulation.go:373-389 | the kick-off is a pass from the team's best-matching striker to its best-matching central midfielder, with quality 100 |
| Plays.KickOffFromOwnTeam | simulation/simulation.go:373-389 | a kick-off that succeeds is a pass by the team whose two players both belong to it |
| Plays.Reset | simulation/simulation.go:419-432 | a reset restarts play as a kick-off by the event's team |
| Plays.Goal | simulation/simulation.go:411-417 | after a goal by one side, the reset event belongs to the other side and names no players |
| Plays.GoalKeeperKick | simulation/simulation.go:391-409 | the goal kick is a pass from the keeper to a forward when the coin is below one half and to a defender otherwise |
| Plays.KeeperKickStaysWithTeam | simulation/simulation.go:391-409 | a goal kick is a pass from the keeper to a player of the keeper's own team |
| Plays.FreeKick | simulation/simulation.go:434-443 | the free kick goes to the opposing team, taken by its player nearest the offender |
| Plays.Turnover | simulation/simulation.go:541-550 | the turnover method returns the interception the turnover definition gives |
| Plays.TurnoverMeaning | simulation/simulation.go:541-550 | a turnover is an interception by the opposing team starting from the player who lost the ball, and an opponent in that player's position wins it whenever one exists |
| Plays.Save | simulation/simulation.go:552-563 | the save method returns the save event the save definition gives, or its panic |
| Plays.SaveMeaning | simulation/simulation.go:552-563 | a save belongs to the opposing team with a player of that team finishing it, and it panics exactly when the opposing goalkeeper search finds nobody |
| Decisions.DribbleChance | simulation/simulation.go:614-654 | the dribble chance is clamped to [0, 1] |
| Decisions.ChancesAreProbabilities | simulation/simulation.go:592-608 | for ratings on the 0-100 scale, the short-pass and hold chances lie in [0, 1] |
| Decisions.LongPassSureForTopRatings | simulation/simulation.go:565-590 | with vision, long passing and agility above 90 and no negative momentum, a long pass always succeeds |
| Decisions.DribbleAfterDribbleHalved | simulation/simulation.go:624-626 | a dribble right after a dribble has half the chance |
| Decisions.LastEventsOf | simulation/simulation.go:159-165 | the window is the whole log when it holds no more than count events, and otherwise the count events before the newest |
| Decisions.WindowAndNewest | simulation/simulation.go:159-165 | the newest event is in the window only when the log holds no more than count events |
| Decisions.InvolvementMeaning | simulation/simulation.go:795-805 | scanning the window panics exactly when some event has a finishing player in another position and no starting player; otherwise it reports whether some event's finishing or starting player is in the position |
| Decisions.AsWrittenAlwaysLong | simulation/simulation.go:826-833 | as written, a passing vision of 2 or more always gives a long pass |
| Decisions.DecidePassType | simulation/simulation.go:826-833 | the corrected pass type is a long or a short pass |
| Decisions.PassTypeAtMostEightyPercent | simulation/simulation.go:827 | corrected, a draw of 0.8 or more always gives a short pass, and a draw below vision·0.8 % gives a long pass |
| Decisions.PassTypeDiscrepancy | simulation/simulation.go:827-829 | a vision-50 player with draw 0.9 gets a long pass as written and a short pass corrected |
| Decisions.MakeDecision | simulation/simulation.go:777-824 | the decision method returns the decision the decision table defines, with the corrected pass type as its fall-through (see Left out) |
| Decisions.DecisionMeaning | simulation/simulation.go:777-824 | no finishing player gives NoDecision; a shot comes only from an attacker or winger; a cross only from a winger with crossing above 60; the scan panics exactly when a dangling event is in the window; an attacker or winger involved in the window shoots |
| Decisions.EvaluateDecision | simulation/simulation.go:453-539 | the evaluation method returns the event the evaluation table defines |
| Decisions.EvaluatedMeaning | simulation/simulation.go:453-563 | no player panics; success keeps the ball with the team under the decision's event type (pass, cross, dribble, goal, possession); failure is the turnover, or for a shot the opposing team's save with its own player finishing; passes and crosses reach a team-mate other than the passer |
| Decisions.CrossAndKeeperHold | simulation/simulation.go:498-537 | a cross always succeeds, and a goalkeeper with no decision always keeps the ball |
| Decisions.Action | simulation/simulation.go:445-451 | the action evaluates the finishing player's decision, reached with the corrected pass type (see Left out) |
| Decisions.NoFinisherPanics | simulation/simulation.go:445-451 | an event nobody finished leads to a panic |
| MatchState.InitialValid | simulation/simulation.go:62-77 | the initial state has no flags raised, zero counts and an empty queue and log |
| MatchState.CaptureMeaning | simulation/simulation.go:142-153 | capturing changes nothing after full time or with 100 events queued, and otherwise appends the event at the back and changes nothing else |
| MatchState.AdvancedForward | simulation/simulation.go:312-315 | addTime never moves the clock backwards, and adds less than twice the base duration |
| MatchState.StoppageMeaning | simulation/simulation.go:317-324 | stoppage time goes to the first half only before it has ended, to the second half only while it runs, and otherwise nothing changes |
| MatchState.ClockStepMeaning | simulation/simulation.go:173-197 | one pass of runGame keeps the state valid, raises flags only in order and never lowers one, moves at most one stage, and changes nothing but the flags and the queue, whose old contents are kept as a prefix |
| MatchState.FullTimeWhistle | simulation/simulation.go:192-195 | full time comes only together with the end of the second half's extra time |
| MatchState.GoalMeaning | simulation/simulation.go:238-253 | a goal raises exactly the scoring side's score by one and queues a reset for the other side |
| MatchState.SentOffAsWrittenBooksHome | simulation/simulation.go:296-300 | as written, a red card always raises the home count and never the away count |
| MatchState.CardsBookOffender | simulation/simulation.go:275-301 | a yellow card and (corrected) a red card raise the offending side's count by one and leave the other counts alone |
| MatchState.RedCardDiscrepancy | simulation/simulation.go:296-300 | for an away red card the count as written and the corrected count differ |
| MatchState.RedCardStoppage | simulation/simulation.go:289-301 | a red card adds 20 seconds to a running half's extra time and queues the free kick |
| MatchState.ActionTriggerFrame | simulation/simulation.go:217-237 | the pass, cross, dribble, interception and possession triggers keep the flags, counts and log, never move the clock back, and only add to the queue |
| MatchState.GoalTriggerFrame | simulation/simulation.go:238-253 | the goal trigger keeps the flags and log, only adds to the queue, and only raises counts |
| MatchState.ResetTriggerFrame | simulation/simulation.go:254-260 | the reset trigger keeps the flags, counts and log and only adds to the queue |
| MatchState.YellowCardTriggerFrame | simulation/simulation.go:275-288 | the yellow-card trigger keeps the flags and log, only adds to the queue, and only raises counts |
| MatchState.RedCardTriggerFrame | simulation/simulation.go:289-301 | the red-card trigger keeps the flags and log, only adds to the queue, and only raises counts |
| MatchState.SaveTriggerFrame | simulation/simulation.go:302-309 | the save trigger keeps the flags, counts and log and only adds to the queue |
| MatchState.TriggerMeaning | simulation/simulation.go:199-310 | every trigger keeps the flags and log, only adds to the queue and raises counts, and never moves the clock back, except the end-of-first-half-extra-time trigger, which resets it to 45 minutes |
| MatchState.ListenStepMeaning | simulation/simulation.go:131-140 | one pass of Listen appends the oldest queued event to the log, drops it from the queue, keeps the state valid and fires its trigger |
| MatchState.UntriggeredEventsQueueNothing | simulation/simulation.go:199-310 | free kicks on goal, defensive free kicks, fouls, penalties and the end of the second half have no trigger: listening to one only moves it to the log |
| MatchState.TickMeaning | simulation/simulation.go:131-140 | one tick keeps the state valid, raises flags only in order, only raises counts, and extends the log |
| MatchState.PlayedMeaning | simulation/simulation.go:23-48 | playing out any schedule from a valid state keeps it valid, never lowers a flag or a count, and only extends the log |
| MatchState.RunMeaning | simulation/simulation.go:23-48 | a match that completes is valid and its log begins with the kick-off |
| Simulation.SimulationState.constructor | simulation/simulation.go:58-98 | a new simulation is in the initial state, and the coin picks the kick-off team |
| Simulation.SimulationState.CaptureEvent | simulation/simulation.go:142-153 | capturing updates the fields to the state the capture rule gives |
| Simulation.SimulationState.LastEvent | simulation/simulation.go:155-157 | the last event is the log's newest entry, and it panics exactly when the log is empty |
| Simulation.SimulationState.AddTime | simulation/simulation.go:312-315 | the clock moves as addTime's arithmetic says, and nothing else changes |
| Simulation.SimulationState.AddExtraTime | simulation/simulation.go:317-324 | stoppage time is added as addExtraTime says, and nothing else changes |
| Simulation.SimulationState.ClockStep | simulation/simulation.go:180-195 | one pass of runGame's loop updates the fields as the clock step gives |
| Simulation.SimulationState.OnAction | simulation/simulation.go:217-237 | the action triggers update the state as the action trigger gives, panicking where logging dereferences nil; the action uses the corrected pass type (see Left out) |
| Simulation.SimulationState.OnGoal | simulation/simulation.go:238-253 | the goal trigger updates the state as the goal trigger gives |
| Simulation.SimulationState.OnReset | simulation/simulation.go:254-260 | the reset trigger updates the state as the reset trigger gives |
| Simulation.SimulationState.OnYellowCard | simulation/simulation.go:275-288 | the yellow-card trigger updates the state as the yellow-card trigger gives |
| Simulation.SimulationState.OnRedCard | simulation/simulation.go:289-301 | the red-card trigger updates the state as the corrected red-card trigger gives, booking the card to the offending side (see Left out) |
| Simulation.SimulationState.OnSave | simulation/simulation.go:302-309 | the save trigger updates the state as the save trigger gives |
| Simulation.SimulationState.Trigger | simulation/simulation.go:199-310 | dispatching an event runs its trigger, or changes nothing when its type has none |
| Simulation.SimulationState.ListenStep | simulation/simulation.go:131-140 | one pass of Listen updates the state as the listen step gives |
| Simulation.SimulationState.Tick | simulation/simulation.go:131-140 | one clock pass and one listen pass update the state as the tick gives |
| Simulation.SimulationState.Play | simulation/simulation.go:27-44 | the loop plays the whole schedule, ending in the state the played-out match gives, and from a valid state it stays valid, never lowers a flag or count, and only extends the log |
| Simulation.SimulationState.Run | simulation/simulation.go:23-48 | running captures the kick-off and plays the schedule; the outcome is the final score, reported exactly when the match finished without a panic |

## Left out

- **Concurrency.** `Simulation.Run` runs `runGame` and `Listen` as goroutines over a channel. The model interleaves them as one `runGame` pass followed by one `Listen` pass per tick. A finite schedule of draws stands in for a run of unbounded length, so the busy-wait on the clock and the data race on `Time` are not modelled.
- **Randomness.** `rand.New(time.Now())` and every `RandomFloat` call become parameters: the kick-off coin, the draws in `Draws` and `ActionDraws`, and the sampler's `draw`.
- **Floating point.** Chances, weights and momentum are exact `real`s, so float rounding is not modelled.
- **Shot probability.** `evaluateShot` depends on `helpers.Sigmoid`, which is not part of this model and is transcendental. Its comparison is the `shotScores` draw field. The search for the opposing goalkeeper is kept.
- **Console output.** `SimulationState.log`, simulation/log.go, `Timestamp` and `fmt` output are not modelled. `MatchState.LogFails` keeps only the nil dereferences in `log` that panic.
- **Other files.** simulation/plotter.go, scenarios/scenarios.go and main.go are rendering, static rosters and process wiring.
- **Unused fields.** `Pitch`, `SynergyMultiplier`, `TacticalCounters`, `HomeTeamAttacking`, `AwayTeamAttacking` and `Stalemate` are never read by the modelled code.
- **Missing definitions.** `TeammateAdjacents`, `OpponentAdjacents` and the `Forwards`, `Midfielders` and `Defenders` groups are not defined in the files modelled. They are parameters: the graphs in `Setup`, the groups in `Search.Groups`. The dribbling and goalkeeping ratings are plain integer fields of `Ratings`.
- **Default panic.** The default panic of `evaluateDecision` is unreachable over the `Decision` enumeration, so it has no case.
- **Scans keep an index.** The scans keep an index rather than a pointer into the roster. The player returned is the same.
- **One object.** `Simulation` and `SimulationState` are one class, `Simulation.SimulationState`. Its `setup` holds the match and graphs.
- Events.RandomWeightedEvent: takes the two Go map iteration orders as parameters. Go may use different orders for the two loops. `Events.SampledInterval` assumes the two orders are equal; `Events.SampledIsKey` holds for any two orders.
- MatchState.AdvancedForward: states only that time does not decrease. Whether the clock advances at all depends on the draw (see above).
- Simulation.SimulationState.Play: states its validity guarantee only for schedules whose clock draws lie in [0, 1), which is the range `RandomFloat` returns.
- Decisions.MakeDecision: its fall-through calls the corrected `Decisions.DecidePassType` (a long pass when the draw is below vision × 0.8 / 100), not the code's `vision*0.8` comparison (simulation/simulation.go:826-833). The code's rule is `Decisions.DecidePassTypeAsWritten`, which passes long for any vision of 2 or more. A vision-50 player with pass draw 0.9 passes short in the model and long in the code.
- Decisions.Action: inherits the corrected pass type from `Decisions.MakeDecision`. So do `MatchState.ActionTriggerOf`, `TriggerOf`, `ListenStepOf`, `TickOf`, `PlayedOf` and `RunOf`, and with them the whole-match model.
- Simulation.SimulationState.OnAction: runs `Decisions.Action`, so it uses the corrected pass type. So do `Trigger`, `ListenStep`, `Tick`, `Play` and `Run` of `Simulation.SimulationState`.
- Simulation.SimulationState.OnRedCard: books a red card to the offending side through the corrected `MatchState.SentOff`, where the code always raises `HomeRedCards` (simulation/simulation.go:296-300). The same holds for `MatchState.RedCardTriggerOf`, `TriggerOf`, `TickOf`, `PlayedOf` and `RunOf`, and for `Trigger`, `ListenStep`, `Tick`, `Play` and `Run` of `Simulation.SimulationState`. The code's count is `MatchState.SentOffAsWritten`.
- Players.Initials: a name is a sequence of Unicode scalar values, taken to be valid UTF-8 in Go; invalid byte sequences in a Go string are not modelled.

## Findings

| source | as written | input that shows it | evidently intended | confidence | as-written member | corrected member |
|---|---|---|---|---|---|---|
| simulation/simulation.go:827-829 | the long-pass probability is vision × 0.8, a number on a 0-80 scale, compared with a draw in [0, 1) | a player with passing vision 50 and draw 0.9 always gets a long pass | vision × 0.8 / 100, i.e. "up to 80%" | not executed | Decisions.AsWrittenAlwaysLong | Decisions.PassTypeAtMostEightyPercent |
| simulation/simulation.go:296-300 | both branches of the red-card trigger increment `HomeRedCards` | an away player is shown a red card: the home count rises by 1 and the away count stays 0 | `AwayRedCards++` in the away branch | not executed | MatchState.SentOffAsWrittenBooksHome | MatchState.CardsBookOffender |
