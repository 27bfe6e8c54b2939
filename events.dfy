/** Events, decisions and the weighted event sampler (simulation/events.go). */
module Events {
  import opened Outcomes
  import opened Players

  /** EventType, in the declaration order of the source. */
  datatype EventType =
    | ETNone
    | ETHalfTimeExtraTimeAnnouncement
    | ETFullTimeExtraTimeAnnouncement
    | ETHalfTime
    | ETFullTime
    | ETSubstitution
    | ETPenalty
    | ETFreeKickOnGoal
    | ETFreeKickDefensiveHalf
    | ETFoul
    | ETAdvantage
    | ETYellowCard
    | ETRedCard
    | ETPass
    | ETGoalScoringChance
    | ETInterception
    | ETDribble
    | ETPossession
    | ETSave
    | ETGoal
    | ETMiss
    | ETCross
    | ETEndOfFirstHalf
    | ETEndOfFirstHalfExtraTime
    | ETEndOfSecondHalf
    | ETEndOfSecondHalfExtraTime
    | ETReset

  /** What the player on the ball chooses to do. */
  datatype Decision =
    | NoDecision
    | DecisionLongPass
    | DecisionShortPass
    | DecisionCross
    | DecisionDribble
    | DecisionShoot

  /** An event: its type, the team it belongs to, the players starting and
      finishing it (nil pointers become None) and its metadata. Only integer
      metadata is ever written. */
  datatype Event = Event(kind: EventType, team: Team, starting: Option<Player>, finishing: Option<Player>,
                         meta: map<string, int>)

  /** The zero Team of a Go struct literal that leaves the team out. */
  const NoTeam := Team("", [])

  /** A marker event as the clock loop captures it: a type and nothing else. */
  function Marker(kind: EventType): Event {
    Event(kind, NoTeam, None, None, map[])
  }

  /** WeightedEventSet: event types with their relative weights. */
  type WeightedEventSet = map<EventType, real>

  const WeightedGeneralEvents: WeightedEventSet := map[
    ETSubstitution := 0.02,
    ETFoul := 0.10,
    ETYellowCard := 0.06,
    ETRedCard := 0.01,
    ETFreeKickDefensiveHalf := 0.06
  ]

  const WeightedAttackingEvents: WeightedEventSet := map[
    ETPenalty := 0.01,
    ETFreeKickOnGoal := 0.04,
    ETAdvantage := 0.05
  ]

  /** An iteration order of a Go map: every key exactly once. Go leaves the
      order unspecified, so the model takes it as a parameter. */
  predicate IsEnumeration(order: seq<EventType>, keys: set<EventType>) {
    && (forall i :: 0 <= i < |order| ==> order[i] in keys)
    && (forall k :: k in keys ==> k in order)
    && (forall i, j :: 0 <= i < j < |order| ==> order[i] != order[j])
  }

  /** The sum of the weights of the keys in order. */
  function RunningSum(weights: WeightedEventSet, order: seq<EventType>): real
    requires forall i :: 0 <= i < |order| ==> order[i] in weights
  {
    if |order| == 0 then 0.0 else RunningSum(weights, order[..|order| - 1]) + weights[order[|order| - 1]]
  }

  /** The cumulative table: each key of order maps to the running sum up to
      and including it. */
  function CdfOf(weights: WeightedEventSet, order: seq<EventType>): map<EventType, real>
    requires forall i :: 0 <= i < |order| ==> order[i] in weights
  {
    if |order| == 0 then map[]
    else CdfOf(weights, order[..|order| - 1])[order[|order| - 1] := RunningSum(weights, order)]
  }

  /** Reading a Go map: a missing key gives the zero value. */
  function Read(cdf: map<EventType, real>, k: EventType): real {
    if k in cdf then cdf[k] else 0.0
  }

  /** The first key of scan whose cumulative value reaches r, or ETNone. */
  function FirstAtLeast(cdf: map<EventType, real>, scan: seq<EventType>, r: real): EventType
  {
    if |scan| == 0 then ETNone
    else if Read(cdf, scan[0]) >= r then scan[0]
    else FirstAtLeast(cdf, scan[1..], r)
  }

  /** The cumulative table has exactly the keys of the order. */
  lemma {:induction false} CdfKeys(weights: WeightedEventSet, order: seq<EventType>)
    requires forall i :: 0 <= i < |order| ==> order[i] in weights
    ensures forall k :: k in CdfOf(weights, order) <==> k in order
  {
    if |order| > 0 {
      var prefix := order[..|order| - 1];
      CdfKeys(weights, prefix);
      assert order == prefix + [order[|order| - 1]];
    }
  }

  /** What RandomWeightedEvent returns for a draw, when the weights are
      summed in buildOrder and the table is scanned in scanOrder. */
  function Sampled(weights: WeightedEventSet, buildOrder: seq<EventType>, scanOrder: seq<EventType>, draw: real): EventType
    requires IsEnumeration(buildOrder, weights.Keys) && IsEnumeration(scanOrder, weights.Keys)
  {
    if |weights| == 0 then ETNone
    else FirstAtLeast(CdfOf(weights, buildOrder), scanOrder, Scaled(draw, RunningSum(weights, buildOrder)))
  }

  /** The draw scaled to the total weight. */
  function Scaled(draw: real, total: real): real {
    draw * total
  }

  /** A draw from [0, 1] scales a non-negative total to at most itself. */
  lemma ScaledAtMost(draw: real, total: real)
    requires 0.0 <= draw <= 1.0 && total >= 0.0
    ensures Scaled(draw, total) <= total
  {
    assert total - draw * total == (1.0 - draw) * total;
  }

  /** The first loop of RandomWeightedEvent (events.go:102-108): add the
      weights up in the map's iteration order, recording each running sum. */
  method CumulativeWeights(weights: WeightedEventSet, order: seq<EventType>) returns (cdf: map<EventType, real>, total: real)
    requires IsEnumeration(order, weights.Keys)
    ensures total == RunningSum(weights, order)
    ensures cdf == CdfOf(weights, order)
    ensures NonNegative(weights) ==> forall k :: k in cdf ==> 0.0 <= cdf[k] <= total
  {
    cdf, total := map[], 0.0;
    for i := 0 to |order|
      invariant total == RunningSum(weights, order[..i])
      invariant cdf == CdfOf(weights, order[..i])
    {
      assert order[..i + 1][..i] == order[..i];
      total := total + weights[order[i]];
      cdf := cdf[order[i] := total];
    }
    assert order[..|order|] == order;
    if NonNegative(weights) {
      CdfWithinTotal(weights, order);
    }
  }

  /** The second loop of RandomWeightedEvent (events.go:110-117): the first
      entry, in the table's iteration order, whose cumulative weight reaches
      r, or ETNone. */
  method FirstReaching(cdf: map<EventType, real>, scan: seq<EventType>, r: real) returns (evt: EventType)
    ensures evt == FirstAtLeast(cdf, scan, r)
  {
    for i := 0 to |scan|
      invariant FirstAtLeast(cdf, scan, r) == FirstAtLeast(cdf, scan[i..], r)
    {
      if Read(cdf, scan[i]) >= r {
        return scan[i];
      }
      assert scan[i..][1..] == scan[i + 1..];
    }
    assert scan[|scan|..] == [];
    return ETNone;
  }

  /** RandomWeightedEvent (events.go:97-118): no weights give ETNone;
      otherwise build the cumulative table, scale the draw by the total and
      return the first event of the table's iteration order whose
      cumulative weight reaches it. */
  method RandomWeightedEvent(weights: WeightedEventSet, buildOrder: seq<EventType>, scanOrder: seq<EventType>, draw: real)
    returns (evt: EventType)
    requires IsEnumeration(buildOrder, weights.Keys) && IsEnumeration(scanOrder, weights.Keys)
    ensures evt == Sampled(weights, buildOrder, scanOrder, draw)
  {
    if |weights| == 0 {
      return ETNone;
    }
    var cdf, total := CumulativeWeights(weights, buildOrder);
    evt := FirstReaching(cdf, scanOrder, Scaled(draw, total));
  }

  /** No weight is negative. */
  predicate NonNegative(weights: WeightedEventSet) {
    forall k :: k in weights ==> weights[k] >= 0.0
  }

  /** Running sums of non-negative weights grow along the order. */
  lemma {:induction false} RunningSumMonotone(weights: WeightedEventSet, order: seq<EventType>, j: nat, k: nat)
    requires forall i :: 0 <= i < |order| ==> order[i] in weights
    requires NonNegative(weights) && j <= k <= |order|
    ensures RunningSum(weights, order[..j]) <= RunningSum(weights, order[..k])
  {
    if j < k {
      RunningSumMonotone(weights, order, j, k - 1);
      assert order[..k][..k - 1] == order[..k - 1];
    }
  }

  /** The table records, for the j-th key of a repetition-free order, the
      sum of the first j + 1 weights. */
  lemma {:induction false} CdfAt(weights: WeightedEventSet, order: seq<EventType>, j: nat)
    requires forall i :: 0 <= i < |order| ==> order[i] in weights
    requires forall a, b :: 0 <= a < b < |order| ==> order[a] != order[b]
    requires j < |order|
    ensures order[j] in CdfOf(weights, order)
    ensures CdfOf(weights, order)[order[j]] == RunningSum(weights, order[..j + 1])
    decreases |order|
  {
    var prefix := order[..|order| - 1];
    if j == |order| - 1 {
      assert order[..j + 1] == order;
    } else {
      CdfAt(weights, prefix, j);
      assert prefix[..j + 1] == order[..j + 1];
    }
  }

  /** With no negative weight, every entry of the table is a running sum
      between 0 and the total. */
  lemma CdfWithinTotal(weights: WeightedEventSet, order: seq<EventType>)
    requires IsEnumeration(order, weights.Keys) && NonNegative(weights)
    ensures forall k :: k in CdfOf(weights, order) ==>
              0.0 <= CdfOf(weights, order)[k] <= RunningSum(weights, order)
  {
    CdfKeys(weights, order);
    forall k | k in CdfOf(weights, order)
      ensures 0.0 <= CdfOf(weights, order)[k] <= RunningSum(weights, order)
    {
      var j :| 0 <= j < |order| && order[j] == k;
      CdfAt(weights, order, j);
      RunningSumMonotone(weights, order, 0, j + 1);
      RunningSumMonotone(weights, order, j + 1, |order|);
      assert order[..|order|] == order;
      assert order[..0] == [];
    }
  }

  /** FirstAtLeast returns an entry of the scan or ETNone. */
  lemma {:induction false} FirstAtLeastFrom(cdf: map<EventType, real>, scan: seq<EventType>, r: real)
    ensures FirstAtLeast(cdf, scan, r) == ETNone || FirstAtLeast(cdf, scan, r) in scan
  {
    if |scan| > 0 && Read(cdf, scan[0]) < r {
      FirstAtLeastFrom(cdf, scan[1..], r);
    }
  }

  /** FirstAtLeast picks scan[i] exactly when scan[i] reaches r and no earlier
      entry does, provided the scan repeats no key and holds no ETNone. */
  lemma {:induction false} FirstAtLeastIs(cdf: map<EventType, real>, scan: seq<EventType>, r: real, i: nat)
    requires forall a, b :: 0 <= a < b < |scan| ==> scan[a] != scan[b]
    requires ETNone !in scan
    requires i < |scan|
    ensures FirstAtLeast(cdf, scan, r) == scan[i] <==>
            Read(cdf, scan[i]) >= r && forall j :: 0 <= j < i ==> Read(cdf, scan[j]) < r
  {
    var tail := scan[1..];
    if i > 0 && Read(cdf, scan[0]) < r {
      FirstAtLeastIs(cdf, tail, r, i - 1);
      assert tail[i - 1] == scan[i];
      if forall j :: 0 <= j < i - 1 ==> Read(cdf, tail[j]) < r {
        forall j | 0 <= j < i ensures Read(cdf, scan[j]) < r {
          if j > 0 {
            assert scan[j] == tail[j - 1];
          }
        }
      } else {
        var j :| 0 <= j < i - 1 && Read(cdf, tail[j]) >= r;
        assert scan[j + 1] == tail[j];
      }
    } else if i > 0 {
      assert scan[0] != scan[i];
    } else if Read(cdf, scan[0]) < r {
      FirstAtLeastFrom(cdf, tail, r);
      if FirstAtLeast(cdf, tail, r) in tail {
        var k :| 0 <= k < |tail| && tail[k] == FirstAtLeast(cdf, tail, r);
        assert scan[k + 1] == tail[k];
      }
    }
  }

  /** When some entry of the scan reaches r, FirstAtLeast returns an entry
      at or before it. */
  lemma {:induction false} FirstAtLeastFound(cdf: map<EventType, real>, scan: seq<EventType>, r: real, j: nat)
    returns (i: nat)
    requires j < |scan| && Read(cdf, scan[j]) >= r
    ensures i <= j && FirstAtLeast(cdf, scan, r) == scan[i]
  {
    if Read(cdf, scan[0]) < r {
      var i' := FirstAtLeastFound(cdf, scan[1..], r, j - 1);
      i := i' + 1;
    } else {
      i := 0;
    }
  }

  /** With non-negative weights and a draw in [0, 1], the sampler always
      returns one of the weighted events, never ETNone. */
  lemma SampledIsKey(weights: WeightedEventSet, buildOrder: seq<EventType>, scanOrder: seq<EventType>, draw: real)
    requires IsEnumeration(buildOrder, weights.Keys) && IsEnumeration(scanOrder, weights.Keys)
    requires |weights| > 0 && NonNegative(weights) && 0.0 <= draw <= 1.0
    ensures Sampled(weights, buildOrder, scanOrder, draw) in weights
  {
    var k :| k in weights.Keys;
    assert k in buildOrder;
    var n := |buildOrder|;
    var last := buildOrder[n - 1];
    var cdf := CdfOf(weights, buildOrder);
    var total := RunningSum(weights, buildOrder);
    CdfAt(weights, buildOrder, n - 1);
    assert buildOrder[..n] == buildOrder;
    RunningSumMonotone(weights, buildOrder, 0, n);
    ScaledAtMost(draw, total);
    assert last in scanOrder;
    var j :| 0 <= j < |scanOrder| && scanOrder[j] == last;
    var i := FirstAtLeastFound(cdf, scanOrder, Scaled(draw, total), j);
    assert scanOrder[i] in weights;
  }

  /** Inverse-distribution sampling: when the table is scanned in the order
      it was built, the i-th event is returned exactly when the scaled draw
      lies above the sum of the weights before it (or it is the first) and
      at most the sum up to and including it. */
  lemma SampledInterval(weights: WeightedEventSet, order: seq<EventType>, draw: real, i: nat)
    requires IsEnumeration(order, weights.Keys) && |weights| > 0 && NonNegative(weights)
    requires ETNone !in weights
    requires i < |order|
    ensures var r := Scaled(draw, RunningSum(weights, order));
            Sampled(weights, order, order, draw) == order[i] <==>
            (i == 0 || RunningSum(weights, order[..i]) < r) && r <= RunningSum(weights, order[..i + 1])
  {
    var r := Scaled(draw, RunningSum(weights, order));
    var cdf := CdfOf(weights, order);
    assert ETNone !in order;
    FirstAtLeastIs(cdf, order, r, i);
    CdfAt(weights, order, i);
    if i > 0 {
      EarlierBelow(weights, order, r, i);
    }
  }

  /** Along a build order of non-negative weights, every key before the i-th
      stays below r exactly when the (i-1)-th does. */
  lemma EarlierBelow(weights: WeightedEventSet, order: seq<EventType>, r: real, i: nat)
    requires forall k :: 0 <= k < |order| ==> order[k] in weights
    requires forall a, b :: 0 <= a < b < |order| ==> order[a] != order[b]
    requires NonNegative(weights) && 0 < i < |order|
    ensures (forall j :: 0 <= j < i ==> Read(CdfOf(weights, order), order[j]) < r) <==>
            RunningSum(weights, order[..i]) < r
  {
    var cdf := CdfOf(weights, order);
    CdfAt(weights, order, i - 1);
    forall j | 0 <= j < i ensures Read(cdf, order[j]) <= Read(cdf, order[i - 1]) {
      CdfAt(weights, order, j);
      RunningSumMonotone(weights, order, j + 1, i);
    }
  }

  /** The left-to-right merge of the weight sets: later sets override. */
  function Merged(sets: seq<WeightedEventSet>): WeightedEventSet {
    if |sets| == 0 then map[] else Merged(sets[..|sets| - 1]) + sets[|sets| - 1]
  }

  /** mergeWeights (events.go:120-128): copy every entry of every set, in
      order, into one fresh map. */
  method MergeWeights(sets: seq<WeightedEventSet>) returns (merged: WeightedEventSet)
    ensures merged == Merged(sets)
  {
    merged := map[];
    for i := 0 to |sets|
      invariant merged == Merged(sets[..i])
    {
      var pending := sets[i].Keys;
      ghost var before := merged;
      while pending != {}
        invariant pending <= sets[i].Keys
        invariant merged.Keys == before.Keys + (sets[i].Keys - pending)
        invariant forall k :: k in merged ==>
                    merged[k] == if k in sets[i] && k !in pending then sets[i][k] else before[k]
        decreases pending
      {
        var k :| k in pending;
        merged := merged[k := sets[i][k]];
        pending := pending - {k};
      }
      assert merged == before + sets[i];
      assert sets[..i + 1][..i] == sets[..i];
    }
    assert sets[..|sets|] == sets;
  }

  /** The merge holds exactly the events of the sets. */
  lemma {:induction false} MergedKeys(sets: seq<WeightedEventSet>, k: EventType)
    ensures k in Merged(sets) <==> exists j :: 0 <= j < |sets| && k in sets[j]
  {
    if |sets| > 0 {
      var prefix := sets[..|sets| - 1];
      MergedKeys(prefix, k);
      if k in Merged(prefix) {
        var j :| 0 <= j < |prefix| && k in prefix[j];
        assert k in sets[j];
      }
      if j :| 0 <= j < |sets| && k in sets[j] {
        if j < |sets| - 1 {
          assert k in prefix[j];
        }
      }
    }
  }

  /** An event takes its weight from the last set that names it. */
  lemma {:induction false} MergedLastWins(sets: seq<WeightedEventSet>, k: EventType, j: nat)
    requires j < |sets| && k in sets[j]
    requires forall l :: j < l < |sets| ==> k !in sets[l]
    ensures k in Merged(sets) && Merged(sets)[k] == sets[j][k]
  {
    if j < |sets| - 1 {
      var prefix := sets[..|sets| - 1];
      MergedLastWins(prefix, k, j);
    }
  }

  /** The table of every event the sampler knows (events.go:92-95). */
  const AllWeightedEvents: WeightedEventSet := Merged([WeightedGeneralEvents, WeightedAttackingEvents])

  /** The two tables name different events, so the merged table keeps all
      eight weights unchanged. */
  lemma AllWeightedEventsContents()
    ensures WeightedGeneralEvents.Keys !! WeightedAttackingEvents.Keys
    ensures AllWeightedEvents == map[
      ETSubstitution := 0.02, ETFoul := 0.10, ETYellowCard := 0.06, ETRedCard := 0.01,
      ETFreeKickDefensiveHalf := 0.06, ETPenalty := 0.01, ETFreeKickOnGoal := 0.04, ETAdvantage := 0.05]
  {
    var sets := [WeightedGeneralEvents, WeightedAttackingEvents];
    assert sets[..1] == [WeightedGeneralEvents];
    assert [WeightedGeneralEvents][..0] == [];
    assert Merged([WeightedGeneralEvents]) == map[] + WeightedGeneralEvents == WeightedGeneralEvents;
    assert AllWeightedEvents == WeightedGeneralEvents + WeightedAttackingEvents;
  }
}
