/** The running-maximum scan that the player directory and both nearest-player
    queries share: start with nothing, take an entry whose score is strictly
    greater than the best so far (and above zero), keep the first on ties. */
module Argmax {
  import opened Outcomes

  /** i holds the largest score, that score is positive, and no earlier
      entry reaches it. */
  predicate IsFirstMax(s: seq<int>, i: nat) {
    i < |s| && s[i] > 0 &&
    (forall j :: 0 <= j < |s| ==> s[j] <= s[i]) &&
    (forall j :: 0 <= j < i ==> s[j] < s[i])
  }

  /** The index such a scan ends with, or None when no score is positive. */
  function FirstMax(s: seq<int>): (r: Option<nat>)
    ensures r.None? <==> forall j :: 0 <= j < |s| ==> s[j] <= 0
    ensures r.Some? ==> IsFirstMax(s, r.value)
  {
    if |s| == 0 then None
    else
      var best := FirstMax(s[..|s| - 1]);
      if s[|s| - 1] > 0 && (best.None? || s[|s| - 1] > s[best.value]) then Some(|s| - 1) else best
  }

  /** One more step of the scan: the new entry takes over exactly when it is
      positive and beats the best so far. */
  lemma FirstMaxExtend(s: seq<int>, i: nat)
    requires i < |s|
    ensures var prior := FirstMax(s[..i]);
            FirstMax(s[..i + 1]) ==
              if s[i] > 0 && (prior.None? || s[i] > s[prior.value]) then Some(i) else prior
  {
    assert s[..i + 1][..i] == s[..i];
  }

  /** At most one index is the first maximum. */
  lemma FirstMaxUnique(s: seq<int>, i: nat, k: nat)
    requires IsFirstMax(s, i) && IsFirstMax(s, k)
    ensures i == k
  {
  }

  /** Raising every positive score by the same c >= 0, while no other score
      climbs above c, keeps the chosen index. */
  lemma FirstMaxShift(s: seq<int>, t: seq<int>, c: int)
    requires |s| == |t| && c >= 0
    requires FirstMax(s).Some?
    requires forall j :: 0 <= j < |s| && s[j] > 0 ==> t[j] == s[j] + c
    requires forall j :: 0 <= j < |s| && s[j] <= 0 ==> t[j] <= c
    ensures FirstMax(t) == FirstMax(s)
  {
    var i := FirstMax(s).value;
    assert IsFirstMax(t, i);
    FirstMaxUnique(t, i, FirstMax(t).value);
  }
}
