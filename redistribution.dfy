/** The redistribution step (`changeAngles` / `changeLayerAngles`): one random
    segment is held fixed, and of the first two remaining segments the smaller
    grows and the larger shrinks. The two `Math.random()` draws are the
    parameters r1 (which segment is fixed) and r2 (how large the change is). */
module Redistribution {
  import opened Segments

  /** The indices one redistribution round works with. */
  datatype Choice = Choice(fixed: nat, grow: nat, shrink: nat)

  /** The smallest change a round ever makes to the growing segment. */
  const MinAngleChange: real := 10.0

  /** `Math.floor(Math.random() * n)`: a uniformly chosen index. */
  function FixedIndex(n: nat, r: real): (k: int)
    requires 0.0 <= r < 1.0
    ensures n > 0 ==> 0 <= k < n
    ensures n == 0 ==> k == 0
  {
    if n > 0 then
      assert r * n as real < n as real by { assert (n as real) * (1.0 - r) > 0.0; }
      assert 0.0 <= r * n as real;
      (r * n as real).Floor
    else
      (r * 0.0).Floor
  }

  /** `Array.from({length: n}, (_, i) => i).filter(i => i !== fixed)`. */
  function Remaining(n: nat, fixed: int): (r: seq<nat>)
    ensures forall i :: 0 <= i < |r| ==> r[i] < n && r[i] != fixed
    ensures forall i, j :: 0 <= i < j < |r| ==> r[i] < r[j]
    ensures forall k :: 0 <= k < n && k != fixed ==> k in r
    ensures |r| == if 0 <= fixed < n then n - 1 else n
  {
    if n == 0 then [] else Remaining(n - 1, fixed) + (if n - 1 == fixed then [] else [n - 1])
  }

  /** Picks the fixed, growing and shrinking segments. The source reads
      `otherIndices[1]` unconditionally, so a ring of fewer than three
      segments makes it throw. */
  function Choose(s: seq<Segment>, r1: real): (r: Result<Choice>)
    requires 0.0 <= r1 < 1.0
    ensures r.Ok? <==> |s| >= 3
    ensures r.Ok? ==>
      var c := r.value;
      && c.fixed == FixedIndex(|s|, r1) && c.fixed < |s|
      && c.grow < |s| && c.shrink < |s|
      && c.grow != c.shrink && c.grow != c.fixed && c.shrink != c.fixed
      // the pair is the first two indices other than the fixed one
      && {c.grow, c.shrink} == (if c.fixed <= 2 then {0, 1, 2} - {c.fixed} else {0, 1})
      // the smaller segment grows; on a tie the earlier one grows
      && s[c.grow].angle <= s[c.shrink].angle
      && (s[c.grow].angle == s[c.shrink].angle ==> c.grow < c.shrink)
  {
    var fixed := FixedIndex(|s|, r1);
    if |s| < 3 then Err("TypeError: otherIndices[1] is undefined")
    else
      var others := Remaining(|s|, fixed);
      assert 0 in others || fixed == 0;
      assert 1 in others || fixed == 1;
      assert 2 in others || fixed == 2;
      var o0, o1 := others[0], others[1];
      assert o0 == (if fixed == 0 then 1 else 0);
      assert o1 == (if fixed <= 1 then 2 else 1);
      var smaller := if s[o0].angle <= s[o1].angle then o0 else o1;
      var larger := if s[o0].angle > s[o1].angle then o0 else o1;
      Ok(Choice(fixed, smaller, larger))
  }

  /** `changeInterval + layerIndex * stagger`: each layer's redistribution
      period in the layered components. */
  function ChangePeriod(changeInterval: real, stagger: real, layerIndex: nat): (period: real)
    requires stagger > 0.0
    ensures period >= changeInterval
    ensures layerIndex > 0 ==> period > changeInterval
  {
    changeInterval + layerIndex as real * stagger
  }

  /** Later layers re-target strictly less often. */
  lemma ChangePeriodsStaggered(changeInterval: real, stagger: real, i: nat, j: nat)
    requires stagger > 0.0 && i < j
    ensures ChangePeriod(changeInterval, stagger, i) < ChangePeriod(changeInterval, stagger, j)
  {
  }

  /** `Math.max(0, angle - 30)`: how far the shrinking segment may shrink. */
  function MaxDecrease(shrinkAngle: real): (d: real)
    ensures d >= 0.0 && shrinkAngle - d >= Min(shrinkAngle, MinSegmentAngle)
    ensures shrinkAngle >= MinSegmentAngle ==> shrinkAngle - d == MinSegmentAngle
  {
    Max(0.0, shrinkAngle - MinSegmentAngle)
  }

  lemma ScaleBelow(r: real, x: real)
    requires 0.0 <= r < 1.0
    ensures x >= 0.0 ==> 0.0 <= r * x <= x
    ensures x < 0.0 ==> r * x <= 0.0
  {
    if x >= 0.0 {
      assert x - r * x == x * (1.0 - r);
    }
  }

  /** `angleChange = max(10, floor(r · min(maxDecrease, 0.7 · growAngle, maxAngleChange)))`:
      a whole number of degrees, at least 10, and within every one of the
      three limits that are themselves at least 10. */
  function AngleChange(growAngle: real, shrinkAngle: real, maxAngleChange: real, r: real): (change: real)
    requires 0.0 <= r < 1.0
    ensures change >= MinAngleChange
    ensures change.Floor as real == change
    ensures change <= Max(MinAngleChange, MaxDecrease(shrinkAngle))
    ensures change <= Max(MinAngleChange, growAngle * 0.7)
    ensures change <= Max(MinAngleChange, maxAngleChange)
  {
    var safeLimit := Min(Min(MaxDecrease(shrinkAngle), growAngle * 0.7), maxAngleChange);
    assert safeLimit <= MaxDecrease(shrinkAngle) && safeLimit <= growAngle * 0.7 && safeLimit <= maxAngleChange;
    ScaleBelow(r, safeLimit);
    var scaled := (r * safeLimit).Floor as real;
    assert scaled <= r * safeLimit;
    assert scaled <= MinAngleChange || scaled <= safeLimit;
    Max(MinAngleChange, scaled)
  }

  /** The new target ring: the growing segment gains the change, the shrinking
      one loses it but never drops below 30°, and everything else is copied. */
  function NextTarget(s: seq<Segment>, maxAngleChange: real, r1: real, r2: real): (r: Result<seq<Segment>>)
    requires 0.0 <= r1 < 1.0 && 0.0 <= r2 < 1.0
    ensures r.Ok? <==> |s| >= 3
    ensures r.Ok? ==> SameShape(s, r.value)
    ensures r.Ok? ==>
      var c := Choose(s, r1).value;
      var change := AngleChange(s[c.grow].angle, s[c.shrink].angle, maxAngleChange, r2);
      && r.value[c.grow].angle == s[c.grow].angle + change
      && r.value[c.shrink].angle >= MinSegmentAngle
      && (s[c.shrink].angle >= MinSegmentAngle + MinAngleChange ==> r.value[c.shrink].angle == s[c.shrink].angle - change)
      && (s[c.shrink].angle < MinSegmentAngle + MinAngleChange ==> r.value[c.shrink].angle == MinSegmentAngle)
      && forall i :: 0 <= i < |s| && i != c.grow && i != c.shrink ==> r.value[i] == s[i]
  {
    match Choose(s, r1)
    case Err(e) => Err(e)
    case Ok(c) =>
      var change := AngleChange(s[c.grow].angle, s[c.shrink].angle, maxAngleChange, r2);
      var actualDecrease := Min(change, MaxDecrease(s[c.shrink].angle));
      Ok(seq(|s|, i requires 0 <= i < |s| =>
        if i == c.grow then s[i].(angle := s[i].angle + change)
        else if i == c.shrink then s[i].(angle := Max(MinSegmentAngle, s[i].angle - actualDecrease))
        else s[i]))
  }

  /** A round can only add to the ring's angle sum: exactly nothing when the
      shrinking segment had at least 40°, and 40 minus its angle otherwise. */
  lemma TargetAngleSum(s: seq<Segment>, maxAngleChange: real, r1: real, r2: real)
    requires 0.0 <= r1 < 1.0 && 0.0 <= r2 < 1.0
    requires |s| >= 3
    ensures
      var c := Choose(s, r1).value;
      var d := s[c.shrink].angle;
      var t := NextTarget(s, maxAngleChange, r1, r2).value;
      && AngleSum(t) == AngleSum(s) + (if d >= 40.0 then 0.0 else 40.0 - d)
      && TotalSpan(t) == TotalSpan(s) + (if d >= 40.0 then 0.0 else 40.0 - d)
  {
    var c := Choose(s, r1).value;
    var t := NextTarget(s, maxAngleChange, r1, r2).value;
    var s1 := s[c.grow := s[c.grow].(angle := t[c.grow].angle)];
    var s2 := s1[c.shrink := s1[c.shrink].(angle := t[c.shrink].angle)];
    assert s2 == t;
    AngleSumUpdate(s, c.grow, t[c.grow].angle);
    AngleSumUpdate(s1, c.shrink, t[c.shrink].angle);
    SameShapeTotals(s, t);
  }

  /** Hence the total never decreases: the drift is never corrected by later rounds. */
  lemma TargetNeverShrinksRing(s: seq<Segment>, maxAngleChange: real, r1: real, r2: real)
    requires 0.0 <= r1 < 1.0 && 0.0 <= r2 < 1.0
    requires |s| >= 3
    ensures AngleSum(NextTarget(s, maxAngleChange, r1, r2).value) >= AngleSum(s)
    ensures TotalSpan(NextTarget(s, maxAngleChange, r1, r2).value) >= TotalSpan(s)
  {
    TargetAngleSum(s, maxAngleChange, r1, r2);
  }

  /** A ring whose segments are all at least 30° keeps that property. */
  lemma TargetKeepsFloor(s: seq<Segment>, maxAngleChange: real, r1: real, r2: real)
    requires 0.0 <= r1 < 1.0 && 0.0 <= r2 < 1.0
    requires |s| >= 3 && AllAtLeast(s, MinSegmentAngle)
    ensures AllAtLeast(NextTarget(s, maxAngleChange, r1, r2).value, MinSegmentAngle)
  {
    var c := Choose(s, r1).value;
    var t := NextTarget(s, maxAngleChange, r1, r2).value;
    forall i | 0 <= i < |t| ensures t[i].angle >= MinSegmentAngle {
      if i == c.grow {
        assert t[i].angle >= s[i].angle;
      }
    }
  }

  /** The default ring (three 110° segments, 10° gaps) with the default limit of
      40°: whatever the draws, one segment grows, one strictly shrinks, the
      third is unchanged, and the ring still tiles exactly 360°. */
  lemma DefaultRoundPreservesCircle(c0: Color, c1: Color, c2: Color, r1: real, r2: real)
    requires 0.0 <= r1 < 1.0 && 0.0 <= r2 < 1.0
    ensures
      var s := EvenRing(c0, c1, c2);
      var c := Choose(s, r1).value;
      var t := NextTarget(s, 40.0, r1, r2).value;
      && TotalSpan(t) == FullCircle && !SumWarning(t)
      && t[c.grow].angle > s[c.grow].angle
      && t[c.shrink].angle < s[c.shrink].angle
      && t[c.fixed] == s[c.fixed]
  {
    var s := EvenRing(c0, c1, c2);
    TargetAngleSum(s, 40.0, r1, r2);
  }

  /** A ring whose shrinking segment is below 40° drifts past the ±1° tolerance. */
  lemma DriftCanTriggerWarning()
    ensures
      var s := [Segment(35.0, "a", Some(20.0)), Segment(35.0, "b", Some(20.0)), Segment(230.0, "c", Some(20.0))];
      var t := NextTarget(s, 40.0, 0.9, 0.5);
      && !SumWarning(s) && t.Ok? && SumWarning(t.value)
  {
    var s := [Segment(35.0, "a", Some(20.0)), Segment(35.0, "b", Some(20.0)), Segment(230.0, "c", Some(20.0))];
    assert TotalSpan(s) == 360.0 by {
      assert s[1..][1..][1..] == [];
    }
    var c := Choose(s, 0.9).value;
    assert c.fixed == 2;
    TargetAngleSum(s, 40.0, 0.9, 0.5);
  }
}
