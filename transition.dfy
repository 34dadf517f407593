/** The transition animator: once per animation frame the progress advances by
    1/120 (a 2000 ms animation at a nominal 60 frames per second) and every
    angle moves from its current value towards its target along the eased curve. */
module Transition {
  import opened Segments
  import opened Easing

  const AnimationDuration: real := 2000.0
  const FrameRate: real := 60.0
  /** `1 / (animationDuration / (1000 / frameRate))`. */
  const FrameIncrement: real := 1.0 / (AnimationDuration / (1000.0 / FrameRate))

  /** The animator's state: `progress >= 1` means idle. */
  datatype TransitionState = TransitionState(current: seq<Segment>, target: seq<Segment>, progress: real)

  predicate Between(x: real, a: real, b: real)
  {
    Min(a, b) <= x <= Max(a, b)
  }

  lemma ProductNonNegative(a: real, b: real)
    requires 0.0 <= a && 0.0 <= b
    ensures 0.0 <= a * b
  {
  }

  lemma ScaledBetween(c: real, t: real, e: real)
    requires 0.0 <= e <= 1.0
    ensures Between(Lerp(c, t, e), c, t)
  {
    var d := t - c;
    if d >= 0.0 {
      ProductNonNegative(d, e);
      ProductNonNegative(d, 1.0 - e);
      assert d - d * e == d * (1.0 - e);
    } else {
      ProductNonNegative(-d, e);
      ProductNonNegative(-d, 1.0 - e);
      assert d * e - d == (-d) * (1.0 - e);
      assert d * e == -((-d) * e);
    }
  }

  /** `current + (target − current) · e`. */
  function Lerp(c: real, t: real, e: real): real
  {
    c + (t - c) * e
  }

  /** The interpolated ring: each segment keeps its colour and gap and takes
      the angle `current + (target − current) · e`. */
  function Interpolate(current: seq<Segment>, target: seq<Segment>, e: real): (r: seq<Segment>)
    requires |current| <= |target|
    ensures SameShape(current, r)
    ensures 0.0 <= e <= 1.0 ==> forall i :: 0 <= i < |r| ==> Between(r[i].angle, current[i].angle, target[i].angle)
    ensures e == 0.0 ==> r == current
    ensures e == 1.0 ==> forall i :: 0 <= i < |r| ==> r[i].angle == target[i].angle
  {
    var r := seq(|current|, i requires 0 <= i < |current| =>
      current[i].(angle := Lerp(current[i].angle, target[i].angle, e)));
    assert 0.0 <= e <= 1.0 ==> forall i :: 0 <= i < |r| ==> Between(r[i].angle, current[i].angle, target[i].angle) by {
      if 0.0 <= e <= 1.0 {
        forall i | 0 <= i < |r| ensures Between(r[i].angle, current[i].angle, target[i].angle) {
          ScaledBetween(current[i].angle, target[i].angle, e);
        }
      }
    }
    r
  }

  /** Interpolating a ring is interpolating its first segment and then the rest. */
  lemma InterpolateTail(current: seq<Segment>, target: seq<Segment>, e: real)
    requires |current| == |target| && current != []
    ensures Interpolate(current, target, e)[0].angle == Lerp(current[0].angle, target[0].angle, e)
    ensures Interpolate(current, target, e)[1..] == Interpolate(current[1..], target[1..], e)
  {
    var whole, rest := Interpolate(current, target, e), Interpolate(current[1..], target[1..], e);
    assert |whole[1..]| == |rest|;
    forall i | 0 <= i < |rest| ensures whole[1..][i] == rest[i] {
      assert whole[i + 1] == current[i + 1].(angle := Lerp(current[i + 1].angle, target[i + 1].angle, e));
    }
  }

  lemma LerpAdditive(c0: real, t0: real, cs: real, ts: real, e: real)
    ensures Lerp(c0, t0, e) + Lerp(cs, ts, e) == Lerp(c0 + cs, t0 + ts, e)
  {
  }

  /** Interpolation is linear in the angle sum as well. */
  lemma {:induction false} InterpolateAngleSum(current: seq<Segment>, target: seq<Segment>, e: real)
    requires |current| == |target|
    ensures AngleSum(Interpolate(current, target, e)) == Lerp(AngleSum(current), AngleSum(target), e)
  {
    if current != [] {
      InterpolateTail(current, target, e);
      InterpolateAngleSum(current[1..], target[1..], e);
      LerpAdditive(current[0].angle, target[0].angle, AngleSum(current[1..]), AngleSum(target[1..]), e);
    }
  }

  /** One animation frame. An idle state is left alone; otherwise the
      progress becomes `min(1, progress + 1/120)`, and the ring snaps to the
      target exactly when it reaches 1. */
  function Step(tr: TransitionState): (r: TransitionState)
    requires |tr.current| <= |tr.target|
    ensures r.target == tr.target && |r.current| <= |r.target|
    ensures tr.progress >= 1.0 ==> r == tr
    ensures tr.progress < 1.0 ==> r.progress == Min(1.0, tr.progress + 1.0 / 120.0) && r.progress > tr.progress
    ensures tr.progress <= 1.0 ==> r.progress <= 1.0
    ensures tr.progress < 1.0 && r.progress >= 1.0 ==> r.current == tr.target
    ensures r.progress < 1.0 ==> SameShape(tr.current, r.current)
    ensures 0.0 <= tr.progress && r.progress < 1.0 ==>
      forall i :: 0 <= i < |r.current| ==> Between(r.current[i].angle, tr.current[i].angle, tr.target[i].angle)
  {
    if tr.progress >= 1.0 then tr
    else
      var p := Min(1.0, tr.progress + FrameIncrement);
      if p >= 1.0 then TransitionState(tr.target, tr.target, p)
      else TransitionState(Interpolate(tr.current, tr.target, Ease(p)), tr.target, p)
  }

  /** `k` consecutive animation frames. */
  function Run(tr: TransitionState, k: nat): (r: TransitionState)
    requires |tr.current| <= |tr.target|
    ensures r.target == tr.target && |r.current| <= |r.target|
  {
    if k == 0 then tr else Step(Run(tr, k - 1))
  }

  /** Started from progress 0, the k-th frame (k ≤ 120) reaches progress k/120. */
  lemma {:induction false} RunProgress(current: seq<Segment>, target: seq<Segment>, k: nat)
    requires |current| == |target| && k <= 120
    ensures Run(TransitionState(current, target, 0.0), k).progress == k as real / 120.0
  {
    if k > 0 {
      RunProgress(current, target, k - 1);
    }
  }

  /** After exactly 120 frames the transition is over: the ring equals the target
      exactly and the animator is idle; further frames change nothing. */
  lemma {:induction false} RunReachesTarget(current: seq<Segment>, target: seq<Segment>, k: nat)
    requires |current| == |target| && k >= 120
    ensures Run(TransitionState(current, target, 0.0), k) == TransitionState(target, target, 1.0)
  {
    if k == 120 {
      RunProgress(current, target, 119);
    } else {
      RunReachesTarget(current, target, k - 1);
    }
  }

  /** Neither end of a frame drops any angle below a floor both ends respect. */
  lemma StepKeepsFloor(tr: TransitionState, lo: real)
    requires |tr.current| <= |tr.target| && 0.0 <= tr.progress
    requires AllAtLeast(tr.current, lo) && AllAtLeast(tr.target, lo)
    ensures AllAtLeast(Step(tr).current, lo)
  {
    var r := Step(tr);
    if r.progress < 1.0 {
      forall i | 0 <= i < |r.current| ensures r.current[i].angle >= lo {
        assert Between(r.current[i].angle, tr.current[i].angle, tr.target[i].angle);
      }
    }
  }

  /** A frame moves the ring's angle sum towards the target's and never past it. */
  lemma StepAngleSum(tr: TransitionState)
    requires |tr.current| == |tr.target| && 0.0 <= tr.progress
    requires AngleSum(tr.current) <= AngleSum(tr.target)
    ensures AngleSum(tr.current) <= AngleSum(Step(tr).current) <= AngleSum(tr.target)
  {
    if tr.progress < 1.0 {
      var p := Min(1.0, tr.progress + FrameIncrement);
      if p < 1.0 {
        assert 0.0 <= p < 1.0;
        var e := Ease(p);
        assert 0.0 <= e <= 1.0;
        assert Step(tr).current == Interpolate(tr.current, tr.target, e);
        InterpolateAngleSum(tr.current, tr.target, e);
        ScaledBetween(AngleSum(tr.current), AngleSum(tr.target), e);
      }
    }
  }

  /** The animator's invariant: current and target have the same shape, the
      progress lies in [0, 1], and the target's angle sum is at least the current one's. */
  predicate Consistent(tr: TransitionState)
  {
    && SameShape(tr.current, tr.target)
    && 0.0 <= tr.progress <= 1.0
    && AngleSum(tr.current) <= AngleSum(tr.target)
  }

  /** Every frame keeps the invariant and never lowers the current angle sum. */
  lemma StepKeepsConsistent(tr: TransitionState)
    requires Consistent(tr)
    ensures Consistent(Step(tr))
    ensures AngleSum(tr.current) <= AngleSum(Step(tr).current)
  {
    var next := Step(tr);
    StepAngleSum(tr);
    if next.progress < 1.0 {
      SameShapeTransitive(next.current, tr.current, tr.target);
    }
  }
}
