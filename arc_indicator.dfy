/** The single-ring component (`ArcLoadingIndicator`). Its four pieces of
    React state become fields; the 10 ms rotation interval, the redistribution
    interval and the animation-frame callback become the methods RotationTick,
    ChangeAngles and TransitionFrame. */
module ArcIndicator {
  import opened Segments
  import opened Redistribution
  import opened Transition
  import opened Layout
  import Rotation

  /** The default ring: blue, green and orange 110° segments with 10° gaps. */
  function DefaultSegments(): (ss: seq<Segment>)
    ensures |ss| == 3 && TotalSpan(ss) == FullCircle && AllAtLeast(ss, MinSegmentAngle)
  {
    EvenRing("#3b82f6", "#10b981", "#f97316")
  }

  const Center: real := 50.0
  const Radius: real := 42.0
  const ArcWidth: real := 14.0

  class ArcLoadingIndicator {
    /** `segments.length` of the configuration, which the redistribution reads. */
    const segmentCount: nat
    const cornerRadius: real
    const speed: real
    const changeInterval: real
    const maxAngleChange: real

    var rotation: real
    var currentSegments: seq<Segment>
    var targetSegments: seq<Segment>
    var transition: real

    /** The state every callback preserves: the ring keeps the configured
        length, colours and gaps, progress stays in [0, 1], and the target's
        angle sum is never below the displayed ring's. */
    ghost predicate Valid()
      reads this
    {
      && |currentSegments| == segmentCount
      && Consistent(TransitionState(currentSegments, targetSegments, transition))
    }

    /** Every displayed and every target angle is at least 30°. */
    ghost predicate Floored()
      reads this
    {
      AllAtLeast(currentSegments, MinSegmentAngle) && AllAtLeast(targetSegments, MinSegmentAngle)
    }

    /** Mounting: not rotated, idle, both rings equal to the configuration. */
    constructor(segments: seq<Segment>, cornerRadius: real, speed: real, changeInterval: real, maxAngleChange: real)
      ensures Valid()
      ensures segmentCount == |segments| && this.cornerRadius == cornerRadius && this.speed == speed
      ensures this.changeInterval == changeInterval && this.maxAngleChange == maxAngleChange
      ensures rotation == 0.0 && transition == 1.0
      ensures currentSegments == segments && targetSegments == segments
    {
      segmentCount := |segments|;
      this.cornerRadius := cornerRadius;
      this.speed := speed;
      this.changeInterval := changeInterval;
      this.maxAngleChange := maxAngleChange;
      rotation := 0.0;
      currentSegments := segments;
      targetSegments := segments;
      transition := 1.0;
    }

    /** The 10 ms interval: `rotation := (rotation + speed) % 360`; nothing else changes. */
    method RotationTick()
      requires Valid()
      modifies this`rotation
      ensures Valid()
      ensures rotation == Rotation.Tick(old(rotation), speed)
      ensures 0.0 <= old(rotation) < 360.0 && 0.0 <= speed ==> 0.0 <= rotation < 360.0
    {
      rotation := Rotation.Tick(rotation, speed);
    }

    /** The redistribution interval: a new target computed from the ring as it
        is displayed now (mid-transition, the interpolated angles), and the
        transition restarted. On a ring of fewer than three segments the
        source throws and nothing changes (`ok` is false). */
    method ChangeAngles(r1: real, r2: real) returns (ok: bool)
      requires Valid()
      requires 0.0 <= r1 < 1.0 && 0.0 <= r2 < 1.0
      modifies this`targetSegments, this`transition
      ensures Valid()
      ensures ok <==> segmentCount >= 3
      ensures ok ==> targetSegments == NextTarget(currentSegments, maxAngleChange, r1, r2).value && transition == 0.0
      ensures !ok ==> targetSegments == old(targetSegments) && transition == old(transition)
      ensures old(Floored()) ==> Floored()
    {
      var next := NextTarget(currentSegments, maxAngleChange, r1, r2);
      if next.Err? {
        return false;
      }
      TargetNeverShrinksRing(currentSegments, maxAngleChange, r1, r2);
      if Floored() {
        TargetKeepsFloor(currentSegments, maxAngleChange, r1, r2);
      }
      targetSegments := next.value;
      transition := 0.0;
      ok := true;
    }

    /** The animation-frame callback, requested only while a transition is
        running: one Step of the animator. The displayed angle sum never
        decreases. */
    method TransitionFrame() returns (requested: bool)
      requires Valid()
      modifies this`currentSegments, this`transition
      ensures Valid()
      ensures requested <==> old(transition) < 1.0
      ensures
        var next := Step(TransitionState(old(currentSegments), targetSegments, old(transition)));
        currentSegments == next.current && transition == next.progress
      ensures AngleSum(old(currentSegments)) <= AngleSum(currentSegments)
      ensures old(Floored()) ==> Floored()
    {
      requested := transition < 1.0;
      if !requested {
        return;
      }
      var tr := TransitionState(currentSegments, targetSegments, transition);
      var next := Step(tr);
      StepKeepsConsistent(tr);
      if Floored() {
        StepKeepsFloor(tr, MinSegmentAngle);
      }
      currentSegments := next.current;
      transition := next.progress;
    }

    /** What one render draws: the group rotation and one wedge per displayed
        segment on the band 42 ± 7 around the centre (50, 50). */
    method Render() returns (groupRotation: real, arcs: seq<Wedge>)
      requires Valid()
      ensures groupRotation == rotation
      ensures |arcs| == segmentCount
      ensures forall i :: 0 <= i < |arcs| ==>
        && arcs[i].startAngle == StartAngle(currentSegments, i)
        && arcs[i].arcAngle == currentSegments[i].angle
        && arcs[i].color == currentSegments[i].color
        && arcs[i].innerRadius == 35.0 && arcs[i].outerRadius == 49.0
        && (arcs[i].largeArcFlag == 1 <==> currentSegments[i].angle > 180.0)
    {
      var radii := BandRadii(Radius, ArcWidth);
      groupRotation := rotation;
      arcs := RenderArcs(currentSegments, Center, Center, radii.0, radii.1, cornerRadius);
    }
  }
}
