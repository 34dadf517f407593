/** The concentric-rings component (`MultiArcIndicator`). Its state is one
    record per layer (`layersState`); every callback copies the array and
    replaces records, which the model does by reassigning a sequence field.
    Each layer has its own rotation interval and its own redistribution
    interval; one animation-frame callback advances all layers. */
module MultiArcIndicator {
  import opened Segments
  import opened Redistribution
  import opened Transition
  import opened Layout
  import Rotation

  /** One configured layer. */
  datatype ArcLayer = ArcLayer(segments: seq<Segment>, radius: real, arcWidth: real, rotation: real, rotationSpeed: real)

  /** One entry of `layersState`. */
  datatype LayerState = LayerState(currentSegments: seq<Segment>, targetSegments: seq<Segment>, rotation: real, transition: real)

  const Center: real := 50.0
  /** Redistribution intervals of successive layers are staggered by this much. */
  const LayerStagger: real := 500.0

  /** The three default layers: radii 30, 42 and 54, width 8, starting
      rotations 0°, 30° and 60°, speeds 1, 0.8 and 0.6 degrees per tick. */
  function DefaultLayers(): (layers: seq<ArcLayer>)
    ensures |layers| == 3
    ensures forall i :: 0 <= i < 3 ==>
      && |layers[i].segments| == 3 && TotalSpan(layers[i].segments) == FullCircle
      && !SumWarning(layers[i].segments)
      && layers[i].radius == 30.0 + 12.0 * i as real && layers[i].arcWidth == 8.0
  {
    [ ArcLayer(EvenRing("#0c4a6e", "#075985", "#0369a1"), 30.0, 8.0, 0.0, 1.0),
      ArcLayer(EvenRing("#0284c7", "#0ea5e9", "#38bdf8"), 42.0, 8.0, 30.0, 0.8),
      ArcLayer(EvenRing("#7dd3fc", "#bae6fd", "#e0f2fe"), 54.0, 8.0, 60.0, 0.6) ]
  }

  /** The per-layer invariant: same shape, progress in [0, 1], and a target
      whose angle sum is at least the displayed one's. */
  predicate LayerValid(l: LayerState)
  {
    Consistent(TransitionState(l.currentSegments, l.targetSegments, l.transition))
  }

  /** One layer's share of an animation frame: an idle layer is returned as it
      is, a running one takes one Step of the animator. */
  function AdvanceLayer(l: LayerState): (r: LayerState)
    requires |l.currentSegments| <= |l.targetSegments|
    ensures r.rotation == l.rotation && r.targetSegments == l.targetSegments
    ensures l.transition >= 1.0 ==> r == l
    ensures l.transition < 1.0 ==>
      var next := Step(TransitionState(l.currentSegments, l.targetSegments, l.transition));
      r.currentSegments == next.current && r.transition == next.progress
    ensures LayerValid(l) ==> LayerValid(r) && AngleSum(l.currentSegments) <= AngleSum(r.currentSegments)
  {
    if l.transition >= 1.0 then l
    else
      var tr := TransitionState(l.currentSegments, l.targetSegments, l.transition);
      var next := Step(tr);
      assert LayerValid(l) ==> Consistent(next) && AngleSum(l.currentSegments) <= AngleSum(next.current) by {
        if LayerValid(l) { StepKeepsConsistent(tr); }
      }
      if next.progress >= 1.0 then l.(currentSegments := l.targetSegments, transition := 1.0)
      else l.(currentSegments := next.current, transition := next.progress)
  }

  class MultiArcLoadingIndicator {
    const layers: seq<ArcLayer>
    const cornerRadius: real
    const changeInterval: real
    const maxAngleChange: real

    var layersState: seq<LayerState>

    /** The period of layer `layerIndex`'s redistribution interval. */
    function LayerChangePeriod(layerIndex: nat): real
      reads this
    {
      ChangePeriod(changeInterval, LayerStagger, layerIndex)
    }

    ghost predicate Valid()
      reads this
    {
      |layersState| == |layers| && forall i :: 0 <= i < |layersState| ==> LayerValid(layersState[i])
    }

    /** Every displayed and every target angle of every layer is at least 30°. */
    ghost predicate Floored()
      reads this
    {
      forall i :: 0 <= i < |layersState| ==>
        AllAtLeast(layersState[i].currentSegments, MinSegmentAngle)
        && AllAtLeast(layersState[i].targetSegments, MinSegmentAngle)
    }

    /** Mounting: every layer idle, with both rings equal to its configured
        segments and its configured starting rotation. */
    constructor(layers: seq<ArcLayer>, cornerRadius: real, changeInterval: real, maxAngleChange: real)
      ensures Valid()
      ensures this.layers == layers && this.cornerRadius == cornerRadius
      ensures this.changeInterval == changeInterval && this.maxAngleChange == maxAngleChange
      ensures |layersState| == |layers|
      ensures forall i :: 0 <= i < |layers| ==>
        layersState[i] == LayerState(layers[i].segments, layers[i].segments, layers[i].rotation, 1.0)
    {
      this.layers := layers;
      this.cornerRadius := cornerRadius;
      this.changeInterval := changeInterval;
      this.maxAngleChange := maxAngleChange;
      layersState := seq(|layers|, i requires 0 <= i < |layers| =>
        LayerState(layers[i].segments, layers[i].segments, layers[i].rotation, 1.0));
    }

    /** Layer `index`'s 10 ms interval: only that layer's rotation moves, by
        its configured speed, modulo 360. */
    method RotationTick(index: nat)
      requires Valid() && index < |layers|
      modifies this`layersState
      ensures Valid()
      ensures layersState == old(layersState)[index := old(layersState)[index].(
        rotation := Rotation.Tick(old(layersState)[index].rotation, layers[index].rotationSpeed))]
      ensures old(Floored()) ==> Floored()
    {
      var l := layersState[index];
      layersState := layersState[index := l.(rotation := Rotation.Tick(l.rotation, layers[index].rotationSpeed))];
    }

    /** Layer `layerIndex`'s redistribution interval: that layer gets a target
        computed from its displayed segments and restarts its transition; its
        displayed segments, its rotation and every other layer are untouched.
        A layer of fewer than three segments makes the source throw: nothing
        changes and `ok` is false. */
    method ChangeLayerAngles(layerIndex: nat, r1: real, r2: real) returns (ok: bool)
      requires Valid() && layerIndex < |layers|
      requires 0.0 <= r1 < 1.0 && 0.0 <= r2 < 1.0
      modifies this`layersState
      ensures Valid()
      ensures ok <==> |old(layersState)[layerIndex].currentSegments| >= 3
      ensures ok ==>
        var l := old(layersState)[layerIndex];
        layersState == old(layersState)[layerIndex := l.(
          targetSegments := NextTarget(l.currentSegments, maxAngleChange, r1, r2).value,
          transition := 0.0)]
      ensures !ok ==> layersState == old(layersState)
      ensures old(Floored()) ==> Floored()
    {
      var l := layersState[layerIndex];
      var next := NextTarget(l.currentSegments, maxAngleChange, r1, r2);
      if next.Err? {
        return false;
      }
      TargetNeverShrinksRing(l.currentSegments, maxAngleChange, r1, r2);
      if Floored() {
        TargetKeepsFloor(l.currentSegments, maxAngleChange, r1, r2);
      }
      layersState := layersState[layerIndex := l.(targetSegments := next.value, transition := 0.0)];
      ok := true;
    }

    /** The animation-frame callback, requested only while some layer is
        still transitioning: every layer takes its share of the frame. */
    method TransitionFrame() returns (requested: bool)
      requires Valid()
      modifies this`layersState
      ensures Valid()
      ensures requested <==> exists i :: 0 <= i < |old(layersState)| && old(layersState)[i].transition < 1.0
      ensures |layersState| == |old(layersState)|
      ensures forall i :: 0 <= i < |layersState| ==> layersState[i] == AdvanceLayer(old(layersState)[i])
      ensures forall i :: 0 <= i < |layersState| ==>
        AngleSum(old(layersState)[i].currentSegments) <= AngleSum(layersState[i].currentSegments)
      ensures old(Floored()) ==> Floored()
    {
      requested := exists i :: 0 <= i < |layersState| && layersState[i].transition < 1.0;
      if !requested {
        return;
      }
      ghost var wasFloored := Floored();
      var before := layersState;
      layersState := seq(|before|, i requires 0 <= i < |before| && LayerValid(before[i]) => AdvanceLayer(before[i]));
      forall i | 0 <= i < |before| && wasFloored
        ensures AllAtLeast(layersState[i].currentSegments, MinSegmentAngle)
      {
        if before[i].transition < 1.0 {
          StepKeepsFloor(TransitionState(before[i].currentSegments, before[i].targetSegments, before[i].transition), MinSegmentAngle);
        }
      }
    }

    /** What one render draws for one layer: its rotation and one wedge per
        displayed segment on a band of the layer's width centred on its radius. */
    method Render(layerIndex: nat) returns (groupRotation: real, arcs: seq<Wedge>)
      requires Valid() && layerIndex < |layers|
      ensures groupRotation == layersState[layerIndex].rotation
      ensures |arcs| == |layersState[layerIndex].currentSegments|
      ensures forall i :: 0 <= i < |arcs| ==>
        && arcs[i].startAngle == StartAngle(layersState[layerIndex].currentSegments, i)
        && arcs[i].arcAngle == layersState[layerIndex].currentSegments[i].angle
        && arcs[i].outerRadius - arcs[i].innerRadius == layers[layerIndex].arcWidth
        && (arcs[i].outerRadius + arcs[i].innerRadius) / 2.0 == layers[layerIndex].radius
        && arcs[i].color == layersState[layerIndex].currentSegments[i].color
        && (arcs[i].largeArcFlag == 1 <==> layersState[layerIndex].currentSegments[i].angle > 180.0)
    {
      var layer := layers[layerIndex];
      var radii := BandRadii(layer.radius, layer.arcWidth);
      groupRotation := layersState[layerIndex].rotation;
      arcs := RenderArcs(layersState[layerIndex].currentSegments, Center, Center, radii.0, radii.1, cornerRadius);
    }
  }
}
