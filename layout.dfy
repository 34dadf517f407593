/** Layout of one ring (`renderArcs`): each segment becomes a wedge whose start
    angle is the running sum of the spans before it. The wedge's path geometry
    is not modelled; a wedge records the arguments the path builder receives and
    the one decision it takes, the large-arc flag. */
module Layout {
  import opened Segments

  /** The arguments of one `createRoundedArc` call, its large-arc flag and fill colour. */
  datatype Wedge = Wedge(
    cx: real, cy: real,
    innerRadius: real, outerRadius: real,
    startAngle: real, arcAngle: real,
    cornerRadius: real,
    largeArcFlag: int,
    color: Color)

  /** The start angle of segment i: the sum of angle + gap over the segments before it. */
  function StartAngle(ss: seq<Segment>, i: nat): real
    requires i <= |ss|
  {
    if i == 0 then 0.0 else StartAngle(ss, i - 1) + Span(ss[i - 1])
  }

  /** SVG's large-arc flag: 1 exactly for spans above 180°. */
  function LargeArcFlag(arcAngle: real): (flag: int)
    ensures flag == 0 || flag == 1
    ensures flag == 1 <==> arcAngle > 180.0
  {
    if arcAngle > 180.0 then 1 else 0
  }

  /** The wedges of a ring, in segment order, built by one pass that carries
      the running start angle. */
  method RenderArcs(ss: seq<Segment>, cx: real, cy: real, innerRadius: real, outerRadius: real, cornerRadius: real)
    returns (arcs: seq<Wedge>)
    ensures |arcs| == |ss|
    ensures forall i :: 0 <= i < |ss| ==>
      arcs[i] == Wedge(cx, cy, innerRadius, outerRadius, StartAngle(ss, i), ss[i].angle, cornerRadius,
                       LargeArcFlag(ss[i].angle), ss[i].color)
  {
    arcs := [];
    var startAngle := 0.0;
    var i := 0;
    while i < |ss|
      invariant 0 <= i <= |ss| && |arcs| == i
      invariant startAngle == StartAngle(ss, i)
      invariant forall j :: 0 <= j < i ==>
        arcs[j] == Wedge(cx, cy, innerRadius, outerRadius, StartAngle(ss, j), ss[j].angle, cornerRadius,
                         LargeArcFlag(ss[j].angle), ss[j].color)
    {
      var angle, color, gap := ss[i].angle, ss[i].color, GapOf(ss[i]);
      arcs := arcs + [Wedge(cx, cy, innerRadius, outerRadius, startAngle, angle, cornerRadius, LargeArcFlag(angle), color)];
      startAngle := startAngle + angle + gap;
      i := i + 1;
    }
  }

  /** The running start angle after all segments is the ring's total span. */
  lemma {:induction false} StartAngleIsPrefixSpan(ss: seq<Segment>, i: nat)
    requires i <= |ss|
    ensures StartAngle(ss, i) == TotalSpan(ss[..i])
  {
    if i > 0 {
      StartAngleIsPrefixSpan(ss, i - 1);
      SpanAppend(ss[..i - 1], ss[i - 1]);
      assert ss[..i] == ss[..i - 1] + [ss[i - 1]];
    }
  }

  lemma {:induction false} SpanAppend(ss: seq<Segment>, s: Segment)
    ensures TotalSpan(ss + [s]) == TotalSpan(ss) + Span(s)
  {
    if ss == [] {
      assert [s][1..] == [];
    } else {
      assert (ss + [s])[1..] == ss[1..] + [s];
      SpanAppend(ss[1..], s);
    }
  }

  /** With non-negative angles and gaps, wedges never overlap: each starts no
      earlier than the previous one ends. */
  lemma {:induction false} StartAngleMonotone(ss: seq<Segment>, i: nat, j: nat)
    requires i <= j <= |ss|
    requires forall k :: 0 <= k < |ss| ==> ss[k].angle >= 0.0 && GapOf(ss[k]) >= 0.0
    ensures StartAngle(ss, i) <= StartAngle(ss, j)
    ensures i < j ==> StartAngle(ss, i) + ss[i].angle <= StartAngle(ss, j)
  {
    if i < j {
      StartAngleMonotone(ss, i, j - 1);
    }
  }

  /** When the ±1° check is silent, the last wedge and its gap end within one
      degree of a full turn, so the ring closes. */
  lemma RingCloses(ss: seq<Segment>)
    requires |ss| > 0 && !SumWarning(ss)
    ensures
      var last := |ss| - 1;
      FullCircle - 1.0 <= StartAngle(ss, last) + ss[last].angle + GapOf(ss[last]) <= FullCircle + 1.0
  {
    StartAngleIsPrefixSpan(ss, |ss|);
    assert ss[..|ss|] == ss;
  }

  /** `radius ± arcWidth / 2`: a band of the given width centred on the radius. */
  function BandRadii(radius: real, arcWidth: real): (radii: (real, real))
    ensures radii.1 - radii.0 == arcWidth
    ensures (radii.0 + radii.1) / 2.0 == radius
  {
    (radius - arcWidth / 2.0, radius + arcWidth / 2.0)
  }
}
