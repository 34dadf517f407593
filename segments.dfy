/** The data every ring component shares: a ring is an ordered sequence of
    segments, each a coloured wedge followed by an optional gap. Angles are in
    degrees and modelled as reals. */
module Segments {

  datatype Option<T> = None | Some(value: T)

  /** A computation that may fail the way the source throws at run time. */
  datatype Result<T> = Ok(value: T) | Err(reason: string)

  /** A CSS colour string, passed through to the renderer unchanged. */
  type Color = string

  /** One wedge of a ring: its span, its colour and the optional gap before the next wedge. */
  datatype Segment = Segment(angle: real, color: Color, gap: Option<real>)

  /** No redistribution may leave a segment narrower than this. */
  const MinSegmentAngle: real := 30.0

  const FullCircle: real := 360.0

  /** An absent gap counts as 0 degrees (`gap || 0` and the `gap = 0` default). */
  function GapOf(s: Segment): real
  {
    if s.gap.Some? then s.gap.value else 0.0
  }

  /** The angle a segment occupies on the ring, including its trailing gap. */
  function Span(s: Segment): real
  {
    s.angle + GapOf(s)
  }

  /** The sum of the segment angles alone, without gaps. */
  function AngleSum(ss: seq<Segment>): real
  {
    if ss == [] then 0.0 else ss[0].angle + AngleSum(ss[1..])
  }

  /** The sum of angle + gap over the ring: the quantity the ±1° check inspects. */
  function TotalSpan(ss: seq<Segment>): real
  {
    if ss == [] then 0.0 else Span(ss[0]) + TotalSpan(ss[1..])
  }

  /** The diagnostic condition: the ring no longer tiles the circle to within one degree. */
  predicate SumWarning(ss: seq<Segment>): (warn: bool)
    ensures warn <==> !(FullCircle - 1.0 <= TotalSpan(ss) <= FullCircle + 1.0)
  {
    var d := TotalSpan(ss) - FullCircle;
    d > 1.0 || d < -1.0
  }

  /** Two rings with the same number of segments, the same colours and the same gaps. */
  predicate SameShape(a: seq<Segment>, b: seq<Segment>)
  {
    |a| == |b| && forall i :: 0 <= i < |a| ==> a[i].color == b[i].color && a[i].gap == b[i].gap
  }

  lemma SameShapeTransitive(a: seq<Segment>, b: seq<Segment>, c: seq<Segment>)
    requires SameShape(a, b) && SameShape(b, c)
    ensures SameShape(a, c)
  {
  }

  predicate AllAtLeast(ss: seq<Segment>, lo: real)
  {
    forall i :: 0 <= i < |ss| ==> ss[i].angle >= lo
  }

  function Min(a: real, b: real): real { if a <= b then a else b }

  function Max(a: real, b: real): real { if a >= b then a else b }

  /** Rings of the same shape differ in total span exactly as much as in angle sum. */
  lemma {:induction false} SameShapeTotals(a: seq<Segment>, b: seq<Segment>)
    requires SameShape(a, b)
    ensures TotalSpan(b) - TotalSpan(a) == AngleSum(b) - AngleSum(a)
  {
    if a != [] {
      assert SameShape(a[1..], b[1..]);
      SameShapeTotals(a[1..], b[1..]);
    }
  }

  /** Replacing one segment's angle changes the angle sum by exactly the difference. */
  lemma {:induction false} AngleSumUpdate(ss: seq<Segment>, i: nat, x: real)
    requires i < |ss|
    ensures AngleSum(ss[i := ss[i].(angle := x)]) == AngleSum(ss) - ss[i].angle + x
  {
    var t := ss[i := ss[i].(angle := x)];
    if i > 0 {
      assert t[1..] == ss[1..][i - 1 := ss[i].(angle := x)];
      AngleSumUpdate(ss[1..], i - 1, x);
    } else {
      assert t[1..] == ss[1..];
    }
  }

  /** The three-segment ring every component starts from: 110° wedges with 10° gaps. */
  function EvenRing(c0: Color, c1: Color, c2: Color): (r: seq<Segment>)
    ensures |r| == 3 && AllAtLeast(r, MinSegmentAngle)
    ensures TotalSpan(r) == FullCircle && !SumWarning(r)
  {
    var r := [Segment(110.0, c0, Some(10.0)), Segment(110.0, c1, Some(10.0)), Segment(110.0, c2, Some(10.0))];
    assert TotalSpan(r[2..]) == 120.0 by { assert r[2..][1..] == []; }
    assert r[1..][1..] == r[2..];
    r
  }
}
