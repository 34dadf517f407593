/** The generated-layers component (`MultiLayerArcLoadingIndicator`): a
    number of layers whose colours form a blue ramp, whose radii shrink
    inwards, and whose state is kept in four parallel arrays (`rotations`,
    `arcLayers`, `targetSegmentsArray`, `transitions`). */
module MultiLayerIndicator {
  import opened Segments
  import opened Easing
  import opened Redistribution
  import opened Transition
  import opened Layout
  import Rotation

  // ---------------------------------------------------------------------
  // The colour ramp (`generateBlueShades`)
  // ---------------------------------------------------------------------

  /** An RGB triple of channel values 0..255. */
  datatype Rgb = Rgb(r: int, g: int, b: int)

  /** One computed channel: a number, or NaN when the interpolation factor was 0/0. */
  datatype Channel = Value(n: int) | NaN

  /** One ramp entry before it is printed as `rgb(r, g, b)`. */
  datatype Shade = Shade(r: Channel, g: Channel, b: Channel)

  const BaseBlue: Rgb := Rgb(59, 130, 246)
  const LightBlue: Rgb := Rgb(147, 197, 253)
  const DarkModeBaseBlue: Rgb := Rgb(37, 99, 235)
  const DarkModeLightBlue: Rgb := Rgb(96, 165, 250)

  /** The darker end of the ramp for the colour mode. */
  function DarkEnd(darkMode: bool): Rgb { if darkMode then DarkModeBaseBlue else BaseBlue }

  /** The brighter end of the ramp for the colour mode. */
  function BrightEnd(darkMode: bool): Rgb { if darkMode then DarkModeLightBlue else LightBlue }

  /** The ramp's first colour: dark normally, bright when the colours are reversed. */
  function StartColor(reverseColors: bool, darkMode: bool): Rgb
  {
    if reverseColors then BrightEnd(darkMode) else DarkEnd(darkMode)
  }

  /** The ramp's last colour: bright normally, dark when the colours are reversed. */
  function EndColor(reverseColors: bool, darkMode: bool): Rgb
  {
    if reverseColors then DarkEnd(darkMode) else BrightEnd(darkMode)
  }

  /** `Math.round`: the nearest integer, halves rounded up. */
  function Round(x: real): (k: int)
    ensures x - 0.5 < k as real <= x + 0.5
  {
    (x + 0.5).Floor
  }

  /** `index / (layers - 1)`: absent (NaN) when both are 0, which happens
      exactly for the only index of a one-layer ramp. */
  function Factor(index: nat, layers: nat): (factor: Option<real>)
    requires index < layers
    ensures factor.None? <==> layers == 1
    ensures factor.Some? ==> 0.0 <= factor.value <= 1.0 && factor.value * (layers - 1) as real == index as real
  {
    if layers == 1 then None
    else
      FractionInUnit(index as real, (layers - 1) as real);
      Some(index as real / (layers - 1) as real)
  }

  /** `Math.round(start + factor * (end - start))`, NaN in, NaN out. */
  function Mix(start: int, end: int, factor: Option<real>): (c: Channel)
    ensures c.NaN? <==> factor.None?
    ensures factor.Some? ==>
      var exact := start as real + factor.value * (end - start) as real;
      exact - 0.5 < c.n as real <= exact + 0.5
  {
    if factor.None? then NaN else Value(Round(start as real + factor.value * (end - start) as real))
  }

  function ShadeAt(start: Rgb, end: Rgb, factor: Option<real>): Shade
  {
    Shade(Mix(start.r, end.r, factor), Mix(start.g, end.g, factor), Mix(start.b, end.b, factor))
  }

  /** The colour every channel of which is exactly the given triple. */
  function Exact(c: Rgb): Shade
  {
    Shade(Value(c.r), Value(c.g), Value(c.b))
  }

  predicate ChannelBetween(c: Channel, a: int, b: int)
  {
    c.Value? && (if a <= b then a <= c.n <= b else b <= c.n <= a)
  }

  predicate ShadeBetween(s: Shade, a: Rgb, b: Rgb)
  {
    ChannelBetween(s.r, a.r, b.r) && ChannelBetween(s.g, a.g, b.g) && ChannelBetween(s.b, a.b, b.b)
  }

  lemma FractionInUnit(a: real, m: real)
    requires 0.0 <= a <= m && 0.0 < m
    ensures 0.0 <= a / m <= 1.0
  {
    assert (a / m) * m == a;
  }

  lemma ZeroFactor(d: real, m: real)
    requires m != 0.0 && d * m == 0.0
    ensures d == 0.0
  {
  }

  lemma ComplementFraction(a: real, m: real)
    requires m != 0.0
    ensures (m - a) / m == 1.0 - a / m
  {
    var q, r := a / m, (m - a) / m;
    assert q * m == a;
    assert r * m == m - a;
    assert (r - (1.0 - q)) * m == 0.0;
    ZeroFactor(r - (1.0 - q), m);
  }

  lemma MixBetween(start: int, end: int, x: real)
    requires 0.0 <= x <= 1.0
    ensures ChannelBetween(Mix(start, end, Some(x)), start, end)
  {
    ScaledBetween(start as real, end as real, x);
  }

  /** Every entry of a ramp of two or more colours lies between its ends. */
  lemma RampEntryBetween(start: Rgb, end: Rgb, layers: nat, i: nat)
    requires 2 <= layers && i < layers
    ensures ShadeBetween(ShadeAt(start, end, Factor(i, layers)), start, end)
  {
    var x := i as real / (layers - 1) as real;
    FractionInUnit(i as real, (layers - 1) as real);
    MixBetween(start.r, end.r, x);
    MixBetween(start.g, end.g, x);
    MixBetween(start.b, end.b, x);
  }

  lemma MixEnds(start: int, end: int)
    ensures Mix(start, end, Some(0.0)) == Value(start)
    ensures Mix(start, end, Some(1.0)) == Value(end)
  {
    assert start as real + 0.0 * (end - start) as real == start as real;
    assert start as real + 1.0 * (end - start) as real == end as real;
  }

  /** A ramp of two or more colours starts and ends exactly on its end colours. */
  lemma RampEnds(start: Rgb, end: Rgb, layers: nat)
    requires 2 <= layers
    ensures ShadeAt(start, end, Factor(0, layers)) == Exact(start)
    ensures ShadeAt(start, end, Factor(layers - 1, layers)) == Exact(end)
  {
    var m := (layers - 1) as real;
    ComplementFraction(0.0, m);
    assert Factor(0, layers) == Some(0.0);
    assert Factor(layers - 1, layers) == Some(1.0);
    MixEnds(start.r, end.r);
    MixEnds(start.g, end.g);
    MixEnds(start.b, end.b);
  }

  /** `layers` colours evenly spaced from `start` to `end`, each channel
      rounded; NaN throughout for a single colour. */
  function Ramp(start: Rgb, end: Rgb, layers: nat): (shades: seq<Shade>)
    ensures |shades| == layers
    ensures forall i :: 0 <= i < layers ==> shades[i] == ShadeAt(start, end, Factor(i, layers))
    ensures layers == 1 ==> shades == [Shade(NaN, NaN, NaN)]
    ensures layers >= 2 ==> shades[0] == Exact(start) && shades[layers - 1] == Exact(end)
    ensures layers >= 2 ==> forall i :: 0 <= i < layers ==> ShadeBetween(shades[i], start, end)
  {
    var shades := seq(layers, i requires 0 <= i < layers => ShadeAt(start, end, Factor(i, layers)));
    if layers >= 2 then
      assert forall i :: 0 <= i < layers ==> ShadeBetween(shades[i], start, end) by {
        forall i | 0 <= i < layers ensures ShadeBetween(shades[i], start, end) {
          RampEntryBetween(start, end, layers, i);
        }
      }
      RampEnds(start, end, layers);
      shades
    else
      shades
  }

  /** The component's ramp (`generateBlueShades`): from StartColor to EndColor. */
  function BlueShades(layers: nat, reverseColors: bool, darkMode: bool): (shades: seq<Shade>)
    ensures |shades| == layers
    ensures layers == 1 ==> shades == [Shade(NaN, NaN, NaN)]
    ensures layers >= 2 ==>
      && shades[0] == Exact(StartColor(reverseColors, darkMode))
      && shades[layers - 1] == Exact(EndColor(reverseColors, darkMode))
    ensures layers >= 2 ==> forall i :: 0 <= i < layers ==>
      ShadeBetween(shades[i], StartColor(reverseColors, darkMode), EndColor(reverseColors, darkMode))
  {
    Ramp(StartColor(reverseColors, darkMode), EndColor(reverseColors, darkMode), layers)
  }

  lemma MixReversed(start: int, end: int, x: real)
    ensures Mix(end, start, Some(1.0 - x)) == Mix(start, end, Some(x))
  {
    assert end as real + (1.0 - x) * (start - end) as real == start as real + x * (end - start) as real;
  }

  /** Reversing the colours reverses the ramp. */
  lemma {:induction false} ShadesReversed(layers: nat, darkMode: bool, i: nat)
    requires i < layers
    ensures BlueShades(layers, true, darkMode)[i] == BlueShades(layers, false, darkMode)[layers - 1 - i]
  {
    if layers >= 2 {
      var m := (layers - 1) as real;
      var x := i as real / m;
      ComplementFraction(i as real, m);
      assert Factor(layers - 1 - i, layers) == Some(1.0 - x);
      assert Factor(i, layers) == Some(x);
      var a, b := DarkEnd(darkMode), BrightEnd(darkMode);
      MixReversed(b.r, a.r, x);
      MixReversed(b.g, a.g, x);
      MixReversed(b.b, a.b, x);
    }
  }

  // ---------------------------------------------------------------------
  // Printing a ramp entry as a CSS colour
  // ---------------------------------------------------------------------

  function DigitChar(d: nat): char
    requires d < 10
  {
    ['0', '1', '2', '3', '4', '5', '6', '7', '8', '9'][d]
  }

  predicate AllDigits(s: string)
  {
    forall i :: 0 <= i < |s| ==> '0' <= s[i] <= '9'
  }

  /** The decimal numeral of n, without leading zeros. */
  function Digits(n: nat): (s: string)
    ensures |s| >= 1 && AllDigits(s)
    ensures |s| > 1 ==> s[0] != '0'
  {
    if n < 10 then [DigitChar(n)] else Digits(n / 10) + [DigitChar(n % 10)]
  }

  /** The number a decimal numeral denotes. */
  function DigitsValue(s: string): nat
    requires AllDigits(s)
  {
    if s == [] then 0 else DigitsValue(s[..|s| - 1]) * 10 + (s[|s| - 1] as int - '0' as int)
  }

  /** A numeral reads back as the number it was printed from. */
  lemma {:induction false} DigitsRoundTrip(n: nat)
    ensures DigitsValue(Digits(n)) == n
  {
    if n >= 10 {
      DigitsRoundTrip(n / 10);
      var s := Digits(n);
      assert s[..|s| - 1] == Digits(n / 10);
    }
  }

  /** How JavaScript prints one channel inside a template string. */
  function ChannelText(c: Channel): (text: string)
    ensures |text| >= 1 && (c.NaN? <==> text == "NaN")
    ensures c.Value? && c.n >= 0 ==> AllDigits(text) && DigitsValue(text) == c.n
    ensures c.Value? && c.n < 0 ==> text[0] == '-' && AllDigits(text[1..]) && DigitsValue(text[1..]) == -c.n
  {
    match c
    case NaN => "NaN"
    case Value(n) =>
      if n < 0 then
        DigitsRoundTrip(-n);
        var text := "-" + Digits(-n);
        assert text[1..] == Digits(-n);
        text
      else
        DigitsRoundTrip(n);
        Digits(n)
  }

  /** `rgb(${r}, ${g}, ${b})`. */
  function CssColor(s: Shade): (css: Color)
    ensures |css| >= 12 && css[..4] == "rgb(" && css[|css| - 1] == ')'
  {
    "rgb(" + ChannelText(s.r) + ", " + ChannelText(s.g) + ", " + ChannelText(s.b) + ")"
  }

  /** A printed channel never contains the separator comma. */
  lemma ChannelTextCommaFree(c: Channel)
    ensures forall i :: 0 <= i < |ChannelText(c)| ==> ChannelText(c)[i] != ','
  {
    var text := ChannelText(c);
    if c.Value? && c.n < 0 {
      forall i | 1 <= i < |text| ensures text[i] != ',' {
        assert text[i] == text[1..][i - 1];
      }
    }
  }

  /** Distinct channels print differently. */
  lemma ChannelTextInjective(a: Channel, b: Channel)
    requires ChannelText(a) == ChannelText(b)
    ensures a == b
  {
  }

  /** Two comma-free prefixes, each followed by a comma, are equal when the
      whole strings are. */
  lemma SplitAtComma(x: string, u: string, y: string, v: string)
    requires x + u == y + v
    requires forall i :: 0 <= i < |x| ==> x[i] != ','
    requires forall i :: 0 <= i < |y| ==> y[i] != ','
    requires |u| > 0 && u[0] == ',' && |v| > 0 && v[0] == ','
    ensures x == y && u == v
  {
    assert x == (x + u)[..|x|] && y == (y + v)[..|y|];
    assert u == (x + u)[|x|..] && v == (y + v)[|y|..];
  }

  /** `", " + b + ")"`: what follows the green channel. */
  function AfterGreen(s: Shade): string
  {
    ", " + (ChannelText(s.b) + ")")
  }

  /** `", " + g + ", " + b + ")"`: what follows the red channel. */
  function AfterRed(s: Shade): string
  {
    ", " + (ChannelText(s.g) + AfterGreen(s))
  }

  lemma CssColorParts(s: Shade)
    ensures CssColor(s) == "rgb(" + (ChannelText(s.r) + AfterRed(s))
  {
  }

  lemma AfterGreenInjective(a: Shade, b: Shade)
    requires AfterGreen(a) == AfterGreen(b)
    ensures a.b == b.b
  {
    var ba, bb := ChannelText(a.b), ChannelText(b.b);
    assert AfterGreen(a)[2..] == ba + ")" && AfterGreen(b)[2..] == bb + ")";
    assert ba == (ba + ")")[..|ba|] && bb == (bb + ")")[..|bb|];
    ChannelTextInjective(a.b, b.b);
  }

  lemma AfterRedInjective(a: Shade, b: Shade)
    requires AfterRed(a) == AfterRed(b)
    ensures a.g == b.g && a.b == b.b
  {
    var ga, gb := ChannelText(a.g), ChannelText(b.g);
    assert AfterRed(a)[2..] == ga + AfterGreen(a) && AfterRed(b)[2..] == gb + AfterGreen(b);
    ChannelTextCommaFree(a.g);
    ChannelTextCommaFree(b.g);
    SplitAtComma(ga, AfterGreen(a), gb, AfterGreen(b));
    ChannelTextInjective(a.g, b.g);
    AfterGreenInjective(a, b);
  }

  /** The printed colour determines the shade: distinct shades print as
      distinct CSS strings. */
  lemma CssColorInjective(a: Shade, b: Shade)
    requires CssColor(a) == CssColor(b)
    ensures a == b
  {
    CssColorParts(a);
    CssColorParts(b);
    var ra, rb := ChannelText(a.r), ChannelText(b.r);
    assert CssColor(a)[4..] == ra + AfterRed(a) && CssColor(b)[4..] == rb + AfterRed(b);
    ChannelTextCommaFree(a.r);
    ChannelTextCommaFree(b.r);
    SplitAtComma(ra, AfterRed(a), rb, AfterRed(b));
    ChannelTextInjective(a.r, b.r);
    AfterRedInjective(a, b);
  }

  // ---------------------------------------------------------------------
  // Layer configuration (`createInitialLayers`)
  // ---------------------------------------------------------------------

  /** One generated layer: its ring, its band and its rotation speed. */
  datatype ArcLayer = ArcLayer(segments: seq<Segment>, innerRadius: real, outerRadius: real, speed: real)

  const BaseRadius: real := 42.0

  /** Layer i: three 110°/10° segments in the i-th ramp colour, a band of width
      12 + i centred on radius 42 − 4i, and speed 1 − 0.2·i (outer layers turn
      faster; from the seventh layer on the speed is negative). */
  function CreateInitialLayers(layers: nat, shades: seq<Color>): (result: seq<ArcLayer>)
    requires |shades| == layers
    ensures |result| == layers
    ensures forall i :: 0 <= i < layers ==>
      && result[i].segments == EvenRing(shades[i], shades[i], shades[i])
      && TotalSpan(result[i].segments) == FullCircle
      && result[i].outerRadius - result[i].innerRadius == 12.0 + i as real
      && (result[i].innerRadius + result[i].outerRadius) / 2.0 == BaseRadius - 4.0 * i as real
      && result[i].speed == 1.0 - 0.2 * i as real
  {
    seq(layers, index requires 0 <= index < layers =>
      var radius := BaseRadius - index as real * 4.0;
      var arcWidth := 12.0 + index as real * 1.0;
      var band := BandRadii(radius, arcWidth);
      ArcLayer(EvenRing(shades[index], shades[index], shades[index]), band.0, band.1, 1.0 - index as real * 0.2))
  }

  /** Inner layers are drawn on strictly smaller bands. */
  lemma LayersNestInwards(layers: nat, shades: seq<Color>, i: nat, j: nat)
    requires |shades| == layers && i < j < layers
    ensures
      var l := CreateInitialLayers(layers, shades);
      l[j].outerRadius < l[i].outerRadius && l[j].speed < l[i].speed
  {
  }

  /** Layer staggering of the redistribution intervals. */
  const LayerStagger: real := 400.0

  // ---------------------------------------------------------------------
  // The animation frame over the parallel arrays
  // ---------------------------------------------------------------------

  /** The body of the animation-frame callback: a pass over the layers that
      fills copies of `transitions` and `arcLayers`, skipping idle layers. Each
      layer ends up exactly as one Step of the animator leaves it. */
  method AdvanceLayers(transitions: seq<real>, arcLayers: seq<ArcLayer>, targetSegmentsArray: seq<seq<Segment>>)
    returns (newTransitions: seq<real>, newLayers: seq<ArcLayer>)
    requires |transitions| == |arcLayers| == |targetSegmentsArray|
    requires forall i :: 0 <= i < |arcLayers| ==> |arcLayers[i].segments| <= |targetSegmentsArray[i]|
    ensures |newTransitions| == |transitions| && |newLayers| == |arcLayers|
    ensures forall i :: 0 <= i < |arcLayers| ==>
      var next := Step(TransitionState(arcLayers[i].segments, targetSegmentsArray[i], transitions[i]));
      newTransitions[i] == next.progress && newLayers[i] == arcLayers[i].(segments := next.current)
  {
    newTransitions := transitions;
    newLayers := arcLayers;
    var layerIndex := 0;
    while layerIndex < |arcLayers|
      invariant 0 <= layerIndex <= |arcLayers|
      invariant |newTransitions| == |transitions| && |newLayers| == |arcLayers|
      invariant forall i :: 0 <= i < layerIndex ==>
        var next := Step(TransitionState(arcLayers[i].segments, targetSegmentsArray[i], transitions[i]));
        newTransitions[i] == next.progress && newLayers[i] == arcLayers[i].(segments := next.current)
      invariant forall i :: layerIndex <= i < |arcLayers| ==>
        newTransitions[i] == transitions[i] && newLayers[i] == arcLayers[i]
    {
      var layer := arcLayers[layerIndex];
      if transitions[layerIndex] < 1.0 {
        var newTransition := Min(1.0, transitions[layerIndex] + FrameIncrement);
        newTransitions := newTransitions[layerIndex := newTransition];
        var easeTransition := Ease(newTransition);
        var targetSegments := targetSegmentsArray[layerIndex];
        var interpolated := Interpolate(layer.segments, targetSegments, easeTransition);
        newLayers := newLayers[layerIndex := layer.(segments := if newTransition >= 1.0 then targetSegments else interpolated)];
      }
      layerIndex := layerIndex + 1;
    }
  }

  const Center: real := 50.0

  class MultiLayerArcLoadingIndicator {
    const layerCount: nat
    const cornerRadius: real
    const changeInterval: real
    const maxAngleChange: real
    const darkMode: bool
    const reverseColors: bool
    /** The layers as created; only their segments ever change. */
    ghost const initialLayers: seq<ArcLayer>

    var rotations: seq<real>
    var arcLayers: seq<ArcLayer>
    var targetSegmentsArray: seq<seq<Segment>>
    var transitions: seq<real>

    /** The period of layer `layerIndex`'s redistribution interval. */
    function LayerChangePeriod(layerIndex: nat): real
      reads this
    {
      ChangePeriod(changeInterval, LayerStagger, layerIndex)
    }

    /** The four arrays stay parallel; each layer keeps its band and speed;
        each layer's animator state is consistent. */
    ghost predicate Valid()
      reads this
    {
      && |initialLayers| == layerCount
      && |rotations| == layerCount && |arcLayers| == layerCount
      && |targetSegmentsArray| == layerCount && |transitions| == layerCount
      && forall i :: 0 <= i < layerCount ==>
        && arcLayers[i].(segments := initialLayers[i].segments) == initialLayers[i]
        && Consistent(TransitionState(arcLayers[i].segments, targetSegmentsArray[i], transitions[i]))
    }

    /** Every displayed and every target angle of every layer is at least 30°. */
    ghost predicate Floored()
      reads this
    {
      && (forall i :: 0 <= i < |arcLayers| ==> AllAtLeast(arcLayers[i].segments, MinSegmentAngle))
      && (forall i :: 0 <= i < |targetSegmentsArray| ==> AllAtLeast(targetSegmentsArray[i], MinSegmentAngle))
    }

    /** Mounting: rotations all 0, layers from the ramp, targets equal to the
        layers' segments, every layer idle. */
    constructor(layers: nat, cornerRadius: real, changeInterval: real, maxAngleChange: real,
                darkMode: bool, reverseColors: bool)
      ensures Valid() && Floored()
      ensures layerCount == layers && this.cornerRadius == cornerRadius
      ensures this.changeInterval == changeInterval && this.maxAngleChange == maxAngleChange
      ensures this.darkMode == darkMode && this.reverseColors == reverseColors
      ensures arcLayers == CreateInitialLayers(layers,
        seq(layers, i requires 0 <= i < layers => CssColor(BlueShades(layers, reverseColors, darkMode)[i])))
      ensures forall i :: 0 <= i < layers ==>
        rotations[i] == 0.0 && transitions[i] == 1.0 && targetSegmentsArray[i] == arcLayers[i].segments
    {
      layerCount := layers;
      this.cornerRadius := cornerRadius;
      this.changeInterval := changeInterval;
      this.maxAngleChange := maxAngleChange;
      this.darkMode := darkMode;
      this.reverseColors := reverseColors;
      var shades := BlueShades(layers, reverseColors, darkMode);
      var colors := seq(layers, i requires 0 <= i < layers => CssColor(shades[i]));
      var created := CreateInitialLayers(layers, colors);
      initialLayers := created;
      rotations := seq(layers, _ => 0.0);
      arcLayers := created;
      targetSegmentsArray := seq(layers, i requires 0 <= i < layers => created[i].segments);
      transitions := seq(layers, _ => 1.0);
    }

    /** The 10 ms interval: every layer's rotation advances by its own speed, modulo 360. */
    method RotationTick()
      requires Valid()
      modifies this`rotations
      ensures Valid()
      ensures |rotations| == layerCount
      ensures forall i :: 0 <= i < layerCount ==> rotations[i] == Rotation.Tick(old(rotations)[i], arcLayers[i].speed)
    {
      var current, layers := rotations, arcLayers;
      rotations := seq(layerCount, i requires 0 <= i < layerCount && |current| == |layers| == layerCount =>
        Rotation.Tick(current[i], layers[i].speed));
    }

    /** Layer `layerIndex`'s redistribution interval: only that layer's target
        and progress are written; every other index of both arrays, and every
        layer's displayed segments, are as they were. A layer of fewer than
        three segments makes the source throw: nothing changes. */
    method ChangeLayerAngles(layerIndex: nat, r1: real, r2: real) returns (ok: bool)
      requires Valid() && layerIndex < layerCount
      requires 0.0 <= r1 < 1.0 && 0.0 <= r2 < 1.0
      modifies this`targetSegmentsArray, this`transitions
      ensures Valid()
      ensures ok <==> |arcLayers[layerIndex].segments| >= 3
      ensures ok ==>
        && targetSegmentsArray == old(targetSegmentsArray)[layerIndex :=
             NextTarget(arcLayers[layerIndex].segments, maxAngleChange, r1, r2).value]
        && transitions == old(transitions)[layerIndex := 0.0]
      ensures !ok ==> targetSegmentsArray == old(targetSegmentsArray) && transitions == old(transitions)
      ensures old(Floored()) ==> Floored()
    {
      var segments := arcLayers[layerIndex].segments;
      var next := NextTarget(segments, maxAngleChange, r1, r2);
      if next.Err? {
        return false;
      }
      TargetNeverShrinksRing(segments, maxAngleChange, r1, r2);
      if Floored() {
        TargetKeepsFloor(segments, maxAngleChange, r1, r2);
      }
      targetSegmentsArray := targetSegmentsArray[layerIndex := next.value];
      transitions := transitions[layerIndex := 0.0];
      ok := true;
    }

    /** The animation-frame callback, requested only while some layer is
        still transitioning. */
    method TransitionFrame() returns (requested: bool)
      requires Valid()
      modifies this`arcLayers, this`transitions
      ensures Valid()
      ensures requested <==> exists i :: 0 <= i < layerCount && old(transitions)[i] < 1.0
      ensures forall i :: 0 <= i < layerCount ==>
        var next := Step(TransitionState(old(arcLayers)[i].segments, targetSegmentsArray[i], old(transitions)[i]));
        transitions[i] == next.progress && arcLayers[i] == old(arcLayers)[i].(segments := next.current)
      ensures forall i :: 0 <= i < layerCount ==>
        AngleSum(old(arcLayers)[i].segments) <= AngleSum(arcLayers[i].segments)
      ensures old(Floored()) ==> Floored()
    {
      requested := exists i :: 0 <= i < layerCount && transitions[i] < 1.0;
      if !requested {
        return;
      }
      var before, was := arcLayers, transitions;
      ghost var wasFloored := Floored();
      var newTransitions, newLayers := AdvanceLayers(transitions, arcLayers, targetSegmentsArray);
      forall i | 0 <= i < layerCount
        ensures Consistent(TransitionState(newLayers[i].segments, targetSegmentsArray[i], newTransitions[i]))
        ensures AngleSum(before[i].segments) <= AngleSum(newLayers[i].segments)
        ensures wasFloored ==> AllAtLeast(newLayers[i].segments, MinSegmentAngle)
      {
        var tr := TransitionState(before[i].segments, targetSegmentsArray[i], was[i]);
        StepKeepsConsistent(tr);
        if wasFloored {
          StepKeepsFloor(tr, MinSegmentAngle);
        }
      }
      transitions := newTransitions;
      arcLayers := newLayers;
    }

    /** What one render draws for one layer: its rotation and one wedge per
        displayed segment on the layer's band. */
    method Render(layerIndex: nat) returns (groupRotation: real, arcs: seq<Wedge>)
      requires Valid() && layerIndex < layerCount
      ensures groupRotation == rotations[layerIndex]
      ensures |arcs| == |arcLayers[layerIndex].segments|
      ensures forall i :: 0 <= i < |arcs| ==>
        && arcs[i].startAngle == StartAngle(arcLayers[layerIndex].segments, i)
        && arcs[i].arcAngle == arcLayers[layerIndex].segments[i].angle
        && arcs[i].innerRadius == arcLayers[layerIndex].innerRadius
        && arcs[i].outerRadius == arcLayers[layerIndex].outerRadius
        && arcs[i].color == arcLayers[layerIndex].segments[i].color
        && (arcs[i].largeArcFlag == 1 <==> arcLayers[layerIndex].segments[i].angle > 180.0)
    {
      var layer := arcLayers[layerIndex];
      groupRotation := rotations[layerIndex];
      arcs := RenderArcs(layer.segments, Center, Center, layer.innerRadius, layer.outerRadius, cornerRadius);
    }
  }
}
