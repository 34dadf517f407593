/** The rotation accumulator: every tick adds the layer's speed to its angle
    and reduces the sum with JavaScript's `% 360`. */
module Rotation {

  /** A real that is a whole number. */
  predicate Whole(q: real)
  {
    q.Floor as real == q
  }

  lemma WholeNegated(q: real)
    requires Whole(q)
    ensures Whole(-q)
  {
    assert (-q).Floor == -(q.Floor);
  }

  /** `y % 360` for non-negative y: y less the whole turns it contains. */
  function Remainder360NonNegative(y: real): (r: real)
    requires y >= 0.0
    ensures 0.0 <= r < 360.0
    ensures y < 360.0 ==> r == y
    ensures Whole((y - r) / 360.0)
  {
    var turns := (y / 360.0).Floor;
    assert turns as real <= y / 360.0 < turns as real + 1.0;
    assert 360.0 * turns as real <= y < 360.0 * turns as real + 360.0;
    assert y < 360.0 ==> turns == 0;
    var rest := y - 360.0 * turns as real;
    assert (y - rest) / 360.0 == turns as real;
    rest
  }

  /** JavaScript's `x % 360`: the remainder truncated towards zero, so it takes
      the sign of `x` (Dafny's own `%` on integers would not). */
  function Remainder360(x: real): (r: real)
    ensures x >= 0.0 ==> 0.0 <= r < 360.0
    ensures x < 0.0 ==> -360.0 < r <= 0.0
    ensures 0.0 <= x < 360.0 ==> r == x
    ensures -360.0 < x <= 0.0 ==> r == x
    // x and r differ by a whole number of turns
    ensures Whole((x - r) / 360.0)
  {
    if x >= 0.0 then Remainder360NonNegative(x)
    else
      var rest := Remainder360NonNegative(-x);
      assert (x - -rest) / 360.0 == -((-x - rest) / 360.0);
      WholeNegated((-x - rest) / 360.0);
      -rest
  }

  /** `(rotation + speed) % 360`. */
  function Tick(rotation: real, speed: real): (r: real)
    ensures rotation + speed >= 0.0 ==> 0.0 <= r < 360.0
    ensures rotation + speed < 0.0 ==> -360.0 < r <= 0.0
    ensures Whole((rotation + speed - r) / 360.0)
  {
    Remainder360(rotation + speed)
  }

  /** With a non-negative speed the angle stays in [0, 360) forever. */
  lemma TickStaysInTurn(rotation: real, speed: real)
    requires 0.0 <= rotation < 360.0 && 0.0 <= speed
    ensures 0.0 <= Tick(rotation, speed) < 360.0
    ensures rotation + speed < 360.0 ==> Tick(rotation, speed) == rotation + speed
    ensures 360.0 <= rotation + speed < 720.0 ==> Tick(rotation, speed) == rotation + speed - 360.0
  {
    var x := rotation + speed;
    if 360.0 <= x < 720.0 {
      assert (x / 360.0).Floor == 1;
    }
  }

  /** 350° advanced by 20° wraps to 10°. */
  lemma TickWrapsExample()
    ensures Tick(350.0, 20.0) == 10.0
  {
    TickStaysInTurn(350.0, 20.0);
  }
}
