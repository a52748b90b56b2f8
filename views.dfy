/** The camera arithmetic the three revisions of the visualizer share: the
    camera globals as one value, the clamped zooms, the pause toggle, the
    mouse drag, and the convex smoothing steps used by the tracking camera. */
module Views {
  import opened Orbits

  /** The camera globals: distance to the look-at point, angle around the
      vertical axis in degrees, height, and the pan offsets x, y, z. */
  datatype Camera = Camera(distance: real, angle: real, height: real, x: real, y: real, z: real)

  /** The globals' values when the program starts. */
  const Initial: Camera := Camera(80.0, 0.0, 5.0, 0.0, 0.0, 0.0)

  /** The larger of two reals (the program's `max`). */
  function Max(a: real, b: real): (m: real)
    ensures m >= a && m >= b
    ensures m == a || m == b
  {
    if a >= b then a else b
  }

  /** The smaller of two reals (the program's `min`). */
  function Min(a: real, b: real): (m: real)
    ensures m <= a && m <= b
    ensures m == a || m == b
  {
    if a <= b then a else b
  }

  /** Wheel up: two units closer, but never closer than 5. */
  function WheelIn(d: real): (r: real)
    ensures r >= 5.0
    ensures d >= 7.0 ==> r == d - 2.0
    ensures d <= 7.0 ==> r == 5.0
  {
    Max(5.0, d - 2.0)
  }

  /** Wheel down: two units farther. */
  function WheelOut(d: real): (r: real)
    ensures r == d + 2.0 && r > d
  {
    d + 2.0
  }

  /** Wheel down then wheel up returns to the same distance once it is at
      least 5; below 5 the round trip lifts the distance to 5. */
  lemma WheelRoundTrip(d: real)
    ensures d >= 5.0 ==> WheelIn(WheelOut(d)) == d
    ensures d < 5.0 ==> WheelIn(WheelOut(d)) == 5.0
  {
  }

  /** The '+' key of the later revisions: ten per cent closer, never closer than 5. */
  function KeyZoomIn(d: real): (r: real)
    ensures r >= 5.0
    ensures d > 5.0 ==> r < d
    ensures d >= 50.0 / 9.0 ==> r == d * 0.9
    ensures d <= 50.0 / 9.0 ==> r == 5.0
  {
    Max(5.0, d * 0.9)
  }

  /** The '-' key of the later revisions: ten per cent farther. */
  function KeyZoomOut(d: real): (r: real)
    ensures d > 0.0 ==> r > d
  {
    d * 1.1
  }

  /** The '+' key of the first revision: two units closer, never closer than 10. */
  function KeyStepIn(d: real): (r: real)
    ensures r >= 10.0
    ensures d >= 12.0 ==> r == d - 2.0
    ensures d <= 12.0 ==> r == 10.0
  {
    Max(10.0, d - 2.0)
  }

  /** Every zoom keeps a positive distance positive. */
  lemma ZoomsKeepPositive(d: real)
    requires d > 0.0
    ensures WheelIn(d) > 0.0 && WheelOut(d) > 0.0
    ensures KeyZoomIn(d) > 0.0 && KeyZoomOut(d) > 0.0 && KeyStepIn(d) > 0.0
  {
  }

  /** The 'p' key: a running simulation stops, a stopped (or reversed) one
      restarts at half speed. */
  function TogglePause(timeScale: real): (r: real)
    ensures r == 0.0 || r == 0.5
    ensures r == 0.0 <==> timeScale > 0.0
  {
    if timeScale > 0.0 then 0.0 else 0.5
  }

  /** Once toggled, two more toggles come back to the same speed; from the
      initial speed 1.0, pausing and resuming gives 0.5, not 1.0. */
  lemma {:induction false} ToggleCycles(timeScale: real)
    ensures TogglePause(TogglePause(TogglePause(timeScale))) == TogglePause(timeScale)
    ensures TogglePause(TogglePause(1.0)) == 0.5
  {
    var once := TogglePause(timeScale);
    assert once == 0.0 || once == 0.5;
    if once == 0.0 {
      assert TogglePause(once) == 0.5;
    } else {
      assert TogglePause(once) == 0.0;
    }
  }

  /** A mouse drag of (dx, dy) pixels: with the left button held the view
      turns and moves up or down, otherwise with the right button held it pans. */
  function Drag(c: Camera, left: bool, right: bool, dx: int, dy: int): (r: Camera)
    ensures r.distance == c.distance
    ensures left ==> r == c.(angle := c.angle + dx as real * 0.5, height := c.height - dy as real * 0.1)
    ensures !left && right ==> r == c.(x := c.x + dx as real * 0.01, y := c.y - dy as real * 0.01)
    ensures !left && !right ==> r == c
  {
    if left then c.(angle := c.angle + dx as real * 0.5, height := c.height - dy as real * 0.1)
    else if right then c.(x := c.x + dx as real * 0.01, y := c.y - dy as real * 0.01)
    else c
  }

  /** Two drags with the same button compose into one drag by the summed offsets. */
  lemma DragComposes(c: Camera, left: bool, right: bool, dx1: int, dy1: int, dx2: int, dy2: int)
    ensures Drag(Drag(c, left, right, dx1, dy1), left, right, dx2, dy2)
         == Drag(c, left, right, dx1 + dx2, dy1 + dy2)
  {
  }

  /** The convex smoothing step `a*(1-t) + b*t`. */
  function Blend(a: real, b: real, t: real): (r: real)
    ensures t == 0.0 ==> r == a
    ensures t == 1.0 ==> r == b
    ensures a == b ==> r == a
  {
    a * (1.0 - t) + b * t
  }

  /** A blend with a weight in [0, 1] lies between its ends, and moves the
      value toward the target by exactly the fraction t of the gap. */
  lemma BlendBetween(a: real, b: real, t: real)
    requires 0.0 <= t <= 1.0
    ensures Min(a, b) <= Blend(a, b, t) <= Max(a, b)
    ensures Blend(a, b, t) - b == (1.0 - t) * (a - b)
  {
    BlendGap(a, b, t);
    var p := ScaledGap(1.0 - t, a - b);
  }

  /** The blend's distance to its target, as an identity. */
  lemma BlendGap(a: real, b: real, t: real)
    ensures Blend(a, b, t) - b == (1.0 - t) * (a - b)
  {
    var u := 1.0 - t;
    assert b * t == b - b * u;
    assert u * (a - b) == u * a - u * b;
    assert Blend(a, b, t) == a * u + b * t;
    assert a * u == u * a;
  }

  /** A gap scaled by a factor in [0, 1] keeps its sign and does not grow;
      the bounds are stated linearly in the scaled gap `p`. */
  lemma ScaledGap(u: real, g: real) returns (p: real)
    requires 0.0 <= u <= 1.0
    ensures p == u * g
    ensures g >= 0.0 ==> 0.0 <= p <= g
    ensures g <= 0.0 ==> g <= p <= 0.0
  {
    p := u * g;
    if g >= 0.0 {
      MulBelow(u, g, p);
    } else {
      var q := u * -g;
      MulBelow(u, -g, q);
      NegateFactor(u, g, p, q);
    }
  }

  /** Moving a sign through a product: `u * -g` is `-(u * g)`. */
  lemma NegateFactor(u: real, g: real, p: real, q: real)
    requires p == u * g && q == u * -g
    ensures q == -p
  {
  }

  /** A factor `t` in [0, 1] shrinks a non-negative quantity `g`; `p` is
      their product. */
  lemma MulBelow(t: real, g: real, p: real)
    requires 0.0 <= t <= 1.0 && g >= 0.0 && p == t * g
    ensures 0.0 <= p <= g
  {
    assert g - p == (1.0 - t) * g;
  }

  /** The tracking camera's speed factor: the orbit radius over 30, clamped
      to [0.1, 1.0]. */
  function DistanceFactor(orbitRadius: real): (f: real)
    ensures 0.1 <= f <= 1.0
    ensures 3.0 <= orbitRadius <= 30.0 ==> f == orbitRadius / 30.0
    ensures orbitRadius <= 3.0 ==> f == 0.1
    ensures orbitRadius >= 30.0 ==> f == 1.0
  {
    Max(0.1, Min(1.0, orbitRadius / 30.0))
  }

  /** Python's float `%` by 360: the remainder takes the sign of the divisor. */
  function Mod360(a: real): (r: real)
    ensures 0.0 <= r < 360.0
    ensures (a - r) / 360.0 == ((a - r) / 360.0).Floor as real
  {
    var k := (a / 360.0).Floor;
    assert k as real <= a / 360.0 < k as real + 1.0;
    a - 360.0 * k as real
  }

  /** An angle difference brought into [-180, 180): `(d + 180) % 360 - 180`. */
  function WrapDegrees(d: real): (r: real)
    ensures -180.0 <= r < 180.0
    ensures (d - r) / 360.0 == ((d - r) / 360.0).Floor as real
  {
    Mod360(d + 180.0) - 180.0
  }

  /** An angle difference already in [-180, 180) is left as it is. */
  lemma {:induction false} WrapKeepsSmall(d: real)
    requires -180.0 <= d < 180.0
    ensures WrapDegrees(d) == d
  {
    var k := ((d + 180.0) / 360.0).Floor;
    assert 0.0 <= (d + 180.0) / 360.0 < 1.0;
    assert k == 0;
  }

  /** Wrapping ignores whole turns. */
  lemma {:induction false} WrapIgnoresTurns(d: real)
    ensures WrapDegrees(d + 360.0) == WrapDegrees(d)
  {
    var k := ((d + 180.0) / 360.0).Floor;
    assert (d + 360.0 + 180.0) / 360.0 == (d + 180.0) / 360.0 + 1.0;
    assert ((d + 360.0 + 180.0) / 360.0).Floor == k + 1;
  }

  /** The view `center_camera_on_body` of the later revisions moves to: the
      sun is watched from twelve radii away, a planet from eight radii, from
      nine tenths of the way out along its orbit radius, looking at it.
      `orbit` is the body's position in the orbital plane. */
  function CenterView(c: Camera, isSun: bool, radius: real, orbit: Vec2, trig: Trig): (r: Camera)
    ensures r.y == c.y && r.height == radius * 0.8
    ensures radius > 0.0 ==> r.distance > 0.0
    ensures isSun ==> r.distance == 12.0 * radius && r.angle == 45.0 && r.x == 0.0 && r.z == -6.4 * radius
    ensures !isSun ==> r.distance == 8.0 * radius && r.x == 0.9 * orbit.x && r.z == 0.9 * orbit.z
    ensures !isSun ==> r.angle == trig.heading(orbit.x - r.x, orbit.z - r.z)
  {
    if isSun then
      c.(distance := radius * 8.0 * 1.5, height := radius * 0.8, angle := 45.0,
         x := 0.0, z := -radius * 8.0 * 0.8)
    else
      var x := orbit.x * 0.9;
      var z := orbit.z * 0.9;
      c.(distance := radius * 8.0, height := radius * 0.8, x := x, z := z,
         angle := trig.heading(orbit.x - x, orbit.z - z))
  }

  /** Nothing keeps the distance at or above the zoom floor of 5: centering on
      a planet of radius below 0.625 brings the camera closer than that. */
  lemma CenterBelowZoomFloor(c: Camera, radius: real, orbit: Vec2, trig: Trig)
    requires 0.0 < radius < 0.625
    ensures 0.0 < CenterView(c, false, radius, orbit, trig).distance < 5.0
  {
  }
}
