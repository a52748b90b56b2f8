/** The interactive controller of main4.py, and its lighting: after the
    planets move, every body's illumination is recomputed from where it now
    stands relative to the light. */
module Main4App {
  import opened Orbits
  import opened Views
  import opened Keys

  /** The lit fraction for a Lambert factor: 0.2 of ambient light plus 0.8
      times the factor, the factor clipped at 0 on the night side. */
  function Brightness(dot: real): (r: real)
    ensures r >= 0.2
    ensures dot <= 0.0 ==> r == 0.2
    ensures dot <= 1.0 ==> r <= 1.0
    ensures dot > 0.0 ==> r > 0.2
  {
    0.2 + 0.8 * Max(0.0, dot)
  }

  /** A brighter Lambert factor never gives less light. */
  lemma BrightnessMonotone(d1: real, d2: real)
    requires d1 <= d2
    ensures Brightness(d1) <= Brightness(d2)
  {
  }

  /** The illumination `update_illumination` leaves in a tree of bodies lit
      from `lightPos`: the sun is fully lit; any other body gets the
      brightness of its Lambert factor at its current orbital position, and
      its moons are lit from that position. */
  ghost predicate Lit(b: Body, sun: Body, lightPos: Vec2, trig: Trig)
    requires b.Valid()
    reads b.repr
    decreases b.repr
  {
    if b == sun then b.illumination == 1.0
    else
      var pos := trig.planar(b.distance, b.orbitAngle);
      && b.illumination == Brightness(trig.lambert(pos, lightPos))
      && forall i :: 0 <= i < |b.moons| ==> Lit(b.moons[i], sun, pos, trig)
  }

  /** `update_illumination`: recompute the illumination of `b` and, unless it
      is the sun, of every moon below it. Nothing but illumination changes. */
  method UpdateIllumination(b: Body, sun: Body, lightPos: Vec2, trig: Trig)
    requires b.Valid()
    modifies b.repr`illumination
    decreases b.repr, 2
    ensures Lit(b, sun, lightPos, trig)
  {
    if b == sun {
      b.illumination := 1.0;
      return;
    }
    var pos := trig.planar(b.distance, b.orbitAngle);
    b.illumination := 0.2 + 0.8 * Max(0.0, trig.lambert(pos, lightPos));
    LightMoons(b, sun, pos, trig);
  }

  /** The loop over the moons in `update_illumination`: each moon's tree is
      lit from `pos`, the position of the body they orbit. */
  method LightMoons(b: Body, sun: Body, pos: Vec2, trig: Trig)
    requires b.Valid()
    modifies b.repr`illumination
    decreases b.repr, 1
    ensures b.illumination == old(b.illumination)
    ensures forall j :: 0 <= j < |b.moons| ==> Lit(b.moons[j], sun, pos, trig)
  {
    for i := 0 to |b.moons|
      invariant b.illumination == old(b.illumination)
      invariant forall j :: 0 <= j < i ==> Lit(b.moons[j], sun, pos, trig)
    {
      LightMoon(b, i, sun, pos, trig);
    }
  }

  /** One pass of that loop: the `i`-th moon's tree is lit, and the trees of
      the moons before it, disjoint from it, stay lit. */
  method LightMoon(b: Body, i: nat, sun: Body, pos: Vec2, trig: Trig)
    requires b.Valid() && i < |b.moons|
    requires forall j :: 0 <= j < i ==> Lit(b.moons[j], sun, pos, trig)
    modifies b.repr`illumination
    decreases b.repr, 0
    ensures b.illumination == old(b.illumination)
    ensures forall j :: 0 <= j <= i ==> Lit(b.moons[j], sun, pos, trig)
  {
    var moon := b.moons[i];
    assert moon.Valid() && moon.repr < b.repr && b !in moon.repr;
    UpdateIllumination(moon, sun, pos, trig);
    forall j | 0 <= j < i
      ensures Lit(b.moons[j], sun, pos, trig)
    {
      assert b.moons[j].repr !! moon.repr;
    }
  }

  /** With a Lambert factor that never exceeds 1, a lit tree that does not
      hold the sun has every illumination in [0.2, 1.0]. */
  lemma {:induction false} LitBounded(b: Body, sun: Body, lightPos: Vec2, trig: Trig)
    requires b.Valid() && sun !in b.repr
    requires forall p, s :: trig.lambert(p, s) <= 1.0
    requires Lit(b, sun, lightPos, trig)
    ensures forall m :: m in b.repr ==> 0.2 <= m.illumination <= 1.0
    decreases b.repr
  {
    var pos := trig.planar(b.distance, b.orbitAngle);
    forall i | 0 <= i < |b.moons|
      ensures forall m :: m in b.moons[i].repr ==> 0.2 <= m.illumination <= 1.0
    {
      LitBounded(b.moons[i], sun, pos, trig);
    }
  }

  /** The lighting half of `SolarSystem.update`: each planet's tree is lit
      from the sun at the origin. Only illumination changes. */
  method LightPlanets(sys: SolarSystem, trig: Trig)
    requires sys.Valid()
    modifies sys.orbiting`illumination
    ensures forall j :: 0 <= j < |sys.planets| ==> Lit(sys.planets[j], sys.sun, Vec2(0.0, 0.0), trig)
  {
    var origin := Vec2(0.0, 0.0);
    for i := 0 to |sys.planets|
      invariant forall j :: 0 <= j < i ==> Lit(sys.planets[j], sys.sun, origin, trig)
    {
      UpdateIllumination(sys.planets[i], sys.sun, origin, trig);
      forall j | 0 <= j < i
        ensures Lit(sys.planets[j], sys.sun, origin, trig)
      {
        assert sys.planets[j].repr !! sys.planets[i].repr;
      }
    }
  }

  /** `SolarSystem.update`: every planet and moon advances one step, the sun
      stays put, and only then is each planet's tree lit from the sun at the
      origin, from the positions just reached. */
  method Frame(sys: SolarSystem, now: real, trig: Trig)
    requires sys.Valid()
    modifies sys`lastTime, sys.orbiting`orbitAngle, sys.orbiting`rotationAngle, sys.orbiting`illumination
    ensures sys.lastTime == now
    ensures forall j, b :: 0 <= j < |sys.planets| && b in sys.planets[j].repr ==> Stepped(b, sys.timeScale)
    ensures sys.sun.orbitAngle == old(sys.sun.orbitAngle) && sys.sun.rotationAngle == old(sys.sun.rotationAngle)
    ensures forall j :: 0 <= j < |sys.planets| ==> Lit(sys.planets[j], sys.sun, Vec2(0.0, 0.0), trig)
  {
    sys.Update(now);
    forall j, b | 0 <= j < |sys.planets| && b in sys.planets[j].repr
      ensures b.orbitAngle == old(b.orbitAngle) + AngleStep(b.orbitalPeriod, sys.timeScale)
      ensures b.rotationAngle == old(b.rotationAngle) + AngleStep(b.rotationPeriod, sys.timeScale)
    {
      assert Stepped(b, sys.timeScale);
    }
    label moved:
    LightPlanets(sys, trig);
    forall j, b | 0 <= j < |sys.planets| && b in sys.planets[j].repr
      ensures Stepped(b, sys.timeScale)
    {
      assert b.orbitAngle == old@moved(b.orbitAngle) && b.rotationAngle == old@moved(b.rotationAngle);
    }
  }

  /** One frame of main4.py's `update_camera_tracking` toward a planet at
      `orbit`: the pan moves three tenths of the way there and the camera
      turns to face it; distance, height and vertical pan stay. */
  function FollowView(c: Camera, orbit: Vec2, trig: Trig): (r: Camera)
    ensures r.distance == c.distance && r.height == c.height && r.y == c.y
    ensures r.x - orbit.x == 0.7 * (c.x - orbit.x) && r.z - orbit.z == 0.7 * (c.z - orbit.z)
    ensures r.angle == trig.heading(orbit.x - r.x, orbit.z - r.z)
  {
    var x := Blend(c.x, orbit.x, 0.3);
    var z := Blend(c.z, orbit.z, 0.3);
    BlendGap(c.x, orbit.x, 0.3);
    BlendGap(c.z, orbit.z, 0.3);
    c.(x := x, z := z, angle := trig.heading(orbit.x - x, orbit.z - z))
  }

  /** The module globals of main4.py and the callbacks that change them. */
  class Controls {
    const system: SolarSystem
    const trig: Trig
    var camera: Camera
    var leftPressed: bool
    var rightPressed: bool
    var mouseX: int
    var mouseY: int
    var selected: Body?
    var tracking: bool

    /** The camera stays in front of its target and the selection is the
        sun, a planet or nothing. */
    ghost predicate Valid()
      reads this
    {
      && system.Valid() && system.Sized()
      && camera.distance > 0.0
      && (selected == null || selected == system.sun || selected in system.planets)
    }

    constructor (system: SolarSystem, trig: Trig)
      requires system.Valid() && system.Sized()
      ensures Valid()
      ensures this.system == system && this.trig == trig
      ensures camera == Initial && !leftPressed && !rightPressed && mouseX == 0 && mouseY == 0
      ensures selected == null && !tracking
    {
      this.system := system;
      this.trig := trig;
      camera := Initial;
      leftPressed := false;
      rightPressed := false;
      mouseX := 0;
      mouseY := 0;
      selected := null;
      tracking := false;
    }

    /** The body a keyboard target names. */
    function BodyOf(t: Target): (b: Body)
      requires system.Valid()
      ensures b == system.sun || b in system.planets
      ensures t == Sun ==> b == system.sun
      ensures t != Sun ==> b == system.planets[PlanetIndex(t)]
    {
      if t == Sun then system.sun else system.planets[PlanetIndex(t)]
    }

    /** `mouse`: a button press or release clears tracking and records the
        button; the wheel zooms without touching tracking. */
    method Mouse(button: int, state: int, x: int, y: int)
      requires Valid()
      modifies this`camera, this`leftPressed, this`rightPressed, this`mouseX, this`mouseY, this`tracking
      ensures Valid()
      ensures mouseX == x && mouseY == y
      ensures leftPressed == (if button == LeftButton then state == ButtonDown else old(leftPressed))
      ensures rightPressed == (if button == RightButton then state == ButtonDown else old(rightPressed))
      ensures tracking == (old(tracking) && button != LeftButton && button != RightButton)
      ensures camera == old(camera).(distance :=
        if button == WheelUp then WheelIn(old(camera.distance))
        else if button == WheelDown then WheelOut(old(camera.distance))
        else old(camera.distance))
    {
      mouseX, mouseY := x, y;
      if button == LeftButton {
        leftPressed := state == ButtonDown;
        tracking := false;
      } else if button == RightButton {
        rightPressed := state == ButtonDown;
        tracking := false;
      } else if button == WheelUp {
        camera := camera.(distance := Max(5.0, camera.distance - 2.0));
      } else if button == WheelDown {
        camera := camera.(distance := camera.distance + 2.0);
      }
    }

    /** `motion`: a drag turns or pans the view, by the offset from the last
        recorded pointer position. */
    method Motion(x: int, y: int)
      requires Valid()
      modifies this`camera, this`mouseX, this`mouseY
      ensures Valid()
      ensures camera == Drag(old(camera), leftPressed, rightPressed, x - old(mouseX), y - old(mouseY))
      ensures mouseX == x && mouseY == y
    {
      var dx := x - mouseX;
      var dy := y - mouseY;
      if leftPressed {
        camera := camera.(angle := camera.angle + dx as real * 0.5, height := camera.height - dy as real * 0.1);
      } else if rightPressed {
        camera := camera.(x := camera.x + dx as real * 0.01, y := camera.y - dy as real * 0.01);
      }
      mouseX, mouseY := x, y;
    }

    /** `center_camera_on_body`: switch tracking on and move to the body's
        centered view. */
    method CenterOnBody(b: Body)
      requires Valid() && (b == system.sun || b in system.planets)
      modifies this`camera, this`tracking
      ensures Valid() && tracking
      ensures camera == CenterView(old(camera), b == system.sun, b.radius, trig.planar(b.distance, b.orbitAngle), trig)
    {
      tracking := true;
      camera := CenterView(camera, b == system.sun, b.radius, trig.planar(b.distance, b.orbitAngle), trig);
    }

    /** `keyboard`: the decoded command's effect. The result is true exactly
        for the quit key, where the program exits and nothing else happens. */
    method Keyboard(key: char, modifiers: int) returns (quit: bool)
      requires Valid()
      modifies this`camera, this`tracking, this`selected, system`timeScale
      ensures Valid()
      ensures quit <==> Decode(key, modifiers) == Quit
      ensures Decode(key, modifiers) == ZoomIn ==>
        camera == old(camera).(distance := KeyZoomIn(old(camera.distance))) && !tracking
      ensures Decode(key, modifiers) == ZoomOut ==>
        camera == old(camera).(distance := KeyZoomOut(old(camera.distance))) && !tracking
      ensures system.timeScale ==
        (if Decode(key, modifiers) == Pause then TogglePause(old(system.timeScale)) else old(system.timeScale))
      ensures Decode(key, modifiers).Select? ==>
        var b := BodyOf(Decode(key, modifiers).target);
        && selected == b && tracking
        && camera == CenterView(old(camera), b == system.sun, b.radius, trig.planar(b.distance, b.orbitAngle), trig)
      ensures !Decode(key, modifiers).Select? ==> selected == old(selected)
      ensures Decode(key, modifiers).Preset? ==>
        && camera == old(camera).(angle := Decode(key, modifiers).angle, height := Decode(key, modifiers).height,
                                  distance := 30.0, x := 0.0, z := 0.0)
        && tracking == old(tracking)
      ensures Decode(key, modifiers) in {Quit, Pause, Ignore} ==>
        camera == old(camera) && tracking == old(tracking)
    {
      var cmd := Decode(key, modifiers);
      quit := false;
      match cmd
      case ZoomIn =>
        camera := camera.(distance := Max(5.0, camera.distance * 0.9));
        tracking := false;
      case ZoomOut =>
        camera := camera.(distance := camera.distance * 1.1);
        tracking := false;
      case Quit =>
        quit := true;
      case Pause =>
        system.timeScale := if system.timeScale > 0.0 then 0.0 else 0.5;
      case Select(t) =>
        selected := BodyOf(t);
        CenterOnBody(selected);
      case Preset(angle, height) =>
        camera := camera.(angle := angle, height := height, distance := 30.0, x := 0.0, z := 0.0);
      case Ignore =>
    }

    /** `update_camera_tracking`: nothing happens unless tracking is on and a
        planet (not the sun) is selected; otherwise one frame of `FollowView`. */
    method UpdateTracking()
      requires Valid()
      modifies this`camera
      ensures Valid()
      ensures !tracking || selected == null || selected == system.sun ==> camera == old(camera)
      ensures tracking && selected != null && selected != system.sun ==>
        camera == FollowView(old(camera), trig.planar(selected.distance, selected.orbitAngle), trig)
    {
      if !tracking || selected == null {
        return;
      }
      if selected == system.sun {
        return;
      }
      camera := FollowView(camera, trig.planar(selected.distance, selected.orbitAngle), trig);
    }
  }
}
