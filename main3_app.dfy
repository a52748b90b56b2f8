/** The interactive controller of main3.py: the module globals become the
    fields of `Controls`, each GLUT callback a method; and the texture cache
    the bodies share. */
module Main3App {
  import opened Orbits
  import opened Views
  import opened Keys

  /** The distance the tracking camera drifts toward for a body. */
  function TrackDistance(radius: real, orbitRadius: real): (d: real)
    ensures radius > 0.0 && orbitRadius >= 0.0 ==> d >= 8.0 * radius > 0.0
    ensures orbitRadius >= 0.0 ==> d >= 8.0 * radius
  {
    radius * 8.0 + orbitRadius * 0.3
  }

  /** One frame of `update_camera_tracking` with a body selected. For the
      sun the view is pinned; for a planet the pan moves part of the way
      toward nine tenths of its position, the angle turns part of the way
      toward it, and the distance drifts toward `TrackDistance`. The height
      and the vertical pan never change. */
  function TrackView(c: Camera, isSun: bool, radius: real, orbitRadius: real, orbit: Vec2, trig: Trig): (r: Camera)
    ensures r.y == c.y && r.height == c.height
    ensures isSun ==> r == c.(distance := 12.0 * radius, angle := 45.0, x := 0.0, z := -10.0 * radius)
    ensures !isSun ==>
      && Min(c.distance, TrackDistance(radius, orbitRadius)) <= r.distance <= Max(c.distance, TrackDistance(radius, orbitRadius))
      && Min(c.x, 0.9 * orbit.x) <= r.x <= Max(c.x, 0.9 * orbit.x)
      && Min(c.z, 0.9 * orbit.z) <= r.z <= Max(c.z, 0.9 * orbit.z)
      && -54.0 <= r.angle - c.angle <= 54.0
    ensures !isSun ==>
      && r.x - 0.9 * orbit.x == (1.0 - 0.2 * DistanceFactor(orbitRadius)) * (c.x - 0.9 * orbit.x)
      && r.z - 0.9 * orbit.z == (1.0 - 0.2 * DistanceFactor(orbitRadius)) * (c.z - 0.9 * orbit.z)
      && r.angle - c.angle == WrapDegrees(trig.heading(orbit.x - r.x, orbit.z - r.z) - c.angle) * (0.3 * DistanceFactor(orbitRadius))
  {
    if isSun then
      c.(distance := radius * 12.0, angle := 45.0, x := 0.0, z := -radius * 10.0)
    else
      var f := DistanceFactor(orbitRadius);
      var pan := TrackPan(c, orbit, f);
      var turn := WrapDegrees(trig.heading(orbit.x - pan.x, orbit.z - pan.z) - c.angle);
      var d := Blend(c.distance, TrackDistance(radius, orbitRadius), 0.05);
      BlendBetween(c.distance, TrackDistance(radius, orbitRadius), 0.05);
      TurnBounded(turn, 0.3 * f);
      c.(x := pan.x, z := pan.z, angle := c.angle + turn * (0.3 * f), distance := d)
  }

  /** The tracking camera's new pan: each coordinate moves the fraction
      `0.2 * f` of the way toward nine tenths of the planet's position. */
  function TrackPan(c: Camera, orbit: Vec2, f: real): (pan: Vec2)
    requires 0.1 <= f <= 1.0
    ensures Min(c.x, 0.9 * orbit.x) <= pan.x <= Max(c.x, 0.9 * orbit.x)
    ensures Min(c.z, 0.9 * orbit.z) <= pan.z <= Max(c.z, 0.9 * orbit.z)
    ensures pan.x - 0.9 * orbit.x == (1.0 - 0.2 * f) * (c.x - 0.9 * orbit.x)
    ensures pan.z - 0.9 * orbit.z == (1.0 - 0.2 * f) * (c.z - 0.9 * orbit.z)
  {
    BlendBetween(c.x, 0.9 * orbit.x, 0.2 * f);
    BlendBetween(c.z, 0.9 * orbit.z, 0.2 * f);
    Vec2(Blend(c.x, 0.9 * orbit.x, 0.2 * f), Blend(c.z, 0.9 * orbit.z, 0.2 * f))
  }

  /** A wrapped turn scaled by at most 0.3 is at most 54 degrees either way. */
  lemma TurnBounded(turn: real, k: real)
    requires -180.0 <= turn <= 180.0 && 0.0 <= k <= 0.3
    ensures -54.0 <= turn * k <= 54.0
  {
    var m := if turn >= 0.0 then turn else -turn;
    assert 0.0 <= m * k <= m * 0.3 by { ScaleBelow(m, k, 0.3); }
    assert m * 0.3 <= 54.0;
    assert turn * k == m * k || turn * k == -(m * k);
  }

  /** Scaling a non-negative quantity by a smaller non-negative factor gives less. */
  lemma ScaleBelow(m: real, k: real, bound: real)
    requires m >= 0.0 && 0.0 <= k <= bound
    ensures 0.0 <= m * k <= m * bound
  {
    assert m * bound - m * k == m * (bound - k);
  }

  /** The tracked distance closes five per cent of its gap to the target each
      frame, so it never overshoots and stays positive. */
  lemma TrackDistanceConverges(c: Camera, radius: real, orbitRadius: real, orbit: Vec2, trig: Trig)
    ensures TrackView(c, false, radius, orbitRadius, orbit, trig).distance - TrackDistance(radius, orbitRadius)
         == 0.95 * (c.distance - TrackDistance(radius, orbitRadius))
  {
    BlendGap(c.distance, TrackDistance(radius, orbitRadius), 0.05);
  }

  /** The module globals of main3.py and the callbacks that change them. */
  class Controls {
    const system: SolarSystem
    const trig: Trig
    var camera: Camera
    var leftPressed: bool
    var rightPressed: bool
    var mouseX: int
    var mouseY: int
    var selected: Body?
    var tracking: bool

    /** The camera stays in front of its target and the selection is the
        sun, a planet or nothing. */
    ghost predicate Valid()
      reads this
    {
      && system.Valid() && system.Sized()
      && camera.distance > 0.0
      && (selected == null || selected == system.sun || selected in system.planets)
    }

    constructor (system: SolarSystem, trig: Trig)
      requires system.Valid() && system.Sized()
      ensures Valid()
      ensures this.system == system && this.trig == trig
      ensures camera == Initial && !leftPressed && !rightPressed && mouseX == 0 && mouseY == 0
      ensures selected == null && !tracking
    {
      this.system := system;
      this.trig := trig;
      camera := Initial;
      leftPressed := false;
      rightPressed := false;
      mouseX := 0;
      mouseY := 0;
      selected := null;
      tracking := false;
    }

    /** The body a keyboard target names. */
    function BodyOf(t: Target): (b: Body)
      requires system.Valid()
      ensures b == system.sun || b in system.planets
      ensures t == Sun ==> b == system.sun
      ensures t != Sun ==> b == system.planets[PlanetIndex(t)]
    {
      if t == Sun then system.sun else system.planets[PlanetIndex(t)]
    }

    /** `mouse`: a button press or release clears tracking and records the
        button; the wheel zooms without touching tracking. */
    method Mouse(button: int, state: int, x: int, y: int)
      requires Valid()
      modifies this`camera, this`leftPressed, this`rightPressed, this`mouseX, this`mouseY, this`tracking
      ensures Valid()
      ensures mouseX == x && mouseY == y
      ensures leftPressed == (if button == LeftButton then state == ButtonDown else old(leftPressed))
      ensures rightPressed == (if button == RightButton then state == ButtonDown else old(rightPressed))
      ensures tracking == (old(tracking) && button != LeftButton && button != RightButton)
      ensures camera == old(camera).(distance :=
        if button == WheelUp then WheelIn(old(camera.distance))
        else if button == WheelDown then WheelOut(old(camera.distance))
        else old(camera.distance))
    {
      mouseX, mouseY := x, y;
      if button == LeftButton {
        leftPressed := state == ButtonDown;
        tracking := false;
      } else if button == RightButton {
        rightPressed := state == ButtonDown;
        tracking := false;
      } else if button == WheelUp {
        camera := camera.(distance := Max(5.0, camera.distance - 2.0));
      } else if button == WheelDown {
        camera := camera.(distance := camera.distance + 2.0);
      }
    }

    /** `motion`: a drag turns or pans the view, by the offset from the last
        recorded pointer position. */
    method Motion(x: int, y: int)
      requires Valid()
      modifies this`camera, this`mouseX, this`mouseY
      ensures Valid()
      ensures camera == Drag(old(camera), leftPressed, rightPressed, x - old(mouseX), y - old(mouseY))
      ensures mouseX == x && mouseY == y
    {
      var dx := x - mouseX;
      var dy := y - mouseY;
      if leftPressed {
        camera := camera.(angle := camera.angle + dx as real * 0.5, height := camera.height - dy as real * 0.1);
      } else if rightPressed {
        camera := camera.(x := camera.x + dx as real * 0.01, y := camera.y - dy as real * 0.01);
      }
      mouseX, mouseY := x, y;
    }

    /** `center_camera_on_body`: switch tracking on and move to the body's
        centered view. */
    method CenterOnBody(b: Body)
      requires Valid() && (b == system.sun || b in system.planets)
      modifies this`camera, this`tracking
      ensures Valid() && tracking
      ensures camera == CenterView(old(camera), b == system.sun, b.radius, trig.planar(b.distance, b.orbitAngle), trig)
    {
      tracking := true;
      camera := CenterView(camera, b == system.sun, b.radius, trig.planar(b.distance, b.orbitAngle), trig);
    }

    /** `keyboard`: the decoded command's effect. The result is true exactly
        for the quit key, where the program exits and nothing else happens. */
    method Keyboard(key: char, modifiers: int) returns (quit: bool)
      requires Valid()
      modifies this`camera, this`tracking, this`selected, system`timeScale
      ensures Valid()
      ensures quit <==> Decode(key, modifiers) == Quit
      ensures Decode(key, modifiers) == ZoomIn ==>
        camera == old(camera).(distance := KeyZoomIn(old(camera.distance))) && !tracking
      ensures Decode(key, modifiers) == ZoomOut ==>
        camera == old(camera).(distance := KeyZoomOut(old(camera.distance))) && !tracking
      ensures system.timeScale ==
        (if Decode(key, modifiers) == Pause then TogglePause(old(system.timeScale)) else old(system.timeScale))
      ensures Decode(key, modifiers).Select? ==>
        var b := BodyOf(Decode(key, modifiers).target);
        && selected == b && tracking
        && camera == CenterView(old(camera), b == system.sun, b.radius, trig.planar(b.distance, b.orbitAngle), trig)
      ensures !Decode(key, modifiers).Select? ==> selected == old(selected)
      ensures Decode(key, modifiers).Preset? ==>
        && camera == old(camera).(angle := Decode(key, modifiers).angle, height := Decode(key, modifiers).height,
                                  distance := 30.0, x := 0.0, z := 0.0)
        && tracking == old(tracking)
      ensures Decode(key, modifiers) in {Quit, Pause, Ignore} ==>
        camera == old(camera) && tracking == old(tracking)
    {
      var cmd := Decode(key, modifiers);
      quit := false;
      match cmd
      case ZoomIn =>
        camera := camera.(distance := Max(5.0, camera.distance * 0.9));
        tracking := false;
      case ZoomOut =>
        camera := camera.(distance := camera.distance * 1.1);
        tracking := false;
      case Quit =>
        quit := true;
      case Pause =>
        system.timeScale := if system.timeScale > 0.0 then 0.0 else 0.5;
      case Select(t) =>
        selected := BodyOf(t);
        CenterOnBody(selected);
      case Preset(angle, height) =>
        camera := camera.(angle := angle, height := height, distance := 30.0, x := 0.0, z := 0.0);
      case Ignore =>
    }

    /** `update_camera_tracking`: nothing happens unless tracking is on and a
        body is selected; otherwise one frame of `TrackView`. */
    method UpdateTracking()
      requires Valid()
      modifies this`camera
      ensures Valid()
      ensures !tracking || selected == null ==> camera == old(camera)
      ensures tracking && selected != null ==>
        camera == TrackView(old(camera), selected == system.sun, selected.radius, selected.distance,
                            trig.planar(selected.distance, selected.orbitAngle), trig)
    {
      if !tracking || selected == null {
        return;
      }
      var b := selected;
      camera := TrackView(camera, b == system.sun, b.radius, b.distance, trig.planar(b.distance, b.orbitAngle), trig);
      assert camera.distance > 0.0 by {
        if b != system.sun {
          assert TrackDistance(b.radius, b.distance) > 0.0;
        }
      }
    }
  }

  /** The texture cache every body shares: image path to texture name.
      `nextId` stands for the graphics library's name generator, which hands
      out fresh positive names. */
  class TextureCache {
    var entries: map<string, int>
    var nextId: int

    /** Every cached name was handed out, and no two paths share one. */
    ghost predicate Valid()
      reads this
    {
      && nextId >= 1
      && (forall p :: p in entries ==> 1 <= entries[p] < nextId)
      && (forall p, q :: p in entries && q in entries && p != q ==> entries[p] != entries[q])
    }

    constructor ()
      ensures Valid() && entries == map[] && nextId == 1
    {
      entries := map[];
      nextId := 1;
    }

    /** `load_texture`: a cached path reuses its name and generates nothing;
        otherwise an image that fails to open (`opens` false) leaves everything
        as it was, and one that opens gets a fresh name, cached under exactly
        that path. */
    method Load(body: Body, path: string, opens: bool)
      requires Valid()
      modifies this, body`textureId
      ensures Valid()
      ensures old(path in entries) ==>
        body.textureId == Some(old(entries[path])) && entries == old(entries) && nextId == old(nextId)
      ensures old(path !in entries) && !opens ==>
        body.textureId == old(body.textureId) && entries == old(entries) && nextId == old(nextId)
      ensures old(path !in entries) && opens ==>
        && body.textureId == Some(old(nextId))
        && entries == old(entries)[path := old(nextId)]
        && nextId == old(nextId) + 1
    {
      if path in entries {
        body.textureId := Some(entries[path]);
        return;
      }
      if !opens {
        return;
      }
      var id := nextId;
      nextId := nextId + 1;
      body.textureId := Some(id);
      entries := entries[path := id];
    }
  }
}
