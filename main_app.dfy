/** The interactive controller of main.py, the first revision: no tracking
    camera, a two-unit keyboard zoom clamped at 10, and a left click that
    selects a body through a list of on-screen buttons. */
module MainApp {
  import opened Orbits
  import opened Views
  import opened Keys

  /** An on-screen button: a rectangle in window coordinates with the y axis
      pointing up, and the body it selects. */
  datatype Button = Button(x: int, y: int, width: int, height: int, body: Body)

  /** The click at (px, py) falls in the button's rectangle, edges included. */
  function Hit(b: Button, px: int, py: int): (r: bool)
    ensures r <==> 0 <= px - b.x <= b.width && 0 <= py - b.y <= b.height
    ensures r ==> b.width >= 0 && b.height >= 0
  {
    b.x <= px <= b.x + b.width && b.y <= py <= b.y + b.height
  }

  /** The first button the click falls in, if any. */
  function FirstHit(buttons: seq<Button>, px: int, py: int): (r: Option<nat>)
    ensures r.Some? ==> r.value < |buttons| && Hit(buttons[r.value], px, py)
    ensures r.Some? ==> forall k :: 0 <= k < r.value ==> !Hit(buttons[k], px, py)
    ensures r.None? ==> forall k :: 0 <= k < |buttons| ==> !Hit(buttons[k], px, py)
  {
    if buttons == [] then None
    else if Hit(buttons[0], px, py) then Some(0)
    else match FirstHit(buttons[1..], px, py)
      case None => None
      case Some(k) => Some(k + 1)
  }

  /** The search loop of `mouse`: scan the buttons in order and stop at the
      first one hit. */
  method FindButton(buttons: seq<Button>, px: int, py: int) returns (found: Option<nat>)
    ensures found == FirstHit(buttons, px, py)
  {
    var i := 0;
    while i < |buttons|
      invariant 0 <= i <= |buttons|
      invariant forall k :: 0 <= k < i ==> !Hit(buttons[k], px, py)
    {
      if Hit(buttons[i], px, py) {
        return Some(i);
      }
      i := i + 1;
    }
    return None;
  }

  /** The view main.py's `center_camera_on_body` moves to: straight over the
      sun from 30 away, or right at a planet's position from 5 away; the
      height is always 5 and the view angle is kept. */
  function FocusView(c: Camera, isSun: bool, orbit: Vec2): (r: Camera)
    ensures r.angle == c.angle && r.y == c.y && r.height == 5.0
    ensures isSun ==> r.x == 0.0 && r.z == 0.0 && r.distance == 30.0
    ensures !isSun ==> r.x == orbit.x && r.z == orbit.z && r.distance == 5.0
  {
    if isSun then c.(x := 0.0, z := 0.0, distance := 30.0, height := 5.0)
    else c.(x := orbit.x, z := orbit.z, distance := 5.0, height := 5.0)
  }

  /** The module globals of main.py and the callbacks that change them. */
  class Controls {
    const system: SolarSystem
    const trig: Trig
    var camera: Camera
    var leftPressed: bool
    var rightPressed: bool
    var mouseX: int
    var mouseY: int
    var selected: Body?
    /** The button list; the program starts it empty and never fills it. */
    var buttons: seq<Button>

    /** The camera stays in front of its target, every button names the sun
        or a planet, and the selection is the sun, a planet or nothing. */
    ghost predicate Valid()
      reads this
    {
      && system.Valid()
      && camera.distance > 0.0
      && (forall i :: 0 <= i < |buttons| ==> buttons[i].body == system.sun || buttons[i].body in system.planets)
      && (selected == null || selected == system.sun || selected in system.planets)
    }

    constructor (system: SolarSystem, trig: Trig)
      requires system.Valid()
      ensures Valid()
      ensures this.system == system && this.trig == trig
      ensures camera == Initial && !leftPressed && !rightPressed && mouseX == 0 && mouseY == 0
      ensures selected == null && buttons == []
    {
      this.system := system;
      this.trig := trig;
      camera := Initial;
      leftPressed := false;
      rightPressed := false;
      mouseX := 0;
      mouseY := 0;
      selected := null;
      buttons := [];
    }

    /** The body a keyboard target names. */
    function BodyOf(t: Target): (b: Body)
      requires system.Valid()
      ensures b == system.sun || b in system.planets
      ensures t == Sun ==> b == system.sun
      ensures t != Sun ==> b == system.planets[PlanetIndex(t)]
    {
      if t == Sun then system.sun else system.planets[PlanetIndex(t)]
    }

    /** `mouse`: a left press selects the body of the first button under the
        pointer, or nothing when no button is there; `windowHeight` flips the
        pointer's y into the buttons' coordinates. A release only records the
        button; the wheel zooms. */
    method Mouse(button: int, state: int, x: int, y: int, windowHeight: int)
      requires Valid()
      modifies this`camera, this`leftPressed, this`rightPressed, this`mouseX, this`mouseY, this`selected
      ensures Valid()
      ensures mouseX == x && mouseY == y
      ensures leftPressed == (if button == LeftButton then state == ButtonDown else old(leftPressed))
      ensures rightPressed == (if button == RightButton then state == ButtonDown else old(rightPressed))
      ensures button == LeftButton && state == ButtonDown ==>
        selected == (match FirstHit(buttons, x, windowHeight - y)
                     case None => null
                     case Some(k) => buttons[k].body)
      ensures !(button == LeftButton && state == ButtonDown) ==> selected == old(selected)
      ensures button == LeftButton && state == ButtonDown && buttons == [] ==> selected == null
      ensures camera == old(camera).(distance :=
        if button == WheelUp then WheelIn(old(camera.distance))
        else if button == WheelDown then WheelOut(old(camera.distance))
        else old(camera.distance))
    {
      mouseX, mouseY := x, y;
      if button == LeftButton {
        leftPressed := state == ButtonDown;
        if state == ButtonDown {
          var glY := windowHeight - y;
          var found := FindButton(buttons, x, glY);
          match found
          case None =>
            selected := null;
          case Some(k) =>
            selected := buttons[k].body;
        }
      } else if button == RightButton {
        rightPressed := state == ButtonDown;
      } else if button == WheelUp {
        camera := camera.(distance := Max(5.0, camera.distance - 2.0));
      } else if button == WheelDown {
        camera := camera.(distance := camera.distance + 2.0);
      }
    }

    /** `motion`: a drag turns or pans the view, by the offset from the last
        recorded pointer position. */
    method Motion(x: int, y: int)
      requires Valid()
      modifies this`camera, this`mouseX, this`mouseY
      ensures Valid()
      ensures camera == Drag(old(camera), leftPressed, rightPressed, x - old(mouseX), y - old(mouseY))
      ensures mouseX == x && mouseY == y
    {
      var dx := x - mouseX;
      var dy := y - mouseY;
      if leftPressed {
        camera := camera.(angle := camera.angle + dx as real * 0.5, height := camera.height - dy as real * 0.1);
      } else if rightPressed {
        camera := camera.(x := camera.x + dx as real * 0.01, y := camera.y - dy as real * 0.01);
      }
      mouseX, mouseY := x, y;
    }

    /** `center_camera_on_body`. */
    method CenterOnBody(b: Body)
      requires Valid()
      modifies this`camera
      ensures Valid()
      ensures camera == FocusView(old(camera), b == system.sun, trig.planar(b.distance, b.orbitAngle))
    {
      if b == system.sun {
        camera := camera.(x := 0.0, z := 0.0, distance := 30.0);
      } else {
        var orbit := trig.planar(b.distance, b.orbitAngle);
        camera := camera.(x := orbit.x, z := orbit.z, distance := 5.0);
      }
      camera := camera.(height := 5.0);
    }

    /** `keyboard`: the decoded command's effect. The result is true exactly
        for the quit key, where the program exits and nothing else happens. */
    method Keyboard(key: char, modifiers: int) returns (quit: bool)
      requires Valid()
      modifies this`camera, this`selected, system`timeScale
      ensures Valid()
      ensures quit <==> Decode(key, modifiers) == Quit
      ensures Decode(key, modifiers) == ZoomIn ==>
        camera == old(camera).(distance := KeyStepIn(old(camera.distance)))
      ensures Decode(key, modifiers) == ZoomOut ==>
        camera == old(camera).(distance := old(camera.distance) + 2.0)
      ensures system.timeScale ==
        (if Decode(key, modifiers) == Pause then TogglePause(old(system.timeScale)) else old(system.timeScale))
      ensures Decode(key, modifiers).Select? ==>
        var b := BodyOf(Decode(key, modifiers).target);
        && selected == b
        && camera == FocusView(old(camera), b == system.sun, trig.planar(b.distance, b.orbitAngle))
      ensures !Decode(key, modifiers).Select? ==> selected == old(selected)
      ensures Decode(key, modifiers).Preset? ==>
        camera == Camera(30.0, Decode(key, modifiers).angle, Decode(key, modifiers).height, 0.0, 0.0, 0.0)
      ensures Decode(key, modifiers) in {Quit, Pause, Ignore} ==> camera == old(camera)
    {
      var cmd := Decode(key, modifiers);
      quit := false;
      match cmd
      case ZoomIn =>
        camera := camera.(distance := Max(10.0, camera.distance - 2.0));
      case ZoomOut =>
        camera := camera.(distance := camera.distance + 2.0);
      case Quit =>
        quit := true;
      case Pause =>
        system.timeScale := if system.timeScale > 0.0 then 0.0 else 0.5;
      case Select(t) =>
        selected := BodyOf(t);
        CenterOnBody(selected);
      case Preset(angle, height) =>
        camera := camera.(angle := angle, height := height, distance := 30.0, x := 0.0, y := 0.0, z := 0.0);
      case Ignore =>
    }
  }

  /** Only the first of two overlapping buttons can ever be selected at a
      point they share. */
  lemma {:induction false} FirstHitPrefers(buttons: seq<Button>, i: nat, j: nat, px: int, py: int)
    requires i < j < |buttons| && Hit(buttons[i], px, py) && Hit(buttons[j], px, py)
    ensures FirstHit(buttons, px, py).Some? && FirstHit(buttons, px, py).value <= i
  {
  }
}
