/** The input codes and the keyboard handler's dispatch, identical in the three revisions: the
    key is lower-cased, then one `elif` chain picks a command. What each
    command does to the camera differs per revision and lives beside each
    revision's controller. */
module Keys {

  /** GLUT's modifier bits, as `glutGetModifiers` reports them. */
  const Shift: int := 1
  const Ctrl: int := 2
  const Alt: int := 4

  /** GLUT's mouse button codes (3 and 4 are the wheel) and button states. */
  const LeftButton: int := 0
  const RightButton: int := 2
  const WheelUp: int := 3
  const WheelDown: int := 4
  const ButtonDown: int := 0

  /** The bodies the keyboard can select. */
  datatype Target = Sun | Mercury | Venus | Earth | Mars | Jupiter | Saturn | Uranus | Neptune | Pluto

  datatype Command =
    | ZoomIn
    | ZoomOut
    | Quit
    | Pause
    | Select(target: Target)
    | Preset(angle: real, height: real)
    | Ignore

  /** The position of a planet in the system's list of nine planets. */
  function PlanetIndex(t: Target): (i: nat)
    requires t != Sun
    ensures i < 9
  {
    match t
    case Mercury => 0
    case Venus => 1
    case Earth => 2
    case Mars => 3
    case Jupiter => 4
    case Saturn => 5
    case Uranus => 6
    case Neptune => 7
    case Pluto => 8
  }

  /** Distinct planets sit at distinct positions. */
  lemma PlanetIndexInjective(s: Target, t: Target)
    requires s != Sun && t != Sun && PlanetIndex(s) == PlanetIndex(t)
    ensures s == t
  {
  }

  /** `str.lower` on the ASCII letters; other characters are left as they are. */
  function Lower(c: char): (r: char)
    ensures 'A' <= c <= 'Z' ==> 'a' <= r <= 'z' && r as int - c as int == 32
    ensures !('A' <= c <= 'Z') ==> r == c
  {
    if 'A' <= c <= 'Z' then (c as int + 32) as char else c
  }

  /** The handler's `elif` chain, in its order. */
  function Decode(key: char, modifiers: int): (r: Command)
    ensures r == ZoomIn <==> Lower(key) == '+'
    ensures r == ZoomOut <==> Lower(key) == '-'
    ensures r == Quit <==> Lower(key) == 'q'
    ensures r == Pause <==> Lower(key) == 'p'
    ensures r.Select? ==> modifiers == Alt || modifiers == Shift
  {
    var k := Lower(key);
    if k == '+' then ZoomIn
    else if k == '-' then ZoomOut
    else if k == 'q' then Quit
    else if k == 'p' then Pause
    else if k == 's' && modifiers == Alt then Select(Sun)
    else if k == 'm' && modifiers == Alt then Select(Mercury)
    else if k == 'v' && modifiers == Alt then Select(Venus)
    else if k == 't' && modifiers == Alt then Select(Earth)
    else if k == 'm' && modifiers == Shift then Select(Mars)
    else if k == 'j' && modifiers == Alt then Select(Jupiter)
    else if k == 's' && modifiers == Shift then Select(Saturn)
    else if k == 'u' && modifiers == Alt then Select(Uranus)
    else if k == 'n' && modifiers == Alt then Select(Neptune)
    else if k == 'n' && modifiers == Shift then Select(Pluto)
    else if k == 'h' then Preset(0.0, 50.0)
    else if k == 'b' then Preset(0.0, -50.0)
    else if k == 'g' then Preset(90.0, 5.0)
    else if k == 'd' then Preset(270.0, 5.0)
    else if k == 'f' then Preset(0.0, 5.0)
    else if k == 'r' then Preset(180.0, 5.0)
    else Ignore
  }

  /** The one key and modifier state that selects each body. */
  function Shortcut(t: Target): (char, int)
  {
    match t
    case Sun => ('s', Alt)
    case Mercury => ('m', Alt)
    case Venus => ('v', Alt)
    case Earth => ('t', Alt)
    case Mars => ('m', Shift)
    case Jupiter => ('j', Alt)
    case Saturn => ('s', Shift)
    case Uranus => ('u', Alt)
    case Neptune => ('n', Alt)
    case Pluto => ('n', Shift)
  }

  /** Every body is reachable: its shortcut selects it. */
  lemma ShortcutSelects(t: Target)
    ensures Decode(Shortcut(t).0, Shortcut(t).1) == Select(t)
  {
  }

  /** A selection happens only through the selected body's shortcut, up to
      the letter's case; in particular only with exactly Alt or exactly Shift
      held, so Ctrl or a combination of modifiers selects nothing. */
  lemma SelectOnlyByShortcut(key: char, modifiers: int, t: Target)
    requires Decode(key, modifiers) == Select(t)
    ensures (Lower(key), modifiers) == Shortcut(t)
    ensures modifiers == Alt || modifiers == Shift
  {
  }

  /** The zoom, quit, pause and preset keys ignore the modifiers. */
  lemma ModifiersIgnored(key: char, m1: int, m2: int)
    requires !Decode(key, m1).Select? && !Decode(key, m2).Select?
    ensures Decode(key, m1) == Decode(key, m2)
  {
  }

  /** An upper-case letter acts as its lower-case one. */
  lemma CaseIgnored(key: char, modifiers: int)
    ensures Decode(key, modifiers) == Decode(Lower(key), modifiers)
  {
    assert Lower(Lower(key)) == Lower(key);
  }

  /** Every preset faces one of the four quarter turns and sits 50 above,
      50 below or 5 above the plane. */
  lemma PresetsFixed(key: char, modifiers: int)
    requires Decode(key, modifiers).Preset?
    ensures Decode(key, modifiers).angle in {0.0, 90.0, 180.0, 270.0}
    ensures Decode(key, modifiers).height in {50.0, -50.0, 5.0}
    ensures Lower(key) in {'h', 'b', 'g', 'd', 'f', 'r'}
  {
  }
}
