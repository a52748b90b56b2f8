# Solar-system visualizer: kinematics and camera controller

This project models the sequential logic of a GLUT/OpenGL solar-system
visualizer that exists in three revisions: `main.py`, `main3.py` and `main4.py`.

- **Celestial bodies (`Orbits`).** A body has a fixed configuration and a tree
  of moons. One update advances its orbit angle and its spin angle by
  `360 / (period * 10) * time_scale` degrees. Each angle moves only when its
  period is positive, and the update recurses through the moons. The solar
  system advances its nine planets on every frame and never advances the sun.
  This code is identical in the three revisions, so it is modelled once.
- **Camera arithmetic (`Views`).** The camera globals are one `Camera` value.
  This module holds the clamped zooms, the pause toggle, the mouse drag, and
  the convex smoothing steps of the tracking camera. It also holds the
  floor-based angle wrap `(d + 180) % 360 - 180`, the clamped distance factor,
  and the centred view shared by the two later revisions.
- **Key decoding (`Keys`).** The key is lower-cased, then one `elif` chain maps
  it and the modifier state to a command: zoom, quit, pause, select a body, a
  preset view, or nothing. The chain is the same in the three revisions.
- **One controller per revision (`MainApp`, `Main3App`, `Main4App`).** The
  module globals become the fields of a `Controls` object. Each GLUT callback
  (`mouse`, `motion`, `keyboard`, `center_camera_on_body`,
  `update_camera_tracking`) becomes a method whose postcondition gives the
  whole new state. The invariant `Valid` holds across all of them: the camera
  distance stays positive, and the selection is the sun, a planet or nothing.
  In `MainApp`, every on-screen button also names the sun or a planet.
  - `Main3App` adds the texture cache that the bodies share.
  - `Main4App` adds the Lambert illumination of every body after the planets
    move.
  - `MainApp` adds the first-match hit test over the on-screen buttons.

The transcendental numerics are parameters, in the `Trig` value:

- the planar position `d·cos a, d·sin a` of a body;
- the `atan2` heading of the camera;
- the Lambert dot product of unit vectors.

Everything else is exact real arithmetic.

Two Python scoping details are modelled as the code behaves:

- In `main3.py` and `main4.py`, `keyboard` does not list `camera_y` as global.
  The presets' `camera_x = camera_y = camera_z = 0` therefore leaves the global
  `camera_y` unchanged (`Main3App.Controls.Keyboard`, `Main4App.Controls.Keyboard`).
  `main.py` lists it, so its presets also reset y.
- `main3.py`'s `update_camera_tracking` does not list `camera_height` as
  global, so its sun branch leaves the height alone (`Main3App.TrackView`).

Neither is certainly unintended, so neither is treated as a bug in the program.

In `main.py` the button list `planet_buttons` starts empty and no code ever
adds to it. No method may change the list. A left press therefore always
clears the selection (`MainApp.Controls.Mouse`).

## Model

| member | source | states |
|---|---|---|
| Orbits.AngleStep | main3.py:109-114 | The step is zero when the period is not positive or the time scale is 0. Otherwise it has the time scale's sign: a paused simulation does not move, and a positive scale moves forward. |
| Orbits.StepAdditive | main3.py:109-114 | The step is linear in the time scale: the step for t1 + t2 is the sum of the two steps. |
| Orbits.ShorterPeriodTurnsFaster | main3.py:110-111 | At a positive time scale, a body with a shorter positive period gains strictly more angle per update. |
| Orbits.RepeatedIsScaled | main3.py:109-114 | k updates at time scale t move an angle exactly as far as one update at time scale k·t. |
| Orbits.Body.constructor | main3.py:68-83 | A new body keeps its configuration and starts with spin angle 0, illumination 1.0 and no texture. Its orbit angle is the given initial draw. Its moons form a tree below it (`Valid`). |
| Orbits.Body.Update | main3.py:109-117 | Every body in the tree, this one and every moon below it, has both angles advanced by exactly one step at the same time scale. Only the two angles of bodies in the tree may change. main.py:48-57 and main4.py:129-137 hold the same code. |
| Orbits.SolarSystem.constructor | main3.py:401-405 | The system holds nine planets with separate trees, none of which contains the sun. The time scale starts at 1.0 and the clock reading is recorded. |
| Orbits.SolarSystem.Update | main3.py:407-414 | Every planet and every moon advances one step at the current time scale. The sun's angles do not change, so its spin stays at 0. The clock reading is recorded. main.py:239-246 holds the same loop. |
| Views.WheelIn | main3.py:546-547 | Wheel up gives a distance of at least 5, even from below 5. It is d - 2 from d ≥ 7 and exactly 5 at or below 7. |
| Views.WheelRoundTrip | main3.py:546-549 | Wheel down then wheel up restores any distance ≥ 5. From below 5 it lifts the distance to 5. |
| Views.WheelOut | main3.py:548-549 | Wheel down moves exactly two units farther, so it always increases the distance. |
| Views.KeyZoomIn | main3.py:702-704 | '+' gives at least 5. Above 5 it strictly shrinks the distance, to 0.9·d or to the floor 5. |
| Views.KeyZoomOut | main3.py:705-707 | '-' strictly increases a positive distance. |
| Views.KeyStepIn | main.py:584-585 | main.py's '+' gives at least 10. It is d - 2 from d ≥ 12 and exactly 10 at or below 12. |
| Views.ZoomsKeepPositive | main3.py:700-707 | Every zoom, wheel or key and in every revision, keeps a positive distance positive. |
| Views.TogglePause | main3.py:710-711 | 'p' yields 0 or 0.5, and yields 0 exactly when the simulation was running (time scale > 0). |
| Views.ToggleCycles | main3.py:710-711 | After one toggle, toggling twice more returns the same speed. From the initial 1.0, pause then resume gives 0.5. |
| Views.Drag | main3.py:554-568 | With the left button held, the view turns by 0.5·dx and drops by 0.1·dy. Otherwise, with the right button held, it pans by (0.01·dx, -0.01·dy). With neither, nothing changes. The distance never changes. |
| Views.DragComposes | main3.py:557-566 | Two drags with the same buttons held equal one drag by the summed pointer offsets. |
| Views.Blend | main3.py:839-840 | The smoothing step keeps the old value at weight 0, reaches the target at weight 1, and stays put when the two already agree. |
| Views.BlendBetween | main3.py:839-840 | A smoothing step with a weight in [0, 1] lands between the old value and the target. It removes exactly that fraction of the gap. |
| Views.BlendGap | main4.py:712-713 | After a smoothing step of weight t, the gap to the target is (1 - t) times the old gap. |
| Views.DistanceFactor | main3.py:834 | The tracking factor lies in [0.1, 1]. It is the orbit radius over 30 between radii 3 and 30, and it saturates outside that range. |
| Views.Mod360 | main3.py:844 | Python's float `% 360` lies in [0, 360) and differs from its argument by whole turns. |
| Views.WrapDegrees | main3.py:844 | The wrapped angle difference lies in [-180, 180) and differs from the raw difference by whole turns. |
| Views.WrapKeepsSmall | main3.py:844 | A difference already in [-180, 180) is not changed by the wrap. |
| Views.WrapIgnoresTurns | main3.py:844 | Adding a full turn does not change the wrapped difference. |
| Views.CenterView | main3.py:781-810 | Centring puts the camera height at 0.8 radii and keeps y. For the sun: distance 12 radii, angle 45, x = 0, z = -6.4 radii. For a planet: distance 8 radii, pan at 0.9 of the planet's position, facing the planet from there. The distance is positive for a positive radius. |
| Views.CenterBelowZoomFloor | main3.py:797-799 | Nothing keeps the distance ≥ 5. Centring on a planet with a radius below 0.625 puts the camera closer than 5. |
| Keys.PlanetIndex | main3.py:401-402 | Each planet target names a position below 9 in the planet list, in the list's order. |
| Keys.PlanetIndexInjective | main3.py:401-402 | Distinct planet targets name distinct planets. |
| Keys.Decode | main3.py:700-777 | Exactly the keys '+', '-', 'q' and 'p', in either case, give zoom in, zoom out, quit and pause. A selection needs exactly Alt or exactly Shift held. |
| Keys.Lower | main3.py:700 | ASCII capitals map to their lower-case letters, and every other character is unchanged. |
| Keys.ShortcutSelects | main3.py:714-743 | Each of the ten bodies is selected by its own key with exactly Alt or exactly Shift held. |
| Keys.SelectOnlyByShortcut | main3.py:714-743 | A selection happens only through that body's own shortcut, up to letter case, and only with exactly Alt or exactly Shift held. |
| Keys.ModifiersIgnored | main3.py:702-777 | Every command other than a selection is the same whatever modifiers are held. |
| Keys.CaseIgnored | main3.py:700 | A key and its lower-case form decode to the same command. |
| Keys.PresetsFixed | main3.py:746-777 | Only h, b, g, d, f and r give presets. Each has an angle of 0, 90, 180 or 270 and a height of 50, -50 or 5. |
| Main3App.TrackView | main3.py:815-849 | Height and vertical pan are kept. The sun is pinned at distance 12r, angle 45, x = 0, z = -10r. For a planet, with f the distance factor: the distance lands between the old distance and 8r + 0.3·orbit radius, and each pan coordinate closes exactly 0.2·f of its gap to 0.9 of the planet's position. The angle turns by exactly 0.3·f of the wrapped difference to the heading from the new pan toward the planet, which is at most 54 degrees. |
| Main3App.TrackPan | main3.py:838-840 | Each pan coordinate lands between its old value and 0.9 of the planet's position, and closes exactly the fraction 0.2·f of that gap. |
| Main3App.TurnBounded | main3.py:843-845 | A wrapped turn scaled by a factor of at most 0.3 turns the camera at most 54 degrees either way. |
| Main3App.TrackDistance | main3.py:848 | The distance target is at least eight body radii when the orbit radius is not negative, and positive for a positive radius. |
| Main3App.TrackDistanceConverges | main3.py:847-849 | Each tracking frame closes 5% of the gap between the distance and its target. |
| Main3App.Controls.constructor | main3.py:454-468 | The controller starts at distance 80, angle 0, height 5, pan 0, with no buttons held, no selection and tracking off. |
| Main3App.Controls.BodyOf | main3.py:713-743 | A keyboard target names the planet at its index, and `Sun` names the system's sun. |
| Main3App.Controls.Mouse | main3.py:512-551 | Left and right presses and releases record the button and switch tracking off. The wheel gives `WheelIn` or `WheelOut` without touching tracking. The pointer position is always recorded and the selection is kept. `Valid` is preserved. |
| Main3App.Controls.Motion | main3.py:554-568 | The camera becomes `Drag` of the offset from the last recorded pointer, and the pointer is recorded. `Valid` is preserved. |
| Main3App.Controls.CenterOnBody | main3.py:781-810 | Tracking is switched on and the camera becomes `CenterView` of the body at its current position. `Valid` is preserved. |
| Main3App.Controls.Keyboard | main3.py:697-777 | 'q' reports the exit and changes nothing. '+' and '-' zoom and switch tracking off. 'p' toggles the time scale. A shortcut selects and centres the body. A preset sets its angle and height, distance 30 and x = z = 0, and keeps y and tracking. `Valid` is preserved. |
| Main3App.Controls.UpdateTracking | main3.py:815-849 | Nothing changes unless tracking is on and a body is selected. Otherwise the camera becomes `TrackView` of the selected body. `Valid` is preserved, so the distance stays positive. |
| Main3App.TextureCache.constructor | main3.py:85 | The cache starts empty. |
| Main3App.TextureCache.Load | main3.py:87-106 | A cached path reuses its name and allocates nothing. An image that fails to open changes nothing. A new image gets a fresh name, stored under exactly that path. Cached names stay distinct. |
| Main4App.Brightness | main4.py:169-170 | Illumination is at least 0.2 and exactly 0.2 on the night side. It is above 0.2 on the day side and at most 1 when the Lambert factor is at most 1. |
| Main4App.BrightnessMonotone | main4.py:169-170 | A larger Lambert factor never gives less light. |
| Main4App.UpdateIllumination | main4.py:147-174 | The sun gets 1.0. Any other body gets the brightness of its Lambert factor at its current position, and its moons are lit from that position, recursively (`Lit`). Only illumination changes. |
| Main4App.LightMoons | main4.py:172-174 | Each moon's tree is lit from the position of the body it orbits, and that body's own illumination is kept. |
| Main4App.LightMoon | main4.py:172-174 | One pass of the moon loop lights the next moon's tree and keeps the earlier moons' trees lit. Their trees are disjoint from it. The parent's own illumination is kept. |
| Main4App.LitBounded | main4.py:169-170 | In a lit tree without the sun, every illumination lies in [0.2, 1] when the Lambert factor never exceeds 1. |
| Main4App.LightPlanets | main4.py:323-326 | Every planet tree is lit from the sun at the origin, and only illumination changes. |
| Main4App.Frame | main4.py:314-326 | Every planet and moon steps once and the sun does not. Only then is every planet tree lit, from the positions just reached. The clock reading is recorded. |
| Main4App.FollowView | main4.py:708-718 | Distance, height and y are kept, and the pan's gap to the planet shrinks to 0.7 of what it was. The angle becomes the heading from the new pan toward the planet. |
| Main4App.Controls.constructor | main4.py:397-410 | The controller starts at distance 80, angle 0, height 5, pan 0, with no selection and tracking off. |
| Main4App.Controls.BodyOf | main4.py:601-631 | A keyboard target names the planet at its index, and `Sun` names the system's sun. |
| Main4App.Controls.Mouse | main4.py:436-452 | Presses and releases switch tracking off, and the wheel zooms without touching tracking. `Valid` is preserved. |
| Main4App.Controls.Motion | main4.py:454-468 | The camera becomes `Drag` of the pointer offset, and the pointer is recorded. |
| Main4App.Controls.CenterOnBody | main4.py:667-696 | Tracking is switched on and the camera becomes `CenterView` of the body. |
| Main4App.Controls.Keyboard | main4.py:585-665 | Same command effects as main3.py. Presets leave y and tracking unchanged. `Valid` is preserved. |
| Main4App.Controls.UpdateTracking | main4.py:698-718 | Nothing changes when tracking is off, nothing is selected, or the sun is selected. Otherwise the camera becomes `FollowView` of the planet. |
| MainApp.Hit | main.py:357-358 | A click hits a button exactly when its offset from the button's corner lies within the width and height, edges included. Only a rectangle with non-negative sides can be hit. |
| MainApp.FirstHit | main.py:356-363 | The result is the first button whose rectangle, edges included, holds the click. No earlier button holds it. None means that no button holds it. |
| MainApp.FindButton | main.py:356-363 | The scan over the buttons returns exactly `FirstHit`. |
| MainApp.FocusView | main.py:659-676 | For the sun: x = z = 0 and distance 30. For a planet: x, z at its position and distance 5. The height is always 5, and the angle and y are kept. |
| MainApp.FirstHitPrefers | main.py:356-361 | Where two buttons overlap, the earlier one wins. |
| MainApp.Controls.constructor | main.py:537-550 | The controller starts at distance 80, angle 0, height 5, pan 0, with no selection and no buttons. |
| MainApp.Controls.BodyOf | main.py:593-623 | A keyboard target names the planet at its index, and `Sun` names the system's sun. |
| MainApp.Controls.Mouse | main.py:342-372 | A left press selects the body of the first button under (x, window height - y), or nothing. With the empty button list it always clears the selection. A release keeps the selection. The wheel zooms. Every button names the sun or a planet, so `Valid` keeps the selection one of these or nothing. Tracking does not exist here. |
| MainApp.Controls.Motion | main.py:375-389 | The camera becomes `Drag` of the pointer offset, and the pointer is recorded. |
| MainApp.Controls.CenterOnBody | main.py:659-676 | The camera becomes `FocusView` of the body. |
| MainApp.Controls.Keyboard | main.py:578-657 | '+' gives `KeyStepIn` and '-' adds 2. 'p' toggles the time scale. A shortcut selects and focuses the body. A preset sets the whole camera: distance 30, its angle and height, x = y = z = 0. `Valid` is preserved. |

## Left out

- Graphics: all OpenGL, GLU and GLUT calls are left out. This covers drawing, the matrix stack, lighting and material setup, the shadow-map framebuffer, `display`, `show_info` and `reshape`. They are foreign library calls with no state of their own.
- Trigonometry: `cos`, `sin`, `radians`, `atan2`, `degrees` and numpy's `norm` and `dot` are abstract functions in `Trig`. Their values are not modelled.
- Floating point: rounding is not modelled. All arithmetic is exact on reals.
- main3.py's `update_illumination` (main3.py:216-248) is left out. Its sigmoid uses `exp`. Because of this, `Orbits.SolarSystem.Update` models main3.py's `SolarSystem.update` position loop only, not its lighting loop.
- Image loading: PIL image loading and the background and skybox textures are left out. `Main3App.TextureCache.Load` takes whether the image opens as a parameter and models the graphics library's name generator as a counter.
- Body construction: the body table and the constructor's own call to `load_texture` are left out. Bodies are built by the caller, and the random initial orbit angle is a constructor parameter.
- Time: `time.time()` is a parameter, and the unused `delta_time` is not modelled.
- Exit: `os._exit` is modelled as the `quit` result of `Keyboard`.
- Modifiers: `glutGetModifiers` is the `modifiers` parameter.
- Window height: `glutGet(GLUT_WINDOW_HEIGHT)` is the `windowHeight` parameter.
- Keys.Lower: it models `str.lower` on ASCII letters only. The UTF-8 decoding of the key and case mapping of non-ASCII characters are not modelled.
- `idle` is left out. It runs the system update and then the tracking update, which are modelled separately.
- main3.py's `get_body_position` and main4.py's `get_body_position` are left out. They are pure trigonometry, which the model covers by `Trig.planar`.
- test.py is not part of this model. It only opens an empty window.
