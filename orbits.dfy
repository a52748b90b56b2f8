/** Celestial-body kinematics shared by every revision of the visualizer:
    a body owns a tree of moons, and one update advances each body's orbit
    and spin angles by an amount fixed by its periods and the time scale. */
module Orbits {

  datatype Option<T> = None | Some(value: T)

  /** An RGB colour triple, as the body table gives it. */
  datatype Color = Color(r: real, g: real, b: real)

  /** A point of the orbital plane (the scene's y coordinate is always 0 there). */
  datatype Vec2 = Vec2(x: real, z: real)

  /** The transcendental numerics the program takes from its math library,
      left abstract: `planar(d, a)` is (d cos a, d sin a) for an angle a in
      degrees, `heading(dx, dz)` is atan2(dx, dz) in degrees, and
      `lambert(p, s)` is the dot product of the unit vectors of p and p - s. */
  datatype Trig = Trig(planar: (real, real) -> Vec2,
                       heading: (real, real) -> real,
                       lambert: (Vec2, Vec2) -> real)

  /** The visualization speed constant: a body of period P turns 360/(P*10)
      degrees per update at time scale 1. */
  const SpeedFactor: real := 10.0

  /** Degrees a body's angle moves in one update for a period and a time scale. */
  function AngleStep(period: real, timeScale: real): (d: real)
    ensures period <= 0.0 || timeScale == 0.0 ==> d == 0.0
    ensures period > 0.0 && timeScale > 0.0 ==> d > 0.0
    ensures period > 0.0 && timeScale < 0.0 ==> d < 0.0
  {
    if period > 0.0 then 360.0 / (period * SpeedFactor) * timeScale else 0.0
  }

  /** The step is linear in the time scale. */
  lemma StepAdditive(period: real, t1: real, t2: real)
    ensures AngleStep(period, t1 + t2) == AngleStep(period, t1) + AngleStep(period, t2)
  {
  }

  /** A shorter period turns faster. */
  lemma ShorterPeriodTurnsFaster(p1: real, p2: real, timeScale: real)
    requires 0.0 < p1 < p2 && timeScale > 0.0
    ensures AngleStep(p1, timeScale) > AngleStep(p2, timeScale)
  {
    var k := 360.0 / SpeedFactor;
    assert AngleStep(p1, timeScale) == (k / p1) * timeScale;
    assert AngleStep(p2, timeScale) == (k / p2) * timeScale;
    assert k / p1 > k / p2 by {
      assert k / p1 * p1 == k;
      assert k / p2 * p2 == k;
      assert k / p2 * p1 < k / p2 * p2;
    }
  }

  /** The angle after `count` updates at the same time scale. */
  function Repeated(angle: real, period: real, timeScale: real, count: nat): real
  {
    if count == 0 then angle
    else Repeated(angle, period, timeScale, count - 1) + AngleStep(period, timeScale)
  }

  /** `count` updates equal one update with `count` times the time scale. */
  lemma {:induction false} RepeatedIsScaled(angle: real, period: real, timeScale: real, count: nat)
    ensures Repeated(angle, period, timeScale, count) == angle + AngleStep(period, count as real * timeScale)
  {
    if count > 0 {
      RepeatedIsScaled(angle, period, timeScale, count - 1);
      StepAdditive(period, (count - 1) as real * timeScale, timeScale);
    }
  }

  /** The union of the footprints of a list of bodies. */
  ghost function Footprint(bodies: seq<Body>): (s: set<Body>)
    ensures forall b :: b in s ==> exists i :: 0 <= i < |bodies| && b in bodies[i].repr
    ensures forall i, b :: 0 <= i < |bodies| && b in bodies[i].repr ==> b in s
  {
    if bodies == [] then {}
    else Footprint(bodies[..|bodies| - 1]) + bodies[|bodies| - 1].repr
  }

  /** Bodies whose footprints do not overlap. */
  ghost predicate Disjoint(bodies: seq<Body>)
  {
    forall i, j :: 0 <= i < j < |bodies| ==> bodies[i].repr !! bodies[j].repr
  }

  /** A celestial body: fixed configuration, mutable angles and a list of moons. */
  class Body {
    const name: string
    const distance: real
    const orbitalPeriod: real
    const rotationPeriod: real
    const radius: real
    const color: Color
    const moons: seq<Body>
    /** This body and every body below it. */
    ghost const repr: set<Body>

    var orbitAngle: real
    var rotationAngle: real
    var illumination: real
    var textureId: Option<int>

    /** The moons form a tree below this body. */
    ghost predicate Valid()
      decreases repr
    {
      && this in repr
      && (forall i :: 0 <= i < |moons| ==>
            moons[i].repr <= repr && this !in moons[i].repr && moons[i].Valid())
      && Disjoint(moons)
      && (forall b :: b in repr ==> b == this || exists i :: 0 <= i < |moons| && b in moons[i].repr)
    }

    /** Builds a body over already-built, separate moons; the initial orbit
        angle is the program's random draw, taken here as a parameter. */
    constructor (name: string, distance: real, orbitalPeriod: real, rotationPeriod: real,
                 radius: real, color: Color, moons: seq<Body>, initialOrbitAngle: real)
      requires forall i :: 0 <= i < |moons| ==> moons[i].Valid()
      requires Disjoint(moons)
      ensures Valid()
      ensures this.name == name && this.distance == distance
      ensures this.orbitalPeriod == orbitalPeriod && this.rotationPeriod == rotationPeriod
      ensures this.radius == radius && this.color == color && this.moons == moons
      ensures orbitAngle == initialOrbitAngle && rotationAngle == 0.0
      ensures illumination == 1.0 && textureId == None
    {
      this.name := name;
      this.distance := distance;
      this.orbitalPeriod := orbitalPeriod;
      this.rotationPeriod := rotationPeriod;
      this.radius := radius;
      this.color := color;
      this.moons := moons;
      this.repr := {this} + Footprint(moons);
      orbitAngle := initialOrbitAngle;
      rotationAngle := 0.0;
      illumination := 1.0;
      textureId := None;
    }

    /** The angles of this body and of every moon below it move by one step;
        no other field of any body changes. */
    method Update(timeScale: real)
      requires Valid()
      modifies repr`orbitAngle, repr`rotationAngle
      decreases repr
      ensures forall b :: b in repr ==> Stepped(b, timeScale)
    {
      if orbitalPeriod > 0.0 {
        orbitAngle := orbitAngle + 360.0 / (orbitalPeriod * SpeedFactor) * timeScale;
      }
      if rotationPeriod > 0.0 {
        rotationAngle := rotationAngle + 360.0 / (rotationPeriod * SpeedFactor) * timeScale;
      }
      for i := 0 to |moons|
        invariant Stepped(this, timeScale)
        invariant forall j, b :: 0 <= j < i && b in moons[j].repr ==> Stepped(b, timeScale)
        invariant forall j, b :: i <= j < |moons| && b in moons[j].repr ==>
          b.orbitAngle == old(b.orbitAngle) && b.rotationAngle == old(b.rotationAngle)
      {
        label before:
        moons[i].Update(timeScale);
        forall b | b in moons[i].repr
          ensures Stepped(b, timeScale)
        {
          assert old@before(b.orbitAngle) == old(b.orbitAngle);
          assert old@before(b.rotationAngle) == old(b.rotationAngle);
        }
        forall j, b | 0 <= j < |moons| && j != i && b in moons[j].repr
          ensures b.orbitAngle == old@before(b.orbitAngle) && b.rotationAngle == old@before(b.rotationAngle)
        {
          if j < i { assert moons[j].repr !! moons[i].repr; }
          else { assert moons[i].repr !! moons[j].repr; }
        }
      }
      forall b | b in repr
        ensures Stepped(b, timeScale)
      {
        if b != this {
          var j :| 0 <= j < |moons| && b in moons[j].repr;
        }
      }
    }
  }

  /** Both angles of `b` moved by exactly one step at `timeScale`. */
  twostate predicate Stepped(b: Body, timeScale: real)
    reads b
  {
    && b.orbitAngle == old(b.orbitAngle) + AngleStep(b.orbitalPeriod, timeScale)
    && b.rotationAngle == old(b.rotationAngle) + AngleStep(b.rotationPeriod, timeScale)
  }

  /** The sun and the nine planets, with the global time scale. */
  class SolarSystem {
    const sun: Body
    const planets: seq<Body>
    /** Every planet and moon: the bodies an update may advance (the union of
        the planets' trees, as the constructor states). */
    ghost const orbiting: set<Body>
    var timeScale: real
    var lastTime: real

    ghost predicate Valid()
    {
      && |planets| == 9
      && sun.Valid()
      && (forall i :: 0 <= i < |planets| ==>
            planets[i].Valid() && sun.repr !! planets[i].repr && planets[i].repr <= orbiting)
      && Disjoint(planets)
      && sun !in orbiting
    }

    /** Every body the keyboard can select has a positive radius and a
        non-negative orbit radius, as in the program's body table. */
    ghost predicate Sized()
    {
      && sun.radius > 0.0 && sun.distance >= 0.0
      && forall p :: p in planets ==> p.radius > 0.0 && p.distance >= 0.0
    }

    /** The body table is not modelled: the bodies are built by the caller. */
    constructor (sun: Body, planets: seq<Body>, now: real)
      requires |planets| == 9 && sun.Valid()
      requires forall i :: 0 <= i < |planets| ==> planets[i].Valid() && sun.repr !! planets[i].repr
      requires Disjoint(planets)
      ensures Valid()
      ensures this.sun == sun && this.planets == planets && orbiting == Footprint(planets)
      ensures timeScale == 1.0 && lastTime == now
    {
      this.sun := sun;
      this.planets := planets;
      this.orbiting := Footprint(planets);
      assert sun in sun.repr;
      timeScale := 1.0;
      lastTime := now;
    }

    /** One frame: every planet (and, through it, every moon) advances by the
        current time scale; the sun is never advanced. `now` is the clock
        reading the program takes on each frame. */
    method Update(now: real)
      requires Valid()
      modifies this`lastTime, orbiting`orbitAngle, orbiting`rotationAngle
      ensures lastTime == now
      ensures forall j, b :: 0 <= j < |planets| && b in planets[j].repr ==> Stepped(b, timeScale)
      ensures sun.orbitAngle == old(sun.orbitAngle) && sun.rotationAngle == old(sun.rotationAngle)
    {
      var timeScale := this.timeScale;
      for i := 0 to |planets|
        invariant forall j, b :: 0 <= j < i && b in planets[j].repr ==> Stepped(b, timeScale)
        invariant forall j, b :: i <= j < |planets| && b in planets[j].repr ==>
          b.orbitAngle == old(b.orbitAngle) && b.rotationAngle == old(b.rotationAngle)
      {
        label before:
        planets[i].Update(timeScale);
        forall b | b in planets[i].repr
          ensures Stepped(b, timeScale)
        {
          assert old@before(b.orbitAngle) == old(b.orbitAngle);
          assert old@before(b.rotationAngle) == old(b.rotationAngle);
        }
        forall j, b | 0 <= j < |planets| && j != i && b in planets[j].repr
          ensures b.orbitAngle == old@before(b.orbitAngle) && b.rotationAngle == old@before(b.rotationAngle)
        {
          if j < i { assert planets[j].repr !! planets[i].repr; }
          else { assert planets[i].repr !! planets[j].repr; }
        }
      }
      lastTime := now;
    }
  }
}
