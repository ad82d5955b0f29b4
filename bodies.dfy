/** Bodies of the N-body scenario: point masses with a position, a velocity and a
    coloured glyph. Coordinates are modelled as exact reals. */
module Bodies {

  datatype Color = Red | Green | Yellow | Blue | Magenta | Cyan | Gray | White

  /** The palette new bodies take their colour from, by id modulo 8. */
  const Colours: seq<Color> := [Red, Green, Yellow, Blue, Magenta, Cyan, Gray, White]

  /** The glyph of a live body. */
  const SunGlyph: string := "\U{263C}"

  /** The glyph of a trail marker. */
  const DotGlyph: string := "\U{00B7}"

  datatype Icon = Icon(text: string, color: Color)

  datatype Body = Body(mass: real, x: real, y: real, dx: real, dy: real, icon: Icon)

  /** A pair of reals: a force or a centroid. */
  datatype Vec = Vec(x: real, y: real)
  {
    function Plus(v: Vec): Vec { Vec(x + v.x, y + v.y) }
    function Minus(v: Vec): Vec { Vec(x - v.x, y - v.y) }
  }

  const Zero: Vec := Vec(0.0, 0.0)

  /** What the random number generator contributes to a new body: a position and a
      velocity. */
  datatype Draw = Draw(x: real, y: real, dx: real, dy: real)

  /** The ranges the generator draws from: position in [-50, 50], velocity in
      [-0.1, 0.1] on each axis. */
  predicate InSpawnRange(d: Draw)
  {
    -50.0 <= d.x <= 50.0 && -50.0 <= d.y <= 50.0 && -0.1 <= d.dx <= 0.1 && -0.1 <= d.dy <= 0.1
  }

  /** A new body with id `id`: unit mass, a randomly drawn position and velocity, and
      the palette colour `id % 8`. */
  function RandBody(id: nat, d: Draw): (b: Body)
    requires InSpawnRange(d)
    ensures b.mass == 1.0
    ensures b.icon == Icon(SunGlyph, Colours[id % 8])
    ensures -50.0 <= b.x <= 50.0 && -50.0 <= b.y <= 50.0
    ensures -0.1 <= b.dx <= 0.1 && -0.1 <= b.dy <= 0.1
  {
    Body(1.0, d.x, d.y, d.dx, d.dy, Icon(SunGlyph, Colours[id % 8]))
  }

  /** A trail marker: a massless, motionless dot of the body's colour at its position. */
  function GetTrail(b: Body): (m: Body)
    ensures m.mass == 0.0 && m.dx == 0.0 && m.dy == 0.0
    ensures m.x == b.x && m.y == b.y
    ensures m.icon.color == b.icon.color && m.icon.text == DotGlyph
  {
    Body(0.0, b.x, b.y, 0.0, 0.0, Icon(DotGlyph, b.icon.color))
  }

  /** Rust's `f64::clamp`. */
  function Clamp(v: real, lo: real, hi: real): (r: real)
    requires lo <= hi
    ensures lo <= r <= hi
    ensures lo <= v <= hi ==> r == v
  {
    if v < lo then lo else if v > hi then hi else v
  }

  /** The largest acceleration a step applies on each axis. */
  const MaxAcceleration: real := 0.1

  /** One integration step under `force` over `time`: acceleration force/mass clamped
      to +-0.1 per axis, constant-acceleration motion, then the drag factor applied
      to the velocity. Only position and velocity change. */
  function Step(b: Body, force: Vec, time: real, drag: real): (r: Body)
    requires b.mass != 0.0
    ensures r.mass == b.mass && r.icon == b.icon
  {
    var ddx := Clamp(force.x / b.mass, -MaxAcceleration, MaxAcceleration);
    var ddy := Clamp(force.y / b.mass, -MaxAcceleration, MaxAcceleration);
    b.(x := b.x + b.dx * time + 0.5 * ddx * time * time,
       y := b.y + b.dy * time + 0.5 * ddy * time * time,
       dx := (b.dx + ddx * time) * drag,
       dy := (b.dy + ddy * time) * drag)
  }

  /** Without drag, however large the force, one step changes each velocity
      component by at most 0.1 times the length of the step. */
  lemma StepAccelerationBounded(b: Body, force: Vec, time: real)
    requires b.mass != 0.0
    ensures var r := Step(b, force, time, 1.0);
            var bound := MaxAcceleration * (if time < 0.0 then -time else time);
            -bound <= r.dx - b.dx <= bound && -bound <= r.dy - b.dy <= bound
  {
    var ddx := Clamp(force.x / b.mass, -MaxAcceleration, MaxAcceleration);
    var ddy := Clamp(force.y / b.mass, -MaxAcceleration, MaxAcceleration);
    ClampedTimesBound(ddx, time);
    ClampedTimesBound(ddy, time);
  }

  lemma ClampedTimesBound(a: real, t: real)
    requires -MaxAcceleration <= a <= MaxAcceleration
    ensures var bound := MaxAcceleration * (if t < 0.0 then -t else t);
            -bound <= a * t <= bound
  {
    if t >= 0.0 {
      assert a * t <= MaxAcceleration * t;
      assert -MaxAcceleration * t <= a * t;
    } else {
      assert a * t <= MaxAcceleration * -t;
      assert -(MaxAcceleration * -t) <= a * t;
    }
  }

  /** With no force and a drag factor of 1 a body moves inertially: its velocity is
      kept and its position advances by velocity times time. */
  lemma InertialStep(b: Body, time: real)
    requires b.mass != 0.0
    ensures var r := Step(b, Zero, time, 1.0);
            r.dx == b.dx && r.dy == b.dy && r.x == b.x + b.dx * time && r.y == b.y + b.dy * time
  {
  }
}
