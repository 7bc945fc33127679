/** The pure formulas of the particle physics ("Vigours" region of
    Sharpex2D/Physics/PhysicProvider.cs): fall velocity, per-axis damping,
    impact damping, elastic and non-elastic impacts and kinetic energy.
    `float` is modelled as `real`, without rounding. */
module Vigours {

  /** Sharpex2D.Math.Vector2: a 2D vector value. */
  datatype Vec = Vec(x: real, y: real) {
    function Plus(o: Vec): Vec { Vec(x + o.x, y + o.y) }
    function Minus(o: Vec): Vec { Vec(x - o.x, y - o.y) }
    function Times(k: real): Vec { Vec(x * k, y * k) }
    function Over(k: real): Vec requires k != 0.0 { Vec(x / k, y / k) }
    function Negated(): Vec { Vec(-x, -y) }
    /** `Length` squared: the source squares `Vector2.Length`. */
    function LengthSquared(): real { x * x + y * y }
  }

  const Zero: Vec := Vec(0.0, 0.0)

  /** A particle as the physics sees it. Identity and shape live outside. */
  datatype Particle = Particle(
    position: Vec,
    velocity: Vec,
    mass: real,
    damping: real,
    elasticity: real,
    gravity: bool)

  /** Damping is `damping / 15` per tick. */
  const DampingDivisor: real := 15.0
  /** Below this absolute elasticity a particle is inelastic. */
  const ElasticityThreshold: real := 0.01
  /** Impacts keep 80/100 of the velocity. */
  const ImpactKeep: real := 80.0 / 100.0
  /** A partner this many times heavier is treated as immovable. */
  const MassRatioCutoff: real := 10.0

  function Abs(r: real): real { if r < 0.0 then -r else r }

  /** MathHelper.Min (not part of this model): the smaller value. */
  function Min(a: real, b: real): real { if a < b then a else b }

  predicate Inelastic(p: Particle) { Abs(p.elasticity) < ElasticityThreshold }

  /** VelocityOfFall: `v = g * t` with `t` the elapsed milliseconds in seconds. */
  function VelocityOfFall(gravity: real, elapsed: real): real
  {
    gravity * (elapsed / 1000.0)
  }

  /** ParticleDamping, exactly as written: the X branch moves the component
      toward zero and stops at zero, the Y branch compares with the opposite
      sign and so never stops at zero. */
  function ParticleDamping(velocity: Vec, damping: real): Vec
  {
    var d := damping / DampingDivisor;
    var xDamped :=
      if velocity.x > 0.0 then (if velocity.x - d >= 0.0 then velocity.x - d else 0.0)
      else (if velocity.x + d <= 0.0 then velocity.x + d else 0.0);
    var yDamped :=
      if velocity.y > 0.0 then (if velocity.y + d >= 0.0 then velocity.y - d else 0.0)
      else (if velocity.y - d <= 0.0 then velocity.y + d else 0.0);
    Vec(xDamped, yDamped)
  }

  /** Reference definition of damping one component: move it `d` toward
      zero, never past zero. */
  function TowardZero(v: real, d: real): real
  {
    if Abs(v) <= d then 0.0 else if v > 0.0 then v - d else v + d
  }

  /** X-damping moves the component toward zero by `damping / 15` and stops
      at zero: it never flips the sign and never increases the magnitude. */
  lemma DampingX(velocity: Vec, damping: real)
    requires damping >= 0.0
    ensures ParticleDamping(velocity, damping).x == TowardZero(velocity.x, damping / DampingDivisor)
    ensures velocity.x >= 0.0 ==> ParticleDamping(velocity, damping).x >= 0.0
    ensures velocity.x <= 0.0 ==> ParticleDamping(velocity, damping).x <= 0.0
    ensures Abs(ParticleDamping(velocity, damping).x) <= Abs(velocity.x)
  {
  }

  /** Y-damping always subtracts `damping / 15` from a positive component and
      adds it otherwise, without a clamp: a zero component becomes `d`, and a
      positive component smaller than `d` changes sign. */
  lemma DampingY(velocity: Vec, damping: real)
    requires damping >= 0.0
    ensures ParticleDamping(velocity, damping).y
      == if velocity.y > 0.0 then velocity.y - damping / DampingDivisor else velocity.y + damping / DampingDivisor
    ensures velocity.y == 0.0 ==> ParticleDamping(velocity, damping).y == damping / DampingDivisor
    ensures 0.0 < velocity.y < damping / DampingDivisor ==> ParticleDamping(velocity, damping).y < 0.0
  {
  }

  /** DampOnImpact: 20% of the velocity is lost on impact. */
  function DampOnImpact(v: Vec): Vec
  {
    Vec(v.x * 80.0 / 100.0, v.y * 80.0 / 100.0)
  }

  /** What ElasticImpact leaves behind: the two argument particles'
      velocities after the call (the source overwrites them in place) and
      the returned pair of velocities. */
  datatype Impact = Impact(first: Vec, second: Vec, result1: Vec, result2: Vec)

  /** Mirroring of the X component, done in place on both arguments. */
  function MirrorX(v: Vec): Vec
  {
    if Abs(v.x) > 0.0 then Vec(-v.x, v.y) else v
  }

  /** One side of the source's elastic-impact formula:
      `v1 * m1 + (v2 * 2 - v1) * m2 / (m1 + m2)`. Only the second term is
      divided by the mass sum (C# precedence). */
  function Exchange(v1: Vec, v2: Vec, m1: real, m2: real): Vec
    requires m1 + m2 > 0.0
  {
    v1.Times(m1).Plus(v2.Times(2.0).Minus(v1).Times(m2).Over(m1 + m2))
  }

  /** ElasticImpact as written. */
  function ElasticImpact(p1: Particle, p2: Particle): Impact
    requires p1.mass > 0.0 && p2.mass > 0.0
  {
    var v1 := MirrorX(p1.velocity);
    var v2 := MirrorX(p2.velocity);
    if p2.mass / p1.mass > MassRatioCutoff then
      var damped := DampOnImpact(v1);
      Impact(damped, v2, damped.Negated().Times(p1.elasticity), v2)
    else if v2 == Zero && Abs(p1.mass - p2.mass) < 0.01 then
      Impact(v1, v2, Zero, v1)
    else
      var elasticity := Min(p1.elasticity, p2.elasticity);
      var u1 := Exchange(v1, v2, p1.mass, p2.mass);
      var u2 := Exchange(v2, v1, p2.mass, p1.mass);
      Impact(v1, v2, DampOnImpact(u1.Times(elasticity)), DampOnImpact(u2.Times(elasticity)))
  }

  /** ElasticImpact always mirrors the X component of both arguments' velocities in place. */
  lemma ElasticMirrorsX(p1: Particle, p2: Particle)
    requires p1.mass > 0.0 && p2.mass > 0.0
    ensures ElasticImpact(p1, p2).second == Vec(-p2.velocity.x, p2.velocity.y)
    ensures p2.mass <= MassRatioCutoff * p1.mass ==> ElasticImpact(p1, p2).first == Vec(-p1.velocity.x, p1.velocity.y)
  {
    RatioAbove(p2.mass, p1.mass, MassRatioCutoff);
  }

  /** A partner more than ten times heavier acts as a wall: the first
      particle comes back with 80% of its (mirrored) velocity, scaled by its
      own elasticity, i.e. `(0.8 e1 vx, -0.8 e1 vy)`; the first argument is
      left holding the damped mirrored velocity; the partner keeps its
      (mirrored) velocity. */
  lemma ElasticHeavyPartner(p1: Particle, p2: Particle)
    requires p1.mass > 0.0 && p2.mass > MassRatioCutoff * p1.mass
    ensures var r := ElasticImpact(p1, p2);
      && r.first == Vec(-p1.velocity.x * ImpactKeep, p1.velocity.y * ImpactKeep)
      && r.result1 == Vec(p1.velocity.x * ImpactKeep * p1.elasticity, -p1.velocity.y * ImpactKeep * p1.elasticity)
      && r.result2 == Vec(-p2.velocity.x, p2.velocity.y)
  {
    RatioAbove(p2.mass, p1.mass, MassRatioCutoff);
    assert MirrorX(p1.velocity) == Vec(-p1.velocity.x, p1.velocity.y);
    Keep(-p1.velocity.x);
    Keep(p1.velocity.y);
  }

  /** A partner at rest (after mirroring) of the same mass within 0.01, and
      not ten times heavier, takes over the first particle's mirrored
      velocity while the first particle stops. */
  lemma ElasticTransfer(p1: Particle, p2: Particle)
    requires p1.mass > 0.0 && 0.0 < p2.mass <= MassRatioCutoff * p1.mass
    requires p2.velocity == Zero && Abs(p1.mass - p2.mass) < 0.01
    ensures ElasticImpact(p1, p2).result1 == Zero
    ensures ElasticImpact(p1, p2).result2 == Vec(-p1.velocity.x, p1.velocity.y)
  {
    RatioAbove(p2.mass, p1.mass, MassRatioCutoff);
    assert MirrorX(p2.velocity) == Zero;
  }

  /** In every other case both particles get `0.8 * min(e1, e2) * u`, with
      `u1 = v1 m1 + (2 v2 - v1) m2 / (m1 + m2)` and `u2` symmetric, where
      `v1`, `v2` are the mirrored velocities (ElasticMirrorsX). */
  lemma ElasticGeneral(p1: Particle, p2: Particle)
    requires p1.mass > 0.0 && 0.0 < p2.mass <= MassRatioCutoff * p1.mass
    requires !(MirrorX(p2.velocity) == Zero && Abs(p1.mass - p2.mass) < 0.01)
    ensures ElasticImpact(p1, p2).result1
      == ExchangeKept(MirrorX(p1.velocity), MirrorX(p2.velocity), p1.mass, p2.mass, Min(p1.elasticity, p2.elasticity))
    ensures ElasticImpact(p1, p2).result2
      == ExchangeKept(MirrorX(p2.velocity), MirrorX(p1.velocity), p2.mass, p1.mass, Min(p1.elasticity, p2.elasticity))
  {
    var m1, m2 := p1.mass, p2.mass;
    RatioAbove(m2, m1, MassRatioCutoff);
    var v1, v2 := MirrorX(p1.velocity), MirrorX(p2.velocity);
    var e := Min(p1.elasticity, p2.elasticity);
    ExchangeAt(v1, v2, m1, m2, e);
    ExchangeAt(v2, v1, m2, m1, e);
  }

  /** The velocity the general branch hands one side: the exchange formula
      `(v1 m1 + (2 v2 - v1) m2 / (m1 + m2)) * e * 0.8`, component by component. */
  function ExchangeKept(v1: Vec, v2: Vec, m1: real, m2: real, e: real): (r: Vec)
    requires m1 + m2 > 0.0
  {
    Vec((v1.x * m1 + (2.0 * v2.x - v1.x) * m2 / (m1 + m2)) * e * ImpactKeep,
        (v1.y * m1 + (2.0 * v2.y - v1.y) * m2 / (m1 + m2)) * e * ImpactKeep)
  }

  /** The damped, scaled exchange velocity, component by component. */
  lemma ExchangeAt(v1: Vec, v2: Vec, m1: real, m2: real, e: real)
    requires m1 + m2 > 0.0
    ensures DampOnImpact(Exchange(v1, v2, m1, m2).Times(e)) == ExchangeKept(v1, v2, m1, m2, e)
  {
    var u := Exchange(v1, v2, m1, m2);
    assert u.x == v1.x * m1 + (2.0 * v2.x - v1.x) * m2 / (m1 + m2);
    assert u.y == v1.y * m1 + (2.0 * v2.y - v1.y) * m2 / (m1 + m2);
    Keep(u.x * e);
    Keep(u.y * e);
  }

  lemma Keep(a: real)
    ensures a * 80.0 / 100.0 == a * ImpactKeep
  {
  }

  lemma RatioAbove(a: real, b: real, k: real)
    requires b > 0.0
    ensures a / b > k <==> a > k * b
  {
    assert a / b * b == a;
    if a / b > k {
      assert a / b * b > k * b;
    } else {
      assert a / b * b <= k * b;
    }
  }

  /** NonElasticImpact as written: `v1 m1 + v2 m2 / (m1 + m2)`; only the
      second term is divided by the mass sum (C# precedence). */
  function NonElasticImpact(p1: Particle, p2: Particle): Vec
    requires p1.mass + p2.mass != 0.0
  {
    p1.velocity.Times(p1.mass).Plus(p2.velocity.Times(p2.mass).Over(p1.mass + p2.mass))
  }

  /** Because of that precedence, the common velocity does not conserve
      momentum: two unit masses, one moving at (2, 0) and one at rest,
      both end at (2, 0), so the momentum doubles from (2, 0) to (4, 0). */
  lemma NonElasticMomentumNotConserved()
    ensures var p1 := Particle(Zero, Vec(2.0, 0.0), 1.0, 0.0, 0.0, false);
      var p2 := Particle(Zero, Zero, 1.0, 0.0, 0.0, false);
      var v := NonElasticImpact(p1, p2);
      v == Vec(2.0, 0.0)
      && v.Times(p1.mass + p2.mass) != p1.velocity.Times(p1.mass).Plus(p2.velocity.Times(p2.mass))
  {
  }

  /** Ekin: `m * |v|^2 / 2`. */
  function Ekin(p: Particle): real
  {
    p.mass * p.velocity.LengthSquared() / 2.0
  }

  /** Kinetic energy of a particle with positive mass is never negative. */
  lemma EkinNonNegative(p: Particle)
    requires p.mass > 0.0
    ensures Ekin(p) >= 0.0
  {
    SquareNonNegative(p.velocity.x);
    SquareNonNegative(p.velocity.y);
    ProductNonNegative(p.mass, p.velocity.LengthSquared());
  }

  lemma SquareNonNegative(b: real)
    ensures b * b >= 0.0
  {
    if b > 0.0 { ProductPositive(b, b); } else if b < 0.0 { ProductPositive(-b, -b); }
  }

  lemma ProductPositive(a: real, b: real)
    requires a > 0.0 && b > 0.0
    ensures a * b > 0.0
  {
  }

  lemma ProductNonNegative(a: real, b: real)
    requires a > 0.0 && b >= 0.0
    ensures a * b >= 0.0
  {
    if b > 0.0 { ProductPositive(a, b); }
  }
}
