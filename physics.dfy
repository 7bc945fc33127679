/** The particle step of Sharpex2D/Physics/PhysicProvider.cs.

    Particles are objects in the source; here each one is a `Particle`
    record held under its identity (`Id`) in the provider's `bodies` map,
    which plays the part of the heap. `particles` is the `_particles` list
    of identities, `references` the processed-pair set of the reference
    provider, and `events` the log of `OnPenetration` / `OnRecoil` calls.

    The specification functions below describe one tick value by value;
    the `PhysicProvider` class does the same work in place, statement by
    statement, and its methods are proved equal to those functions. */
module Physics {
  import opened Vigours
  import opened Lists

  /** Object identity of a particle. */
  type Id = nat

  /** The collision manager's `IsIntersecting`, over the two particles'
      identities (which fix their shapes) and current states. */
  type Detector = (Id, Particle, Id, Particle) -> bool

  /** One call of a particle's `OnPenetration` or `OnRecoil`: the particle it
      was called on and the payload. */
  datatype Event =
    | Penetration(target: Id, innerEnergy: real, involved: seq<Id>)
    | Recoil(target: Id, involved: seq<Id>)

  /** LowerBound (floor Y), UpperBound (ceiling Y), BoundLeft, BoundRight. */
  datatype Bounds = Bounds(lower: real, upper: real, left: real, right: real)

  /** What one tick reads from the provider besides the particles. */
  datatype Settings = Settings(bounds: Bounds, enableGravity: bool, gravity: real, elapsed: real)

  /** The state one tick changes. */
  datatype Scene = Scene(bodies: map<Id, Particle>, references: set<set<Id>>, events: seq<Event>)

  /** A landing is within this distance of the floor snaps onto it. */
  const FloorSnap: real := 0.2

  /** The immovable partner a floor hit is resolved against. */
  const FloorDummy: Particle := Particle(Zero, Zero, 99999.0, 0.0, 1.0, false)

  /** Every listed particle exists and every particle has positive mass. */
  predicate Tracked(sc: Scene, list: seq<Id>)
  {
    && (forall id :: id in list ==> id in sc.bodies)
    && (forall id :: id in sc.bodies ==> sc.bodies[id].mass > 0.0)
  }

  /** The pair sweep leaves the set of particles and their masses alone. */
  predicate SameBodies(before: Scene, after: Scene)
  {
    && after.bodies.Keys == before.bodies.Keys
    && (forall id :: id in after.bodies ==> after.bodies[id].mass == before.bodies[id].mass)
  }

  // ---------------------------------------------------------------------
  // Integration of one particle

  /** Gravity, when enabled for the provider and for the particle. */
  function Gravitate(p: Particle, s: Settings): (r: Particle)
    ensures r.position == p.position && r.mass == p.mass
  {
    if s.enableGravity && p.gravity then
      p.(velocity := Vec(p.velocity.x, p.velocity.y + VelocityOfFall(s.gravity, s.elapsed)))
    else p
  }

  /** Gravity changes nothing but the Y velocity, which it raises by exactly
      `gravity * elapsed / 1000`, and only when both switches are on. */
  lemma GravityOnlyY(p: Particle, s: Settings)
    ensures Gravitate(p, s).velocity.x == p.velocity.x
    ensures Gravitate(p, s).velocity.y
      == if s.enableGravity && p.gravity then p.velocity.y + s.gravity * s.elapsed / 1000.0 else p.velocity.y
    ensures Gravitate(p, s).(velocity := p.velocity) == p
  {
  }

  /** The world-bound corrections applied to the candidate position, in the
      source's order: floor, ceiling, left (which mirrors to `+left`),
      right, then the floor snap. */
  function Calibrate(b: Bounds, c: Vec): Vec
  {
    var floored := if c.y >= b.lower then Vec(c.x, b.lower) else c;
    var ceiled := if floored.y <= b.upper then Vec(floored.x, b.upper) else floored;
    var lefted := if ceiled.x <= -b.left then Vec(b.left, ceiled.y) else ceiled;
    var righted := if lefted.x >= b.right then Vec(b.right, lefted.y) else lefted;
    if b.lower - righted.y < FloorSnap then Vec(righted.x, b.lower) else righted
  }

  /** With the ceiling above the floor the committed Y lies between them,
      and a candidate less than 0.2 above the floor (or below it) ends
      exactly on the floor, whatever the ceiling. */
  lemma CalibrateY(b: Bounds, c: Vec)
    ensures b.upper <= b.lower ==> b.upper <= Calibrate(b, c).y <= b.lower
    ensures b.lower - c.y < FloorSnap ==> Calibrate(b, c).y == b.lower
  {
  }

  /** X is only ever moved to `+left` (the mirror of the left bound) or to
      `right`; the left check runs first, so with `left >= right` a particle
      past the left bound ends on the right bound. */
  lemma CalibrateX(b: Bounds, c: Vec)
    ensures c.x <= -b.left && b.left < b.right ==> Calibrate(b, c).x == b.left
    ensures c.x <= -b.left && b.left >= b.right ==> Calibrate(b, c).x == b.right
    ensures -b.left < c.x < b.right ==> Calibrate(b, c).x == c.x
    ensures -b.left < c.x && b.right <= c.x ==> Calibrate(b, c).x == b.right
  {
  }

  /** The response to a floor hit: the particle's new velocity and the event. */
  datatype Landing = Landing(velocity: Vec, event: Event)

  /** A floor hit: an inelastic particle stops and reports its energy; an
      elastic one bounces off an immovable dummy. */
  function FloorImpact(me: Id, p: Particle): Landing
    requires p.mass > 0.0
  {
    if Inelastic(p) then Landing(Zero, Penetration(me, Ekin(p), [me]))
    else Landing(ElasticImpact(p, FloorDummy).result1, Recoil(me, [me]))
  }

  /** An inelastic particle hitting the floor stops dead and reports a
      penetration, with only itself involved, carrying its kinetic energy
      `m (vx^2 + vy^2) / 2`, which is never negative. */
  lemma FloorInelastic(me: Id, p: Particle)
    requires p.mass > 0.0 && Inelastic(p)
    ensures FloorImpact(me, p).velocity == Zero
    ensures FloorImpact(me, p).event
      == Penetration(me, p.mass * (p.velocity.x * p.velocity.x + p.velocity.y * p.velocity.y) / 2.0, [me])
    ensures FloorImpact(me, p).event.innerEnergy >= 0.0
  {
    EkinNonNegative(p);
  }

  /** An elastic particle lighter than a tenth of the dummy bounces back as
      `(0.8 e vx, -0.8 e vy)` and reports a recoil with only itself involved. */
  lemma FloorElastic(me: Id, p: Particle)
    requires 0.0 < p.mass < 9999.9 && !Inelastic(p)
    ensures FloorImpact(me, p).velocity
      == Vec(p.velocity.x * ImpactKeep * p.elasticity, -p.velocity.y * ImpactKeep * p.elasticity)
    ensures FloorImpact(me, p).event == Recoil(me, [me])
  {
    ElasticHeavyPartner(p, FloorDummy);
  }

  /** What integrating one particle produces: its new state, the position it
      had before (for the collision roll-back) and the floor event, if any. */
  datatype Motion = Motion(particle: Particle, before: Vec, events: seq<Event>)

  /** Gravity, damping, the position update, the floor response and the
      world bounds, for the particle `me`. */
  function Integrate(s: Settings, me: Id, p: Particle): (r: Motion)
    requires p.mass > 0.0
    ensures r.particle.mass == p.mass
    ensures r.before == p.position
    ensures |r.events| <= 1
  {
    var g := Gravitate(p, s);
    var d := g.(velocity := ParticleDamping(g.velocity, g.damping));
    var c := d.position.Plus(d.velocity);
    if c.y >= s.bounds.lower then
      var landing := FloorImpact(me, d);
      Motion(d.(velocity := landing.velocity, position := Calibrate(s.bounds, c)), p.position, [landing.event])
    else
      Motion(d.(position := Calibrate(s.bounds, c)), p.position, [])
  }

  /** A particle that does not reach the floor moves by its damped velocity,
      corrected only by the bounds, and fires nothing. */
  lemma IntegrateInFlight(s: Settings, me: Id, p: Particle)
    requires p.mass > 0.0
    requires var g := Gravitate(p, s);
      p.position.y + ParticleDamping(g.velocity, g.damping).y < s.bounds.lower
    ensures var g := Gravitate(p, s);
      var v := ParticleDamping(g.velocity, g.damping);
      && Integrate(s, me, p).particle == p.(velocity := v, position := Calibrate(s.bounds, p.position.Plus(v)))
      && Integrate(s, me, p).events == []
  {
  }

  /** A particle that reaches the floor takes the floor response of its
      damped state, moves by its damped velocity corrected by the bounds,
      and fires exactly the floor event. */
  lemma IntegrateLands(s: Settings, me: Id, p: Particle)
    requires p.mass > 0.0
    requires var g := Gravitate(p, s);
      p.position.y + ParticleDamping(g.velocity, g.damping).y >= s.bounds.lower
    ensures var g := Gravitate(p, s);
      var d := g.(velocity := ParticleDamping(g.velocity, g.damping));
      && Integrate(s, me, p).particle
           == d.(velocity := FloorImpact(me, d).velocity, position := Calibrate(s.bounds, p.position.Plus(d.velocity)))
      && Integrate(s, me, p).events == [FloorImpact(me, d).event]
      && Integrate(s, me, p).particle.position.y == s.bounds.lower
  {
    var g := Gravitate(p, s);
    var d := g.(velocity := ParticleDamping(g.velocity, g.damping));
    CalibrateY(s.bounds, p.position.Plus(d.velocity));
  }

  // ---------------------------------------------------------------------
  // Collision response between two particles

  /** The response to a detected, not yet processed collision of `me` with
      `other`: the pair is recorded first, then both velocities change, both
      particles get the event, and only `me` goes back to `before`. */
  function ResolvePair(sc: Scene, me: Id, other: Id, before: Vec): (r: Scene)
    requires me != other && me in sc.bodies && other in sc.bodies
    requires sc.bodies[me].mass > 0.0 && sc.bodies[other].mass > 0.0
    ensures SameBodies(sc, r)
  {
    var p := sc.bodies[me];
    var q := sc.bodies[other];
    var refs := sc.references + {{me, other}};
    if Inelastic(p) && Inelastic(q) then
      var energyBefore := Abs(Ekin(p) + Ekin(q));
      var v := NonElasticImpact(p, q);
      var energyAfter := Ekin(p);
      var energy := Abs(energyBefore - energyAfter);
      Scene(sc.bodies[me := p.(velocity := v, position := before)][other := q.(velocity := v)], refs,
            sc.events + [Penetration(me, energy, [me, other]), Penetration(other, energy, [me, other])])
    else
      var impact := ElasticImpact(p, q);
      Scene(sc.bodies[me := p.(velocity := impact.result1, position := before)][other := q.(velocity := impact.result2)], refs,
            sc.events + [Recoil(me, [me, other]), Recoil(other, [me, other])])
  }

  /** Two inelastic particles end with the same velocity
      `v1 m1 + v2 m2 / (m1 + m2)`; both get a penetration event whose energy
      is the other particle's kinetic energy (the "after" energy is read
      before the velocities change); only `me` moves back. */
  lemma InelasticPair(sc: Scene, me: Id, other: Id, before: Vec)
    requires me != other && me in sc.bodies && other in sc.bodies
    requires sc.bodies[me].mass > 0.0 && sc.bodies[other].mass > 0.0
    requires Inelastic(sc.bodies[me]) && Inelastic(sc.bodies[other])
    ensures var r := ResolvePair(sc, me, other, before);
      var p, q := sc.bodies[me], sc.bodies[other];
      && r.bodies[me].velocity == NonElasticImpact(p, q)
      && r.bodies[other].velocity == NonElasticImpact(p, q)
      && r.bodies[me].position == before
      && r.bodies[other].position == q.position
      && r.events == sc.events + [Penetration(me, Ekin(q), [me, other]), Penetration(other, Ekin(q), [me, other])]
      && r.references == sc.references + {{me, other}}
  {
    EkinNonNegative(sc.bodies[me]);
    EkinNonNegative(sc.bodies[other]);
  }

  /** Otherwise the two returned velocities of ElasticImpact are applied,
      both particles get a recoil event naming both, and only `me` moves
      back. */
  lemma ElasticPair(sc: Scene, me: Id, other: Id, before: Vec)
    requires me != other && me in sc.bodies && other in sc.bodies
    requires sc.bodies[me].mass > 0.0 && sc.bodies[other].mass > 0.0
    requires !(Inelastic(sc.bodies[me]) && Inelastic(sc.bodies[other]))
    ensures var r := ResolvePair(sc, me, other, before);
      var impact := ElasticImpact(sc.bodies[me], sc.bodies[other]);
      && r.bodies[me].velocity == impact.result1
      && r.bodies[other].velocity == impact.result2
      && r.bodies[me].position == before
      && r.bodies[other].position == sc.bodies[other].position
      && r.events == sc.events + [Recoil(me, [me, other]), Recoil(other, [me, other])]
      && r.references == sc.references + {{me, other}}
  {
  }

  /** A response touches no particle besides the two involved. */
  lemma PairLeavesOthers(sc: Scene, me: Id, other: Id, before: Vec, id: Id)
    requires me != other && me in sc.bodies && other in sc.bodies
    requires sc.bodies[me].mass > 0.0 && sc.bodies[other].mass > 0.0
    requires id in sc.bodies && id != me && id != other
    ensures ResolvePair(sc, me, other, before).bodies[id] == sc.bodies[id]
  {
  }

  // ---------------------------------------------------------------------
  // The pair sweep

  /** One iteration of the sweep: `me` against the particle at some index. */
  function SweepStep(sc: Scene, detect: Detector, me: Id, other: Id, before: Vec): (r: Scene)
    requires me in sc.bodies && other in sc.bodies
    requires forall id :: id in sc.bodies ==> sc.bodies[id].mass > 0.0
    ensures SameBodies(sc, r)
  {
    if other == me || {me, other} in sc.references || !detect(me, sc.bodies[me], other, sc.bodies[other]) then sc
    else ResolvePair(sc, me, other, before)
  }

  /** A pair is resolved exactly when the other particle is a different
      object, the pair is not processed yet and the detector reports an
      intersection; in particular a particle is never paired with itself,
      and an unresolved pair leaves the scene as it was. */
  lemma SweepStepResolves(sc: Scene, detect: Detector, me: Id, other: Id, before: Vec)
    requires me in sc.bodies && other in sc.bodies
    requires forall id :: id in sc.bodies ==> sc.bodies[id].mass > 0.0
    ensures var r := SweepStep(sc, detect, me, other, before);
      var hit := other != me && {me, other} !in sc.references && detect(me, sc.bodies[me], other, sc.bodies[other]);
      && (hit ==> r.references == sc.references + {{me, other}} && |r.references| == |sc.references| + 1)
      && (hit ==> |{me, other}| == 2)
      && (hit ==> |r.events| == |sc.events| + 2 && r.events[..|sc.events|] == sc.events)
      && (!hit ==> r == sc)
  {
    var hit := other != me && {me, other} !in sc.references && detect(me, sc.bodies[me], other, sc.bodies[other]);
    if hit {
      var r := ResolvePair(sc, me, other, before);
      assert |sc.references + {{me, other}}| == |sc.references| + 1;
      assert {me, other} == {me} + {other};
      assert r.events[..|sc.events|] == sc.events;
    }
  }

  /** One iteration moves no particle but `me`, and `me` only to `before`. */
  lemma SweepStepMoves(sc: Scene, detect: Detector, me: Id, other: Id, before: Vec)
    requires me in sc.bodies && other in sc.bodies
    requires forall id :: id in sc.bodies ==> sc.bodies[id].mass > 0.0
    ensures var r := SweepStep(sc, detect, me, other, before);
      && (forall id :: id in sc.bodies && id != me ==> r.bodies[id].position == sc.bodies[id].position)
      && (r.bodies[me].position == sc.bodies[me].position || r.bodies[me].position == before)
  {
  }

  /** The sweep of `me` over the first `k` listed particles. */
  function SweepPrefix(sc: Scene, detect: Detector, list: seq<Id>, me: Id, before: Vec, k: nat): (r: Scene)
    requires k <= |list| && Tracked(sc, list) && me in sc.bodies
    ensures SameBodies(sc, r) && Tracked(r, list)
    decreases k
  {
    if k == 0 then sc
    else
      var prev := SweepPrefix(sc, detect, list, me, before, k - 1);
      SweepStep(prev, detect, me, list[k - 1], before)
  }

  /** The sweep never moves any particle but `me`, and `me` only back to
      `before`. */
  lemma {:induction false} SweepPositions(sc: Scene, detect: Detector, list: seq<Id>, me: Id, before: Vec, k: nat)
    requires k <= |list| && Tracked(sc, list) && me in sc.bodies
    ensures var r := SweepPrefix(sc, detect, list, me, before, k);
      && (forall id :: id in sc.bodies && id != me ==> r.bodies[id].position == sc.bodies[id].position)
      && (r.bodies[me].position == sc.bodies[me].position || r.bodies[me].position == before)
  {
    if k > 0 {
      SweepPositions(sc, detect, list, me, before, k - 1);
      SweepStepMoves(SweepPrefix(sc, detect, list, me, before, k - 1), detect, me, list[k - 1], before);
    }
  }

  /** The sweep only adds references, each of them a pair of `me` with a
      different particle. */
  lemma SweepReferences(sc: Scene, detect: Detector, list: seq<Id>, me: Id, before: Vec, k: nat)
    requires k <= |list| && Tracked(sc, list) && me in sc.bodies
    ensures var r := SweepPrefix(sc, detect, list, me, before, k);
      && sc.references <= r.references
      && (forall ref :: ref in r.references && ref !in sc.references ==> me in ref && |ref| == 2)
  {
    SweepKeepsReferences(sc, detect, list, me, before, k);
    SweepAddsPairs(sc, detect, list, me, before, k);
  }

  lemma {:induction false} SweepKeepsReferences(sc: Scene, detect: Detector, list: seq<Id>, me: Id, before: Vec, k: nat)
    requires k <= |list| && Tracked(sc, list) && me in sc.bodies
    ensures sc.references <= SweepPrefix(sc, detect, list, me, before, k).references
  {
    if k > 0 {
      SweepKeepsReferences(sc, detect, list, me, before, k - 1);
      SweepStepResolves(SweepPrefix(sc, detect, list, me, before, k - 1), detect, me, list[k - 1], before);
    }
  }

  lemma {:induction false} SweepAddsPairs(sc: Scene, detect: Detector, list: seq<Id>, me: Id, before: Vec, k: nat)
    requires k <= |list| && Tracked(sc, list) && me in sc.bodies
    ensures var r := SweepPrefix(sc, detect, list, me, before, k);
      forall ref :: ref in r.references && ref !in sc.references ==> me in ref && |ref| == 2
  {
    if k > 0 {
      SweepAddsPairs(sc, detect, list, me, before, k - 1);
      SweepStepResolves(SweepPrefix(sc, detect, list, me, before, k - 1), detect, me, list[k - 1], before);
    }
  }

  /** The sweep only appends events, two per resolved pair. */
  lemma SweepEvents(sc: Scene, detect: Detector, list: seq<Id>, me: Id, before: Vec, k: nat)
    requires k <= |list| && Tracked(sc, list) && me in sc.bodies
    ensures var r := SweepPrefix(sc, detect, list, me, before, k);
      && |sc.events| <= |r.events|
      && r.events[..|sc.events|] == sc.events
      && |r.events| - |sc.events| == 2 * (|r.references| - |sc.references|)
  {
    SweepKeepsEvents(sc, detect, list, me, before, k);
    SweepCountsEvents(sc, detect, list, me, before, k);
  }

  lemma {:induction false} SweepKeepsEvents(sc: Scene, detect: Detector, list: seq<Id>, me: Id, before: Vec, k: nat)
    requires k <= |list| && Tracked(sc, list) && me in sc.bodies
    ensures var r := SweepPrefix(sc, detect, list, me, before, k);
      |sc.events| <= |r.events| && r.events[..|sc.events|] == sc.events
  {
    if k > 0 {
      SweepKeepsEvents(sc, detect, list, me, before, k - 1);
      var prev := SweepPrefix(sc, detect, list, me, before, k - 1);
      SweepStepResolves(prev, detect, me, list[k - 1], before);
      var r := SweepStep(prev, detect, me, list[k - 1], before);
      assert r.events[..|sc.events|] == r.events[..|prev.events|][..|sc.events|];
    }
  }

  lemma {:induction false} SweepCountsEvents(sc: Scene, detect: Detector, list: seq<Id>, me: Id, before: Vec, k: nat)
    requires k <= |list| && Tracked(sc, list) && me in sc.bodies
    ensures var r := SweepPrefix(sc, detect, list, me, before, k);
      |r.events| - |sc.events| == 2 * (|r.references| - |sc.references|)
  {
    if k > 0 {
      SweepCountsEvents(sc, detect, list, me, before, k - 1);
      SweepStepResolves(SweepPrefix(sc, detect, list, me, before, k - 1), detect, me, list[k - 1], before);
    }
  }

  // ---------------------------------------------------------------------
  // A whole tick

  /** UpdateParticles for `me`: integrate it, log its floor event, then
      sweep it against every listed particle. */
  function UpdateParticle(sc: Scene, s: Settings, detect: Detector, list: seq<Id>, me: Id): (r: Scene)
    requires Tracked(sc, list) && me in sc.bodies
    ensures SameBodies(sc, r) && Tracked(r, list)
  {
    var m := Integrate(s, me, sc.bodies[me]);
    var moved := Scene(sc.bodies[me := m.particle], sc.references, sc.events + m.events);
    SweepPrefix(moved, detect, list, me, m.before, |list|)
  }

  /** The first `k` iterations of Update's loop over the particle list. */
  function TickPrefix(sc: Scene, s: Settings, detect: Detector, list: seq<Id>, k: nat): (r: Scene)
    requires k <= |list| && Tracked(sc, list)
    ensures SameBodies(sc, r) && Tracked(r, list)
    decreases k
  {
    if k == 0 then sc
    else UpdateParticle(TickPrefix(sc, s, detect, list, k - 1), s, detect, list, list[k - 1])
  }

  /** One more iteration of Update's loop updates the next listed particle. */
  lemma TickStep(sc: Scene, s: Settings, detect: Detector, list: seq<Id>, k: nat)
    requires k < |list| && Tracked(sc, list)
    ensures Tracked(TickPrefix(sc, s, detect, list, k), list)
    ensures TickPrefix(sc, s, detect, list, k + 1)
         == UpdateParticle(TickPrefix(sc, s, detect, list, k), s, detect, list, list[k])
  {
  }

  /** A particle listed twice is updated twice in one tick. */
  lemma DuplicateUpdatedTwice(sc: Scene, s: Settings, detect: Detector, me: Id)
    requires Tracked(sc, [me, me])
    ensures TickPrefix(sc, s, detect, [me, me], 2)
      == UpdateParticle(UpdateParticle(sc, s, detect, [me, me], me), s, detect, [me, me], me)
  {
  }

  /** An inelastic particle 0.1 above the floor at 468, moving down
      at 5 per tick with no damping and no gravity, lands on the floor,
      stops, and reports `m * 25 / 2` as penetration energy. */
  lemma LandingScenario(detect: Detector)
    ensures var p := Particle(Vec(0.0, 467.9), Vec(0.0, 5.0), 2.0, 0.0, 0.0, false);
      var s := Settings(Bounds(468.0, -99999.0, 99999.0, 99999.0), false, 9.81, 16.0);
      var r := UpdateParticle(Scene(map[7 := p], {}, []), s, detect, [7], 7);
      && r.bodies[7].position == Vec(0.0, 468.0)
      && r.bodies[7].velocity == Zero
      && r.events == [Penetration(7, 25.0, [7])]
  {
    var p := Particle(Vec(0.0, 467.9), Vec(0.0, 5.0), 2.0, 0.0, 0.0, false);
    var s := Settings(Bounds(468.0, -99999.0, 99999.0, 99999.0), false, 9.81, 16.0);
    var m := Integrate(s, 7, p);
    assert ParticleDamping(p.velocity, 0.0) == Vec(0.0, 5.0);
    assert m.particle.position == Vec(0.0, 468.0);
    assert m.events == [Penetration(7, 25.0, [7])];
  }

  // ---------------------------------------------------------------------
  // The provider object

  class PhysicProvider {
    var lowerBound: real
    var upperBound: real
    var boundLeft: real
    var boundRight: real
    var enableGravity: bool
    var gravity: real
    /** The collision manager's intersection test. */
    const intersects: Detector
    /** `_particles`, in subscription order, duplicates allowed. */
    var particles: seq<Id>
    /** The current state of every particle object known to the model. */
    var bodies: map<Id, Particle>
    /** The processed pairs of the reference provider. */
    var references: set<set<Id>>
    /** Every `OnPenetration` / `OnRecoil` call so far. */
    var events: seq<Event>

    function State(): Scene
      reads this
    {
      Scene(bodies, references, events)
    }

    function Config(elapsed: real): Settings
      reads this
    {
      Settings(Bounds(lowerBound, upperBound, boundLeft, boundRight), enableGravity, gravity, elapsed)
    }

    predicate Valid()
      reads this
    {
      Tracked(State(), particles)
    }

    /** Default bounds: floor 468, ceiling -99999, left and right 99999;
        gravity off. The gravitation constant is a parameter. */
    constructor(gravitation: real, detect: Detector)
      ensures Valid()
      ensures lowerBound == 468.0 && upperBound == -99999.0 && boundLeft == 99999.0 && boundRight == 99999.0
      ensures !enableGravity && gravity == gravitation && intersects == detect
      ensures particles == [] && bodies == map[] && references == {} && events == []
    {
      lowerBound := 468.0;
      upperBound := -99999.0;
      boundLeft := 99999.0;
      boundRight := 99999.0;
      enableGravity := false;
      gravity := gravitation;
      intersects := detect;
      particles := [];
      bodies := map[];
      references := {};
      events := [];
    }

    /** Subscribe: always appends, even a particle already listed. `p` is
        the state of the particle `id`; adding it to the list again leaves
        the state already known for it as it is. */
    method Subscribe(id: Id, p: Particle)
      requires Valid() && p.mass > 0.0
      modifies this
      ensures Valid()
      ensures particles == old(particles) + [id]
      ensures bodies == if id in old(bodies) then old(bodies) else old(bodies)[id := p]
      ensures references == old(references) && events == old(events)
      ensures Config(0.0) == old(Config(0.0))
    {
      particles := particles + [id];
      if id !in bodies {
        bodies := bodies[id := p];
      }
    }

    /** Unsubscribe: removes the first occurrence; nothing if absent. */
    method Unsubscribe(id: Id)
      requires Valid()
      modifies this
      ensures Valid()
      ensures particles == RemoveFirst(old(particles), id)
      ensures id !in old(particles) ==> particles == old(particles)
      ensures bodies == old(bodies) && references == old(references) && events == old(events)
      ensures Config(0.0) == old(Config(0.0))
    {
      RemoveShrinks(particles, id);
      if id !in particles {
        RemoveAbsent(particles, id);
      }
      particles := RemoveFirst(particles, id);
    }

    method AddParticleVelocity(id: Id, velocity: Vec)
      requires Valid() && id in bodies
      modifies this
      ensures Valid()
      ensures bodies == old(bodies)[id := old(bodies)[id].(velocity := old(bodies)[id].velocity.Plus(velocity))]
      ensures particles == old(particles) && references == old(references) && events == old(events)
      ensures Config(0.0) == old(Config(0.0))
    {
      bodies := bodies[id := bodies[id].(velocity := bodies[id].velocity.Plus(velocity))];
    }

    method SetParticleVelocity(id: Id, velocity: Vec)
      requires Valid() && id in bodies
      modifies this
      ensures Valid()
      ensures bodies == old(bodies)[id := old(bodies)[id].(velocity := velocity)]
      ensures particles == old(particles) && references == old(references) && events == old(events)
      ensures Config(0.0) == old(Config(0.0))
    {
      bodies := bodies[id := bodies[id].(velocity := velocity)];
    }

    /** Lines 178-244 of UpdateParticles: gravity, damping, the position
        update, the floor response and the world bounds, in place; returns
        the position saved before the update. */
    method MoveParticle(me: Id, elapsed: real) returns (before: Vec)
      requires Valid() && me in bodies
      modifies this
      ensures Valid()
      ensures var m := Integrate(old(Config(elapsed)), me, old(bodies)[me]);
        && bodies == old(bodies)[me := m.particle] && events == old(events) + m.events
        && before == m.before
      ensures references == old(references)
      ensures particles == old(particles) && Config(elapsed) == old(Config(elapsed))
    {
      ghost var m := Integrate(Config(elapsed), me, bodies[me]);
      var p := bodies[me];
      if enableGravity && p.gravity {
        var fall := VelocityOfFall(gravity, elapsed);
        p := p.(velocity := Vec(p.velocity.x, p.velocity.y + fall));
      }
      before := p.position;
      p := p.(velocity := ParticleDamping(p.velocity, p.damping));
      var calibrated := p.position.Plus(p.velocity);
      if calibrated.y >= lowerBound {
        var velocity := Land(me, p);
        p := p.(velocity := velocity);
      } else {
        assert events == old(events) + [];
      }
      var position := ClampToBounds(calibrated);
      p := p.(position := position);
      assert p == m.particle;
      bodies := bodies[me := p];
    }

    /** Lines 203-220 of UpdateParticles: the floor response. An inelastic
        particle stops and reports its kinetic energy; an elastic one
        bounces off an immovable dummy and reports a recoil. */
    method Land(me: Id, p: Particle) returns (velocity: Vec)
      requires p.mass > 0.0
      modifies this`events
      ensures velocity == FloorImpact(me, p).velocity
      ensures events == old(events) + [FloorImpact(me, p).event]
    {
      if Abs(p.elasticity) < ElasticityThreshold {
        var energy := Ekin(p);
        velocity := Zero;
        events := events + [Penetration(me, energy, [me])];
      } else {
        var callback := ElasticImpact(p, FloorDummy);
        velocity := callback.result1;
        events := events + [Recoil(me, [me])];
      }
    }

    /** Lines 197-244 of UpdateParticles: the world-bound corrections, one
        after the other, and the final floor snap. */
    method ClampToBounds(candidate: Vec) returns (position: Vec)
      ensures position == Calibrate(Config(0.0).bounds, candidate)
    {
      var calibrated := candidate;
      if calibrated.y >= lowerBound {
        calibrated := Vec(calibrated.x, lowerBound);
      }
      if calibrated.y <= upperBound {
        calibrated := Vec(calibrated.x, upperBound);
      }
      if calibrated.x <= -boundLeft {
        calibrated := Vec(boundLeft, calibrated.y);
      }
      if calibrated.x >= boundRight {
        calibrated := Vec(boundRight, calibrated.y);
      }
      position := if lowerBound - calibrated.y < FloorSnap then Vec(calibrated.x, lowerBound) else calibrated;
    }

    /** Lines 255-287 of UpdateParticles: record the pair, then respond to
        the collision of `me` with `other`, in place. */
    method Collide(me: Id, other: Id, before: Vec)
      requires Valid() && me in bodies && other in bodies && me != other
      modifies this
      ensures Valid()
      ensures State() == ResolvePair(old(State()), me, other, before)
      ensures particles == old(particles) && Config(0.0) == old(Config(0.0))
    {
      references := references + {{me, other}};
      var p, q := bodies[me], bodies[other];
      if Abs(p.elasticity) < ElasticityThreshold && Abs(q.elasticity) < ElasticityThreshold {
        var ekinParticle := Abs(Ekin(p) + Ekin(q));
        var callback := NonElasticImpact(p, q);
        var ekinParticleAfter := Ekin(p);
        var energy := Abs(ekinParticle - ekinParticleAfter);
        // Both velocities change and `me` goes back to `before`; the two
        // writes touch different particles, so they are made at once.
        bodies := bodies[me := p.(velocity := callback, position := before)][other := q.(velocity := callback)];
        events := events + [Penetration(me, energy, [me, other])];
        events := events + [Penetration(other, energy, [me, other])];
      } else {
        var callback := ElasticImpact(p, q);
        bodies := bodies[me := p.(velocity := callback.result1, position := before)][other := q.(velocity := callback.result2)];
        events := events + [Recoil(me, [me, other])];
        events := events + [Recoil(other, [me, other])];
      }
    }

    /** UpdateParticles, in place: the result is UpdateParticle of the state
        before the call. The sweep runs over the whole list by index. */
    method UpdateParticles(me: Id, elapsed: real)
      requires Valid() && me in bodies
      modifies this
      ensures Valid()
      ensures State() == UpdateParticle(old(State()), old(Config(elapsed)), intersects, old(particles), me)
      ensures particles == old(particles) && Config(elapsed) == old(Config(elapsed))
    {
      var before := MoveParticle(me, elapsed);
      ghost var moved := State();
      var i := 0;
      while i < |particles|
        invariant 0 <= i <= |particles|
        invariant particles == old(particles) && Config(elapsed) == old(Config(elapsed))
        invariant State() == SweepPrefix(moved, intersects, particles, me, before, i)
        invariant Valid() && me in bodies
      {
        SweepNext(me, before, i, moved);
        i := i + 1;
      }
    }

    /** Iteration `i` of the sweep in UpdateParticles: `me` against the
        `i`-th listed particle, which is skipped when it is `me` itself,
        when the pair was processed already, or when the two do not
        intersect. */
    method SweepNext(me: Id, before: Vec, i: nat, ghost moved: Scene)
      requires i < |particles| && Tracked(moved, particles) && me in moved.bodies
      requires Valid() && me in bodies
      requires State() == SweepPrefix(moved, intersects, particles, me, before, i)
      modifies this
      ensures particles == old(particles) && Config(0.0) == old(Config(0.0))
      ensures Valid() && me in bodies
      ensures State() == SweepPrefix(moved, intersects, particles, me, before, i + 1)
    {
      var other := particles[i];
      if other != me {
        if {me, other} !in references {
          if intersects(me, bodies[me], other, bodies[other]) {
            Collide(me, other, before);
          }
        }
      }
    }

    /** Iteration `k` of Update's loop: UpdateParticles for the `k`-th
        listed particle takes the first `k` iterations to the first `k + 1`. */
    method UpdateNext(k: nat, elapsed: real, ghost s0: Scene, ghost cfg: Settings)
      requires k < |particles| && Tracked(s0, particles) && Valid()
      requires State() == TickPrefix(s0, cfg, intersects, particles, k) && Config(elapsed) == cfg
      modifies this
      ensures Valid() && particles == old(particles) && Config(elapsed) == cfg
      ensures State() == TickPrefix(s0, cfg, intersects, particles, k + 1)
    {
      TickStep(s0, cfg, intersects, particles, k);
      UpdateParticles(particles[k], elapsed);
    }

    /** Update: UpdateParticles for every listed particle, in list order,
        then the references are cleared. */
    method Update(elapsed: real)
      requires Valid()
      modifies this
      ensures Valid()
      ensures var r := TickPrefix(old(State()), old(Config(elapsed)), intersects, old(particles), |old(particles)|);
        bodies == r.bodies && events == r.events
      ensures references == {}
      ensures particles == old(particles) && Config(elapsed) == old(Config(elapsed))
    {
      ghost var s0, cfg := State(), Config(elapsed);
      var k := 0;
      while k < |particles|
        invariant 0 <= k <= |particles|
        invariant particles == old(particles) && Config(elapsed) == cfg
        invariant State() == TickPrefix(s0, cfg, intersects, particles, k)
        invariant Valid()
      {
        UpdateNext(k, elapsed, s0, cfg);
        k := k + 1;
      }
      references := {};
    }
  }
}
