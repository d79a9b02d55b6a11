/**
 * The text cloth of the "remnant" section: configuration, the particle and
 * spring records, the services the drawing library provides, and the pure
 * formulas of the simulation (integration, wind, break probability).
 */
module ClothTypes {

  datatype Option<+T> = None | Some(value: T)

  // ---- Configuration of the sketch ----

  const Txt: string := "Disapper"
  const Cols: nat := 70
  const Rows: nat := 50
  const Spacing: real := 8.0
  const Stiffness: real := 0.08
  const UnpinThreshold: real := 2.0
  const Damping: real := 1.0
  const MaxBreakProbability: real := 0.0002
  const MouseInfluenceRadius: real := 250.0

  // ---- Constants the source writes inline ----

  const Gravity: real := 0.04          // downward push per sub-step
  const WindStrength: real := 0.2      // noise in [0,1) becomes wind in [-0.1, 0.1)
  const NoiseScale: real := 0.01       // particle coordinates to noise coordinates
  const NoiseStep: real := 0.01        // advance of the noise clock per frame
  const MinDistance: real := 0.1       // floor of the relaxation divisor
  const UnpinChance: real := 0.2       // chance that a stretched spring releases pins
  const PickRadius: real := 60.0       // a press further than this from every particle picks nothing
  const SubSteps: nat := 4             // physics sub-steps per frame
  const CanvasHeight: real := 600.0    // the canvas is always 600 pixels high
  const DefaultCanvas: real := 100.0   // p5's canvas is 100 x 100 until setup sizes it
  const GroundMargin: real := 200.0    // groundLevel lies this far below the canvas
  const TopShift: real := 30.0         // the grid is centred, then lifted by this much
  const VisibleStretch: real := 1.2    // springs stretched beyond this ratio are drawn

  /** A glyph-carrying point mass; (oldx, oldy) holds the position one step ago. */
  datatype Particle = Particle(
    x: real, y: real, oldx: real, oldy: real,
    glyph: char, pinned: bool, isEdge: bool, groundLevel: real)

  /**
   * A distance constraint between the particles at indices p1 and p2 of the
   * particle sequence; springs never own their particles.
   */
  datatype Spring = Spring(p1: nat, p2: nat, restLength: real, stiffness: real, currentDist: real)

  /**
   * Services of the drawing library the simulation calls but whose values it
   * does not define: the square root, coherent noise, and the stream of
   * uniform random numbers, read one after the other.
   */
  datatype Oracles = Oracles(sqrt: real -> real, noise: (real, real, real) -> real, random: nat -> real)

  /**
   * The whole mutable state of one sketch: the particle and spring arrays,
   * the dragged particle (an index), the noise clock, how many random numbers
   * have been drawn so far, and the canvas size.
   */
  datatype Cloth = Cloth(
    particles: seq<Particle>, springs: seq<Spring>, dragged: Option<nat>,
    noiseOffset: real, drawn: nat, width: real, height: real)

  /** The Particle constructor: at rest, pinned, not yet marked as an edge. */
  function NewParticle(x: real, y: real, glyph: char, height: real): (r: Particle)
    ensures r.x == r.oldx == x && r.y == r.oldy == y && r.glyph == glyph
    ensures r.pinned && !r.isEdge && r.groundLevel == height + GroundMargin
  {
    Particle(x, y, x, y, glyph, true, false, height + GroundMargin)
  }

  /** The Spring constructor: a spring is created at its rest length. */
  function NewSpring(p1: nat, p2: nat, length: real): (r: Spring)
    ensures r.p1 == p1 && r.p2 == p2 && r.stiffness == Stiffness
    ensures r.restLength == r.currentDist == length
  {
    Spring(p1, p2, length, Stiffness, length)
  }

  /** Particle.applyForce: a force moves the current position directly. */
  function ApplyForce(p: Particle, fx: real, fy: real): (r: Particle)
    ensures r.x - r.oldx == p.x - p.oldx + fx && r.y - r.oldy == p.y - p.oldy + fy
    ensures r.(x := p.x, y := p.y) == p
  {
    p.(x := p.x + fx, y := p.y + fy)
  }

  /**
   * Particle.update: one Verlet step. The velocity is the difference of the
   * current and the previous position; the particle keeps it (times the
   * damping) and is stopped at the ground, the bottom of the canvas.
   */
  function Integrate(p: Particle, height: real): (r: Particle)
    ensures r.oldx == p.x && r.oldy == p.y
    ensures r.x - r.oldx == (p.x - p.oldx) * Damping
    ensures r.y <= height
    ensures r.y == height || r.y - r.oldy == (p.y - p.oldy) * Damping
    ensures p.y + (p.y - p.oldy) * Damping <= height ==> r.y - r.oldy == (p.y - p.oldy) * Damping
    ensures r.(x := p.x, y := p.y, oldx := p.oldx, oldy := p.oldy) == p
  {
    var vx := (p.x - p.oldx) * Damping;
    var vy := (p.y - p.oldy) * Damping;
    var nx := p.x + vx;
    var ny := p.y + vy;
    p.(oldx := p.x, oldy := p.y, x := nx, y := if ny > height then height else ny)
  }

  /** The horizontal wind for a noise sample. */
  function Wind(noise: real): (r: real)
    ensures 0.0 <= noise < 1.0 ==> -0.1 <= r < 0.1
    ensures noise < 0.5 <==> r < 0.0
  {
    (noise - 0.5) * WindStrength
  }

  /** The random jitter p.random(-1, 1) made from a uniform draw u. */
  function Jitter(u: real): (r: real)
    ensures 0.0 <= u < 1.0 ==> -1.0 <= r < 1.0
    ensures (r + 1.0) / 2.0 == u
  {
    -1.0 + u * 2.0
  }

  /** p.constrain */
  function Clamp(v: real, lo: real, hi: real): (r: real)
    requires lo <= hi
    ensures lo <= r <= hi
    ensures lo <= v <= hi ==> r == v
  {
    if v < lo then lo else if v > hi then hi else v
  }

  /** p.dist, with the square root supplied by the library. */
  function Dist(sqrt: real -> real, x1: real, y1: real, x2: real, y2: real): real
  {
    sqrt((x2 - x1) * (x2 - x1) + (y2 - y1) * (y2 - y1))
  }

  /**
   * The chance that a spring breaks in one sub-step when its midpoint is d
   * away from the pointer: d mapped from [0, radius] onto [0, 1], clamped,
   * squared and scaled by the maximum probability.
   */
  function BreakProbability(d: real): (r: real)
    ensures 0.0 <= r <= MaxBreakProbability
    ensures d <= 0.0 ==> r == 0.0
    ensures d >= MouseInfluenceRadius ==> r == MaxBreakProbability
    ensures 0.0 <= d <= MouseInfluenceRadius ==>
              r * MouseInfluenceRadius * MouseInfluenceRadius == MaxBreakProbability * d * d
  {
    var ratio := Clamp(d / MouseInfluenceRadius, 0.0, 1.0);
    assert ratio * ratio <= 1.0 by {
      assert ratio * ratio <= ratio * 1.0;
    }
    MaxBreakProbability * (ratio * ratio)
  }

  /** The break probability never decreases as the midpoint moves away from the pointer. */
  lemma BreakProbabilityMonotone(d1: real, d2: real)
    requires d1 <= d2
    ensures BreakProbability(d1) <= BreakProbability(d2)
  {
    var r1 := Clamp(d1 / MouseInfluenceRadius, 0.0, 1.0);
    var r2 := Clamp(d2 / MouseInfluenceRadius, 0.0, 1.0);
    assert d1 / MouseInfluenceRadius <= d2 / MouseInfluenceRadius;
    assert r1 <= r2;
    assert r1 * r1 <= r1 * r2 <= r2 * r2;
    assert MaxBreakProbability * (r1 * r1) <= MaxBreakProbability * (r2 * r2);
  }

  /**
   * Spring.display draws a spring only when currentDist / restLength exceeds
   * 1.2. A zero rest length makes the ratio Infinity for a positive distance
   * (drawn) and NaN for a zero one (not drawn).
   */
  predicate Visible(s: Spring): (r: bool)
    ensures s.restLength > 0.0 ==> (r <==> s.currentDist > VisibleStretch * s.restLength)
  {
    if s.restLength == 0.0 then s.currentDist > 0.0
    else s.currentDist / s.restLength > VisibleStretch
  }
}
