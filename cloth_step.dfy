/**
 * One physics sub-step of the cloth, and the per-frame and pointer updates,
 * as functions on the Cloth state: spring relaxation (Spring.update), the
 * unpin and break decisions of updateSprings, integration (updateParticles),
 * the drag override of p.draw, and the pick of p.mousePressed.
 */
module ClothStep {
  import opened ClothTypes

  // ---- Well-formedness ----

  /** Spring s joins two distinct particles of a sequence of n particles. */
  predicate Joins(s: Spring, n: nat)
  {
    s.p1 < n && s.p2 < n && s.p1 != s.p2
  }

  predicate SpringsJoin(ss: seq<Spring>, n: nat)
  {
    forall k :: 0 <= k < |ss| ==> Joins(ss[k], n)
  }

  /**
   * The invariant the sketch keeps: springs join particles of the cloth, the
   * dragged particle exists and is not an edge particle, and every edge
   * particle is pinned.
   */
  predicate Valid(c: Cloth)
  {
    && SpringsJoin(c.springs, |c.particles|)
    && (c.dragged.Some? ==> c.dragged.value < |c.particles| && !c.particles[c.dragged.value].isEdge)
    && EdgesPinned(c.particles)
  }

  predicate EdgesPinned(ps: seq<Particle>)
  {
    forall j :: 0 <= j < |ps| ==> ps[j].isEdge ==> ps[j].pinned
  }

  // ---- Spring.update ----

  /** The current distance between the endpoints of s. */
  function Span(ps: seq<Particle>, s: Spring, sqrt: real -> real): real
    requires s.p1 < |ps| && s.p2 < |ps|
  {
    Dist(sqrt, ps[s.p1].x, ps[s.p1].y, ps[s.p2].x, ps[s.p2].y)
  }

  /** The relaxation divisor: the distance, but never below 0.1. */
  function Floored(distance: real): (r: real)
    ensures r >= MinDistance
    ensures distance >= MinDistance ==> r == distance
  {
    if distance < MinDistance then MinDistance else distance
  }

  /** Relaxation moves particle j only if it is neither pinned nor dragged. */
  predicate Free(ps: seq<Particle>, j: nat, dragged: Option<nat>)
    requires j < |ps|
  {
    !ps[j].pinned && dragged != Some(j)
  }

  function Shift(p: Particle, dx: real, dy: real): Particle
  {
    p.(x := p.x + dx, y := p.y + dy)
  }

  /**
   * The endpoint moves of Spring.update for the offset (ox, oy): p1 moves
   * back by it, then p2 forward by it, each only if it is free.
   */
  function MoveEnds(ps: seq<Particle>, s: Spring, dragged: Option<nat>, ox: real, oy: real): (r: seq<Particle>)
    requires s.p1 < |ps| && s.p2 < |ps|
    ensures |r| == |ps|
  {
    var ps1 := if Free(ps, s.p1, dragged) then ps[s.p1 := Shift(ps[s.p1], -ox, -oy)] else ps;
    if Free(ps1, s.p2, dragged) then ps1[s.p2 := Shift(ps1[s.p2], ox, oy)] else ps1
  }

  /**
   * The share of a separation d that each free endpoint moves: d times the
   * relative length error (restLength - distance) / distance, halved, times
   * the stiffness.
   */
  function Offset(d: real, s: Spring, distance: real): real
    requires distance != 0.0
  {
    d * ((s.restLength - distance) / distance) * 0.5 * s.stiffness
  }

  /**
   * Spring.update's relaxation: each free endpoint moves along the spring by
   * its offset, where the distance is floored at 0.1; p1 and p2 move in
   * opposite directions.
   */
  function RelaxParticles(ps: seq<Particle>, s: Spring, dragged: Option<nat>, sqrt: real -> real): (r: seq<Particle>)
    requires s.p1 < |ps| && s.p2 < |ps|
    ensures |r| == |ps|
  {
    var dx := ps[s.p2].x - ps[s.p1].x;
    var dy := ps[s.p2].y - ps[s.p1].y;
    var distance := Floored(Span(ps, s, sqrt));
    MoveEnds(ps, s, dragged, Offset(dx, s, distance), Offset(dy, s, distance))
  }

  /** Spring.update records the unfloored distance in currentDist. */
  function Measure(ps: seq<Particle>, s: Spring, sqrt: real -> real): (r: Spring)
    requires s.p1 < |ps| && s.p2 < |ps|
    ensures r.p1 == s.p1 && r.p2 == s.p2 && r.restLength == s.restLength && r.stiffness == s.stiffness
  {
    s.(currentDist := Span(ps, s, sqrt))
  }

  // ---- Unpin and break decisions of updateSprings ----

  predicate TouchesDragged(s: Spring, dragged: Option<nat>)
  {
    dragged.Some? && (s.p1 == dragged.value || s.p2 == dragged.value)
  }

  function Unpin(ps: seq<Particle>, j: nat): (r: seq<Particle>)
    requires j < |ps|
    ensures |r| == |ps|
  {
    ps[j := ps[j].(pinned := false)]
  }

  /**
   * The releases updateSprings performs when a stretched spring wins its
   * draw: a pinned non-edge endpoint is freed when its partner is already
   * free, and both pinned non-edge endpoints are freed when the spring
   * touches the dragged particle. The checks run one after the other.
   */
  function UnpinEnds(ps: seq<Particle>, s: Spring, dragged: Option<nat>): (r: seq<Particle>)
    requires s.p1 < |ps| && s.p2 < |ps|
    ensures |r| == |ps|
  {
    var a, b := s.p1, s.p2;
    var ps1 := if !ps[a].pinned && ps[b].pinned && !ps[b].isEdge then Unpin(ps, b) else ps;
    var ps2 := if !ps1[b].pinned && ps1[a].pinned && !ps1[a].isEdge then Unpin(ps1, a) else ps1;
    if TouchesDragged(s, dragged) then
      var ps3 := if ps2[a].pinned && !ps2[a].isEdge then Unpin(ps2, a) else ps2;
      if ps3[b].pinned && !ps3[b].isEdge then Unpin(ps3, b) else ps3
    else
      ps2
  }

  /** The spring stretch that makes unpinning possible. */
  predicate Overstretched(s: Spring)
  {
    s.currentDist > s.restLength * UnpinThreshold
  }

  /** The midpoint of spring s. */
  function CenterX(ps: seq<Particle>, s: Spring): real
    requires s.p1 < |ps| && s.p2 < |ps|
  {
    (ps[s.p1].x + ps[s.p2].x) / 2.0
  }

  function CenterY(ps: seq<Particle>, s: Spring): real
    requires s.p1 < |ps| && s.p2 < |ps|
  {
    (ps[s.p1].y + ps[s.p2].y) / 2.0
  }

  /**
   * One iteration of updateSprings, at index i: relax spring i and record its
   * length; if it is overstretched, draw a number and maybe release pins;
   * unless it touches the dragged particle, draw again and remove it with the
   * break probability of its midpoint's distance to the pointer.
   */
  function SpringStep(c: Cloth, i: nat, mouseX: real, mouseY: real, o: Oracles): (r: Cloth)
    requires i < |c.springs| && SpringsJoin(c.springs, |c.particles|)
    ensures |r.particles| == |c.particles| && SpringsJoin(r.springs, |r.particles|)
    ensures |c.springs| - 1 <= |r.springs| <= |c.springs|
    ensures r.dragged == c.dragged && r.noiseOffset == c.noiseOffset
    ensures r.width == c.width && r.height == c.height
    ensures c.drawn <= r.drawn <= c.drawn + 2
  {
    var s := c.springs[i];
    assert Joins(s, |c.particles|);
    var s1 := Measure(c.particles, s, o.sqrt);
    var ps1 := RelaxParticles(c.particles, s, c.dragged, o.sqrt);
    var stretched := Overstretched(s1);
    var ps2 := if stretched && o.random(c.drawn) < UnpinChance then UnpinEnds(ps1, s1, c.dragged) else ps1;
    var drawn1 := if stretched then c.drawn + 1 else c.drawn;
    var ss1 := c.springs[i := s1];
    if TouchesDragged(s1, c.dragged) then
      c.(particles := ps2, springs := ss1, drawn := drawn1)
    else
      var d := Dist(o.sqrt, CenterX(ps2, s1), CenterY(ps2, s1), mouseX, mouseY);
      var broken := o.random(drawn1) < BreakProbability(d);
      c.(particles := ps2, springs := if broken then ss1[..i] + ss1[i + 1..] else ss1,
         drawn := drawn1 + 1)
  }

  /** updateSprings: the iterations for indices n - 1 down to 0. */
  function SpringsPass(c: Cloth, n: nat, mouseX: real, mouseY: real, o: Oracles): (r: Cloth)
    requires n <= |c.springs| && SpringsJoin(c.springs, |c.particles|)
    ensures |r.particles| == |c.particles| && SpringsJoin(r.springs, |r.particles|)
    ensures |c.springs| - n <= |r.springs| <= |c.springs|
    ensures r.dragged == c.dragged && r.noiseOffset == c.noiseOffset
    ensures r.width == c.width && r.height == c.height
    ensures c.drawn <= r.drawn <= c.drawn + 2 * n
    decreases n
  {
    if n == 0 then c
    else SpringsPass(SpringStep(c, n - 1, mouseX, mouseY, o), n - 1, mouseX, mouseY, o)
  }

  /** The first iteration of a pass of n + 1 springs handles the spring at index n. */
  lemma SpringsPassUnfold(c: Cloth, n: nat, mouseX: real, mouseY: real, o: Oracles)
    requires n < |c.springs| && SpringsJoin(c.springs, |c.particles|)
    ensures SpringsPass(c, n + 1, mouseX, mouseY, o)
         == SpringsPass(SpringStep(c, n, mouseX, mouseY, o), n, mouseX, mouseY, o)
  {
  }

  // ---- updateParticles ----

  /** The wind sampled at particle p. */
  function WindAt(p: Particle, c: Cloth, o: Oracles): real
  {
    Wind(o.noise(p.x * NoiseScale, p.y * NoiseScale, c.noiseOffset))
  }

  /**
   * updateParticles for particle j: unless pinned or dragged, push it down
   * by gravity, then sideways by the wind sampled at its new position, then
   * integrate.
   */
  function Advance(p: Particle, j: nat, c: Cloth, o: Oracles): (r: Particle)
    ensures p.pinned || c.dragged == Some(j) ==> r == p
    ensures !p.pinned && c.dragged != Some(j) ==> r.y <= c.height
    ensures r.(x := p.x, y := p.y, oldx := p.oldx, oldy := p.oldy) == p
  {
    if p.pinned || c.dragged == Some(j) then p
    else
      var fallen := ApplyForce(p, 0.0, Gravity);
      Integrate(ApplyForce(fallen, WindAt(fallen, c, o), 0.0), c.height)
  }

  /** The first n particles of c, each advanced as updateParticles does. */
  function AdvanceAll(c: Cloth, n: nat, o: Oracles): (r: seq<Particle>)
    requires n <= |c.particles|
    ensures |r| == n
    ensures forall j :: 0 <= j < n ==> r[j] == Advance(c.particles[j], j, c, o)
  {
    if n == 0 then [] else AdvanceAll(c, n - 1, o) + [Advance(c.particles[n - 1], n - 1, c, o)]
  }

  /** updateParticles: every particle advanced, all against the same state c. */
  function ParticlesPass(c: Cloth, o: Oracles): (r: Cloth)
    ensures |r.particles| == |c.particles| && r.springs == c.springs
    ensures r.(particles := c.particles) == c
  {
    c.(particles := AdvanceAll(c, |c.particles|, o))
  }

  // ---- p.draw ----

  /**
   * The drag override of p.draw: the dragged particle jumps to the pointer
   * plus a jitter of p.random(-1, 1) on each axis, and is unpinned.
   */
  function DragOverride(c: Cloth, mouseX: real, mouseY: real, o: Oracles): (r: Cloth)
    requires c.dragged.Some? ==> c.dragged.value < |c.particles|
    ensures |r.particles| == |c.particles| && r.springs == c.springs && r.dragged == c.dragged
  {
    match c.dragged
    case None => c
    case Some(k) =>
      var held := c.particles[k].(x := mouseX, y := mouseY, pinned := false);
      var jittered := held.(x := held.x + Jitter(o.random(c.drawn)), y := held.y + Jitter(o.random(c.drawn + 1)));
      c.(particles := c.particles[k := jittered], drawn := c.drawn + 2)
  }

  /** One sub-step: updateSprings, then updateParticles. */
  function SubStep(c: Cloth, mouseX: real, mouseY: real, o: Oracles): (r: Cloth)
    requires SpringsJoin(c.springs, |c.particles|)
    ensures |r.particles| == |c.particles| && SpringsJoin(r.springs, |r.particles|)
    ensures |r.springs| <= |c.springs| && r.dragged == c.dragged && r.noiseOffset == c.noiseOffset
  {
    ParticlesPass(SpringsPass(c, |c.springs|, mouseX, mouseY, o), o)
  }

  /** n sub-steps in a row, starting from c. */
  function SubStepsFrom(c: Cloth, n: nat, mouseX: real, mouseY: real, o: Oracles): (r: Cloth)
    requires SpringsJoin(c.springs, |c.particles|)
    ensures |r.particles| == |c.particles| && SpringsJoin(r.springs, |r.particles|)
    ensures |r.springs| <= |c.springs| && r.dragged == c.dragged && r.noiseOffset == c.noiseOffset
    decreases n
  {
    if n == 0 then c else SubStepsFrom(SubStep(c, mouseX, mouseY, o), n - 1, mouseX, mouseY, o)
  }

  /**
   * The random numbers Spring.display draws over the springs ss: two jitter
   * draws for every spring that is shown.
   */
  function DisplayDraws(ss: seq<Spring>): (r: nat)
    ensures r <= 2 * |ss|
    ensures r == 0 <==> forall k :: 0 <= k < |ss| ==> !Visible(ss[k])
  {
    if |ss| == 0 then 0
    else DisplayDraws(ss[..|ss| - 1]) + (if Visible(ss[|ss| - 1]) then 2 else 0)
  }

  /** The only state the drawing pass of p.draw changes: the random numbers it consumes. */
  function Render(c: Cloth): (r: Cloth)
    ensures r.(drawn := c.drawn) == c
  {
    c.(drawn := c.drawn + DisplayDraws(c.springs))
  }

  /** The noise clock advances by one step per frame; nothing else changes. */
  function Tick(c: Cloth): (r: Cloth)
    ensures r.noiseOffset == c.noiseOffset + NoiseStep
    ensures r.(noiseOffset := c.noiseOffset) == c
  {
    c.(noiseOffset := c.noiseOffset + NoiseStep)
  }

  /** The last of n + 1 sub-steps. */
  lemma {:induction false} SubStepsSnoc(c: Cloth, n: nat, mouseX: real, mouseY: real, o: Oracles)
    requires SpringsJoin(c.springs, |c.particles|)
    ensures SubStepsFrom(c, n + 1, mouseX, mouseY, o)
         == SubStep(SubStepsFrom(c, n, mouseX, mouseY, o), mouseX, mouseY, o)
    decreases n
  {
    if n > 0 {
      var c1 := SubStep(c, mouseX, mouseY, o);
      assert SubStepsFrom(c, n + 1, mouseX, mouseY, o)
          == SubStep(SubStepsFrom(c, n, mouseX, mouseY, o), mouseX, mouseY, o) by {
        SubStepsSnoc(c1, n - 1, mouseX, mouseY, o);
        SubStepsUnfold(c, n + 1, mouseX, mouseY, o);
        SubStepsUnfold(c, n, mouseX, mouseY, o);
      }
    }
  }

  /** The first of n sub-steps. */
  lemma SubStepsUnfold(c: Cloth, n: nat, mouseX: real, mouseY: real, o: Oracles)
    requires n > 0 && SpringsJoin(c.springs, |c.particles|)
    ensures SubStepsFrom(c, n, mouseX, mouseY, o)
         == SubStepsFrom(SubStep(c, mouseX, mouseY, o), n - 1, mouseX, mouseY, o)
  {
  }

  /**
   * The state change of p.draw: the noise clock advances once, the drag
   * override runs once, four sub-steps run, then the springs are drawn.
   */
  function Frame(c: Cloth, mouseX: real, mouseY: real, o: Oracles): (r: Cloth)
    requires Valid(c)
    ensures |r.particles| == |c.particles| && SpringsJoin(r.springs, |r.particles|)
    ensures |r.springs| <= |c.springs| && r.dragged == c.dragged
  {
    Render(SubStepsFrom(DragOverride(Tick(c), mouseX, mouseY, o), SubSteps, mouseX, mouseY, o))
  }

  // ---- p.mousePressed and p.mouseReleased ----

  /** The pointer's distance to particle j. */
  function PointerDist(ps: seq<Particle>, j: nat, mouseX: real, mouseY: real, sqrt: real -> real): real
    requires j < |ps|
  {
    Dist(sqrt, mouseX, mouseY, ps[j].x, ps[j].y)
  }

  /**
   * The particle p.mousePressed finds: the first particle whose distance is
   * below 60 and strictly below that of every earlier particle, and no later
   * particle is closer; none when every particle is 60 or more away.
   */
  ghost predicate IsPick(ps: seq<Particle>, mouseX: real, mouseY: real, sqrt: real -> real, pick: Option<nat>)
  {
    match pick
    case None =>
      forall j :: 0 <= j < |ps| ==> PickRadius <= PointerDist(ps, j, mouseX, mouseY, sqrt)
    case Some(k) =>
      && k < |ps|
      && PointerDist(ps, k, mouseX, mouseY, sqrt) < PickRadius
      && (forall j :: 0 <= j < k ==> PointerDist(ps, k, mouseX, mouseY, sqrt) < PointerDist(ps, j, mouseX, mouseY, sqrt))
      && (forall j :: k < j < |ps| ==> PointerDist(ps, k, mouseX, mouseY, sqrt) <= PointerDist(ps, j, mouseX, mouseY, sqrt))
  }

  /**
   * The state change of p.mousePressed for the particle it found: a non-edge
   * particle becomes the dragged particle and is unpinned; otherwise nothing
   * changes (the previous dragged particle, if any, stays).
   */
  function Press(c: Cloth, pick: Option<nat>): (r: Cloth)
    ensures |r.particles| == |c.particles| && r.springs == c.springs
  {
    if pick.Some? && pick.value < |c.particles| && !c.particles[pick.value].isEdge then
      c.(dragged := pick, particles := Unpin(c.particles, pick.value))
    else
      c
  }

  /** p.mouseReleased: drop the dragged particle without pinning it again. */
  function Release(c: Cloth): (r: Cloth)
    ensures r.dragged == None && r.(dragged := c.dragged) == c
  {
    c.(dragged := None)
  }

  /** The scan of p.mousePressed: a running minimum that starts at 60. */
  method Pick(ps: seq<Particle>, mouseX: real, mouseY: real, sqrt: real -> real) returns (closest: Option<nat>)
    ensures IsPick(ps, mouseX, mouseY, sqrt, closest)
  {
    closest := None;
    var minD := PickRadius;
    for j := 0 to |ps|
      invariant closest.None? ==> minD == PickRadius
      invariant closest.None? ==> forall i :: 0 <= i < j ==> PickRadius <= PointerDist(ps, i, mouseX, mouseY, sqrt)
      invariant closest.Some? ==> closest.value < j && minD < PickRadius
      invariant closest.Some? ==> minD == PointerDist(ps, closest.value, mouseX, mouseY, sqrt)
      invariant closest.Some? ==> forall i :: 0 <= i < closest.value ==> minD < PointerDist(ps, i, mouseX, mouseY, sqrt)
      invariant closest.Some? ==> forall i :: closest.value < i < j ==> minD <= PointerDist(ps, i, mouseX, mouseY, sqrt)
    {
      var d := Dist(sqrt, mouseX, mouseY, ps[j].x, ps[j].y);
      if d < minD {
        minD := d;
        closest := Some(j);
      }
    }
  }
}
