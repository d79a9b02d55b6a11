/**
 * What the simulation promises between two rebuilds: edge particles stay
 * pinned and never move, pins are only ever released, relaxation is
 * balanced and acts along the spring, the spring list only loses springs
 * (never one touching the dragged particle) and keeps the order of the rest.
 */
module ClothSafety {
  import opened ClothTypes
  import opened ClothStep
  import opened ClothGrid

  /**
   * ps evolves into qs: the same particles with the same glyphs and edge
   * marks, pins only released, and edge particles entirely unchanged.
   */
  ghost predicate Evolves(ps: seq<Particle>, qs: seq<Particle>)
  {
    && |qs| == |ps|
    && forall j :: 0 <= j < |ps| ==>
         && qs[j].isEdge == ps[j].isEdge
         && qs[j].glyph == ps[j].glyph
         && qs[j].groundLevel == ps[j].groundLevel
         && (qs[j].pinned ==> ps[j].pinned)
         && (ps[j].isEdge ==> qs[j] == ps[j])
  }

  lemma EvolvesTrans(ps: seq<Particle>, qs: seq<Particle>, rs: seq<Particle>)
    requires Evolves(ps, qs) && Evolves(qs, rs)
    ensures Evolves(ps, rs)
  {
  }

  // ---- Spring.update ----

  /**
   * Relaxation changes only positions, and only those of the spring's
   * endpoints that are neither pinned nor dragged.
   */
  lemma RelaxMovesOnlyFreeEnds(ps: seq<Particle>, s: Spring, dragged: Option<nat>, sqrt: real -> real)
    requires Joins(s, |ps|)
    ensures var r := RelaxParticles(ps, s, dragged, sqrt);
      && (forall j :: 0 <= j < |ps| ==> r[j].(x := ps[j].x, y := ps[j].y) == ps[j])
      && (forall j :: 0 <= j < |ps| && ((j != s.p1 && j != s.p2) || !Free(ps, j, dragged)) ==> r[j] == ps[j])
  {
  }

  /** When both endpoints move, they move by opposite vectors: their coordinate sums are kept. */
  lemma RelaxBalanced(ps: seq<Particle>, s: Spring, dragged: Option<nat>, sqrt: real -> real)
    requires Joins(s, |ps|) && Free(ps, s.p1, dragged) && Free(ps, s.p2, dragged)
    ensures var r := RelaxParticles(ps, s, dragged, sqrt);
      && r[s.p1].x + r[s.p2].x == ps[s.p1].x + ps[s.p2].x
      && r[s.p1].y + r[s.p2].y == ps[s.p1].y + ps[s.p2].y
  {
  }

  /** The number of endpoints of s free to move: each moves by the offset. */
  function FreeEnds(ps: seq<Particle>, s: Spring, dragged: Option<nat>): real
    requires s.p1 < |ps| && s.p2 < |ps|
  {
    (if Free(ps, s.p1, dragged) then 1.0 else 0.0) + (if Free(ps, s.p2, dragged) then 1.0 else 0.0)
  }

  /**
   * The offsets of Spring.update lie along the spring: the offsets for the
   * two components dx, dy of a separation form a vector parallel to (dx, dy).
   * For a positive distance and stiffness, the offset of a positive
   * component is negative, so it pulls the endpoints together, exactly when
   * the spring is longer than its rest length, and is zero exactly at the
   * rest length.
   */
  lemma OffsetAlong(dx: real, dy: real, s: Spring, distance: real)
    requires distance != 0.0
    ensures Offset(dx, s, distance) * dy == Offset(dy, s, distance) * dx
    ensures distance > 0.0 && dx > 0.0 && s.stiffness > 0.0 ==>
      && (Offset(dx, s, distance) < 0.0 <==> distance > s.restLength)
      && (Offset(dx, s, distance) == 0.0 <==> distance == s.restLength)
  {
    var difference := (s.restLength - distance) / distance;
    var k := difference * 0.5 * s.stiffness;
    assert Offset(dx, s, distance) == dx * k;
    assert Offset(dy, s, distance) == dy * k;
    assert dx * k * dy == dy * k * dx;
    if distance > 0.0 && dx > 0.0 && s.stiffness > 0.0 {
      assert difference * distance == s.restLength - distance;
      assert difference < 0.0 <==> distance > s.restLength;
      assert difference == 0.0 <==> distance == s.restLength;
      PositiveScale(difference, 0.5 * s.stiffness * dx);
      assert dx * k == difference * (0.5 * s.stiffness * dx);
    }
  }

  /** Scaling by a positive factor keeps the sign. */
  lemma PositiveScale(a: real, f: real)
    requires f > 0.0
    ensures a * f < 0.0 <==> a < 0.0
    ensures a * f == 0.0 <==> a == 0.0
  {
  }

  /**
   * Relaxation acts along the spring: the separation of the endpoints grows
   * by the offset (for the floored distance; see OffsetAlong) once for each
   * endpoint free to move.
   */
  lemma RelaxAlongSpring(ps: seq<Particle>, s: Spring, dragged: Option<nat>, sqrt: real -> real)
    requires Joins(s, |ps|)
    ensures var r := RelaxParticles(ps, s, dragged, sqrt);
      var d := Floored(Span(ps, s, sqrt));
      var dx := ps[s.p2].x - ps[s.p1].x;
      var dy := ps[s.p2].y - ps[s.p1].y;
      var m := FreeEnds(ps, s, dragged);
      && r[s.p2].x - r[s.p1].x == dx + m * Offset(dx, s, d)
      && r[s.p2].y - r[s.p1].y == dy + m * Offset(dy, s, d)
  {
  }

  /** Coincident endpoints are left where they are: the floored divisor keeps the step finite. */
  lemma RelaxCoincident(ps: seq<Particle>, s: Spring, dragged: Option<nat>, sqrt: real -> real)
    requires Joins(s, |ps|)
    requires ps[s.p1].x == ps[s.p2].x && ps[s.p1].y == ps[s.p2].y
    ensures RelaxParticles(ps, s, dragged, sqrt) == ps
  {
    var r := RelaxParticles(ps, s, dragged, sqrt);
    assert forall j :: 0 <= j < |ps| ==> r[j] == ps[j];
  }

  // ---- The unpin rule ----

  /**
   * The unpin rule exactly: an endpoint ends up pinned iff it was pinned and
   * either is an edge particle or has a pinned partner on a spring that does
   * not touch the dragged particle. Nothing else changes.
   */
  lemma UnpinEndsExact(ps: seq<Particle>, s: Spring, dragged: Option<nat>)
    requires Joins(s, |ps|)
    ensures var r := UnpinEnds(ps, s, dragged);
      && (forall j :: 0 <= j < |ps| ==> r[j] == ps[j].(pinned := r[j].pinned))
      && (forall j :: 0 <= j < |ps| && j != s.p1 && j != s.p2 ==> r[j] == ps[j])
      && (r[s.p1].pinned <==>
            ps[s.p1].pinned && (ps[s.p1].isEdge || (ps[s.p2].pinned && !TouchesDragged(s, dragged))))
      && (r[s.p2].pinned <==>
            ps[s.p2].pinned && (ps[s.p2].isEdge || (ps[s.p1].pinned && !TouchesDragged(s, dragged))))
  {
  }

  // ---- One iteration of updateSprings ----

  /** A spring without its measured length: what identifies it in the spring list. */
  datatype Link = Link(p1: nat, p2: nat, restLength: real, stiffness: real)

  function LinkOf(s: Spring): Link
  {
    Link(s.p1, s.p2, s.restLength, s.stiffness)
  }

  function Links(ss: seq<Spring>): (r: seq<Link>)
    ensures |r| == |ss| && forall k :: 0 <= k < |ss| ==> r[k] == LinkOf(ss[k])
  {
    seq(|ss|, k requires 0 <= k < |ss| => LinkOf(ss[k]))
  }

  /** TouchesDragged, for the link of a spring. */
  predicate LinkTouches(l: Link, dragged: Option<nat>)
  {
    dragged.Some? && (l.p1 == dragged.value || l.p2 == dragged.value)
  }

  lemma LinkTouchesOf(s: Spring, dragged: Option<nat>)
    ensures LinkTouches(LinkOf(s), dragged) <==> TouchesDragged(s, dragged)
  {
  }

  /**
   * An iteration at index i touches no spring but spring i: it only
   * re-measures it, or removes it. It removes it exactly when the spring
   * does not touch the dragged particle and the last draw falls below the
   * break probability of the distance from the spring's midpoint, after
   * relaxation, to the pointer; that draw is then below 0.0002.
   */
  lemma SpringStepSprings(c: Cloth, i: nat, mouseX: real, mouseY: real, o: Oracles)
    requires i < |c.springs| && SpringsJoin(c.springs, |c.particles|)
    ensures var r := SpringStep(c, i, mouseX, mouseY, o);
      && (|r.springs| == |c.springs| ==>
            r.springs == c.springs[i := c.springs[i].(currentDist := r.springs[i].currentDist)])
      && (|r.springs| != |c.springs| ==>
            && r.springs == c.springs[..i] + c.springs[i + 1..]
            && !TouchesDragged(c.springs[i], c.dragged)
            && o.random(r.drawn - 1) < MaxBreakProbability)
    ensures var r := SpringStep(c, i, mouseX, mouseY, o);
      var s := c.springs[i];
      var ps1 := RelaxParticles(c.particles, s, c.dragged, o.sqrt);
      var d := Dist(o.sqrt, CenterX(ps1, s), CenterY(ps1, s), mouseX, mouseY);
      |r.springs| < |c.springs| <==> !TouchesDragged(s, c.dragged) && o.random(r.drawn - 1) < BreakProbability(d)
  {
    var s := c.springs[i];
    assert Joins(s, |c.particles|);
    var ps1 := RelaxParticles(c.particles, s, c.dragged, o.sqrt);
    UnpinEndsExact(ps1, Measure(c.particles, s, o.sqrt), c.dragged);
  }

  /**
   * The pins after an iteration: unless spring i is overstretched after
   * measuring and the unpin draw is below 0.2, no pin changes; when it
   * fires, the unpin rule decides for the two endpoints.
   */
  lemma SpringStepPins(c: Cloth, i: nat, mouseX: real, mouseY: real, o: Oracles)
    requires i < |c.springs| && SpringsJoin(c.springs, |c.particles|)
    ensures var r := SpringStep(c, i, mouseX, mouseY, o);
      var s := c.springs[i];
      var ps := c.particles;
      var fired := Overstretched(Measure(ps, s, o.sqrt)) && o.random(c.drawn) < UnpinChance;
      && (!fired ==> forall j :: 0 <= j < |ps| ==> r.particles[j].pinned == ps[j].pinned)
      && (fired ==>
            && (forall j :: 0 <= j < |ps| && j != s.p1 && j != s.p2 ==> r.particles[j].pinned == ps[j].pinned)
            && (r.particles[s.p1].pinned <==>
                  ps[s.p1].pinned && (ps[s.p1].isEdge || (ps[s.p2].pinned && !TouchesDragged(s, c.dragged))))
            && (r.particles[s.p2].pinned <==>
                  ps[s.p2].pinned && (ps[s.p2].isEdge || (ps[s.p1].pinned && !TouchesDragged(s, c.dragged)))))
  {
    var s := c.springs[i];
    assert Joins(s, |c.particles|);
    var ps1 := RelaxParticles(c.particles, s, c.dragged, o.sqrt);
    RelaxMovesOnlyFreeEnds(c.particles, s, c.dragged, o.sqrt);
    UnpinEndsExact(ps1, Measure(c.particles, s, o.sqrt), c.dragged);
  }

  /** An iteration keeps the invariant, and the particles only evolve. */
  lemma SpringStepSafe(c: Cloth, i: nat, mouseX: real, mouseY: real, o: Oracles)
    requires i < |c.springs| && Valid(c)
    ensures var r := SpringStep(c, i, mouseX, mouseY, o);
      Valid(r) && Evolves(c.particles, r.particles)
  {
    var s := c.springs[i];
    assert Joins(s, |c.particles|);
    var ps1 := RelaxParticles(c.particles, s, c.dragged, o.sqrt);
    RelaxMovesOnlyFreeEnds(c.particles, s, c.dragged, o.sqrt);
    assert Evolves(c.particles, ps1);
    UnpinEndsExact(ps1, Measure(c.particles, s, o.sqrt), c.dragged);
  }

  // ---- The spring list only shrinks, in order ----

  /** idx lists, in increasing order, the positions in b of the elements of a. */
  ghost predicate Embedding<T>(a: seq<T>, b: seq<T>, idx: seq<nat>)
  {
    && |idx| == |a|
    && (forall k :: 0 <= k < |idx| ==> idx[k] < |b| && b[idx[k]] == a[k])
    && (forall k, l :: 0 <= k < l < |idx| ==> idx[k] < idx[l])
  }

  /** a is b with some elements left out, the rest in their original order. */
  ghost predicate SubSeq<T>(a: seq<T>, b: seq<T>)
  {
    exists idx :: Embedding(a, b, idx)
  }

  lemma SubSeqRefl<T>(a: seq<T>)
    ensures SubSeq(a, a)
  {
    var idx := seq(|a|, k requires 0 <= k < |a| => k);
    assert Embedding(a, a, idx);
  }

  lemma SubSeqTrans<T>(a: seq<T>, b: seq<T>, c: seq<T>)
    requires SubSeq(a, b) && SubSeq(b, c)
    ensures SubSeq(a, c)
  {
    var i1 :| Embedding(a, b, i1);
    var i2 :| Embedding(b, c, i2);
    var idx := seq(|a|, k requires 0 <= k < |a| => i2[i1[k]]);
    assert Embedding(a, c, idx);
  }

  lemma SubSeqDrop<T>(b: seq<T>, i: nat)
    requires i < |b|
    ensures SubSeq(b[..i] + b[i + 1..], b)
  {
    var a := b[..i] + b[i + 1..];
    var idx := seq(|a|, k requires 0 <= k < |a| => if k < i then k else k + 1);
    assert Embedding(a, b, idx);
  }

  /**
   * The spring list went from ss to ts by removals only: the links left are
   * a subsequence of those before, and every link touching the dragged
   * particle is still there.
   */
  ghost predicate Shrinks(ss: seq<Spring>, ts: seq<Spring>, dragged: Option<nat>)
  {
    && SubSeq(Links(ts), Links(ss))
    && forall l :: l in Links(ss) && LinkTouches(l, dragged) ==> l in Links(ts)
  }

  lemma ShrinksRefl(ss: seq<Spring>, dragged: Option<nat>)
    ensures Shrinks(ss, ss, dragged)
  {
    SubSeqRefl(Links(ss));
  }

  lemma ShrinksTrans(ss: seq<Spring>, ts: seq<Spring>, us: seq<Spring>, dragged: Option<nat>)
    requires Shrinks(ss, ts, dragged) && Shrinks(ts, us, dragged)
    ensures Shrinks(ss, us, dragged)
  {
    SubSeqTrans(Links(us), Links(ts), Links(ss));
  }

  /** An iteration leaves a subsequence of the links, and keeps every link touching the dragged particle. */
  lemma SpringStepLinks(c: Cloth, i: nat, mouseX: real, mouseY: real, o: Oracles)
    requires i < |c.springs| && SpringsJoin(c.springs, |c.particles|)
    ensures Shrinks(c.springs, SpringStep(c, i, mouseX, mouseY, o).springs, c.dragged)
  {
    var r := SpringStep(c, i, mouseX, mouseY, o);
    SpringStepSprings(c, i, mouseX, mouseY, o);
    if |r.springs| == |c.springs| {
      assert Links(r.springs) == Links(c.springs);
      ShrinksRefl(c.springs, c.dragged);
    } else {
      DropShrinks(c.springs, i, c.dragged);
    }
  }

  /** Removing a spring that does not touch the dragged particle only shrinks the list. */
  lemma DropShrinks(ss: seq<Spring>, i: nat, dragged: Option<nat>)
    requires i < |ss| && !TouchesDragged(ss[i], dragged)
    ensures Shrinks(ss, ss[..i] + ss[i + 1..], dragged)
  {
    var before := Links(ss);
    var after := Links(ss[..i] + ss[i + 1..]);
    assert after == before[..i] + before[i + 1..];
    SubSeqDrop(before, i);
    forall l | l in before && LinkTouches(l, dragged) ensures l in after {
      var k :| 0 <= k < |before| && before[k] == l;
      assert k != i;
      if k < i {
        assert after[k] == l;
      } else {
        assert after[k - 1] == l;
      }
    }
  }

  /**
   * updateSprings, as a whole: the springs left are a subsequence of those
   * before (so no spring is added and the order is kept), every spring
   * touching the dragged particle survives, the invariant holds afterwards,
   * and the particles only evolve.
   */
  lemma {:induction false} SpringsPassSafe(c: Cloth, n: nat, mouseX: real, mouseY: real, o: Oracles)
    requires n <= |c.springs| && Valid(c)
    ensures var r := SpringsPass(c, n, mouseX, mouseY, o);
      Valid(r) && Evolves(c.particles, r.particles) && Shrinks(c.springs, r.springs, c.dragged)
    decreases n
  {
    if n == 0 {
      ShrinksRefl(c.springs, c.dragged);
    } else {
      var c1 := SpringStep(c, n - 1, mouseX, mouseY, o);
      SpringStepSafe(c, n - 1, mouseX, mouseY, o);
      SpringStepLinks(c, n - 1, mouseX, mouseY, o);
      SpringsPassSafe(c1, n - 1, mouseX, mouseY, o);
      var r := SpringsPass(c1, n - 1, mouseX, mouseY, o);
      assert r == SpringsPass(c, n, mouseX, mouseY, o);
      EvolvesTrans(c.particles, c1.particles, r.particles);
      ShrinksTrans(c.springs, c1.springs, r.springs, c.dragged);
    }
  }

  // ---- updateParticles ----

  /**
   * updateParticles leaves pinned and dragged particles alone; every other
   * particle is pushed down by gravity and sideways by the wind, takes its
   * pushed position as its previous position, keeps its velocity plus the
   * push, and ends on or above the ground.
   */
  lemma ParticlesPassEffect(c: Cloth, o: Oracles, j: nat)
    requires j < |c.particles|
    ensures var p := c.particles[j];
      var q := ParticlesPass(c, o).particles[j];
      var w := WindAt(ApplyForce(p, 0.0, Gravity), c, o);
      && (p.pinned || c.dragged == Some(j) ==> q == p)
      && (!p.pinned && c.dragged != Some(j) ==>
            && q.oldx == p.x + w && q.oldy == p.y + Gravity
            && q.x - q.oldx == (p.x - p.oldx + w) * Damping
            && q.y <= c.height
            && (q.y == c.height || q.y - q.oldy == (p.y - p.oldy + Gravity) * Damping)
            && q.(x := p.x, y := p.y, oldx := p.oldx, oldy := p.oldy) == p)
  {
  }

  /**
   * updateParticles keeps the invariant; the particles only evolve, and no
   * pinned particle changes at all.
   */
  lemma ParticlesPassSafe(c: Cloth, o: Oracles)
    requires Valid(c)
    ensures Valid(ParticlesPass(c, o)) && Evolves(c.particles, ParticlesPass(c, o).particles)
    ensures forall j :: 0 <= j < |c.particles| && c.particles[j].pinned ==>
              ParticlesPass(c, o).particles[j] == c.particles[j]
  {
    var r := ParticlesPass(c, o);
    forall j | 0 <= j < |c.particles|
      ensures r.particles[j].(x := c.particles[j].x, y := c.particles[j].y,
                              oldx := c.particles[j].oldx, oldy := c.particles[j].oldy) == c.particles[j]
      ensures c.particles[j].pinned ==> r.particles[j] == c.particles[j]
    {
      ParticlesPassEffect(c, o, j);
    }
  }

  // ---- p.draw ----

  /**
   * The drag override keeps the invariant and moves no particle but the
   * dragged one, which ends up unpinned, one jitter away from the pointer.
   */
  lemma DragOverrideSafe(c: Cloth, mouseX: real, mouseY: real, o: Oracles)
    requires Valid(c)
    ensures var r := DragOverride(c, mouseX, mouseY, o);
      && Valid(r) && Evolves(c.particles, r.particles)
      && (c.dragged.None? ==> r == c)
      && (c.dragged.Some? ==>
            var k := c.dragged.value;
            && !r.particles[k].pinned
            && r.particles[k].x == mouseX + Jitter(o.random(c.drawn))
            && r.particles[k].y == mouseY + Jitter(o.random(c.drawn + 1))
            && forall j :: 0 <= j < |c.particles| && j != k ==> r.particles[j] == c.particles[j])
  {
  }

  /**
   * From c to r the invariant is kept, the particles only evolve, the
   * springs only shrink, and the same particle is dragged.
   */
  ghost predicate Preserves(c: Cloth, r: Cloth)
  {
    && Valid(r)
    && Evolves(c.particles, r.particles)
    && Shrinks(c.springs, r.springs, c.dragged)
    && r.dragged == c.dragged
  }

  lemma PreservesTrans(a: Cloth, b: Cloth, c: Cloth)
    requires Preserves(a, b) && Preserves(b, c)
    ensures Preserves(a, c)
  {
    EvolvesTrans(a.particles, b.particles, c.particles);
    ShrinksTrans(a.springs, b.springs, c.springs, a.dragged);
  }

  /** Drawing consumes random numbers and changes nothing else. */
  lemma RenderPreserves(c: Cloth, r: Cloth)
    requires Preserves(c, r)
    ensures Preserves(c, Render(r))
  {
    assert Render(r).particles == r.particles && Render(r).springs == r.springs;
  }

  /** A sub-step keeps the invariant; particles only evolve and springs are only removed. */
  lemma SubStepSafe(c: Cloth, mouseX: real, mouseY: real, o: Oracles)
    requires Valid(c)
    ensures Preserves(c, SubStep(c, mouseX, mouseY, o))
  {
    var c1 := SpringsPass(c, |c.springs|, mouseX, mouseY, o);
    SpringsPassSafe(c, |c.springs|, mouseX, mouseY, o);
    ParticlesPassSafe(c1, o);
    EvolvesTrans(c.particles, c1.particles, ParticlesPass(c1, o).particles);
  }

  /** Any number of sub-steps keeps the invariant; particles only evolve and springs only shrink. */
  lemma {:induction false} SubStepsSafe(c: Cloth, n: nat, mouseX: real, mouseY: real, o: Oracles)
    requires Valid(c)
    ensures Preserves(c, SubStepsFrom(c, n, mouseX, mouseY, o))
    decreases n
  {
    if n == 0 {
      ShrinksRefl(c.springs, c.dragged);
    } else {
      assert Preserves(c, SubStepsFrom(c, n, mouseX, mouseY, o)) by {
        var c1 := SubStep(c, mouseX, mouseY, o);
        SubStepSafe(c, mouseX, mouseY, o);
        SubStepsSafe(c1, n - 1, mouseX, mouseY, o);
        PreservesTrans(c, c1, SubStepsFrom(c1, n - 1, mouseX, mouseY, o));
      }
    }
  }

  /**
   * A frame keeps the invariant: edge particles stay pinned and where they
   * were, no pin is set, the springs only lose members (never one touching
   * the dragged particle) and keep their order, the dragged particle stays,
   * and the noise clock advances by one step.
   */
  lemma FrameSafe(c: Cloth, mouseX: real, mouseY: real, o: Oracles)
    requires Valid(c)
    ensures Preserves(c, Frame(c, mouseX, mouseY, o))
    ensures Frame(c, mouseX, mouseY, o).noiseOffset == c.noiseOffset + NoiseStep
  {
    FrameOfSafe(c, SubSteps, mouseX, mouseY, o);
  }

  /** FrameSafe, for a frame of n sub-steps. */
  lemma FrameOfSafe(c: Cloth, n: nat, mouseX: real, mouseY: real, o: Oracles)
    requires Valid(c)
    ensures var r := Render(SubStepsFrom(DragOverride(Tick(c), mouseX, mouseY, o), n, mouseX, mouseY, o));
      Preserves(c, r) && r.noiseOffset == c.noiseOffset + NoiseStep
  {
    var held := DragOverride(Tick(c), mouseX, mouseY, o);
    DragOverrideSafe(Tick(c), mouseX, mouseY, o);
    ShrinksRefl(c.springs, c.dragged);
    assert Preserves(c, held);
    SubStepsSafe(held, n, mouseX, mouseY, o);
    var stepped := SubStepsFrom(held, n, mouseX, mouseY, o);
    PreservesTrans(c, held, stepped);
    RenderPreserves(c, stepped);
  }

  // ---- initGrid ----

  /**
   * initGrid establishes the invariant from any state: every spring joins
   * two distinct particles of the new grid, nothing is dragged, every
   * particle is pinned, and no spring is stretched enough to be drawn.
   */
  lemma RebuildSafe(c: Cloth)
    ensures Valid(Rebuild(c))
    ensures forall j :: 0 <= j < |Rebuild(c).particles| ==> Rebuild(c).particles[j].pinned
    ensures DisplayDraws(Rebuild(c).springs) == 0
    ensures Rebuild(c).dragged.None? && Rebuild(c).noiseOffset == 0.0
  {
    var g := LayoutOf(c);
    var r := Rebuild(c);
    GridParticlesLength(g, g.rows);
    GridParticlesPinned(g, g.rows);
    GridTopology(g);
    forall k | 0 <= k < |r.springs| ensures Joins(r.springs[k], |r.particles|) {
      GridLinkWellFormed(g, r.springs[k]);
    }
    GridSpringsHidden(g);
  }

  /** initGrid forgets everything but the canvas: rebuilding twice is rebuilding once. */
  lemma RebuildIdempotent(c: Cloth, d: Cloth)
    requires c.width == d.width && c.height == d.height && c.drawn == d.drawn
    ensures Rebuild(c) == Rebuild(d)
    ensures Rebuild(Rebuild(c)) == Rebuild(c)
  {
  }

  // ---- p.mousePressed and p.mouseReleased ----

  /** The pick of p.mousePressed is determined: at most one particle qualifies. */
  lemma PickUnique(ps: seq<Particle>, mouseX: real, mouseY: real, sqrt: real -> real, a: Option<nat>, b: Option<nat>)
    requires IsPick(ps, mouseX, mouseY, sqrt, a) && IsPick(ps, mouseX, mouseY, sqrt, b)
    ensures a == b
  {
  }

  /**
   * A press keeps the invariant and releases at most the picked particle;
   * the dragged particle becomes the pick when that is not an edge
   * particle, and is otherwise left as it was.
   */
  lemma PressSafe(c: Cloth, pick: Option<nat>)
    requires Valid(c)
    ensures var r := Press(c, pick);
      && Valid(r)
      && Evolves(c.particles, r.particles)
      && (pick.Some? && pick.value < |c.particles| && !c.particles[pick.value].isEdge ==>
            r.dragged == pick && !r.particles[pick.value].pinned)
      && (pick.None? || pick.value >= |c.particles| || c.particles[pick.value].isEdge ==> r == c)
  {
  }

  /** A release keeps the invariant and pins nothing again. */
  lemma ReleaseSafe(c: Cloth)
    requires Valid(c)
    ensures Valid(Release(c)) && Release(c).particles == c.particles && Release(c).dragged.None?
  {
  }
}
