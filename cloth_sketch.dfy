/**
 * The sketch object of createSketch. The particle and spring arrays, the
 * dragged particle, the noise clock and the canvas size live in fields that
 * the p5 callbacks (setup, draw, mousePressed, mouseReleased,
 * windowResized) update in place. Every method is proved to perform the
 * state change of the matching function on Cloth, and to keep the
 * invariant ClothStep.Valid.
 */
module ClothSketch {
  import opened ClothTypes
  import opened ClothGrid
  import opened ClothStep
  import opened ClothSafety

  class Sketch {
    var particles: seq<Particle>
    var springs: seq<Spring>
    var dragged: Option<nat>
    var noiseOffset: real
    var drawn: nat
    var width: real
    var height: real
    const oracles: Oracles

    /** The state of the sketch as a value. */
    function Model(): Cloth
      reads this
    {
      Cloth(particles, springs, dragged, noiseOffset, drawn, width, height)
    }

    predicate Valid()
      reads this
    {
      ClothStep.Valid(Model())
    }

    /** The sketch before setup: no particles, no springs, the default canvas. */
    constructor(o: Oracles)
      ensures Model() == Cloth([], [], None, 0.0, 0, DefaultCanvas, DefaultCanvas)
      ensures oracles == o && Valid()
    {
      particles, springs, dragged := [], [], None;
      noiseOffset, drawn := 0.0, 0;
      width, height := DefaultCanvas, DefaultCanvas;
      oracles := o;
    }

    /** p.random(1): the next number of the stream. */
    method Random() returns (u: real)
      modifies this
      ensures u == oracles.random(old(drawn))
      ensures Model() == old(Model()).(drawn := old(drawn) + 1)
    {
      u := oracles.random(drawn);
      drawn := drawn + 1;
    }

    // ---- initGrid ----

    /**
     * initGrid: empty both arrays, push the particles row by row, then the
     * springs cell by cell, then drop the dragged particle and reset the
     * noise clock.
     */
    method InitGrid()
      modifies this
      ensures Model() == Rebuild(old(Model()))
      ensures Valid()
    {
      var g := LayoutOf(Model());
      PushParticles(g);
      PushSprings(g);
      dragged := None;
      noiseOffset := 0.0;
      RebuildSafe(old(Model()));
    }

    /** The particle loops of initGrid, row by row, on the current canvas. */
    method PushParticles(g: Layout)
      requires g == LayoutOf(Model())
      modifies this
      ensures Model() == old(Model()).(particles := GridParticles(g, g.rows))
    {
      particles := [];
      var startX := (width - Cols as real * Spacing) / 2.0;
      var startY := (height - Rows as real * Spacing) / 2.0 - TopShift;
      for y := 0 to Rows
        invariant particles == GridParticles(g, y)
        invariant Model() == old(Model()).(particles := particles)
      {
        PushRow(g, y, startX, startY);
      }
    }

    /** One row of the particle loops of initGrid: a particle per column, pinned, the border ones marked as edges. */
    method PushRow(g: Layout, y: nat, startX: real, startY: real)
      requires g == LayoutOf(Model()) && y < Rows
      requires startX == StartX(g) && startY == StartY(g)
      modifies this
      ensures Model() == old(Model()).(particles := old(particles) + RowParticles(g, y, g.cols))
    {
      for x := 0 to Cols
        invariant particles == old(particles) + RowParticles(g, y, x)
        invariant springs == old(springs) && dragged == old(dragged) && drawn == old(drawn)
        invariant noiseOffset == old(noiseOffset) && width == old(width) && height == old(height)
      {
        var charIndex := (y * Cols + x) % |Txt|;
        var particle := NewParticle(startX + x as real * Spacing, startY + y as real * Spacing, Txt[charIndex], height);
        if x == 0 || x == Cols - 1 || y == 0 || y == Rows - 1 {
          particle := particle.(pinned := true, isEdge := true);
        } else {
          particle := particle.(pinned := true, isEdge := false);
        }
        assert particle == GridParticle(g, x, y);
        particles := particles + [particle];
      }
    }

    /** The spring loops of initGrid: a spring to the right, then one down, from every cell. */
    method PushSprings(g: Layout)
      requires g.cols == Cols && g.rows == Rows && g.spacing == Spacing
      modifies this
      ensures Model() == old(Model()).(springs := GridSprings(g, g.rows))
    {
      springs := [];
      for y := 0 to Rows
        invariant springs == GridSprings(g, y)
        invariant Model() == old(Model()).(springs := springs)
      {
        PushRowSprings(g, y);
      }
    }

    /** One row of the spring loops of initGrid. */
    method PushRowSprings(g: Layout, y: nat)
      requires g.cols == Cols && g.rows == Rows && g.spacing == Spacing && y < Rows
      modifies this
      ensures Model() == old(Model()).(springs := old(springs) + RowSprings(g, y, g.cols))
    {
      for x := 0 to Cols
        invariant springs == old(springs) + RowSprings(g, y, x)
        invariant particles == old(particles) && dragged == old(dragged) && drawn == old(drawn)
        invariant noiseOffset == old(noiseOffset) && width == old(width) && height == old(height)
      {
        var i := y * Cols + x;
        var pushed := springs;
        if x < Cols - 1 {
          springs := springs + [NewSpring(i, i + 1, Spacing)];
        }
        if y < Rows - 1 {
          springs := springs + [NewSpring(i, i + Cols, Spacing)];
        }
        assert springs == pushed + CellSprings(g, x, y);
      }
    }

    // ---- updateSprings ----

    /**
     * Spring.update for spring i: record the current distance, then move
     * each endpoint that is neither pinned nor dragged along the spring.
     */
    method Relax(i: nat)
      requires i < |springs| && Joins(springs[i], |particles|)
      modifies this
      ensures Model() == old(Model()).(
                particles := RelaxParticles(old(particles), old(springs[i]), dragged, oracles.sqrt),
                springs := old(springs)[i := Measure(old(particles), old(springs[i]), oracles.sqrt)])
    {
      var s := springs[i];
      var dx := particles[s.p2].x - particles[s.p1].x;
      var dy := particles[s.p2].y - particles[s.p1].y;
      var distance := Dist(oracles.sqrt, particles[s.p1].x, particles[s.p1].y, particles[s.p2].x, particles[s.p2].y);
      springs := springs[i := s.(currentDist := distance)];
      if distance < MinDistance {
        distance := MinDistance;
      }
      var offsetX := Offset(dx, s, distance);
      var offsetY := Offset(dy, s, distance);
      if !particles[s.p1].pinned && dragged != Some(s.p1) {
        particles := particles[s.p1 := Shift(particles[s.p1], -offsetX, -offsetY)];
      }
      if !particles[s.p2].pinned && dragged != Some(s.p2) {
        particles := particles[s.p2 := Shift(particles[s.p2], offsetX, offsetY)];
      }
    }

    /** Clear the pin of particle j. */
    method ClearPin(j: nat)
      requires j < |particles|
      modifies this
      ensures Model() == old(Model()).(particles := Unpin(old(particles), j))
    {
      particles := particles[j := particles[j].(pinned := false)];
    }

    /**
     * The releases of a stretched spring s that won its draw: free a pinned
     * non-edge endpoint whose partner is free, and, when s touches the
     * dragged particle, free both pinned non-edge endpoints.
     */
    method ReleaseEnds(s: Spring)
      requires Joins(s, |particles|)
      modifies this
      ensures Model() == old(Model()).(particles := UnpinEnds(old(particles), s, dragged))
    {
      if !particles[s.p1].pinned && particles[s.p2].pinned && !particles[s.p2].isEdge {
        ClearPin(s.p2);
      }
      if !particles[s.p2].pinned && particles[s.p1].pinned && !particles[s.p1].isEdge {
        ClearPin(s.p1);
      }
      if dragged.Some? && (s.p1 == dragged.value || s.p2 == dragged.value) {
        if particles[s.p1].pinned && !particles[s.p1].isEdge {
          ClearPin(s.p1);
        }
        if particles[s.p2].pinned && !particles[s.p2].isEdge {
          ClearPin(s.p2);
        }
      }
    }

    /**
     * One iteration of updateSprings: relax spring i; if it is stretched
     * beyond twice its rest length, draw, and on a draw below 0.2 release
     * pins; unless it touches the dragged particle, draw again and remove it
     * on a draw below its break probability.
     */
    method UpdateSpring(i: nat, mouseX: real, mouseY: real)
      requires i < |springs| && SpringsJoin(springs, |particles|)
      modifies this
      ensures Model() == SpringStep(old(Model()), i, mouseX, mouseY, oracles)
    {
      assert Joins(springs[i], |particles|);
      Relax(i);
      var s := springs[i];
      if s.currentDist > s.restLength * UnpinThreshold {
        var u := Random();
        if u < UnpinChance {
          ReleaseEnds(s);
        }
      }
      var isConnectedToDragged := dragged == Some(s.p1) || dragged == Some(s.p2);
      if isConnectedToDragged {
        return;
      }
      var centerX := (particles[s.p1].x + particles[s.p2].x) / 2.0;
      var centerY := (particles[s.p1].y + particles[s.p2].y) / 2.0;
      var d := Dist(oracles.sqrt, centerX, centerY, mouseX, mouseY);
      var u := Random();
      if u < BreakProbability(d) {
        springs := springs[..i] + springs[i + 1..];
      }
    }

    /** updateSprings: visit the springs from the last to the first. */
    method UpdateSprings(mouseX: real, mouseY: real)
      requires SpringsJoin(springs, |particles|)
      modifies this
      ensures Model() == SpringsPass(old(Model()), |old(springs)|, mouseX, mouseY, oracles)
    {
      ghost var target := SpringsPass(Model(), |springs|, mouseX, mouseY, oracles);
      var i: nat := |springs|;
      while i > 0
        invariant i <= |springs| && SpringsJoin(springs, |particles|)
        invariant SpringsPass(Model(), i, mouseX, mouseY, oracles) == target
      {
        i := i - 1;
        SpringsPassUnfold(Model(), i, mouseX, mouseY, oracles);
        UpdateSpring(i, mouseX, mouseY);
      }
    }

    // ---- updateParticles ----

    /**
     * updateParticles: every particle that is neither pinned nor dragged
     * gets gravity, then the wind sampled where gravity left it, then a
     * Verlet step.
     */
    method UpdateParticles()
      modifies this
      ensures Model() == ParticlesPass(old(Model()), oracles)
    {
      ghost var c := Model();
      for j := 0 to |particles|
        invariant |particles| == |c.particles|
        invariant forall k :: 0 <= k < j ==> particles[k] == Advance(c.particles[k], k, c, oracles)
        invariant forall k :: j <= k < |particles| ==> particles[k] == c.particles[k]
        invariant Model() == c.(particles := particles)
      {
        var particle := particles[j];
        if particle.pinned || dragged == Some(j) {
          continue;
        }
        particle := ApplyForce(particle, 0.0, Gravity);
        var windForce := Wind(oracles.noise(particle.x * NoiseScale, particle.y * NoiseScale, noiseOffset));
        particle := ApplyForce(particle, windForce, 0.0);
        particle := Integrate(particle, height);
        particles := particles[j := particle];
      }
      assert particles == ParticlesPass(c, oracles).particles;
    }

    // ---- p.draw ----

    /** The sub-step loop of p.draw, run n times. */
    method RunSubSteps(n: nat, mouseX: real, mouseY: real)
      requires SpringsJoin(springs, |particles|)
      modifies this
      ensures Model() == SubStepsFrom(old(Model()), n, mouseX, mouseY, oracles)
    {
      ghost var start := Model();
      for step := 0 to n
        invariant SpringsJoin(springs, |particles|)
        invariant Model() == SubStepsFrom(start, step, mouseX, mouseY, oracles)
      {
        SubStepsSnoc(start, step, mouseX, mouseY, oracles);
        SubStepOnce(mouseX, mouseY);
      }
    }

    /** One iteration of the sub-step loop of p.draw: updateSprings, then updateParticles. */
    method SubStepOnce(mouseX: real, mouseY: real)
      requires SpringsJoin(springs, |particles|)
      modifies this
      ensures Model() == SubStep(old(Model()), mouseX, mouseY, oracles)
    {
      UpdateSprings(mouseX, mouseY);
      UpdateParticles();
    }

    /** The springs' part of the drawing pass: each spring shown draws two jitter numbers. */
    method DisplaySprings()
      modifies this
      ensures Model() == Render(old(Model()))
    {
      for k := 0 to |springs|
        invariant Model() == old(Model()).(drawn := old(drawn) + DisplayDraws(old(springs)[..k]))
      {
        assert old(springs)[..k + 1][..k] == old(springs)[..k];
        if Visible(springs[k]) {
          var jitterX := Random();
          var jitterY := Random();
        }
      }
      assert old(springs)[..|old(springs)|] == old(springs);
    }

    /**
     * p.draw: advance the noise clock, hold the dragged particle at the
     * pointer with a jitter, run four sub-steps, then draw the springs.
     */
    method Draw(mouseX: real, mouseY: real)
      requires Valid()
      modifies this
      ensures Model() == Frame(old(Model()), mouseX, mouseY, oracles)
      ensures Valid()
    {
      noiseOffset := noiseOffset + NoiseStep;
      ghost var ticked := Model();
      assert ticked == Tick(old(Model()));
      if dragged.Some? {
        var k := dragged.value;
        particles := particles[k := particles[k].(x := mouseX, y := mouseY, pinned := false)];
        var jitterX := Random();
        particles := particles[k := particles[k].(x := particles[k].x + Jitter(jitterX))];
        var jitterY := Random();
        particles := particles[k := particles[k].(y := particles[k].y + Jitter(jitterY))];
      }
      ghost var held := Model();
      assert held == DragOverride(ticked, mouseX, mouseY, oracles);
      RunSubSteps(SubSteps, mouseX, mouseY);
      ghost var stepped := SubStepsFrom(held, SubSteps, mouseX, mouseY, oracles);
      assert Model() == stepped;
      DisplaySprings();
      assert Model() == Render(stepped);
      assert Model() == Frame(old(Model()), mouseX, mouseY, oracles);
      FrameSafe(old(Model()), mouseX, mouseY, oracles);
    }

    // ---- Pointer and canvas callbacks ----

    /**
     * p.mousePressed: find the particle the pointer picks; if it is not an
     * edge particle, drag it and unpin it.
     */
    method MousePressed(mouseX: real, mouseY: real)
      requires Valid()
      modifies this
      ensures exists pick :: IsPick(old(particles), mouseX, mouseY, oracles.sqrt, pick)
                          && Model() == Press(old(Model()), pick)
      ensures Valid()
    {
      var closest := Pick(particles, mouseX, mouseY, oracles.sqrt);
      if closest.Some? && !particles[closest.value].isEdge {
        dragged := closest;
        ClearPin(closest.value);
      }
      assert IsPick(old(particles), mouseX, mouseY, oracles.sqrt, closest)
          && Model() == Press(old(Model()), closest);
      PressSafe(old(Model()), closest);
    }

    /** p.mouseReleased: let go of the dragged particle. */
    method MouseReleased()
      requires Valid()
      modifies this
      ensures Model() == ClothStep.Release(old(Model()))
      ensures Valid()
    {
      dragged := None;
    }

    /**
     * p.setup: without a container nothing happens; otherwise the canvas
     * takes the container's width and a height of 600, and the grid is built.
     */
    method Setup(container: Option<nat>)
      modifies this
      ensures container.None? ==> Model() == old(Model())
      ensures container.Some? ==>
                Model() == Rebuild(old(Model()).(width := container.value as real, height := CanvasHeight)) && Valid()
    {
      if container.None? {
        return;
      }
      width, height := container.value as real, CanvasHeight;
      InitGrid();
    }

    /** p.windowResized: the same resize and rebuild as setup, on the existing canvas. */
    method WindowResized(container: Option<nat>)
      modifies this
      ensures container.None? ==> Model() == old(Model())
      ensures container.Some? ==>
                Model() == Rebuild(old(Model()).(width := container.value as real, height := CanvasHeight)) && Valid()
    {
      if container.None? {
        return;
      }
      width, height := container.value as real, CanvasHeight;
      InitGrid();
    }
  }
}
