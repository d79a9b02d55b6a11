# Text cloth of the remnant section, in Dafny

This project models the text-cloth simulation that `createSketch` in
`src/pages/home/components/RemnantSection.tsx` runs on a p5 canvas.

- **The grid.** `initGrid` lays out a 70 x 50 grid of glyphs from the word
  "Disapper", 8 pixels apart. All glyph particles start pinned, and the
  border ones are marked as edges. Springs join each particle to its right
  and lower neighbours.
- **A frame.** Each frame, `p.draw` advances the noise clock once and holds
  the dragged particle at the pointer with a small jitter. It then runs four
  sub-steps.
- **A sub-step.** Each sub-step first runs `updateSprings`: every spring is
  relaxed, may release pins when it is overstretched, and may be removed with
  a probability that depends on its distance to the pointer. The sub-step
  then runs `updateParticles`: gravity, wind from coherent noise, a Verlet
  step and a ground clamp.
- **Pointer and canvas.** `p.mousePressed` picks the nearest particle within
  60 pixels. `p.mouseReleased` drops it. `p.setup` and `p.windowResized`
  size the canvas and rebuild the grid.

The project has five modules:

- `ClothTypes` (`cloth_types.dfy`): the constants, the `Particle` and
  `Spring` records, and the pure formulas: the constructors, `applyForce`,
  `update`, wind, jitter and break probability.
- `ClothGrid` (`cloth_grid.dfy`): the layout `initGrid` builds, as
  functions, with lemmas for the grid's integrity, counts and topology.
- `ClothStep` (`cloth_step.dfy`): the state `Cloth` of a sketch and every
  callback's state change as a function on it. This includes one iteration
  of `updateSprings`, the whole pass, `updateParticles`, a sub-step, a frame,
  press and release, and the running-minimum scan of `p.mousePressed` as a
  method.
- `ClothSafety` (`cloth_safety.dfy`): what those state changes promise.
  - Edge particles stay pinned and never move.
  - Pins are only ever released.
  - Relaxation is balanced and acts along the spring.
  - The spring list only loses springs, keeps its order, and never loses one
    that touches the dragged particle.
  - `initGrid` establishes all of this from any state.
- `ClothSketch` (`cloth_sketch.dfy`): class `Sketch`, whose fields are the
  closure variables of `createSketch`. Every callback is a method that
  updates the fields in place, with its loops as in the source. Each method
  is proved to perform exactly the state change of the matching `ClothStep`
  function, and the callbacks keep the invariant `Valid`.

Particles are values in a sequence, and a spring names its endpoints by
index. The source's object identity (`s.p1 === draggedParticle`) becomes
index equality, which is exact: between two rebuilds the particle array
never changes length or order. `Math.sqrt`, `p.noise` and `p.random` are
arbitrary functions held in `Oracles`. `p.random` is a stream read at the
cursor `drawn`, so every draw of the source (unpin, break, drag jitter,
spring display jitter) is accounted for in order.

Some of the code's behaviour is easy to misread. The model follows the
code on these points:

- The noise clock advances, and the drag override runs, once per frame
  before the four sub-steps (lines 272-279), not once per sub-step.
- The break probability grows with the distance from the pointer
  (lines 229-233). It is 0 at the pointer and 0.0002 at 250 pixels or more.
  It is not a falloff that vanishes beyond the radius.
- The unpin rule frees a pinned non-edge endpoint only when its partner is
  already free, or when the spring touches the dragged particle
  (lines 212-218). It does not free both endpoints independently.
- `Spring.display` draws two random numbers for every spring it shows
  (lines 139-140). This moves the random stream between frames, so the model
  counts those draws.

## Model

| member | source | states |
|---|---|---|
| ClothTypes.NewParticle | src/pages/home/components/RemnantSection.tsx:75-82 | a new particle is at rest at (x, y), carries its glyph, is pinned and not an edge, and its ground level is 200 below the canvas height |
| ClothTypes.NewSpring | src/pages/home/components/RemnantSection.tsx:110-115 | a new spring joins p1 and p2 with the common stiffness 0.08, and its rest length and current distance are both the given length |
| ClothTypes.ApplyForce | src/pages/home/components/RemnantSection.tsx:83 | a force shifts the position and so adds to the implicit velocity; nothing but x and y changes |
| ClothTypes.Integrate | src/pages/home/components/RemnantSection.tsx:84-90 | the previous position becomes the old position; the velocity is kept times the damping; y never ends below the ground (the canvas height); y keeps its damped velocity unless the clamp stops it, and always keeps it when the step does not pass the ground; nothing but the four coordinates changes |
| ClothTypes.Wind | src/pages/home/components/RemnantSection.tsx:199 | a noise sample in [0, 1) gives a wind in [-0.1, 0.1), blowing left exactly when the sample is below 0.5 |
| ClothTypes.Jitter | src/pages/home/components/RemnantSection.tsx:277-278 | p.random(-1, 1) maps a uniform draw in [0, 1) into [-1, 1), invertibly |
| ClothTypes.Dist | src/pages/home/components/RemnantSection.tsx:227 | p.dist: the supplied square root of the squared separation of two points |
| ClothTypes.Clamp | src/pages/home/components/RemnantSection.tsx:230 | p.constrain lands in [lo, hi] and leaves values already inside alone |
| ClothTypes.BreakProbability | src/pages/home/components/RemnantSection.tsx:229-233 | the break probability lies in [0, 0.0002], is 0 at or below distance 0, is 0.0002 from distance 250 on, and in between equals 0.0002 * (d / 250)^2 |
| ClothTypes.BreakProbabilityMonotone | src/pages/home/components/RemnantSection.tsx:229-233 | the break probability never decreases as the spring's midpoint moves away from the pointer |
| ClothTypes.Visible | src/pages/home/components/RemnantSection.tsx:131-132 | for a positive rest length, a spring is drawn exactly when it is stretched beyond 1.2 times its rest length |
| ClothStep.RelaxParticles | src/pages/home/components/RemnantSection.tsx:117-128 | the relaxation of Spring.update keeps the number of particles; RelaxMovesOnlyFreeEnds, RelaxBalanced, RelaxAlongSpring and RelaxCoincident state its effect |
| ClothStep.Measure | src/pages/home/components/RemnantSection.tsx:117-120 | Spring.update re-measures a spring without changing its endpoints, rest length or stiffness |
| ClothStep.UnpinEnds | src/pages/home/components/RemnantSection.tsx:212-218 | the unpin checks keep the number of particles; UnpinEndsExact gives the exact outcome for both endpoints |
| ClothStep.Floored | src/pages/home/components/RemnantSection.tsx:119-121 | the relaxation divisor is never below 0.1 and equals the distance when that is at least 0.1 |
| ClothStep.SpringStep | src/pages/home/components/RemnantSection.tsx:207-237 | one iteration of updateSprings keeps the particle count, the dragged particle, the noise clock and the canvas; it leaves every spring joining particles of the cloth; it removes at most one spring and draws at most two random numbers |
| ClothStep.SpringsPass | src/pages/home/components/RemnantSection.tsx:205-239 | updateSprings over n springs keeps the particle count, the dragged particle and the canvas; it removes at most n springs and draws at most 2n random numbers |
| ClothStep.Advance | src/pages/home/components/RemnantSection.tsx:196-202 | a pinned or dragged particle is left exactly as it is; any other particle ends on or above the ground; only positions ever change |
| ClothStep.AdvanceAll | src/pages/home/components/RemnantSection.tsx:196-202 | the first n particles, each advanced against the same state |
| ClothStep.ParticlesPass | src/pages/home/components/RemnantSection.tsx:195-203 | updateParticles changes nothing but the particles, and keeps their number |
| ClothStep.SubStep | src/pages/home/components/RemnantSection.tsx:280-283 | a sub-step keeps the particle count, the dragged particle and the noise clock, never adds a spring, and leaves every spring joining particles of the cloth |
| ClothStep.SubStepsFrom | src/pages/home/components/RemnantSection.tsx:280-283 | any number of sub-steps keeps the particle count, the dragged particle and the noise clock, and never adds a spring |
| ClothStep.SubStepsSnoc | src/pages/home/components/RemnantSection.tsx:280-283 | n + 1 sub-steps are n sub-steps followed by one more, which is how the loop of p.draw runs them |
| ClothStep.DisplayDraws | src/pages/home/components/RemnantSection.tsx:130-140 | drawing the springs takes at most two random numbers per spring, and none exactly when no spring is visible |
| ClothStep.Render | src/pages/home/components/RemnantSection.tsx:284-286 | the drawing pass changes nothing but the position in the random stream |
| ClothStep.DragOverride | src/pages/home/components/RemnantSection.tsx:273-279 | the drag override keeps the number of particles, the springs and the dragged particle; DragOverrideSafe gives the moved particle |
| ClothStep.Tick | src/pages/home/components/RemnantSection.tsx:272 | the noise clock advances by 0.01 and nothing else changes |
| ClothStep.Frame | src/pages/home/components/RemnantSection.tsx:270-287 | a frame keeps the particle count and the dragged particle, never adds a spring, and leaves every spring joining particles of the cloth |
| ClothStep.Press | src/pages/home/components/RemnantSection.tsx:296-299 | pressing keeps the number of particles and the springs; PressSafe gives the change for edge and non-edge picks |
| ClothStep.IsPick | src/pages/home/components/RemnantSection.tsx:290-295 | the reference definition of the scan: the first particle closer than 60 and than every earlier particle, no later particle closer, or none when all are 60 or more away; Pick is proved against it and PickUnique shows it determines the result |
| ClothStep.Release | src/pages/home/components/RemnantSection.tsx:302 | releasing the pointer drops the dragged particle and changes nothing else; no pin is restored |
| ClothStep.Pick | src/pages/home/components/RemnantSection.tsx:290-295 | the scan returns the first particle strictly closer than 60 and than every earlier particle, with no later particle closer; it returns none when every particle is 60 or more away |
| ClothGrid.Rebuild | src/pages/home/components/RemnantSection.tsx:154-193 | initGrid leaves nothing dragged and the noise clock at 0, on the same canvas and random cursor; GridIntegrity, GridTopology and GridSpringCount describe the grid it builds |
| ClothGrid.LayoutOf | src/pages/home/components/RemnantSection.tsx:55-58 | initGrid lays out 70 columns and 50 rows, 8 apart, of the text "Disapper", on the current canvas |
| ClothGrid.RowParticlesAt | src/pages/home/components/RemnantSection.tsx:163-179 | the inner particle loop pushes one particle per column, column x holding the particle of cell (x, y) |
| ClothGrid.GridParticlesLength | src/pages/home/components/RemnantSection.tsx:162-180 | the particle loops push rows * cols particles |
| ClothGrid.GridParticleAt | src/pages/home/components/RemnantSection.tsx:162-180 | the particle of cell (x, y) sits at index y * cols + x (row-major order) |
| ClothGrid.GridParticlesPinned | src/pages/home/components/RemnantSection.tsx:170-176 | every particle initGrid creates is pinned |
| ClothGrid.GridIntegrity | src/pages/home/components/RemnantSection.tsx:159-180 | there are rows * cols particles; the one at y * cols + x is at rest at (startX + x * spacing, startY + y * spacing), carries txt[(y * cols + x) mod 8] and is pinned; it is an edge exactly on the border rows and columns |
| ClothGrid.RowSpringsCount | src/pages/home/components/RemnantSection.tsx:183-187 | the inner spring loop pushes a right spring from all cells but the last, and a down spring from every cell of all rows but the last |
| ClothGrid.GridSpringsCountUpTo | src/pages/home/components/RemnantSection.tsx:182-188 | after r rows the spring loops have pushed r * (cols - 1) right springs and cols * r down springs, or cols * (r - 1) once the last row is done |
| ClothGrid.GridSpringCount | src/pages/home/components/RemnantSection.tsx:182-188 | initGrid creates (cols - 1) * rows + cols * (rows - 1) springs |
| ClothGrid.CellSpringsShape | src/pages/home/components/RemnantSection.tsx:185-186 | a cell pushes only its own right spring (not in the last column) and its own down spring (not in the last row), each a link of the grid |
| ClothGrid.RowSpringsShape | src/pages/home/components/RemnantSection.tsx:183-187 | every spring the first n cells of a row push is the right or down spring of one of those cells, and a link of the grid |
| ClothGrid.GridSpringsShape | src/pages/home/components/RemnantSection.tsx:182-188 | every spring initGrid creates is a right or down spring of a grid cell |
| ClothGrid.RowSpringsCover | src/pages/home/components/RemnantSection.tsx:183-187 | the row loop pushes the right and down springs of every cell it visits |
| ClothGrid.GridSpringsCover | src/pages/home/components/RemnantSection.tsx:182-188 | the spring loops push the right spring and the down spring of every cell that has one |
| ClothGrid.GridTopology | src/pages/home/components/RemnantSection.tsx:182-188 | the springs are exactly the right-neighbour springs (x < cols - 1) and the down-neighbour springs (y < rows - 1), never diagonal ones |
| ClothGrid.GridLinkWellFormed | src/pages/home/components/RemnantSection.tsx:184-186 | a grid spring joins two distinct particles of the grid, i to i + 1 or i to i + cols, and starts at rest: rest length = current distance = spacing, stiffness 0.08 |
| ClothGrid.GridSpringsHidden | src/pages/home/components/RemnantSection.tsx:131-132 | right after initGrid no spring is drawn: every stretch ratio is 1 |
| ClothSafety.RelaxMovesOnlyFreeEnds | src/pages/home/components/RemnantSection.tsx:127-128 | Spring.update moves only positions, and only those of its endpoints that are neither pinned nor dragged |
| ClothSafety.RelaxBalanced | src/pages/home/components/RemnantSection.tsx:124-128 | when both endpoints move, they move by opposite vectors, so the sums of their coordinates are unchanged |
| ClothSafety.OffsetAlong | src/pages/home/components/RemnantSection.tsx:123-125 | the offsets of the two components form a vector parallel to the separation; for a positive distance and stiffness, the offset of a positive component is negative (pulls the endpoints together) exactly when the spring is longer than its rest length, and zero exactly at the rest length |
| ClothSafety.RelaxAlongSpring | src/pages/home/components/RemnantSection.tsx:117-128 | relaxation widens the separation of the endpoints by the offset of the floored distance, once for each free endpoint |
| ClothSafety.RelaxCoincident | src/pages/home/components/RemnantSection.tsx:119-128 | coincident endpoints are left where they are, because the floored divisor keeps the step finite |
| ClothSafety.UnpinEndsExact | src/pages/home/components/RemnantSection.tsx:212-218 | after the unpin checks an endpoint is pinned exactly when it was pinned and either is an edge or has a pinned partner on a spring that does not touch the dragged particle; nothing else changes |
| ClothSafety.SpringStepSprings | src/pages/home/components/RemnantSection.tsx:222-237 | an iteration at index i only re-measures spring i or splices it out; it removes the spring exactly when the spring does not touch the dragged particle and the draw is below the break probability of the distance from its relaxed midpoint to the pointer, so below 0.0002 |
| ClothSafety.SpringStepPins | src/pages/home/components/RemnantSection.tsx:210-219 | no pin changes unless spring i is overstretched and the draw is below 0.2; when both hold, the unpin rule decides the two endpoints and no other pin changes |
| ClothSafety.SpringStepSafe | src/pages/home/components/RemnantSection.tsx:207-237 | an iteration keeps the invariant: springs join particles, the dragged particle is no edge, and edges are pinned; edge particles do not change, glyphs and edge marks stay, and no pin is set |
| ClothSafety.SpringStepLinks | src/pages/home/components/RemnantSection.tsx:222-237 | an iteration leaves a subsequence of the springs (by endpoints, rest length and stiffness) and keeps every spring touching the dragged particle |
| ClothSafety.DropShrinks | src/pages/home/components/RemnantSection.tsx:236 | splicing out a spring that does not touch the dragged particle leaves a subsequence that still holds every spring touching it |
| ClothSafety.SpringsPassSafe | src/pages/home/components/RemnantSection.tsx:205-239 | updateSprings keeps the invariant, the particles only evolve, the springs left are a subsequence of those before, and every spring touching the dragged particle survives |
| ClothSafety.ParticlesPassEffect | src/pages/home/components/RemnantSection.tsx:195-203 | updateParticles leaves pinned and dragged particles alone; any other particle gets gravity, then the wind sampled at its new position, then a Verlet step that ends on or above the ground; its other fields stay |
| ClothSafety.ParticlesPassSafe | src/pages/home/components/RemnantSection.tsx:195-203 | updateParticles keeps the invariant, the particles only evolve, and no pinned particle changes at all |
| ClothSafety.DragOverrideSafe | src/pages/home/components/RemnantSection.tsx:273-279 | the drag override keeps the invariant; without a dragged particle it changes nothing; otherwise only the dragged particle changes: it is unpinned and placed one jitter from the pointer on each axis |
| ClothSafety.RenderPreserves | src/pages/home/components/RemnantSection.tsx:284-286 | drawing keeps everything the simulation promises |
| ClothSafety.SubStepSafe | src/pages/home/components/RemnantSection.tsx:280-283 | a sub-step keeps the invariant; particles only evolve, springs are only removed, and the dragged particle stays |
| ClothSafety.SubStepsSafe | src/pages/home/components/RemnantSection.tsx:280-283 | any number of sub-steps keeps the invariant; particles only evolve, springs only shrink, and the dragged particle stays |
| ClothSafety.FrameOfSafe | src/pages/home/components/RemnantSection.tsx:270-287 | a frame with any number of sub-steps keeps the invariant and advances the noise clock by one step |
| ClothSafety.FrameSafe | src/pages/home/components/RemnantSection.tsx:270-287 | a frame keeps the invariant: edges stay pinned and in place, no pin is set, springs only shrink in order and never lose one touching the dragged particle, and the noise clock advances by 0.01 |
| ClothSafety.RebuildSafe | src/pages/home/components/RemnantSection.tsx:154-193 | initGrid establishes the invariant from any state: all particles pinned, nothing dragged, the noise clock at 0, no spring visible |
| ClothSafety.RebuildIdempotent | src/pages/home/components/RemnantSection.tsx:154-193 | initGrid forgets everything but the canvas size and the random stream, so rebuilding twice is rebuilding once |
| ClothSafety.PickUnique | src/pages/home/components/RemnantSection.tsx:290-295 | the particle the scan finds is determined: at most one particle qualifies |
| ClothSafety.PressSafe | src/pages/home/components/RemnantSection.tsx:296-299 | a press keeps the invariant; a non-edge pick becomes the dragged particle and is unpinned; an edge pick or no pick changes nothing |
| ClothSafety.ReleaseSafe | src/pages/home/components/RemnantSection.tsx:302 | a release keeps the invariant, leaves every particle as it was, and leaves nothing dragged |
| ClothSketch.Sketch.constructor | src/pages/home/components/RemnantSection.tsx:52-70 | a fresh sketch has no particles or springs, nothing dragged, the noise clock at 0 and p5's default canvas |
| ClothSketch.Sketch.Random | src/pages/home/components/RemnantSection.tsx:211 | p.random(1) returns the next number of the stream and advances the stream by one |
| ClothSketch.Sketch.InitGrid | src/pages/home/components/RemnantSection.tsx:154-193 | initGrid replaces the state with the rebuilt grid, and the invariant holds afterwards |
| ClothSketch.Sketch.PushParticles | src/pages/home/components/RemnantSection.tsx:156-180 | the particle loops leave exactly the grid's particles in row-major order and change nothing else |
| ClothSketch.Sketch.PushRow | src/pages/home/components/RemnantSection.tsx:163-179 | one pass of the inner particle loop appends the row's particles, with the edge marks of the border |
| ClothSketch.Sketch.PushSprings | src/pages/home/components/RemnantSection.tsx:157-188 | the spring loops leave exactly the grid's springs and change nothing else |
| ClothSketch.Sketch.PushRowSprings | src/pages/home/components/RemnantSection.tsx:183-187 | one pass of the inner spring loop appends the row's right and down springs |
| ClothSketch.Sketch.Relax | src/pages/home/components/RemnantSection.tsx:116-129 | Spring.update records the unfloored distance in spring i and moves the free endpoints by the relaxation |
| ClothSketch.Sketch.ClearPin | src/pages/home/components/RemnantSection.tsx:212 | clearing a pin changes that particle's pin and nothing else |
| ClothSketch.Sketch.ReleaseEnds | src/pages/home/components/RemnantSection.tsx:212-218 | the four unpin checks, run in order, perform the unpin rule |
| ClothSketch.Sketch.UpdateSpring | src/pages/home/components/RemnantSection.tsx:207-237 | the body of the updateSprings loop performs one iteration: relax, maybe unpin, and, unless the spring touches the dragged particle, maybe splice it out |
| ClothSketch.Sketch.UpdateSprings | src/pages/home/components/RemnantSection.tsx:205-239 | the backwards loop performs the whole pass, visiting each spring index once |
| ClothSketch.Sketch.UpdateParticles | src/pages/home/components/RemnantSection.tsx:195-203 | the particle loop advances every particle as updateParticles does |
| ClothSketch.Sketch.RunSubSteps | src/pages/home/components/RemnantSection.tsx:280-283 | the sub-step loop run n times performs n sub-steps |
| ClothSketch.Sketch.SubStepOnce | src/pages/home/components/RemnantSection.tsx:281-282 | updateSprings then updateParticles performs one sub-step |
| ClothSketch.Sketch.DisplaySprings | src/pages/home/components/RemnantSection.tsx:285 | the spring drawing loop consumes two random numbers per visible spring and changes nothing else |
| ClothSketch.Sketch.Draw | src/pages/home/components/RemnantSection.tsx:270-287 | p.draw performs one frame and keeps the invariant |
| ClothSketch.Sketch.MousePressed | src/pages/home/components/RemnantSection.tsx:289-300 | a press drags and unpins the particle the scan picks, unless it is an edge, and keeps the invariant |
| ClothSketch.Sketch.MouseReleased | src/pages/home/components/RemnantSection.tsx:302 | a release drops the dragged particle and keeps the invariant |
| ClothSketch.Sketch.Setup | src/pages/home/components/RemnantSection.tsx:256-268 | without a container nothing changes; otherwise the canvas becomes the container's width by 600, the grid is rebuilt, and the invariant holds |
| ClothSketch.Sketch.WindowResized | src/pages/home/components/RemnantSection.tsx:304-309 | without a container nothing changes; otherwise the canvas is resized to the container's width by 600, the grid is rebuilt, and the invariant holds |

## Left out

- Drawing through p5 is not modelled. This covers `Particle.display`, the
  stroke, alpha, weight and translation of `Spring.display`,
  `drawFrameBounds`, `p.clear`, fonts and text styles. The library's canvas
  is outside the model. The only effect of drawing on the simulation is the
  two random numbers `Spring.display` takes per visible spring, and that is
  modelled.
- The p5 instance lifecycle is not modelled: `new p5`, `remove`,
  `createCanvas`/`resizeCanvas`, `parent`, the reset button's rebuild after a
  timer, the visibility observer and the JSX. These are host and DOM
  plumbing. The container is an `Option` of its width. Resize and setup
  rebuild the grid exactly as the source does.
- `Math.sqrt`, `p.dist`, `p.noise` and `p.random` have no concrete values.
  They are arbitrary functions, and `p.random` is a stream. No range is
  assumed, so contracts that need one (`Wind`, `Jitter`) state it as a
  hypothesis.
- Numbers are mathematical reals, not IEEE doubles. Rounding, overflow, NaN
  and Infinity are not modelled, except the zero-rest-length case of the
  stretch ratio in `Visible`. Numerical stability of the integration is not
  claimed.
- The pointer position is a parameter of each callback rather than state
  read from p5.
- The other components are outside this model: `HeroSection.tsx`,
  `MemoryCards.tsx`, `ContactSection.tsx`, `Footer.tsx`, `page.tsx`,
  `LoadingScreen.tsx` and `MouseFollower.tsx`. They are declarative UI,
  timers and listeners, with no simulation state.
