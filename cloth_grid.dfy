/**
 * initGrid: the cloth is rebuilt as a centred cols x rows grid of pinned
 * particles in row-major order, joined by springs to the right neighbour and
 * to the neighbour below.
 */
module ClothGrid {
  import opened ClothTypes

  /** Grid dimensions, spacing, glyph source, and the canvas it is centred in. */
  datatype Layout = Layout(cols: nat, rows: nat, spacing: real, txt: string, width: real, height: real)

  /** The layout initGrid uses for a sketch whose canvas is that of c. */
  function LayoutOf(c: Cloth): (g: Layout)
    ensures g.cols == Cols && g.rows == Rows && g.spacing == Spacing && g.txt == Txt
    ensures g.width == c.width && g.height == c.height && |g.txt| > 0
  {
    Layout(Cols, Rows, Spacing, Txt, c.width, c.height)
  }

  function StartX(g: Layout): real
  {
    (g.width - g.cols as real * g.spacing) / 2.0
  }

  function StartY(g: Layout): real
  {
    (g.height - g.rows as real * g.spacing) / 2.0 - TopShift
  }

  /** Index of grid cell (x, y) in the row-major particle sequence. */
  function Cell(g: Layout, x: nat, y: nat): nat
  {
    y * g.cols + x
  }

  predicate OnBorder(g: Layout, x: nat, y: nat)
  {
    x == 0 || x == g.cols - 1 || y == 0 || y == g.rows - 1
  }

  /** The particle initGrid creates for column x of row y. */
  function GridParticle(g: Layout, x: nat, y: nat): Particle
    requires |g.txt| > 0
  {
    var p := NewParticle(StartX(g) + x as real * g.spacing, StartY(g) + y as real * g.spacing,
                         g.txt[Cell(g, x, y) % |g.txt|], g.height);
    if OnBorder(g, x, y) then p.(pinned := true, isEdge := true)
    else p.(pinned := true, isEdge := false)
  }

  /** The first n particles of row y. */
  function RowParticles(g: Layout, y: nat, n: nat): seq<Particle>
    requires |g.txt| > 0
  {
    if n == 0 then [] else RowParticles(g, y, n - 1) + [GridParticle(g, n - 1, y)]
  }

  /** The particles of the first r rows. */
  function GridParticles(g: Layout, r: nat): seq<Particle>
    requires |g.txt| > 0
  {
    if r == 0 then [] else GridParticles(g, r - 1) + RowParticles(g, r - 1, g.cols)
  }

  /** The spring from cell (x, y) to its right neighbour. */
  function RightSpring(g: Layout, x: nat, y: nat): Spring
  {
    NewSpring(Cell(g, x, y), Cell(g, x, y) + 1, g.spacing)
  }

  /** The spring from cell (x, y) to the cell below it. */
  function DownSpring(g: Layout, x: nat, y: nat): Spring
  {
    NewSpring(Cell(g, x, y), Cell(g, x, y) + g.cols, g.spacing)
  }

  /** The springs initGrid pushes while visiting cell (x, y). */
  function CellSprings(g: Layout, x: nat, y: nat): seq<Spring>
  {
    (if x < g.cols - 1 then [RightSpring(g, x, y)] else [])
    + (if y < g.rows - 1 then [DownSpring(g, x, y)] else [])
  }

  /** The springs of the first n cells of row y. */
  function RowSprings(g: Layout, y: nat, n: nat): seq<Spring>
  {
    if n == 0 then [] else RowSprings(g, y, n - 1) + CellSprings(g, n - 1, y)
  }

  /** The springs of the first r rows. */
  function GridSprings(g: Layout, r: nat): seq<Spring>
  {
    if r == 0 then [] else GridSprings(g, r - 1) + RowSprings(g, r - 1, g.cols)
  }

  /** initGrid: fresh particles and springs, no dragged particle, noise clock at zero. */
  function Rebuild(c: Cloth): (r: Cloth)
    ensures r.dragged == None && r.noiseOffset == 0.0
    ensures r.width == c.width && r.height == c.height && r.drawn == c.drawn
  {
    var g := LayoutOf(c);
    c.(particles := GridParticles(g, g.rows), springs := GridSprings(g, g.rows),
       dragged := None, noiseOffset := 0.0)
  }

  /** A spring initGrid may create: right or down from a cell, at rest length spacing. */
  ghost predicate IsGridLink(g: Layout, s: Spring)
  {
    exists x: nat, y: nat :: x < g.cols && y < g.rows &&
      ((x < g.cols - 1 && s == RightSpring(g, x, y)) || (y < g.rows - 1 && s == DownSpring(g, x, y)))
  }

  // ---- Row-major arithmetic ----

  lemma MulMonotone(a: nat, b: nat, c: nat)
    requires a <= b
    ensures a * c <= b * c
  {
  }

  lemma NextRow(r: nat, c: nat)
    ensures (r + 1) * c == r * c + c
  {
  }

  lemma CellBelowRow(g: Layout, x: nat, y: nat, r: nat)
    requires x < g.cols && y < r
    ensures Cell(g, x, y) < r * g.cols
  {
    NextRow(y, g.cols);
    MulMonotone(y + 1, r, g.cols);
  }

  // ---- Particles ----

  lemma {:induction false} RowParticlesAt(g: Layout, y: nat, n: nat)
    requires |g.txt| > 0
    ensures |RowParticles(g, y, n)| == n
    ensures forall x :: 0 <= x < n ==> RowParticles(g, y, n)[x] == GridParticle(g, x, y)
  {
    if n > 0 {
      RowParticlesAt(g, y, n - 1);
    }
  }

  lemma {:induction false} GridParticlesLength(g: Layout, r: nat)
    requires |g.txt| > 0
    ensures |GridParticles(g, r)| == r * g.cols
  {
    if r > 0 {
      GridParticlesLength(g, r - 1);
      RowParticlesAt(g, r - 1, g.cols);
      NextRow(r - 1, g.cols);
    }
  }

  lemma {:induction false} GridParticleAt(g: Layout, r: nat, x: nat, y: nat)
    requires |g.txt| > 0 && x < g.cols && y < r
    ensures Cell(g, x, y) < |GridParticles(g, r)|
    ensures GridParticles(g, r)[Cell(g, x, y)] == GridParticle(g, x, y)
  {
    GridParticlesLength(g, r);
    CellBelowRow(g, x, y, r);
    var prev := GridParticles(g, r - 1);
    var row := RowParticles(g, r - 1, g.cols);
    assert GridParticles(g, r) == prev + row;
    GridParticlesLength(g, r - 1);
    if y < r - 1 {
      CellBelowRow(g, x, y, r - 1);
      GridParticleAt(g, r - 1, x, y);
    } else {
      RowParticlesAt(g, r - 1, g.cols);
      assert Cell(g, x, y) == |prev| + x;
    }
  }

  lemma {:induction false} GridParticlesPinned(g: Layout, r: nat)
    requires |g.txt| > 0
    ensures forall j :: 0 <= j < |GridParticles(g, r)| ==> GridParticles(g, r)[j].pinned
  {
    if r > 0 {
      GridParticlesPinned(g, r - 1);
      RowParticlesAt(g, r - 1, g.cols);
    }
  }

  /**
   * Grid integrity: rows * cols particles in row-major order, each at its
   * spacing-aligned position and at rest, with the glyph txt[(y*cols + x) mod |txt|],
   * all pinned, and marked as edge exactly on the border rows and columns.
   */
  lemma GridIntegrity(g: Layout, x: nat, y: nat)
    requires |g.txt| > 0 && x < g.cols && y < g.rows
    ensures |GridParticles(g, g.rows)| == g.rows * g.cols
    ensures y * g.cols + x < |GridParticles(g, g.rows)|
    ensures var p := GridParticles(g, g.rows)[y * g.cols + x];
              && p.x == p.oldx == StartX(g) + x as real * g.spacing
              && p.y == p.oldy == StartY(g) + y as real * g.spacing
              && p.glyph == g.txt[(y * g.cols + x) % |g.txt|]
              && p.pinned
              && (p.isEdge <==> (x == 0 || x == g.cols - 1 || y == 0 || y == g.rows - 1))
    ensures forall j :: 0 <= j < |GridParticles(g, g.rows)| ==> GridParticles(g, g.rows)[j].pinned
  {
    GridParticleAt(g, g.rows, x, y);
    GridParticlesLength(g, g.rows);
    GridParticlesPinned(g, g.rows);
  }

  // ---- Springs ----

  lemma {:induction false} RowSpringsCount(g: Layout, y: nat, n: nat)
    requires 1 <= g.cols && n <= g.cols
    ensures |RowSprings(g, y, n)| == (if n == g.cols then n - 1 else n) + (if y < g.rows - 1 then n else 0)
  {
    if n > 0 {
      RowSpringsCount(g, y, n - 1);
    }
  }

  lemma CountStep(r: nat, c: nat)
    requires 1 <= r && 1 <= c
    ensures (r - 1) * (c - 1) + (c - 1) == r * (c - 1)
    ensures c * (r - 1) + c == c * r
    ensures c * (r - 1) == c * r - c
  {
  }

  lemma {:induction false} GridSpringsCountUpTo(g: Layout, r: nat)
    requires 1 <= g.cols && 1 <= g.rows && r <= g.rows
    ensures |GridSprings(g, r)| == r * (g.cols - 1) + g.cols * (if r == g.rows then r - 1 else r)
  {
    if r > 0 {
      GridSpringsCountUpTo(g, r - 1);
      RowSpringsCount(g, r - 1, g.cols);
      assert GridSprings(g, r) == GridSprings(g, r - 1) + RowSprings(g, r - 1, g.cols);
      CountStep(r, g.cols);
    }
  }

  /** Spring count: (cols - 1) * rows horizontal plus cols * (rows - 1) vertical springs. */
  lemma GridSpringCount(g: Layout)
    requires 1 <= g.cols && 1 <= g.rows
    ensures |GridSprings(g, g.rows)| == (g.cols - 1) * g.rows + g.cols * (g.rows - 1)
  {
    GridSpringsCountUpTo(g, g.rows);
  }

  /** s is the right spring or the down spring of cell (x, y). */
  predicate IsCellLink(g: Layout, x: nat, y: nat, s: Spring)
  {
    (x < g.cols - 1 && s == RightSpring(g, x, y)) || (y < g.rows - 1 && s == DownSpring(g, x, y))
  }

  /** A cell pushes only its own right and down springs, each a link of the grid. */
  lemma CellSpringsShape(g: Layout, x: nat, y: nat)
    requires x < g.cols && y < g.rows
    ensures forall s :: s in CellSprings(g, x, y) ==> IsCellLink(g, x, y, s)
    ensures forall s :: s in CellSprings(g, x, y) ==> IsGridLink(g, s)
  {
    forall s | s in CellSprings(g, x, y) ensures IsGridLink(g, s) {
      if x < g.cols - 1 && s == RightSpring(g, x, y) {
      } else {
        assert y < g.rows - 1 && s == DownSpring(g, x, y);
      }
    }
  }

  /** The first n cells of row y push only their own right and down springs. */
  lemma {:induction false} RowSpringsShape(g: Layout, y: nat, n: nat)
    requires n <= g.cols && y < g.rows
    ensures forall s :: s in RowSprings(g, y, n) ==> exists x: nat :: x < n && IsCellLink(g, x, y, s)
    ensures forall s :: s in RowSprings(g, y, n) ==> IsGridLink(g, s)
  {
    if n > 0 {
      RowSpringsShape(g, y, n - 1);
      CellSpringsShape(g, n - 1, y);
      forall s | s in RowSprings(g, y, n) ensures exists x: nat :: x < n && IsCellLink(g, x, y, s) {
        if s in CellSprings(g, n - 1, y) {
          assert IsCellLink(g, n - 1, y, s);
        }
      }
    }
  }

  lemma {:induction false} GridSpringsShape(g: Layout, r: nat)
    requires r <= g.rows
    ensures forall s :: s in GridSprings(g, r) ==> IsGridLink(g, s)
  {
    if r > 0 {
      GridSpringsShape(g, r - 1);
      RowSpringsShape(g, r - 1, g.cols);
    }
  }

  lemma {:induction false} RowSpringsCover(g: Layout, y: nat, n: nat, x: nat)
    requires x < n
    ensures x < g.cols - 1 ==> RightSpring(g, x, y) in RowSprings(g, y, n)
    ensures y < g.rows - 1 ==> DownSpring(g, x, y) in RowSprings(g, y, n)
  {
    if x < n - 1 {
      RowSpringsCover(g, y, n - 1, x);
    }
  }

  lemma {:induction false} GridSpringsCover(g: Layout, r: nat, x: nat, y: nat)
    requires x < g.cols && y < r
    ensures x < g.cols - 1 ==> RightSpring(g, x, y) in GridSprings(g, r)
    ensures y < g.rows - 1 ==> DownSpring(g, x, y) in GridSprings(g, r)
  {
    if y < r - 1 {
      GridSpringsCover(g, r - 1, x, y);
    } else {
      RowSpringsCover(g, y, g.cols, x);
    }
  }

  /**
   * Topology: the springs are exactly the right-neighbour springs (x < cols - 1)
   * and the down-neighbour springs (y < rows - 1), never diagonal ones.
   */
  lemma GridTopology(g: Layout)
    ensures forall s :: s in GridSprings(g, g.rows) ==> IsGridLink(g, s)
    ensures forall x: nat, y: nat :: x < g.cols - 1 && y < g.rows ==> RightSpring(g, x, y) in GridSprings(g, g.rows)
    ensures forall x: nat, y: nat :: x < g.cols && y < g.rows - 1 ==> DownSpring(g, x, y) in GridSprings(g, g.rows)
  {
    GridSpringsShape(g, g.rows);
    forall x: nat, y: nat | x < g.cols && y < g.rows
      ensures x < g.cols - 1 ==> RightSpring(g, x, y) in GridSprings(g, g.rows)
      ensures y < g.rows - 1 ==> DownSpring(g, x, y) in GridSprings(g, g.rows)
    {
      GridSpringsCover(g, g.rows, x, y);
    }
  }

  /**
   * Every grid spring joins two distinct particles of the grid and starts at
   * rest: restLength == currentDist == spacing, with the common stiffness.
   */
  lemma GridLinkWellFormed(g: Layout, s: Spring)
    requires IsGridLink(g, s)
    ensures s.p1 < g.rows * g.cols && s.p2 < g.rows * g.cols && s.p1 != s.p2
    ensures s.p2 == s.p1 + 1 || s.p2 == s.p1 + g.cols
    ensures s.restLength == s.currentDist == g.spacing && s.stiffness == Stiffness
  {
    var x: nat, y: nat :| x < g.cols && y < g.rows &&
      ((x < g.cols - 1 && s == RightSpring(g, x, y)) || (y < g.rows - 1 && s == DownSpring(g, x, y)));
    if x < g.cols - 1 && s == RightSpring(g, x, y) {
      CellBelowRow(g, x + 1, y, g.rows);
    } else {
      NextRow(y, g.cols);
      CellBelowRow(g, x, y + 1, g.rows);
    }
  }

  /** A freshly built cloth shows no spring: every ratio currentDist / restLength is 1. */
  lemma GridSpringsHidden(g: Layout)
    requires g.spacing > 0.0
    ensures forall s :: s in GridSprings(g, g.rows) ==> !Visible(s)
  {
    GridTopology(g);
    forall s | s in GridSprings(g, g.rows) ensures !Visible(s) {
      GridLinkWellFormed(g, s);
    }
  }
}
