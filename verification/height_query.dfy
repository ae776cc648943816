/**
  Terrain height queries over the 18-floats-per-quad vertex buffer that the
  heightmap mesh builders write, and the fixed-step ray march over a
  heightmap image (terrain/main.c and terrain/jan_terrain.c).
 */
module HeightQuery {
  import opened Vectors
  import opened Grid
  import opened Images
  import TerrainMesh

  // ---------------------------------------------------------------------
  // Barycentric coordinates

  /** Barycentric weights of a point with respect to a triangle. */
  datatype Weights = Weights(l1: real, l2: real, l3: real)

  /** The shared denominator; it is zero exactly for a degenerate triangle. */
  function Denominator(a: Vec2, b: Vec2, c: Vec2): real {
    (b.y - c.y) * (a.x - c.x) + (c.x - b.x) * (a.y - c.y)
  }

  /**
    `barycentric_coordinates`: the first two weights by Cramer's rule and
    the third as whatever makes the sum 1.
   */
  function Barycentric(p: Vec2, a: Vec2, b: Vec2, c: Vec2): (w: Weights)
    requires Denominator(a, b, c) != 0.0
    ensures w.l1 + w.l2 + w.l3 == 1.0
  {
    var d := Denominator(a, b, c);
    var l1 := ((b.y - c.y) * (p.x - c.x) + (c.x - b.x) * (p.y - c.y)) / d;
    var l2 := ((c.y - a.y) * (p.x - c.x) + (a.x - c.x) * (p.y - c.y)) / d;
    Weights(l1, l2, 1.0 - l1 - l2)
  }

  /** The weighted sum of three values. */
  function Interpolate(w: Weights, ya: real, yb: real, yc: real): real {
    w.l1 * ya + w.l2 * yb + w.l3 * yc
  }

  predicate NonNegative(w: Weights) {
    w.l1 >= 0.0 && w.l2 >= 0.0 && w.l3 >= 0.0
  }

  function Min3(a: real, b: real, c: real): real {
    if a <= b && a <= c then a else if b <= c then b else c
  }

  function Max3(a: real, b: real, c: real): real {
    if a >= b && a >= c then a else if b >= c then b else c
  }

  /** The weights reproduce the point they were computed for. */
  lemma BarycentricReproducesPoint(p: Vec2, a: Vec2, b: Vec2, c: Vec2)
    requires Denominator(a, b, c) != 0.0
    ensures var w := Barycentric(p, a, b, c);
      w.l1 * a.x + w.l2 * b.x + w.l3 * c.x == p.x
      && w.l1 * a.y + w.l2 * b.y + w.l3 * c.y == p.y
  {
    var d := Denominator(a, b, c);
    var n1 := (b.y - c.y) * (p.x - c.x) + (c.x - b.x) * (p.y - c.y);
    var n2 := (c.y - a.y) * (p.x - c.x) + (a.x - c.x) * (p.y - c.y);
    var w := Barycentric(p, a, b, c);
    assert w == Weights(n1 / d, n2 / d, 1.0 - n1 / d - n2 / d);
    CramerIdentity(a.x, a.y, b.x, b.y, c.x, c.y, p.x, p.y, n1, n2, d);
    ReproduceAxis(w.l1, w.l2, n1, n2, d, a.x, b.x, c.x, p.x);
    ReproduceAxis(w.l1, w.l2, n1, n2, d, a.y, b.y, c.y, p.y);
  }

  /** The two Cramer numerators recombine into the offset of the point times the determinant. */
  lemma CramerIdentity(a1: real, a2: real, b1: real, b2: real, c1: real, c2: real, p1: real, p2: real,
                       n1: real, n2: real, d: real)
    requires n1 == (b2 - c2) * (p1 - c1) + (c1 - b1) * (p2 - c2)
    requires n2 == (c2 - a2) * (p1 - c1) + (a1 - c1) * (p2 - c2)
    requires d == (b2 - c2) * (a1 - c1) + (c1 - b1) * (a2 - c2)
    ensures n1 * (a1 - c1) + n2 * (b1 - c1) == (p1 - c1) * d
    ensures n1 * (a2 - c2) + n2 * (b2 - c2) == (p2 - c2) * d
  {
  }

  /** One axis of the reconstruction: weights n1/d and n2/d put the point back at `p`. */
  lemma ReproduceAxis(l1: real, l2: real, n1: real, n2: real, d: real, a: real, b: real, c: real, p: real)
    requires d != 0.0 && l1 == n1 / d && l2 == n2 / d
    requires n1 * (a - c) + n2 * (b - c) == (p - c) * d
    ensures l1 * a + l2 * b + (1.0 - l1 - l2) * c == p
  {
    calc {
      l1 * a + l2 * b + (1.0 - l1 - l2) * c;
      l1 * (a - c) + l2 * (b - c) + c;
      (n1 * (a - c) + n2 * (b - c)) / d + c;
      p;
    }
  }

  /** At a vertex the weights single that vertex out. */
  lemma BarycentricAtVertex(a: Vec2, b: Vec2, c: Vec2)
    requires Denominator(a, b, c) != 0.0
    ensures Barycentric(a, a, b, c) == Weights(1.0, 0.0, 0.0)
  {
    var d := Denominator(a, b, c);
    assert (b.y - c.y) * (a.x - c.x) + (c.x - b.x) * (a.y - c.y) == d;
    assert (c.y - a.y) * (a.x - c.x) + (a.x - c.x) * (a.y - c.y) == 0.0;
  }

  /** Non-negative weights summing to 1 give a value between the smallest and largest input. */
  lemma ConvexCombinationBounded(w: Weights, ya: real, yb: real, yc: real)
    requires NonNegative(w) && w.l1 + w.l2 + w.l3 == 1.0
    ensures Min3(ya, yb, yc) <= Interpolate(w, ya, yb, yc) <= Max3(ya, yb, yc)
  {
    var lo, hi := Min3(ya, yb, yc), Max3(ya, yb, yc);
    WeightedSumAtLeast(w.l1, w.l2, w.l3, lo, ya, yb, yc);
    WeightedSumAtMost(w.l1, w.l2, w.l3, hi, ya, yb, yc);
  }

  lemma WeightedSumAtLeast(k1: real, k2: real, k3: real, lo: real, ya: real, yb: real, yc: real)
    requires 0.0 <= k1 && 0.0 <= k2 && 0.0 <= k3 && k1 + k2 + k3 == 1.0
    requires lo <= ya && lo <= yb && lo <= yc
    ensures lo <= k1 * ya + k2 * yb + k3 * yc
  {
    ScaledAtLeast(k1, lo, ya);
    ScaledAtLeast(k2, lo, yb);
    ScaledAtLeast(k3, lo, yc);
    var p1, p2, p3 := k1 * ya, k2 * yb, k3 * yc;
    var q1, q2, q3 := k1 * lo, k2 * lo, k3 * lo;
    assert q1 <= p1 && q2 <= p2 && q3 <= p3;
    assert q1 + q2 + q3 == (k1 + k2 + k3) * lo == lo;
  }

  lemma WeightedSumAtMost(k1: real, k2: real, k3: real, hi: real, ya: real, yb: real, yc: real)
    requires 0.0 <= k1 && 0.0 <= k2 && 0.0 <= k3 && k1 + k2 + k3 == 1.0
    requires ya <= hi && yb <= hi && yc <= hi
    ensures k1 * ya + k2 * yb + k3 * yc <= hi
  {
    ScaledAtLeast(k1, ya, hi);
    ScaledAtLeast(k2, yb, hi);
    ScaledAtLeast(k3, yc, hi);
    var p1, p2, p3 := k1 * ya, k2 * yb, k3 * yc;
    var q1, q2, q3 := k1 * hi, k2 * hi, k3 * hi;
    assert p1 <= q1 && p2 <= q2 && p3 <= q3;
    assert q1 + q2 + q3 == (k1 + k2 + k3) * hi == hi;
  }

  lemma ScaledAtLeast(k: real, lo: real, y: real)
    requires 0.0 <= k && lo <= y
    ensures k * lo <= k * y
  {
  }

  // ---------------------------------------------------------------------
  // Locating the cell

  /** `(int)floor(coord / cell_size)`. */
  function CellOf(coord: real, cellSize: real): int
    requires 0.0 < cellSize
  {
    (coord / cellSize).Floor
  }

  /** The cell has a quad: column below `cols - 1`, row below `rows - 1`. */
  predicate InGrid(cx: int, cz: int, rows: int, cols: int) {
    0 <= cx < cols - 1 && 0 <= cz < rows - 1
  }

  /** Offset of the quad's first float: 18 floats per quad, `cols - 1` quads per row. */
  function CornerBase(cx: int, cz: int, cols: int): int {
    (cz * (cols - 1) + cx) * 18
  }

  /** The buffer holds every quad of a `rows` by `cols` point grid. */
  predicate BufferCovers(vertices: seq<real>, rows: int, cols: int) {
    rows < 2 || cols < 2 || 18 * ((cols - 1) * (rows - 1)) <= |vertices|
  }

  /** The quad's first float is its cell number times 18 in the row-major quad grid. */
  lemma CornerBaseIsCell(cx: int, cz: int, rows: int, cols: int)
    requires InGrid(cx, cz, rows, cols)
    ensures CornerBase(cx, cz, cols) == 18 * Cell(cx, cz, cols - 1, rows - 1)
  {
  }

  /**
    Every float a query reads, `base` up to `base + 17`, lies inside the
    buffer of `18*(rows-1)*(cols-1)` floats.
   */
  lemma CornerOffsetsInBounds(cx: int, cz: int, rows: int, cols: int)
    requires InGrid(cx, cz, rows, cols)
    ensures 0 <= CornerBase(cx, cz, cols)
    ensures CornerBase(cx, cz, cols) + 17 < 18 * ((cols - 1) * (rows - 1))
  {
    CornerBaseIsCell(cx, cz, rows, cols);
  }

  /** The four corners read by both queries: offsets 0, 3, 6 and 15 from the base. */
  function TopLeft(v: seq<real>, base: int): Vec3
    requires 0 <= base && base + 18 <= |v|
  {
    VecAt(v, base)
  }

  function BottomLeft(v: seq<real>, base: int): Vec3
    requires 0 <= base && base + 18 <= |v|
  {
    VecAt(v, base + 3)
  }

  function TopRight(v: seq<real>, base: int): Vec3
    requires 0 <= base && base + 18 <= |v|
  {
    VecAt(v, base + 6)
  }

  function BottomRight(v: seq<real>, base: int): Vec3
    requires 0 <= base && base + 18 <= |v|
  {
    VecAt(v, base + 15)
  }

  function Ground(p: Vec3): Vec2 {
    Vec2(p.x, p.z)
  }

  /**
    Both triangles of the quad are proper in the ground plane, so the
    barycentric denominators are non-zero.
   */
  predicate ProperCell(v: seq<real>, base: int) {
    0 <= base && base + 18 <= |v|
    && Denominator(Ground(TopLeft(v, base)), Ground(BottomLeft(v, base)), Ground(TopRight(v, base))) != 0.0
    && Denominator(Ground(TopRight(v, base)), Ground(BottomRight(v, base)), Ground(BottomLeft(v, base))) != 0.0
  }

  // ---------------------------------------------------------------------
  // The two queries

  /** terrain/main.c `get_terrain_height`: barycentric interpolation in the quad's triangles. */
  function TerrainHeightBarycentric(x: real, z: real, vertices: seq<real>, rows: int, cols: int,
                                    cellSize: real): (h: real)
    requires 0.0 < cellSize && BufferCovers(vertices, rows, cols)
    requires InGrid(CellOf(x, cellSize), CellOf(z, cellSize), rows, cols) ==>
      ProperCell(vertices, CornerBase(CellOf(x, cellSize), CellOf(z, cellSize), cols))
    ensures !InGrid(CellOf(x, cellSize), CellOf(z, cellSize), rows, cols) ==> h == -1.0
  {
    var cx, cz := CellOf(x, cellSize), CellOf(z, cellSize);
    if !InGrid(cx, cz, rows, cols) then -1.0
    else
      var base := CornerBase(cx, cz, cols);
      var tl, bl, tr, br := TopLeft(vertices, base), BottomLeft(vertices, base),
                            TopRight(vertices, base), BottomRight(vertices, base);
      var w := Barycentric(Vec2(x, z), Ground(tl), Ground(bl), Ground(tr));
      if NonNegative(w) then Interpolate(w, tl.y, bl.y, tr.y)
      else Interpolate(Barycentric(Vec2(x, z), Ground(tr), Ground(br), Ground(bl)), tr.y, br.y, bl.y)
  }

  /** terrain/jan_terrain.c `get_terrain_height`: the mean of the four corner heights. */
  function TerrainHeightAverage(x: real, z: real, vertices: seq<real>, rows: int, cols: int,
                                cellSize: real): (h: real)
    requires 0.0 < cellSize && BufferCovers(vertices, rows, cols)
    ensures !InGrid(CellOf(x, cellSize), CellOf(z, cellSize), rows, cols) ==> h == -1.0
  {
    var cx, cz := CellOf(x, cellSize), CellOf(z, cellSize);
    if !InGrid(cx, cz, rows, cols) then -1.0
    else
      var base := CornerBase(cx, cz, cols);
      CornerOffsetsInBounds(cx, cz, rows, cols);
      (TopLeft(vertices, base).y + BottomLeft(vertices, base).y
       + TopRight(vertices, base).y + BottomRight(vertices, base).y) / 4.0
  }

  /**
    Inside the first triangle (all three weights non-negative) the
    barycentric height lies between the lowest and highest of its corners.
   */
  lemma BarycentricHeightBetweenCorners(x: real, z: real, vertices: seq<real>, rows: int, cols: int,
                                        cellSize: real)
    requires 0.0 < cellSize && BufferCovers(vertices, rows, cols)
    requires InGrid(CellOf(x, cellSize), CellOf(z, cellSize), rows, cols)
    requires ProperCell(vertices, CornerBase(CellOf(x, cellSize), CellOf(z, cellSize), cols))
    ensures var base := CornerBase(CellOf(x, cellSize), CellOf(z, cellSize), cols);
      var tl, bl, tr := TopLeft(vertices, base), BottomLeft(vertices, base), TopRight(vertices, base);
      NonNegative(Barycentric(Vec2(x, z), Ground(tl), Ground(bl), Ground(tr))) ==>
        Min3(tl.y, bl.y, tr.y) <= TerrainHeightBarycentric(x, z, vertices, rows, cols, cellSize)
                               <= Max3(tl.y, bl.y, tr.y)
  {
    var base := CornerBase(CellOf(x, cellSize), CellOf(z, cellSize), cols);
    var tl, bl, tr := TopLeft(vertices, base), BottomLeft(vertices, base), TopRight(vertices, base);
    var w := Barycentric(Vec2(x, z), Ground(tl), Ground(bl), Ground(tr));
    if NonNegative(w) {
      ConvexCombinationBounded(w, tl.y, bl.y, tr.y);
    }
  }

  function Min2(a: real, b: real): real { if a <= b then a else b }

  function Max2(a: real, b: real): real { if a >= b then a else b }

  /** The average height lies between the lowest and highest of the four corners. */
  lemma AverageHeightBetweenCorners(x: real, z: real, vertices: seq<real>, rows: int, cols: int,
                                    cellSize: real)
    requires 0.0 < cellSize && BufferCovers(vertices, rows, cols)
    requires InGrid(CellOf(x, cellSize), CellOf(z, cellSize), rows, cols)
    ensures var base := CornerBase(CellOf(x, cellSize), CellOf(z, cellSize), cols);
      0 <= base && base + 18 <= |vertices|
      && var h1, h2, h3, h4 := TopLeft(vertices, base).y, BottomLeft(vertices, base).y,
                               TopRight(vertices, base).y, BottomRight(vertices, base).y;
      var h := TerrainHeightAverage(x, z, vertices, rows, cols, cellSize);
      Min2(Min2(h1, h2), Min2(h3, h4)) <= h <= Max2(Max2(h1, h2), Max2(h3, h4))
  {
    CornerOffsetsInBounds(CellOf(x, cellSize), CellOf(z, cellSize), rows, cols);
  }

  // ---------------------------------------------------------------------
  // Queries against the mesh the terrain builder writes

  /**
    The corners read at offsets 0, 3, 6 and 15 of a quad are the grid
    points (x, z), (x, z+1), (x+1, z) and (x+1, z+1) that the terrain
    builder stores there, for a buffer of a `mapZ` by `mapX` heightmap.
   */
  lemma QueryCornersAreGridPoints(mesh: TerrainMesh.Mesh, hm: Image, scale: Vec3, normalize: Vec3 -> Vec3,
                                  cx: int, cz: int)
    requires TerrainMesh.IsHeightmap(hm) && TerrainMesh.IsTerrainMesh(mesh, hm, scale, normalize)
    requires InGrid(cx, cz, hm.height, hm.width)
    ensures var base := CornerBase(cx, cz, hm.width);
      0 <= base && base + 18 <= |mesh.vertices|
      && TopLeft(mesh.vertices, base) == TerrainMesh.GridPoint(hm, scale, cx, cz)
      && BottomLeft(mesh.vertices, base) == TerrainMesh.GridPoint(hm, scale, cx, cz + 1)
      && TopRight(mesh.vertices, base) == TerrainMesh.GridPoint(hm, scale, cx + 1, cz)
      && BottomRight(mesh.vertices, base) == TerrainMesh.GridPoint(hm, scale, cx + 1, cz + 1)
  {
    var w, h := TerrainMesh.QuadsX(hm), TerrainMesh.QuadsZ(hm);
    CornerOffsetsInBounds(cx, cz, hm.height, hm.width);
    var base := CornerBase(cx, cz, hm.width);
    assert base == 18 * Cell(cx, cz, w, h);
    assert TerrainMesh.IsQuad(hm, cx, cz);
    assert VecAt(mesh.vertices, base + 3 * 0) == TerrainMesh.QuadVertex(hm, scale, cx, cz, 0);
    assert VecAt(mesh.vertices, base + 3 * 1) == TerrainMesh.QuadVertex(hm, scale, cx, cz, 1);
    assert VecAt(mesh.vertices, base + 3 * 2) == TerrainMesh.QuadVertex(hm, scale, cx, cz, 2);
    assert VecAt(mesh.vertices, base + 3 * 5) == TerrainMesh.QuadVertex(hm, scale, cx, cz, 5);
  }

  /**
    On a terrain mesh with positive cell sizes both triangles of every quad
    are proper, so the barycentric query is defined on every cell.
   */
  lemma TerrainCellsAreProper(mesh: TerrainMesh.Mesh, hm: Image, scale: Vec3, normalize: Vec3 -> Vec3,
                              cx: int, cz: int)
    requires TerrainMesh.IsHeightmap(hm) && TerrainMesh.IsTerrainMesh(mesh, hm, scale, normalize)
    requires InGrid(cx, cz, hm.height, hm.width)
    requires 0.0 < scale.x && 0.0 < scale.z
    ensures ProperCell(mesh.vertices, CornerBase(cx, cz, hm.width))
  {
    QueryCornersAreGridPoints(mesh, hm, scale, normalize, cx, cz);
    GridCellProper(mesh.vertices, CornerBase(cx, cz, hm.width), hm, scale, cx, cz);
  }

  /** A quad whose four query corners are the grid points around (cx, cz) is proper when the cells have positive size. */
  lemma GridCellProper(v: seq<real>, base: int, hm: Image, scale: Vec3, cx: int, cz: int)
    requires TerrainMesh.IsHeightmap(hm) && 0 <= cx < hm.width - 1 && 0 <= cz < hm.height - 1
    requires 0.0 < scale.x && 0.0 < scale.z
    requires 0 <= base && base + 18 <= |v|
    requires TopLeft(v, base) == TerrainMesh.GridPoint(hm, scale, cx, cz)
    requires BottomLeft(v, base) == TerrainMesh.GridPoint(hm, scale, cx, cz + 1)
    requires TopRight(v, base) == TerrainMesh.GridPoint(hm, scale, cx + 1, cz)
    requires BottomRight(v, base) == TerrainMesh.GridPoint(hm, scale, cx + 1, cz + 1)
    ensures ProperCell(v, base)
  {
    var x0, z0 := cx as real * scale.x, cz as real * scale.z;
    var x1, z1 := (cx + 1) as real * scale.x, (cz + 1) as real * scale.z;
    NextMultiple(cx, scale.x, x0, x1);
    NextMultiple(cz, scale.z, z0, z1);
    AlignedCellProper(Ground(TopLeft(v, base)), Ground(BottomLeft(v, base)),
                      Ground(TopRight(v, base)), Ground(BottomRight(v, base)));
  }

  lemma NextMultiple(g: int, s: real, p0: real, p1: real)
    requires p0 == g as real * s && p1 == (g + 1) as real * s
    ensures p1 == p0 + s
  {
  }

  /** A cell whose sides run along the axes, with non-zero width and depth, has two proper triangles. */
  lemma AlignedCellProper(tl: Vec2, bl: Vec2, tr: Vec2, br: Vec2)
    requires tl.x == bl.x && tr.x == br.x && tl.y == tr.y && bl.y == br.y
    requires tl.x != tr.x && tl.y != bl.y
    ensures Denominator(tl, bl, tr) != 0.0 && Denominator(tr, br, bl) != 0.0
  {
    var w, d := tl.x - tr.x, bl.y - tl.y;
    assert Denominator(tl, bl, tr) == d * w + (tr.x - bl.x) * 0.0;
    assert Denominator(tr, br, bl) == 0.0 * (tr.x - bl.x) + w * (-d);
    NonZeroProduct(d, w);
    NonZeroProduct(w, -d);
  }

  lemma NonZeroProduct(a: real, b: real)
    requires a != 0.0 && b != 0.0
    ensures a * b != 0.0
  {
  }

  /**
    With unit cells (cell size 1, as terrain/jan_terrain.c queries it) the
    average query over the mesh built from a heightmap is the mean of the
    four grid heights around the point.
   */
  lemma AverageOverUnitTerrain(mesh: TerrainMesh.Mesh, hm: Image, maxHeight: real, normalize: Vec3 -> Vec3,
                               x: real, z: real)
    requires TerrainMesh.IsHeightmap(hm)
    requires TerrainMesh.IsTerrainMesh(mesh, hm, TerrainMesh.UnitScale(maxHeight), normalize)
    requires InGrid(x.Floor, z.Floor, hm.height, hm.width)
    ensures TerrainHeightAverage(x, z, mesh.vertices, hm.height, hm.width, 1.0)
         == (TerrainMesh.GridHeight(hm, x.Floor, z.Floor, maxHeight)
             + TerrainMesh.GridHeight(hm, x.Floor, z.Floor + 1, maxHeight)
             + TerrainMesh.GridHeight(hm, x.Floor + 1, z.Floor, maxHeight)
             + TerrainMesh.GridHeight(hm, x.Floor + 1, z.Floor + 1, maxHeight)) / 4.0
  {
    assert x / 1.0 == x && z / 1.0 == z;
    QueryCornersAreGridPoints(mesh, hm, TerrainMesh.UnitScale(maxHeight), normalize, x.Floor, z.Floor);
  }

  // ---------------------------------------------------------------------
  // Ray march over the heightmap image

  /** The ray position after `n` steps of 0.1 along the normalised direction. */
  function MarchPoint(ray: Ray, dir: Vec3, n: int): (p: Vec3)
    ensures n == 0 ==> p == ray.position
  {
    Add(ray.position, Scale(dir, n as real / 10.0))
  }

  /** Consecutive samples are a tenth of the direction apart: `distance += step_size` with a step of 0.1. */
  lemma MarchPointsEvenlySpaced(ray: Ray, dir: Vec3, n: int)
    ensures MarchPoint(ray, dir, n + 1) == Add(MarchPoint(ray, dir, n), Scale(dir, 0.1))
  {
  }

  /** Heightmap coordinates of a world point: offset from the terrain origin, times the resolution. */
  function TerrainX(p: Vec3, res: real, origin: Vec3): real {
    (p.x - origin.x) * res
  }

  function TerrainZ(p: Vec3, res: real, origin: Vec3): real {
    (p.z - origin.z) * res
  }

  predicate OverImage(p: Vec3, hm: Image, res: real, origin: Vec3) {
    0.0 <= TerrainX(p, res, origin) < hm.width as real
    && 0.0 <= TerrainZ(p, res, origin) < hm.height as real
  }

  /** Terrain surface height under a point over the image: `gray/255 * max_height + origin.y`. */
  function SurfaceHeight(p: Vec3, hm: Image, maxHeight: int, res: real, origin: Vec3): (y: real)
    requires WellFormed(hm) && OverImage(p, hm, res, origin)
    ensures 0 <= maxHeight ==> origin.y <= y <= maxHeight as real + origin.y
  {
    var ix, iz := TruncToInt(TerrainX(p, res, origin)), TruncToInt(TerrainZ(p, res, origin));
    var c := ColorAt(hm, ix, iz);
    assert ValidColor(c) by { assert c == hm.pixels[Cell(ix, iz, hm.width, hm.height)]; }
    var lift := Gray(c) / 255.0 * maxHeight as real;
    PixelHeightRange(c, maxHeight, lift);
    lift + origin.y
  }

  lemma PixelHeightRange(c: Color, maxHeight: int, lift: real)
    requires ValidColor(c) && lift == Gray(c) / 255.0 * maxHeight as real
    ensures 0 <= maxHeight ==> 0.0 <= lift <= maxHeight as real
  {
    if 0 <= maxHeight {
      ScaledFraction(Gray(c) / 255.0, maxHeight as real, lift);
    }
  }

  lemma ScaledFraction(t: real, m: real, p: real)
    requires 0.0 <= t <= 1.0 && 0.0 <= m && p == t * m
    ensures 0.0 <= p <= m
  {
    assert t * m <= 1.0 * m;
  }

  /** A sample point hits when it is over the image and not above the surface. */
  predicate Hits(p: Vec3, hm: Image, maxHeight: int, res: real, origin: Vec3)
    requires WellFormed(hm)
    ensures Hits(p, hm, maxHeight, res, origin) ==>
      OverImage(p, hm, res, origin) && (0 <= maxHeight ==> p.y <= maxHeight as real + origin.y)
    ensures 0 <= maxHeight && OverImage(p, hm, res, origin) && p.y <= origin.y ==> Hits(p, hm, maxHeight, res, origin)
  {
    OverImage(p, hm, res, origin) && p.y <= SurfaceHeight(p, hm, maxHeight, res, origin)
  }

  /**
    `raycast_heightmap`: marches from the ray's start in steps of 0.1 for
    distances below `2*width` and stops at the first sample that hits; on a
    miss the collision point is the zero vector.
   */
  method RaycastHeightmap(ray: Ray, hm: Image, maxHeight: int, res: real, origin: Vec3,
                          normalize: Vec3 -> Vec3)
    returns (hit: bool, collision: Vec3, ghost steps: int)
    requires WellFormed(hm)
    ensures hit ==> 0 <= steps < 20 * hm.width
    ensures hit ==> collision == MarchPoint(ray, normalize(ray.direction), steps)
    ensures hit ==> Hits(collision, hm, maxHeight, res, origin)
    ensures hit ==> forall m :: 0 <= m < steps ==> !Hits(MarchPoint(ray, normalize(ray.direction), m), hm, maxHeight, res, origin)
    ensures !hit ==> collision == Zero3
    ensures !hit ==> forall m :: 0 <= m < 20 * hm.width ==> !Hits(MarchPoint(ray, normalize(ray.direction), m), hm, maxHeight, res, origin)
  {
    var maxDistance := (2 * hm.width) as real;
    var dir := normalize(ray.direction);
    var n := 0;
    var distance := 0.0;
    while distance < maxDistance
      invariant 0 <= n <= 20 * hm.width && distance == n as real / 10.0
      invariant forall m :: 0 <= m < n ==> !Hits(MarchPoint(ray, dir, m), hm, maxHeight, res, origin)
      decreases 20 * hm.width - n
    {
      var rayPos := Add(ray.position, Scale(dir, distance));
      assert rayPos == MarchPoint(ray, dir, n);
      var below := SampleBelowSurface(rayPos, hm, maxHeight, res, origin);
      if below {
        hit, collision, steps := true, rayPos, n;
        return;
      }
      n := n + 1;
      distance := distance + 0.1;
    }
    hit, collision, steps := false, Zero3, n;
  }

  /**
    One sample of the march: convert to heightmap coordinates, check the
    bounds, read the pixel under the point and compare heights.
   */
  method SampleBelowSurface(rayPos: Vec3, hm: Image, maxHeight: int, res: real, origin: Vec3)
    returns (below: bool)
    requires WellFormed(hm)
    ensures below == Hits(rayPos, hm, maxHeight, res, origin)
  {
    below := false;
    var tx := TerrainX(rayPos, res, origin);
    var tz := TerrainZ(rayPos, res, origin);
    if tx >= 0.0 && tx < hm.width as real && tz >= 0.0 && tz < hm.height as real {
      var ix := TruncToInt(tx);
      var iz := TruncToInt(tz);
      var terrainHeight := Gray(ColorAt(hm, ix, iz)) / 255.0 * maxHeight as real + origin.y;
      below := rayPos.y <= terrainHeight;
    }
  }
}
