/**
  `gen_mesh_terrain`: turns a heightmap image of mapX by mapZ pixels into a
  flat-shaded, non-indexed triangle mesh. Both copies of the routine share
  this model: src/janperlin.c uses unit cells (scale (1, max_height, 1)),
  janperlin.c stretches the grid over `size` (scale
  (size.x/(mapX-1), size.y, size.z/(mapZ-1))).

  Quad (x, z), for 0 <= x < mapX-1 and 0 <= z < mapZ-1, is the k-th quad
  with k = z*(mapX-1) + x; it owns floats [18k, 18k+18) of the position and
  normal buffers (six vertices of three floats) and [12k, 12k+12) of the
  texcoord buffer (six vertices of two floats).
 */
module TerrainMesh {
  import opened Vectors
  import opened Grid
  import opened Images

  /** The buffers of a raylib `Mesh` that `gen_mesh_terrain` fills. */
  datatype Mesh = Mesh(
    triangleCount: int,
    vertexCount: int,
    vertices: seq<real>,
    texcoords: seq<real>,
    normals: seq<real>)

  /** A heightmap the builder accepts: a loaded image, at least one pixel each way. */
  predicate IsHeightmap(hm: Image) {
    WellFormed(hm) && 1 <= hm.width && 1 <= hm.height
  }

  /** Quads per row and per column. */
  function QuadsX(hm: Image): int { hm.width - 1 }
  function QuadsZ(hm: Image): int { hm.height - 1 }

  // ---------------------------------------------------------------------
  // Quad numbering (cells of a (mapX-1) by (mapZ-1) grid)

  lemma QuotientBound(i: int, p: int)
    requires 0 <= i < 18 * p
    ensures i / 18 < p
  {
  }

  lemma SplitIndex(i: int)
    requires 0 <= i
    ensures i == 18 * (i / 18) + 3 * ((i % 18) / 3) + i % 3
  {
    var q, r := i / 18, i % 18;
    assert i == 18 * q + r && 0 <= r < 18;
    var a, b := r / 3, r % 3;
    assert r == 3 * a + b && 0 <= b < 3;
    assert i == 3 * (6 * q + a) + b;
  }

  /**
    Every float of an 18-per-quad buffer belongs to exactly one slot:
    index i is component i % 3 of vertex (i % 18) / 3 of quad
    (q % (mapX-1), q / (mapX-1)) with q = i / 18.
   */
  lemma BufferIndexDecomposes(i: int, w: int, h: int)
    requires 0 < w && 0 <= h && 0 <= i < 18 * (w * h)
    ensures 0 <= (i / 18) % w < w && 0 <= (i / 18) / w < h
    ensures i == 18 * Cell((i / 18) % w, (i / 18) / w, w, h) + 3 * ((i % 18) / 3) + i % 3
  {
    var q := i / 18;
    QuotientBound(i, w * h);
    SplitIndex(i);
    DivMod(q, w);
    if q / w >= h {
      MulMono(h, q / w, w);
      assert false;
    }
  }

  // ---------------------------------------------------------------------
  // What each quad holds

  /** `pow(t, n)` for a whole exponent. */
  function Pow(t: real, n: nat): real {
    if n == 0 then 1.0 else t * Pow(t, n - 1)
  }

  /** Height of grid point (gx, gz): `pow(GRAY_VALUE(pixel)/255, 3) * scale_y`. */
  function GridHeight(hm: Image, gx: int, gz: int, scaleY: real): real
    requires IsHeightmap(hm) && 0 <= gx < hm.width && 0 <= gz < hm.height
  {
    Pow(Gray(ColorAt(hm, gx, gz)) / 255.0, 3) * scaleY
  }

  /** Position of grid point (gx, gz) under the per-axis scale factors. */
  function GridPoint(hm: Image, scale: Vec3, gx: int, gz: int): Vec3
    requires IsHeightmap(hm) && 0 <= gx < hm.width && 0 <= gz < hm.height
  {
    Vec3(gx as real * scale.x, GridHeight(hm, gx, gz, scale.y), gz as real * scale.z)
  }

  /**
    Grid corner of vertex k (0 to 5) of quad (x, z): triangle (x,z),
    (x,z+1), (x+1,z) followed by triangle (x+1,z), (x,z+1), (x+1,z+1).
   */
  function CornerX(x: int, k: int): int {
    if k == 2 || k == 3 || k == 5 then x + 1 else x
  }

  function CornerZ(z: int, k: int): int {
    if k == 1 || k == 4 || k == 5 then z + 1 else z
  }

  predicate IsQuad(hm: Image, x: int, z: int) {
    IsHeightmap(hm) && 0 <= x < QuadsX(hm) && 0 <= z < QuadsZ(hm)
  }

  /** Position of vertex k of quad (x, z). */
  function QuadVertex(hm: Image, scale: Vec3, x: int, z: int, k: int): Vec3
    requires IsQuad(hm, x, z) && 0 <= k < 6
  {
    GridPoint(hm, scale, CornerX(x, k), CornerZ(z, k))
  }

  /** Texture coordinate of grid point (gx, gz): (gx/(mapX-1), gz/(mapZ-1)). */
  function GridTexcoord(hm: Image, gx: int, gz: int): Vec2
    requires IsHeightmap(hm) && 2 <= hm.width && 2 <= hm.height
  {
    Vec2(gx as real / QuadsX(hm) as real, gz as real / QuadsZ(hm) as real)
  }

  /** Texture coordinate of vertex k of quad (x, z). */
  function QuadTexcoord(hm: Image, x: int, z: int, k: int): Vec2
    requires IsQuad(hm, x, z) && 0 <= k < 6
  {
    GridTexcoord(hm, CornerX(x, k), CornerZ(z, k))
  }

  /**
    Normal stored for vertex k of quad (x, z): the flat normal
    `normalize((B - A) x (C - A))` of the triangle (A, B, C) it belongs to.
   */
  function QuadNormal(hm: Image, scale: Vec3, normalize: Vec3 -> Vec3, x: int, z: int, k: int): Vec3
    requires IsQuad(hm, x, z) && 0 <= k < 6
  {
    var t := if k < 3 then 0 else 3;
    var a, b, c := QuadVertex(hm, scale, x, z, t), QuadVertex(hm, scale, x, z, t + 1),
                   QuadVertex(hm, scale, x, z, t + 2);
    normalize(Cross(Sub(b, a), Sub(c, a)))
  }

  // ---------------------------------------------------------------------
  // The layout of a finished mesh

  /** Every quad numbered below `done` has its six vertex positions in its slots. */
  ghost predicate PositionsUpTo(v: seq<real>, hm: Image, scale: Vec3, done: int)
    requires IsHeightmap(hm) && |v| == 18 * (QuadsX(hm) * QuadsZ(hm))
  {
    forall x, z, k ::
      (IsQuad(hm, x, z) && 0 <= k < 6 && Cell(x, z, QuadsX(hm), QuadsZ(hm)) < done) ==>
      VecAt(v, 18 * Cell(x, z, QuadsX(hm), QuadsZ(hm)) + 3 * k) == QuadVertex(hm, scale, x, z, k)
  }

  /** Every quad numbered below `done` has its six vertex normals in its slots. */
  ghost predicate NormalsUpTo(n: seq<real>, hm: Image, scale: Vec3, normalize: Vec3 -> Vec3, done: int)
    requires IsHeightmap(hm) && |n| == 18 * (QuadsX(hm) * QuadsZ(hm))
  {
    forall x, z, k ::
      (IsQuad(hm, x, z) && 0 <= k < 6 && Cell(x, z, QuadsX(hm), QuadsZ(hm)) < done) ==>
      VecAt(n, 18 * Cell(x, z, QuadsX(hm), QuadsZ(hm)) + 3 * k) == QuadNormal(hm, scale, normalize, x, z, k)
  }

  /** Every quad numbered below `done` has its six texture coordinates in its slots. */
  ghost predicate TexcoordsUpTo(t: seq<real>, hm: Image, done: int)
    requires IsHeightmap(hm) && |t| == 12 * (QuadsX(hm) * QuadsZ(hm))
  {
    forall x, z, k ::
      (IsQuad(hm, x, z) && 0 <= k < 6 && Cell(x, z, QuadsX(hm), QuadsZ(hm)) < done) ==>
      Vec2At(t, 12 * Cell(x, z, QuadsX(hm), QuadsZ(hm)) + 2 * k) == QuadTexcoord(hm, x, z, k)
  }

  /**
    A finished terrain mesh: the counts `gen_mesh_terrain` sets, buffers of
    exactly the allocated sizes, and every quad's data in its own slots.
   */
  ghost predicate IsTerrainMesh(mesh: Mesh, hm: Image, scale: Vec3, normalize: Vec3 -> Vec3)
    requires IsHeightmap(hm)
    ensures IsTerrainMesh(mesh, hm, scale, normalize) ==>
      |mesh.vertices| == |mesh.normals| == 18 * (QuadsX(hm) * QuadsZ(hm))
      && |mesh.texcoords| == 12 * (QuadsX(hm) * QuadsZ(hm))
  {
    var quads := QuadsX(hm) * QuadsZ(hm);
    mesh.triangleCount == 2 * quads
    && mesh.vertexCount == 3 * mesh.triangleCount
    && |mesh.vertices| == 3 * mesh.vertexCount
    && |mesh.normals| == 3 * mesh.vertexCount
    && |mesh.texcoords| == 2 * mesh.vertexCount
    && PositionsUpTo(mesh.vertices, hm, scale, quads)
    && NormalsUpTo(mesh.normals, hm, scale, normalize, quads)
    && TexcoordsUpTo(mesh.texcoords, hm, quads)
  }

  // ---------------------------------------------------------------------
  // The builder

  /** Three consecutive float stores. */
  method SetVec(v: array<real>, at: int, p: Vec3)
    requires 0 <= at && at + 3 <= v.Length
    modifies v
    ensures VecAt(v[..], at) == p
    ensures forall i :: 0 <= i < v.Length && !(at <= i < at + 3) ==> v[i] == old(v[i])
  {
    v[at] := p.x;
    v[at + 1] := p.y;
    v[at + 2] := p.z;
  }

  /** Two consecutive float stores. */
  method SetVec2(v: array<real>, at: int, p: Vec2)
    requires 0 <= at && at + 2 <= v.Length
    modifies v
    ensures Vec2At(v[..], at) == p
    ensures forall i :: 0 <= i < v.Length && !(at <= i < at + 2) ==> v[i] == old(v[i])
  {
    v[at] := p.x;
    v[at + 1] := p.y;
  }

  /** The first triangle of the quad body: corners (x, z), (x, z+1), (x+1, z). */
  method WriteFirstTriangle(v: array<real>, base: int, hm: Image, scale: Vec3, x: int, z: int)
    requires IsQuad(hm, x, z)
    requires 0 <= base && base + 18 <= v.Length
    modifies v
    ensures forall k :: 0 <= k < 3 ==> VecAt(v[..], base + 3 * k) == QuadVertex(hm, scale, x, z, k)
    ensures forall i :: 0 <= i < v.Length && !(base <= i < base + 9) ==> v[i] == old(v[i])
  {
    SetVec(v, base, GridPoint(hm, scale, x, z));
    SetVec(v, base + 3, GridPoint(hm, scale, x, z + 1));
    SetVec(v, base + 6, GridPoint(hm, scale, x + 1, z));
  }

  /**
    The second triangle of the quad body: copies of the first triangle's
    vertices 2 and 1, then the far corner (x+1, z+1).
   */
  method WriteSecondTriangle(v: array<real>, base: int, hm: Image, scale: Vec3, x: int, z: int)
    requires IsQuad(hm, x, z)
    requires 0 <= base && base + 18 <= v.Length
    requires forall k :: 0 <= k < 3 ==> VecAt(v[..], base + 3 * k) == QuadVertex(hm, scale, x, z, k)
    modifies v
    ensures forall k :: 0 <= k < 6 ==> VecAt(v[..], base + 3 * k) == QuadVertex(hm, scale, x, z, k)
    ensures forall i :: 0 <= i < v.Length && !(base + 9 <= i < base + 18) ==> v[i] == old(v[i])
  {
    ghost var first := v[..];
    assert VecAt(first, base + 3) == QuadVertex(hm, scale, x, z, 1);
    assert VecAt(first, base + 6) == QuadVertex(hm, scale, x, z, 2);
    SetVec(v, base + 9, VecAt(v[..], base + 6));
    SetVec(v, base + 12, VecAt(v[..], base + 3));
    SetVec(v, base + 15, GridPoint(hm, scale, x + 1, z + 1));
    forall k | 0 <= k < 3
      ensures VecAt(v[..], base + 3 * k) == QuadVertex(hm, scale, x, z, k)
    {
      assert VecAt(v[..], base + 3 * k) == VecAt(first, base + 3 * k);
    }
  }

  /** The position part of the quad body: both triangles, six vertices, 18 floats. */
  method WriteQuadPositions(v: array<real>, base: int, hm: Image, scale: Vec3, x: int, z: int)
    requires IsQuad(hm, x, z)
    requires 0 <= base && base + 18 <= v.Length
    modifies v
    ensures forall k :: 0 <= k < 6 ==> VecAt(v[..], base + 3 * k) == QuadVertex(hm, scale, x, z, k)
    ensures forall i :: 0 <= i < v.Length && !(base <= i < base + 18) ==> v[i] == old(v[i])
  {
    WriteFirstTriangle(v, base, hm, scale, x, z);
    WriteSecondTriangle(v, base, hm, scale, x, z);
  }

  /** The texcoord part of the quad body, in the same corner order as the positions. */
  method WriteQuadTexcoords(t: array<real>, base: int, hm: Image, x: int, z: int)
    requires IsQuad(hm, x, z)
    requires 0 <= base && base + 12 <= t.Length
    modifies t
    ensures forall k :: 0 <= k < 6 ==> Vec2At(t[..], base + 2 * k) == QuadTexcoord(hm, x, z, k)
    ensures forall i :: 0 <= i < t.Length && !(base <= i < base + 12) ==> t[i] == old(t[i])
  {
    SetVec2(t, base, GridTexcoord(hm, x, z));
    SetVec2(t, base + 2, GridTexcoord(hm, x, z + 1));
    SetVec2(t, base + 4, GridTexcoord(hm, x + 1, z));
    SetVec2(t, base + 6, Vec2At(t[..], base + 4));
    SetVec2(t, base + 8, Vec2At(t[..], base + 2));
    SetVec2(t, base + 10, GridTexcoord(hm, x + 1, z + 1));
  }

  /**
    The normal part of the quad body: for each triangle (i = 0, 9) read its
    three vertices back from the position buffer, compute the flat normal
    and store it for each of its three vertices (j = 0, 3, 6).
   */
  method WriteQuadNormals(n: array<real>, v: array<real>, base: int, hm: Image, scale: Vec3,
                          normalize: Vec3 -> Vec3, x: int, z: int)
    requires IsQuad(hm, x, z)
    requires n != v
    requires 0 <= base && base + 18 <= n.Length && base + 18 <= v.Length
    requires forall k :: 0 <= k < 6 ==> VecAt(v[..], base + 3 * k) == QuadVertex(hm, scale, x, z, k)
    modifies n
    ensures forall k :: 0 <= k < 6 ==> VecAt(n[..], base + 3 * k) == QuadNormal(hm, scale, normalize, x, z, k)
    ensures forall i :: 0 <= i < n.Length && !(base <= i < base + 18) ==> n[i] == old(n[i])
  {
    var i := 0;
    while i < 18
      invariant i == 0 || i == 9 || i == 18
      invariant NormalsFilled(n[..], base, hm, scale, normalize, x, z, i)
      invariant forall m :: 0 <= m < n.Length && !(base <= m < base + 18) ==> n[m] == old(n[m])
    {
      WriteTriangleNormal(n, v, base, hm, scale, normalize, x, z, i);
      i := i + 9;
    }
  }

  /** The first `upto / 3` vertex normals of the quad body starting at `base` are in place. */
  ghost predicate NormalsFilled(s: seq<real>, base: int, hm: Image, scale: Vec3, normalize: Vec3 -> Vec3,
                                x: int, z: int, upto: int)
    requires IsQuad(hm, x, z) && 0 <= base && base + 18 <= |s|
  {
    forall k :: 0 <= k < 6 && 3 * k < upto ==>
      VecAt(s, base + 3 * k) == QuadNormal(hm, scale, normalize, x, z, k)
  }

  /** Storing the next vertex normal, and nothing else, extends the filled part by one vertex. */
  lemma NormalStored(s0: seq<real>, s: seq<real>, base: int, hm: Image, scale: Vec3, normalize: Vec3 -> Vec3,
                     x: int, z: int, k: int)
    requires IsQuad(hm, x, z) && 0 <= base && base + 18 <= |s0| == |s|
    requires 0 <= k < 6
    requires NormalsFilled(s0, base, hm, scale, normalize, x, z, 3 * k)
    requires VecAt(s, base + 3 * k) == QuadNormal(hm, scale, normalize, x, z, k)
    requires forall m :: 0 <= m < |s| && !(base + 3 * k <= m < base + 3 * k + 3) ==> s[m] == s0[m]
    ensures NormalsFilled(s, base, hm, scale, normalize, x, z, 3 * k + 3)
  {
    forall kk | 0 <= kk < 6 && 3 * kk < 3 * k + 3
      ensures VecAt(s, base + 3 * kk) == QuadNormal(hm, scale, normalize, x, z, kk)
    {
      if kk < k {
        assert VecAt(s, base + 3 * kk) == VecAt(s0, base + 3 * kk);
      }
    }
  }

  /** One pass of the outer normal loop: triangle `i / 9` of the quad. */
  method WriteTriangleNormal(n: array<real>, v: array<real>, base: int, hm: Image, scale: Vec3,
                             normalize: Vec3 -> Vec3, x: int, z: int, i: int)
    requires IsQuad(hm, x, z)
    requires n != v && (i == 0 || i == 9)
    requires 0 <= base && base + 18 <= n.Length && base + 18 <= v.Length
    requires forall k :: 0 <= k < 6 ==> VecAt(v[..], base + 3 * k) == QuadVertex(hm, scale, x, z, k)
    requires NormalsFilled(n[..], base, hm, scale, normalize, x, z, i)
    modifies n
    ensures NormalsFilled(n[..], base, hm, scale, normalize, x, z, i + 9)
    ensures forall m :: 0 <= m < n.Length && !(base <= m < base + 18) ==> n[m] == old(n[m])
  {
    var vA := VecAt(v[..], base + i);
    var vB := VecAt(v[..], base + i + 3);
    var vC := VecAt(v[..], base + i + 6);
    var vN := normalize(Cross(Sub(vB, vA), Sub(vC, vA)));
    assert vA == QuadVertex(hm, scale, x, z, i / 3);
    assert vB == QuadVertex(hm, scale, x, z, i / 3 + 1);
    assert vC == QuadVertex(hm, scale, x, z, i / 3 + 2);
    ghost var t := i / 3;
    assert i == 3 * t;
    TriangleNormal(hm, scale, normalize, x, z, t);
    var j := 0;
    ghost var c := 0;
    while j < 9
      invariant 0 <= c <= 3 && j == 3 * c
      invariant NormalsFilled(n[..], base, hm, scale, normalize, x, z, 3 * (t + c))
      invariant forall m :: 0 <= m < n.Length && !(base <= m < base + 18) ==> n[m] == old(n[m])
    {
      assert vN == QuadNormal(hm, scale, normalize, x, z, t + c);
      ghost var s0 := n[..];
      assert base + i + j == base + 3 * (t + c);
      SetVec(n, base + i + j, vN);
      NormalStored(s0, n[..], base, hm, scale, normalize, x, z, t + c);
      j := j + 3;
      c := c + 1;
    }
  }

  /** The three vertices of triangle `t / 3` share one normal, that of the triangle's first corner. */
  lemma TriangleNormal(hm: Image, scale: Vec3, normalize: Vec3 -> Vec3, x: int, z: int, t: int)
    requires IsQuad(hm, x, z) && (t == 0 || t == 3)
    ensures forall k :: t <= k < t + 3 ==>
      QuadNormal(hm, scale, normalize, x, z, k)
        == normalize(Cross(Sub(QuadVertex(hm, scale, x, z, t + 1), QuadVertex(hm, scale, x, z, t)),
                           Sub(QuadVertex(hm, scale, x, z, t + 2), QuadVertex(hm, scale, x, z, t))))
  {
  }

  /**
    One pass of the inner loop body: quad (x, z), number `done`, is written
    into all three buffers at the running counters.
   */
  method StepQuad(vertices: array<real>, texcoords: array<real>, normals: array<real>,
                  vCounter: int, tcCounter: int,
                  hm: Image, scale: Vec3, normalize: Vec3 -> Vec3, x: int, z: int, ghost done: int)
    requires IsQuad(hm, x, z)
    requires done == Cell(x, z, QuadsX(hm), QuadsZ(hm))
    requires vCounter == 18 * done && tcCounter == 12 * done
    requires vertices != normals && vertices != texcoords && normals != texcoords
    requires vertices.Length == 18 * (QuadsX(hm) * QuadsZ(hm)) == normals.Length
    requires texcoords.Length == 12 * (QuadsX(hm) * QuadsZ(hm))
    requires PositionsUpTo(vertices[..], hm, scale, done)
    requires NormalsUpTo(normals[..], hm, scale, normalize, done)
    requires TexcoordsUpTo(texcoords[..], hm, done)
    modifies vertices, texcoords, normals
    ensures PositionsUpTo(vertices[..], hm, scale, done + 1)
    ensures NormalsUpTo(normals[..], hm, scale, normalize, done + 1)
    ensures TexcoordsUpTo(texcoords[..], hm, done + 1)
  {
    ghost var v0, n0, t0 := vertices[..], normals[..], texcoords[..];
    WriteQuadPositions(vertices, vCounter, hm, scale, x, z);
    WriteQuadTexcoords(texcoords, tcCounter, hm, x, z);
    WriteQuadNormals(normals, vertices, vCounter, hm, scale, normalize, x, z);
    PositionsExtended(v0, vertices[..], hm, scale, x, z, done);
    NormalsExtended(n0, normals[..], hm, scale, normalize, x, z, done);
    TexcoordsExtended(t0, texcoords[..], hm, x, z, done);
  }

  /** Writing quad `done`'s 18 position floats, and nothing else, extends the filled prefix by one quad. */
  lemma PositionsExtended(v0: seq<real>, v: seq<real>, hm: Image, scale: Vec3, x: int, z: int, done: int)
    requires IsQuad(hm, x, z) && done == Cell(x, z, QuadsX(hm), QuadsZ(hm))
    requires |v0| == |v| == 18 * (QuadsX(hm) * QuadsZ(hm))
    requires PositionsUpTo(v0, hm, scale, done)
    requires forall k :: 0 <= k < 6 ==> VecAt(v, 18 * done + 3 * k) == QuadVertex(hm, scale, x, z, k)
    requires forall i :: 0 <= i < |v| && !(18 * done <= i < 18 * done + 18) ==> v[i] == v0[i]
    ensures PositionsUpTo(v, hm, scale, done + 1)
  {
    var w, h := QuadsX(hm), QuadsZ(hm);
    forall xx, zz, k | IsQuad(hm, xx, zz) && 0 <= k < 6 && Cell(xx, zz, w, h) < done + 1
      ensures VecAt(v, 18 * Cell(xx, zz, w, h) + 3 * k) == QuadVertex(hm, scale, xx, zz, k)
    {
      var c := Cell(xx, zz, w, h);
      if c == done {
        CellInjective(xx, zz, x, z, w, h);
      } else {
        assert VecAt(v, 18 * c + 3 * k) == VecAt(v0, 18 * c + 3 * k);
      }
    }
  }

  /** Writing quad `done`'s 18 normal floats, and nothing else, extends the filled prefix by one quad. */
  lemma NormalsExtended(n0: seq<real>, n: seq<real>, hm: Image, scale: Vec3, normalize: Vec3 -> Vec3,
                        x: int, z: int, done: int)
    requires IsQuad(hm, x, z) && done == Cell(x, z, QuadsX(hm), QuadsZ(hm))
    requires |n0| == |n| == 18 * (QuadsX(hm) * QuadsZ(hm))
    requires NormalsUpTo(n0, hm, scale, normalize, done)
    requires forall k :: 0 <= k < 6 ==> VecAt(n, 18 * done + 3 * k) == QuadNormal(hm, scale, normalize, x, z, k)
    requires forall i :: 0 <= i < |n| && !(18 * done <= i < 18 * done + 18) ==> n[i] == n0[i]
    ensures NormalsUpTo(n, hm, scale, normalize, done + 1)
  {
    var w, h := QuadsX(hm), QuadsZ(hm);
    forall xx, zz, k | IsQuad(hm, xx, zz) && 0 <= k < 6 && Cell(xx, zz, w, h) < done + 1
      ensures VecAt(n, 18 * Cell(xx, zz, w, h) + 3 * k) == QuadNormal(hm, scale, normalize, xx, zz, k)
    {
      var c := Cell(xx, zz, w, h);
      if c == done {
        CellInjective(xx, zz, x, z, w, h);
      } else {
        assert VecAt(n, 18 * c + 3 * k) == VecAt(n0, 18 * c + 3 * k);
      }
    }
  }

  /** Writing quad `done`'s 12 texcoord floats, and nothing else, extends the filled prefix by one quad. */
  lemma TexcoordsExtended(t0: seq<real>, t: seq<real>, hm: Image, x: int, z: int, done: int)
    requires IsQuad(hm, x, z) && done == Cell(x, z, QuadsX(hm), QuadsZ(hm))
    requires |t0| == |t| == 12 * (QuadsX(hm) * QuadsZ(hm))
    requires TexcoordsUpTo(t0, hm, done)
    requires forall k :: 0 <= k < 6 ==> Vec2At(t, 12 * done + 2 * k) == QuadTexcoord(hm, x, z, k)
    requires forall i :: 0 <= i < |t| && !(12 * done <= i < 12 * done + 12) ==> t[i] == t0[i]
    ensures TexcoordsUpTo(t, hm, done + 1)
  {
    var w, h := QuadsX(hm), QuadsZ(hm);
    forall xx, zz, k | IsQuad(hm, xx, zz) && 0 <= k < 6 && Cell(xx, zz, w, h) < done + 1
      ensures Vec2At(t, 12 * Cell(xx, zz, w, h) + 2 * k) == QuadTexcoord(hm, xx, zz, k)
    {
      var c := Cell(xx, zz, w, h);
      if c == done {
        CellInjective(xx, zz, x, z, w, h);
      } else {
        assert Vec2At(t, 12 * c + 2 * k) == Vec2At(t0, 12 * c + 2 * k);
      }
    }
  }


  /**
    The inner loop of `gen_mesh_terrain` over the quads of row z, carrying
    the three running counters from the start of the row to its end.
   */
  method FillRow(vertices: array<real>, texcoords: array<real>, normals: array<real>,
                 hm: Image, scale: Vec3, normalize: Vec3 -> Vec3, z: int,
                 vCounter0: int, tcCounter0: int, nCounter0: int)
    returns (vCounter: int, tcCounter: int, nCounter: int)
    requires IsHeightmap(hm) && 0 <= z < QuadsZ(hm)
    requires vertices != normals && vertices != texcoords && normals != texcoords
    requires vertices.Length == 18 * (QuadsX(hm) * QuadsZ(hm)) == normals.Length
    requires texcoords.Length == 12 * (QuadsX(hm) * QuadsZ(hm))
    requires vCounter0 == 18 * (z * QuadsX(hm)) == nCounter0 && tcCounter0 == 12 * (z * QuadsX(hm))
    requires PositionsUpTo(vertices[..], hm, scale, z * QuadsX(hm))
    requires NormalsUpTo(normals[..], hm, scale, normalize, z * QuadsX(hm))
    requires TexcoordsUpTo(texcoords[..], hm, z * QuadsX(hm))
    modifies vertices, texcoords, normals
    ensures vCounter == 18 * ((z + 1) * QuadsX(hm)) == nCounter && tcCounter == 12 * ((z + 1) * QuadsX(hm))
    ensures PositionsUpTo(vertices[..], hm, scale, (z + 1) * QuadsX(hm))
    ensures NormalsUpTo(normals[..], hm, scale, normalize, (z + 1) * QuadsX(hm))
    ensures TexcoordsUpTo(texcoords[..], hm, (z + 1) * QuadsX(hm))
  {
    ghost var w, h := QuadsX(hm), QuadsZ(hm);
    vCounter, tcCounter, nCounter := vCounter0, tcCounter0, nCounter0;
    var x := 0;
    while x < hm.width - 1
      invariant 0 <= x <= w
      invariant vCounter == 18 * (z * w + x) == nCounter && tcCounter == 12 * (z * w + x)
      invariant PositionsUpTo(vertices[..], hm, scale, z * w + x)
      invariant NormalsUpTo(normals[..], hm, scale, normalize, z * w + x)
      invariant TexcoordsUpTo(texcoords[..], hm, z * w + x)
    {
      StepQuad(vertices, texcoords, normals, vCounter, tcCounter, hm, scale, normalize, x, z,
               Cell(x, z, w, h));
      vCounter := vCounter + 18;
      tcCounter := tcCounter + 12;
      nCounter := nCounter + 18;
      x := x + 1;
    }
    assert z * w + w == (z + 1) * w;
  }

  /**
    `gen_mesh_terrain` with per-axis scale factors `scale`: allocates the
    three buffers from `triangleCount = 2*(mapX-1)*(mapZ-1)` and
    `vertexCount = 3*triangleCount`, then walks the quads row by row with the
    running counters vCounter, tcCounter and nCounter.
   */
  method GenMeshTerrain(hm: Image, scale: Vec3, normalize: Vec3 -> Vec3) returns (mesh: Mesh)
    requires IsHeightmap(hm)
    ensures IsTerrainMesh(mesh, hm, scale, normalize)
  {
    var mapX, mapZ := hm.width, hm.height;
    var w, h := mapX - 1, mapZ - 1;
    var triangleCount := w * h * 2;
    var vertexCount := triangleCount * 3;
    var vertices := new real[vertexCount * 3];
    var normals := new real[vertexCount * 3];
    var texcoords := new real[vertexCount * 2];
    var vCounter, tcCounter, nCounter := 0, 0, 0;

    var z := 0;
    while z < mapZ - 1
      invariant 0 <= z <= h
      invariant vCounter == 18 * (z * w) == nCounter && tcCounter == 12 * (z * w)
      invariant PositionsUpTo(vertices[..], hm, scale, z * w)
      invariant NormalsUpTo(normals[..], hm, scale, normalize, z * w)
      invariant TexcoordsUpTo(texcoords[..], hm, z * w)
    {
      vCounter, tcCounter, nCounter :=
        FillRow(vertices, texcoords, normals, hm, scale, normalize, z, vCounter, tcCounter, nCounter);
      z := z + 1;
    }
    assert z * w == QuadsX(hm) * QuadsZ(hm);
    mesh := Mesh(triangleCount, vertexCount, vertices[..], texcoords[..], normals[..]);
  }

  // ---------------------------------------------------------------------
  // The two entry points

  /** src/janperlin.c: unit cells, heights scaled by `max_height`. */
  function UnitScale(maxHeight: real): Vec3 {
    Vec3(1.0, maxHeight, 1.0)
  }

  /**
    janperlin.c: the grid stretched over `size`. With a single column (or
    row) of pixels there are no quads and the factor is never used; the
    model puts 0 there instead of the C division by zero.
   */
  function SizedScale(hm: Image, size: Vec3): Vec3 {
    Vec3(if QuadsX(hm) > 0 then size.x / QuadsX(hm) as real else 0.0,
         size.y,
         if QuadsZ(hm) > 0 then size.z / QuadsZ(hm) as real else 0.0)
  }

  /** `gen_mesh_terrain(heightmap, max_height)` of src/janperlin.c. */
  method GenMeshTerrainUnit(hm: Image, maxHeight: real, normalize: Vec3 -> Vec3) returns (mesh: Mesh)
    requires IsHeightmap(hm)
    ensures IsTerrainMesh(mesh, hm, UnitScale(maxHeight), normalize)
  {
    mesh := GenMeshTerrain(hm, UnitScale(maxHeight), normalize);
  }

  /** `gen_mesh_terrain(heightmap, size)` of janperlin.c. */
  method GenMeshTerrainSized(hm: Image, size: Vec3, normalize: Vec3 -> Vec3) returns (mesh: Mesh)
    requires IsHeightmap(hm)
    ensures IsTerrainMesh(mesh, hm, SizedScale(hm, size), normalize)
  {
    mesh := GenMeshTerrain(hm, SizedScale(hm, size), normalize);
  }

  // ---------------------------------------------------------------------
  // Properties of the mesh

  /** A power of a fraction in [0, 1] stays in [0, 1]. */
  lemma {:induction false} PowOfUnit(t: real, n: nat)
    requires 0.0 <= t <= 1.0
    ensures 0.0 <= Pow(t, n) <= 1.0
  {
    if n > 0 {
      PowOfUnit(t, n - 1);
      UnitFraction(t, Pow(t, n - 1), t * Pow(t, n - 1));
      assert Pow(t, n) == t * Pow(t, n - 1);
    }
  }

  /** A grid height lies between 0 (black pixel) and the y scale (white pixel). */
  lemma GridHeightRange(hm: Image, gx: int, gz: int, scaleY: real)
    requires IsHeightmap(hm) && 0 <= gx < hm.width && 0 <= gz < hm.height
    requires 0.0 <= scaleY
    ensures 0.0 <= GridHeight(hm, gx, gz, scaleY) <= scaleY
  {
    assert ValidColor(hm.pixels[Cell(gx, gz, hm.width, hm.height)]);
    var t := Gray(ColorAt(hm, gx, gz)) / 255.0;
    PowOfUnit(t, 3);
    var c, h := Pow(t, 3), GridHeight(hm, gx, gz, scaleY);
    assert h == c * scaleY;
    UnitFraction(c, scaleY, h);
  }

  /** A fraction `f` of a non-negative `s` lies between 0 and `s`. */
  lemma UnitFraction(f: real, s: real, p: real)
    requires 0.0 <= f <= 1.0 && 0.0 <= s && p == f * s
    ensures 0.0 <= p <= s
    ensures s <= 1.0 ==> p <= 1.0
  {
    assert f * s <= 1.0 * s;
  }

  /** Every texture coordinate lies in the unit square, corner (mapX-1, mapZ-1) at (1, 1). */
  lemma TexcoordInUnitSquare(hm: Image, x: int, z: int, k: int)
    requires IsQuad(hm, x, z) && 0 <= k < 6
    ensures 0.0 <= QuadTexcoord(hm, x, z, k).x <= 1.0
    ensures 0.0 <= QuadTexcoord(hm, x, z, k).y <= 1.0
  {
    var w, h := QuadsX(hm) as real, QuadsZ(hm) as real;
    var cx, cz := CornerX(x, k) as real, CornerZ(z, k) as real;
    assert QuadTexcoord(hm, x, z, k) == Vec2(cx / w, cz / h);
    FractionOfWhole(cx, w);
    FractionOfWhole(cz, h);
  }

  lemma FractionOfWhole(a: real, b: real)
    requires 0.0 <= a <= b && 0.0 < b
    ensures 0.0 <= a / b <= 1.0
  {
    assert a / b * b == a;
  }

  /** With the sized scale the last column lands on `size.x` and the last row on `size.z`. */
  lemma SizedGridSpansSize(hm: Image, size: Vec3)
    requires IsHeightmap(hm) && 1 <= QuadsX(hm) && 1 <= QuadsZ(hm)
    ensures GridPoint(hm, SizedScale(hm, size), QuadsX(hm), 0).x == size.x
    ensures GridPoint(hm, SizedScale(hm, size), 0, QuadsZ(hm)).z == size.z
    ensures GridPoint(hm, SizedScale(hm, size), 0, 0).x == 0.0 == GridPoint(hm, SizedScale(hm, size), 0, 0).z
  {
    var w, h := QuadsX(hm) as real, QuadsZ(hm) as real;
    assert w * (size.x / w) == size.x;
    assert h * (size.z / h) == size.z;
  }

  /** With unit cells the vertex stored for a grid corner sits at that corner's column and row. */
  lemma UnitScaleOnGrid(mesh: Mesh, hm: Image, maxHeight: real, normalize: Vec3 -> Vec3, x: int, z: int, k: int)
    requires IsHeightmap(hm) && IsTerrainMesh(mesh, hm, UnitScale(maxHeight), normalize)
    requires IsQuad(hm, x, z) && 0 <= k < 6
    ensures var p := VecAt(mesh.vertices, 18 * Cell(x, z, QuadsX(hm), QuadsZ(hm)) + 3 * k);
      p.x == CornerX(x, k) as real && p.z == CornerZ(z, k) as real
  {
    assert VecAt(mesh.vertices, 18 * Cell(x, z, QuadsX(hm), QuadsZ(hm)) + 3 * k)
        == QuadVertex(hm, UnitScale(maxHeight), x, z, k);
  }

  /** Every stored height lies between 0 and the y scale. */
  lemma MeshHeightsInRange(mesh: Mesh, hm: Image, scale: Vec3, normalize: Vec3 -> Vec3, x: int, z: int, k: int)
    requires IsHeightmap(hm) && IsTerrainMesh(mesh, hm, scale, normalize)
    requires IsQuad(hm, x, z) && 0 <= k < 6 && 0.0 <= scale.y
    ensures 0.0 <= VecAt(mesh.vertices, 18 * Cell(x, z, QuadsX(hm), QuadsZ(hm)) + 3 * k).y <= scale.y
  {
    assert VecAt(mesh.vertices, 18 * Cell(x, z, QuadsX(hm), QuadsZ(hm)) + 3 * k)
        == QuadVertex(hm, scale, x, z, k);
    GridHeightRange(hm, CornerX(x, k), CornerZ(z, k), scale.y);
  }

  /**
    The second triangle of each quad starts with copies of the first
    triangle's third and second vertices, so the two triangles share the
    diagonal from (x+1, z) to (x, z+1).
   */
  lemma QuadsShareDiagonal(mesh: Mesh, hm: Image, scale: Vec3, normalize: Vec3 -> Vec3, x: int, z: int)
    requires IsHeightmap(hm) && IsTerrainMesh(mesh, hm, scale, normalize) && IsQuad(hm, x, z)
    ensures var b := 18 * Cell(x, z, QuadsX(hm), QuadsZ(hm));
      VecAt(mesh.vertices, b + 9) == VecAt(mesh.vertices, b + 6)
      && VecAt(mesh.vertices, b + 12) == VecAt(mesh.vertices, b + 3)
  {
    var b := 18 * Cell(x, z, QuadsX(hm), QuadsZ(hm));
    assert VecAt(mesh.vertices, b + 3 * 3) == QuadVertex(hm, scale, x, z, 3);
    assert VecAt(mesh.vertices, b + 3 * 2) == QuadVertex(hm, scale, x, z, 2);
    assert VecAt(mesh.vertices, b + 3 * 4) == QuadVertex(hm, scale, x, z, 4);
    assert VecAt(mesh.vertices, b + 3 * 1) == QuadVertex(hm, scale, x, z, 1);
  }

  /** Flat shading: the three vertices of each triangle carry the same normal. */
  lemma FlatNormals(mesh: Mesh, hm: Image, scale: Vec3, normalize: Vec3 -> Vec3, x: int, z: int)
    requires IsHeightmap(hm) && IsTerrainMesh(mesh, hm, scale, normalize) && IsQuad(hm, x, z)
    ensures var b := 18 * Cell(x, z, QuadsX(hm), QuadsZ(hm));
      VecAt(mesh.normals, b) == VecAt(mesh.normals, b + 3) == VecAt(mesh.normals, b + 6)
      && VecAt(mesh.normals, b + 9) == VecAt(mesh.normals, b + 12) == VecAt(mesh.normals, b + 15)
  {
    var b := 18 * Cell(x, z, QuadsX(hm), QuadsZ(hm));
    assert VecAt(mesh.normals, b + 3 * 0) == QuadNormal(hm, scale, normalize, x, z, 0);
    assert VecAt(mesh.normals, b + 3 * 1) == QuadNormal(hm, scale, normalize, x, z, 1);
    assert VecAt(mesh.normals, b + 3 * 2) == QuadNormal(hm, scale, normalize, x, z, 2);
    assert VecAt(mesh.normals, b + 3 * 3) == QuadNormal(hm, scale, normalize, x, z, 3);
    assert VecAt(mesh.normals, b + 3 * 4) == QuadNormal(hm, scale, normalize, x, z, 4);
    assert VecAt(mesh.normals, b + 3 * 5) == QuadNormal(hm, scale, normalize, x, z, 5);
  }
}
