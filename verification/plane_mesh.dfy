/**
  `gen_mesh_plane_tiled` (src/custom_draw.c): an indexed plane of
  resX by resZ quads, centred on the origin, with its texture repeated
  across it. After `resX++` and `resZ++` the two counts are grid lines, so
  the plane has resX*resZ shared vertices and (resX-1)*(resZ-1) faces of
  two triangles each; vertex (x, z) is number x + z*resX.
 */
module PlaneMesh {
  import opened Vectors
  import opened Grid

  /** The buffers of a raylib `Mesh` with an index buffer. */
  datatype IndexedMesh = IndexedMesh(
    vertexCount: int,
    triangleCount: int,
    vertices: seq<real>,
    texcoords: seq<real>,
    normals: seq<real>,
    indices: seq<int>)

  /** Storing an `int` into an `unsigned short` keeps it modulo 65536. */
  function StoreUShort(v: int): (s: int)
    ensures 0 <= s < 65536
    ensures 0 <= v < 65536 ==> s == v
  {
    v % 65536
  }

  /** Position of grid line i out of `lines`, spread over `extent` and centred: (i/(lines-1) - 1/2)*extent. */
  function GridCoord(i: int, lines: int, extent: real): real
    requires 2 <= lines
  {
    (i as real / (lines - 1) as real - 0.5) * extent
  }

  /** Vertex (x, z) of the plane: it lies in the y = 0 plane. */
  function PlaneVertex(x: int, z: int, resX: int, resZ: int, width: real, length: real): Vec3
    requires 2 <= resX && 2 <= resZ
  {
    Vec3(GridCoord(x, resX, width), 0.0, GridCoord(z, resZ, length))
  }

  /** Texture coordinate (u, v) before tiling: (u/(resX-1), v/(resZ-1)). */
  function PlaneTexcoord(u: int, v: int, resX: int, resZ: int): Vec2
    requires 2 <= resX && 2 <= resZ
  {
    Vec2(u as real / (resX - 1) as real, v as real / (resZ - 1) as real)
  }

  /** The texture coordinate stored in the mesh: both axes multiplied by resX. */
  function TiledTexcoord(u: int, v: int, resX: int, resZ: int): Vec2
    requires 2 <= resX && 2 <= resZ
  {
    var t := PlaneTexcoord(u, v, resX, resZ);
    Vec2(t.x * resX as real, t.y * resX as real)
  }

  /** Every vertex normal points straight up. */
  const UpNormal := Vec3(0.0, 1.0, 0.0)

  /** The lower-left vertex of a face: `face + face / (resX-1)`. */
  function FaceCorner(face: int, resX: int): int
    requires 2 <= resX && 0 <= face
  {
    face + face / (resX - 1)
  }

  /** The six indices emitted for a face: triangles (i+resX, i+1, i) and (i+resX, i+resX+1, i+1). */
  function FaceIndices(face: int, resX: int): (s: seq<int>)
    requires 2 <= resX && 0 <= face
    ensures |s| == 6
  {
    var i := FaceCorner(face, resX);
    [i + resX, i + 1, i, i + resX, i + resX + 1, i + 1]
  }

  /**
    The mesh `gen_mesh_plane_tiled` returns for resX by resZ grid lines:
    its counts, buffer sizes and the content of every buffer.
   */
  ghost predicate IsTiledPlane(mesh: IndexedMesh, width: real, length: real, resX: int, resZ: int)
    requires 2 <= resX && 2 <= resZ
    ensures IsTiledPlane(mesh, width, length, resX, resZ) ==>
      |mesh.indices| == 6 * ((resX - 1) * (resZ - 1)) && |mesh.vertices| == 3 * (resX * resZ)
  {
    mesh.vertexCount == resX * resZ
    && mesh.triangleCount == 2 * ((resX - 1) * (resZ - 1))
    && |mesh.vertices| == 3 * mesh.vertexCount
    && |mesh.normals| == 3 * mesh.vertexCount
    && |mesh.texcoords| == 2 * mesh.vertexCount
    && |mesh.indices| == 3 * mesh.triangleCount
    && PlanePositions(mesh.vertices, width, length, resX, resZ)
    && PlaneNormals(mesh.normals, mesh.vertexCount)
    && PlaneTexcoords(mesh.texcoords, resX, resZ)
    && PlaneIndices(mesh.indices, resX, resZ)
  }

  /** Vertex (x, z) sits at float `3*(x + z*resX)` of the vertex buffer. */
  ghost predicate PlanePositions(vertices: seq<real>, width: real, length: real, resX: int, resZ: int)
    requires 2 <= resX && 2 <= resZ && |vertices| == 3 * (resX * resZ)
  {
    forall x, z :: 0 <= x < resX && 0 <= z < resZ ==>
      VecAt(vertices, 3 * Cell(x, z, resX, resZ)) == PlaneVertex(x, z, resX, resZ, width, length)
  }

  ghost predicate PlaneNormals(normals: seq<real>, vertexCount: int)
    requires 0 <= vertexCount && |normals| == 3 * vertexCount
  {
    forall n :: 0 <= n < vertexCount ==> VecAt(normals, 3 * n) == UpNormal
  }

  ghost predicate PlaneTexcoords(texcoords: seq<real>, resX: int, resZ: int)
    requires 2 <= resX && 2 <= resZ && |texcoords| == 2 * (resX * resZ)
  {
    forall u, v :: 0 <= u < resX && 0 <= v < resZ ==>
      Vec2At(texcoords, 2 * Cell(u, v, resX, resZ)) == TiledTexcoord(u, v, resX, resZ)
  }

  /** Face `face` contributes indices `6*face .. 6*face+5`, stored as unsigned shorts. */
  ghost predicate PlaneIndices(indices: seq<int>, resX: int, resZ: int)
    requires 2 <= resX && 2 <= resZ && |indices| == 6 * ((resX - 1) * (resZ - 1))
  {
    forall face, k :: 0 <= face < (resX - 1) * (resZ - 1) && 0 <= k < 6 ==>
      indices[6 * face + k] == StoreUShort(FaceIndices(face, resX)[k])
  }

  // ---------------------------------------------------------------------
  // The loops of gen_mesh_plane_tiled

  /** Every vertex numbered below `n` holds its grid position. */
  ghost predicate VerticesBelow(s: seq<Vec3>, n: int, resX: int, resZ: int, width: real, length: real)
    requires 2 <= resX && 2 <= resZ && |s| == resX * resZ
  {
    forall x, z :: 0 <= x < resX && 0 <= z < resZ && Cell(x, z, resX, resZ) < n ==>
      s[Cell(x, z, resX, resZ)] == PlaneVertex(x, z, resX, resZ, width, length)
  }

  /** The vertex loop: vertex (x, z) is written at x + z*resX. */
  method FillPlaneVertices(resX: int, resZ: int, width: real, length: real) returns (vertices: array<Vec3>)
    requires 2 <= resX && 2 <= resZ
    ensures vertices.Length == resX * resZ
    ensures forall x, z :: 0 <= x < resX && 0 <= z < resZ ==>
      vertices[Cell(x, z, resX, resZ)] == PlaneVertex(x, z, resX, resZ, width, length)
  {
    vertices := new Vec3[resX * resZ];
    var z := 0;
    while z < resZ
      invariant 0 <= z <= resZ
      invariant VerticesBelow(vertices[..], z * resX, resX, resZ, width, length)
    {
      FillVertexRow(vertices, z, resX, resZ, width, length);
      z := z + 1;
    }
    AllVertices(vertices[..], resX, resZ, width, length);
  }

  lemma AllVertices(s: seq<Vec3>, resX: int, resZ: int, width: real, length: real)
    requires 2 <= resX && 2 <= resZ && |s| == resX * resZ
    requires VerticesBelow(s, resZ * resX, resX, resZ, width, length)
    ensures forall x, z :: 0 <= x < resX && 0 <= z < resZ ==>
      s[Cell(x, z, resX, resZ)] == PlaneVertex(x, z, resX, resZ, width, length)
  {
  }

  /** The inner vertex loop over row z. */
  method FillVertexRow(vertices: array<Vec3>, z: int, resX: int, resZ: int, width: real, length: real)
    requires 2 <= resX && 2 <= resZ && 0 <= z < resZ && vertices.Length == resX * resZ
    requires VerticesBelow(vertices[..], z * resX, resX, resZ, width, length)
    modifies vertices
    ensures VerticesBelow(vertices[..], (z + 1) * resX, resX, resZ, width, length)
  {
    var zPos := (z as real / (resZ - 1) as real - 0.5) * length;
    var x := 0;
    while x < resX
      invariant 0 <= x <= resX
      invariant VerticesBelow(vertices[..], z * resX + x, resX, resZ, width, length)
    {
      var xPos := (x as real / (resX - 1) as real - 0.5) * width;
      ghost var before := vertices[..];
      assert x + z * resX == Cell(x, z, resX, resZ);
      vertices[x + z * resX] := Vec3(xPos, 0.0, zPos);
      VertexStored(before, vertices[..], z * resX + x, x, z, resX, resZ, width, length);
      x := x + 1;
    }
  }

  /** Storing vertex (x, z), the next one in scan order, extends the written prefix by one. */
  lemma VertexStored(before: seq<Vec3>, after: seq<Vec3>, n: int, x: int, z: int,
                     resX: int, resZ: int, width: real, length: real)
    requires 2 <= resX && 2 <= resZ && 0 <= x < resX && 0 <= z < resZ
    requires |before| == |after| == resX * resZ && n == Cell(x, z, resX, resZ)
    requires VerticesBelow(before, n, resX, resZ, width, length)
    requires after == before[n := PlaneVertex(x, z, resX, resZ, width, length)]
    ensures VerticesBelow(after, n + 1, resX, resZ, width, length)
  {
    forall xx, zz | 0 <= xx < resX && 0 <= zz < resZ && Cell(xx, zz, resX, resZ) < n + 1
      ensures after[Cell(xx, zz, resX, resZ)] == PlaneVertex(xx, zz, resX, resZ, width, length)
    {
      if Cell(xx, zz, resX, resZ) == n {
        CellInjective(xx, zz, x, z, resX, resZ);
      }
    }
  }

  /** The normal loop: every one of the vertexCount normals is (0, 1, 0). */
  method FillUpNormals(vertexCount: int) returns (normals: array<Vec3>)
    requires 0 <= vertexCount
    ensures normals.Length == vertexCount
    ensures forall n :: 0 <= n < vertexCount ==> normals[n] == UpNormal
  {
    normals := new Vec3[vertexCount];
    var n := 0;
    while n < vertexCount
      invariant 0 <= n <= vertexCount
      invariant forall m :: 0 <= m < n ==> normals[m] == UpNormal
    {
      normals[n] := Vec3(0.0, 1.0, 0.0);
      n := n + 1;
    }
  }

  /** Every texture coordinate numbered below `n` holds its grid fraction. */
  ghost predicate TexcoordsBelow(s: seq<Vec2>, n: int, resX: int, resZ: int)
    requires 2 <= resX && 2 <= resZ && |s| == resX * resZ
  {
    forall u, v :: 0 <= u < resX && 0 <= v < resZ && Cell(u, v, resX, resZ) < n ==>
      s[Cell(u, v, resX, resZ)] == PlaneTexcoord(u, v, resX, resZ)
  }

  /** The texcoord loop: coordinate (u, v) is written at u + v*resX. */
  method FillPlaneTexcoords(resX: int, resZ: int) returns (texcoords: array<Vec2>)
    requires 2 <= resX && 2 <= resZ
    ensures texcoords.Length == resX * resZ
    ensures forall u, v :: 0 <= u < resX && 0 <= v < resZ ==>
      texcoords[Cell(u, v, resX, resZ)] == PlaneTexcoord(u, v, resX, resZ)
  {
    texcoords := new Vec2[resX * resZ];
    var v := 0;
    while v < resZ
      invariant 0 <= v <= resZ
      invariant TexcoordsBelow(texcoords[..], v * resX, resX, resZ)
    {
      FillTexcoordRow(texcoords, v, resX, resZ);
      v := v + 1;
    }
    AllTexcoords(texcoords[..], resX, resZ);
  }

  lemma AllTexcoords(s: seq<Vec2>, resX: int, resZ: int)
    requires 2 <= resX && 2 <= resZ && |s| == resX * resZ
    requires TexcoordsBelow(s, resZ * resX, resX, resZ)
    ensures forall u, v :: 0 <= u < resX && 0 <= v < resZ ==>
      s[Cell(u, v, resX, resZ)] == PlaneTexcoord(u, v, resX, resZ)
  {
  }

  /** The inner texcoord loop over row v. */
  method FillTexcoordRow(texcoords: array<Vec2>, v: int, resX: int, resZ: int)
    requires 2 <= resX && 2 <= resZ && 0 <= v < resZ && texcoords.Length == resX * resZ
    requires TexcoordsBelow(texcoords[..], v * resX, resX, resZ)
    modifies texcoords
    ensures TexcoordsBelow(texcoords[..], (v + 1) * resX, resX, resZ)
  {
    var u := 0;
    while u < resX
      invariant 0 <= u <= resX
      invariant TexcoordsBelow(texcoords[..], v * resX + u, resX, resZ)
    {
      ghost var before := texcoords[..];
      assert u + v * resX == Cell(u, v, resX, resZ);
      texcoords[u + v * resX] := Vec2(u as real / (resX - 1) as real, v as real / (resZ - 1) as real);
      TexcoordStored(before, texcoords[..], v * resX + u, u, v, resX, resZ);
      u := u + 1;
    }
  }

  /** Storing coordinate (u, v), the next one in scan order, extends the written prefix by one. */
  lemma TexcoordStored(before: seq<Vec2>, after: seq<Vec2>, n: int, u: int, v: int, resX: int, resZ: int)
    requires 2 <= resX && 2 <= resZ && 0 <= u < resX && 0 <= v < resZ
    requires |before| == |after| == resX * resZ && n == Cell(u, v, resX, resZ)
    requires TexcoordsBelow(before, n, resX, resZ)
    requires after == before[n := PlaneTexcoord(u, v, resX, resZ)]
    ensures TexcoordsBelow(after, n + 1, resX, resZ)
  {
    forall uu, vv | 0 <= uu < resX && 0 <= vv < resZ && Cell(uu, vv, resX, resZ) < n + 1
      ensures after[Cell(uu, vv, resX, resZ)] == PlaneTexcoord(uu, vv, resX, resZ)
    {
      if Cell(uu, vv, resX, resZ) == n {
        CellInjective(uu, vv, u, v, resX, resZ);
      }
    }
  }

  /** The body of the index loop: two triangles from corner i, advancing t by six. */
  method EmitFace(triangles: array<int>, t0: int, i: int, resX: int) returns (t: int)
    requires 0 <= t0 && t0 + 6 <= triangles.Length
    modifies triangles
    ensures t == t0 + 6
    ensures triangles[t0..t] == [i + resX, i + 1, i, i + resX, i + resX + 1, i + 1]
    ensures forall m :: 0 <= m < triangles.Length && !(t0 <= m < t) ==> triangles[m] == old(triangles[m])
  {
    t := t0;
    triangles[t] := i + resX;
    t := t + 1;
    triangles[t] := i + 1;
    t := t + 1;
    triangles[t] := i;
    t := t + 1;

    triangles[t] := i + resX;
    t := t + 1;
    triangles[t] := i + resX + 1;
    t := t + 1;
    triangles[t] := i + 1;
    t := t + 1;
  }

  /** Faces 0 .. faces-1 have their six indices at `6*face` onwards. */
  ghost predicate FacesWritten(s: seq<int>, faces: int, resX: int)
    requires 2 <= resX && 0 <= faces && 6 * faces <= |s|
  {
    forall f, k :: 0 <= f < faces && 0 <= k < 6 ==> s[6 * f + k] == FaceIndices(f, resX)[k]
  }

  /** Writing face `face`'s six indices after faces 0 .. face-1 leaves faces 0 .. face written. */
  lemma FacesExtended(before: seq<int>, after: seq<int>, face: int, resX: int)
    requires 2 <= resX && 0 <= face && 6 * face + 6 <= |before| == |after|
    requires FacesWritten(before, face, resX)
    requires after[6 * face..6 * face + 6] == FaceIndices(face, resX)
    requires forall m :: 0 <= m < |after| && !(6 * face <= m < 6 * face + 6) ==> after[m] == before[m]
    ensures FacesWritten(after, face + 1, resX)
  {
    forall f, k | 0 <= f <= face && 0 <= k < 6
      ensures after[6 * f + k] == FaceIndices(f, resX)[k]
    {
      if f < face {
        assert after[6 * f + k] == before[6 * f + k];
      } else {
        assert after[6 * f + k] == after[6 * face..6 * face + 6][k];
      }
    }
  }

  /** One pass of the index loop: face `face` is emitted after faces 0 .. face-1. */
  method StepFace(triangles: array<int>, t0: int, face: int, resX: int) returns (t: int)
    requires 2 <= resX && 0 <= face && t0 == 6 * face && t0 + 6 <= triangles.Length
    requires FacesWritten(triangles[..], face, resX)
    modifies triangles
    ensures t == t0 + 6
    ensures FacesWritten(triangles[..], face + 1, resX)
  {
    var i := face + face / (resX - 1);
    ghost var before := triangles[..];
    t := EmitFace(triangles, t0, i, resX);
    FacesExtended(before, triangles[..], face, resX);
  }

  /** The index loop: six indices per face, written through the running counter t. */
  method BuildTriangles(resX: int, resZ: int) returns (triangles: array<int>, t: int)
    requires 2 <= resX && 2 <= resZ
    ensures triangles.Length == 6 * ((resX - 1) * (resZ - 1)) == t
    ensures forall face, k :: 0 <= face < (resX - 1) * (resZ - 1) && 0 <= k < 6 ==>
      triangles[6 * face + k] == FaceIndices(face, resX)[k]
  {
    var numFaces := (resX - 1) * (resZ - 1);
    triangles := new int[6 * numFaces];
    t := EmitFaces(triangles, numFaces, resX);
    assert FacesWritten(triangles[..], numFaces, resX);
  }

  /** The loop over the faces of `gen_mesh_plane_tiled`, with `numFaces` faces. */
  method EmitFaces(triangles: array<int>, numFaces: int, resX: int) returns (t: int)
    requires 2 <= resX && 0 <= numFaces && triangles.Length == 6 * numFaces
    modifies triangles
    ensures t == 6 * numFaces && FacesWritten(triangles[..], numFaces, resX)
  {
    t := 0;
    var face := 0;
    while face < numFaces
      invariant 0 <= face <= numFaces && t == 6 * face
      invariant FacesWritten(triangles[..], face, resX)
    {
      t := StepFace(triangles, t, face, resX);
      face := face + 1;
    }
  }

  /** Copies vectors into a flat float buffer, three floats per vector. */
  method FlattenVec3(src: array<Vec3>) returns (dst: array<real>)
    ensures dst.Length == 3 * src.Length
    ensures forall i :: 0 <= i < src.Length ==> VecAt(dst[..], 3 * i) == src[i]
  {
    dst := new real[src.Length * 3];
    var i := 0;
    while i < src.Length
      invariant 0 <= i <= src.Length
      invariant forall j :: 0 <= j < i ==> VecAt(dst[..], 3 * j) == src[j]
    {
      dst[3 * i] := src[i].x;
      dst[3 * i + 1] := src[i].y;
      dst[3 * i + 2] := src[i].z;
      i := i + 1;
    }
  }

  /** The texcoord copy: both components multiplied by resX. */
  method FlattenTexcoords(src: array<Vec2>, resX: int) returns (dst: array<real>)
    ensures dst.Length == 2 * src.Length
    ensures forall i :: 0 <= i < src.Length ==>
      Vec2At(dst[..], 2 * i) == Vec2(src[i].x * resX as real, src[i].y * resX as real)
  {
    dst := new real[src.Length * 2];
    var i := 0;
    while i < src.Length
      invariant 0 <= i <= src.Length
      invariant forall j :: 0 <= j < i ==>
        Vec2At(dst[..], 2 * j) == Vec2(src[j].x * resX as real, src[j].y * resX as real)
    {
      dst[2 * i] := src[i].x * resX as real;
      dst[2 * i + 1] := src[i].y * resX as real;
      i := i + 1;
    }
  }

  /** The index copy into the `unsigned short` index buffer. */
  method CopyIndices(triangles: array<int>, count: int) returns (indices: array<int>)
    requires 0 <= count <= triangles.Length
    ensures indices.Length == count
    ensures forall i :: 0 <= i < count ==> indices[i] == StoreUShort(triangles[i])
  {
    indices := new int[count];
    var i := 0;
    while i < count
      invariant 0 <= i <= count
      invariant forall j :: 0 <= j < i ==> indices[j] == StoreUShort(triangles[j])
    {
      indices[i] := StoreUShort(triangles[i]);
      i := i + 1;
    }
  }

  /**
    `gen_mesh_plane_tiled(width, length, resX, resZ)`. A resolution of 0
    on either axis divides by zero in the original, so at least one quad
    per axis is required.
   */
  method GenMeshPlaneTiled(width: real, length: real, resX0: int, resZ0: int) returns (mesh: IndexedMesh)
    requires 1 <= resX0 && 1 <= resZ0
    ensures IsTiledPlane(mesh, width, length, resX0 + 1, resZ0 + 1)
  {
    var resX, resZ := resX0 + 1, resZ0 + 1;
    var vertexCount := resX * resZ;
    var vertices := FillPlaneVertices(resX, resZ, width, length);
    var normals := FillUpNormals(vertexCount);
    var texcoords := FillPlaneTexcoords(resX, resZ);
    var numFaces := (resX - 1) * (resZ - 1);
    var triangles, t := BuildTriangles(resX, resZ);

    var triangleCount := numFaces * 2;
    var meshVertices := FlattenVec3(vertices);
    var meshTexcoords := FlattenTexcoords(texcoords, resX);
    var meshNormals := FlattenVec3(normals);
    var meshIndices := CopyIndices(triangles, triangleCount * 3);

    mesh := IndexedMesh(vertexCount, triangleCount, meshVertices[..], meshTexcoords[..],
                        meshNormals[..], meshIndices[..]);
    assert |meshIndices[..]| == 6 * numFaces;
    PositionsCopied(meshVertices[..], vertices[..], width, length, resX, resZ);
    NormalsCopied(meshNormals[..], normals[..]);
    TexcoordsCopied(meshTexcoords[..], texcoords[..], resX, resZ);
    IndicesCopied(meshIndices[..], triangles[..], resX, resZ);
  }

  lemma PositionsCopied(flat: seq<real>, grid: seq<Vec3>, width: real, length: real, resX: int, resZ: int)
    requires 2 <= resX && 2 <= resZ && |grid| == resX * resZ && |flat| == 3 * |grid|
    requires forall x, z :: 0 <= x < resX && 0 <= z < resZ ==>
      grid[Cell(x, z, resX, resZ)] == PlaneVertex(x, z, resX, resZ, width, length)
    requires forall i :: 0 <= i < |grid| ==> VecAt(flat, 3 * i) == grid[i]
    ensures PlanePositions(flat, width, length, resX, resZ)
  {
  }

  lemma NormalsCopied(flat: seq<real>, ups: seq<Vec3>)
    requires |flat| == 3 * |ups|
    requires forall n :: 0 <= n < |ups| ==> ups[n] == UpNormal
    requires forall i :: 0 <= i < |ups| ==> VecAt(flat, 3 * i) == ups[i]
    ensures PlaneNormals(flat, |ups|)
  {
  }

  lemma TexcoordsCopied(flat: seq<real>, uvs: seq<Vec2>, resX: int, resZ: int)
    requires 2 <= resX && 2 <= resZ && |uvs| == resX * resZ && |flat| == 2 * |uvs|
    requires forall u, v :: 0 <= u < resX && 0 <= v < resZ ==>
      uvs[Cell(u, v, resX, resZ)] == PlaneTexcoord(u, v, resX, resZ)
    requires forall i :: 0 <= i < |uvs| ==>
      Vec2At(flat, 2 * i) == Vec2(uvs[i].x * resX as real, uvs[i].y * resX as real)
    ensures PlaneTexcoords(flat, resX, resZ)
  {
    forall u, v | 0 <= u < resX && 0 <= v < resZ
      ensures Vec2At(flat, 2 * Cell(u, v, resX, resZ)) == TiledTexcoord(u, v, resX, resZ)
    {
      var i := Cell(u, v, resX, resZ);
      assert uvs[i] == PlaneTexcoord(u, v, resX, resZ);
      assert Vec2At(flat, 2 * i) == Vec2(uvs[i].x * resX as real, uvs[i].y * resX as real);
    }
  }

  lemma IndicesCopied(indices: seq<int>, tris: seq<int>, resX: int, resZ: int)
    requires 2 <= resX && 2 <= resZ
    requires |indices| == 6 * ((resX - 1) * (resZ - 1)) <= |tris|
    requires forall face, k :: 0 <= face < (resX - 1) * (resZ - 1) && 0 <= k < 6 ==>
      tris[6 * face + k] == FaceIndices(face, resX)[k]
    requires forall i :: 0 <= i < |indices| ==> indices[i] == StoreUShort(tris[i])
    ensures PlaneIndices(indices, resX, resZ)
  {
    forall face, k | 0 <= face < (resX - 1) * (resZ - 1) && 0 <= k < 6
      ensures indices[6 * face + k] == StoreUShort(FaceIndices(face, resX)[k])
    {
      assert 6 * face + k < 6 * (resX - 1) * (resZ - 1);
    }
  }

  // ---------------------------------------------------------------------
  // Properties

  /**
    Face number `face` is the cell in column face % (resX-1) and row
    face / (resX-1) of the quad grid, and its corner index
    `face + face/(resX-1)` is that cell's lower-left vertex.
   */
  lemma FaceCornerIsRowCol(face: int, resX: int, resZ: int)
    requires 2 <= resX && 2 <= resZ && 0 <= face < (resX - 1) * (resZ - 1)
    ensures 0 <= face % (resX - 1) < resX - 1 && 0 <= face / (resX - 1) < resZ - 1
    ensures FaceCorner(face, resX) == Cell(face % (resX - 1), face / (resX - 1), resX, resZ)
  {
    ScanPosition(face, resX - 1, resZ - 1);
    var col, row := face % (resX - 1), face / (resX - 1);
    assert face == row * (resX - 1) + col;
    assert FaceCorner(face, resX) == row * resX + col;
  }

  /**
    The six indices of a face name exactly the four corners of its cell, so
    every index lies below vertexCount.
   */
  lemma FaceIndicesAreCellCorners(face: int, resX: int, resZ: int)
    requires 2 <= resX && 2 <= resZ && 0 <= face < (resX - 1) * (resZ - 1)
    ensures var col, row := face % (resX - 1), face / (resX - 1);
      0 <= col < resX - 1 && 0 <= row < resZ - 1
      && FaceIndices(face, resX) ==
         [Cell(col, row + 1, resX, resZ), Cell(col + 1, row, resX, resZ), Cell(col, row, resX, resZ),
          Cell(col, row + 1, resX, resZ), Cell(col + 1, row + 1, resX, resZ), Cell(col + 1, row, resX, resZ)]
    ensures forall k :: 0 <= k < 6 ==> 0 <= FaceIndices(face, resX)[k] < resX * resZ
  {
    FaceCornerIsRowCol(face, resX, resZ);
  }

  /** With at most 65536 vertices every index survives the `unsigned short` store. */
  lemma IndicesExactWhenSmall(mesh: IndexedMesh, width: real, length: real, resX: int, resZ: int, face: int, k: int)
    requires 2 <= resX && 2 <= resZ && IsTiledPlane(mesh, width, length, resX, resZ)
    requires resX * resZ <= 65536
    requires 0 <= face < (resX - 1) * (resZ - 1) && 0 <= k < 6
    ensures 6 * face + k < |mesh.indices|
    ensures mesh.indices[6 * face + k] == FaceIndices(face, resX)[k]
  {
    FaceIndicesAreCellCorners(face, resX, resZ);
  }

  /**
    With 256 quads per axis (257 by 257 vertices) the last face's far
    corner, vertex 66048, is stored as 512.
   */
  lemma IndexWrapsOnLargeGrid()
    ensures FaceIndices(65535, 257)[4] == 66048 == 257 * 257 - 1
    ensures StoreUShort(FaceIndices(65535, 257)[4]) == 512
  {
  }

  /** The plane spans [-width/2, width/2] by [-length/2, length/2]. */
  lemma PlaneSpansExtent(resX: int, resZ: int, width: real, length: real)
    requires 2 <= resX && 2 <= resZ
    ensures PlaneVertex(0, 0, resX, resZ, width, length) == Vec3(-width / 2.0, 0.0, -length / 2.0)
    ensures PlaneVertex(resX - 1, resZ - 1, resX, resZ, width, length) == Vec3(width / 2.0, 0.0, length / 2.0)
  {
    var wx, wz := (resX - 1) as real, (resZ - 1) as real;
    assert wx / wx == 1.0 && wz / wz == 1.0;
  }

  /**
    The texture repeats resX times along x and, because the v coordinate is
    also multiplied by resX, resX times along z as well: the far corner
    carries (resX, resX).
   */
  lemma TexcoordFarCorner(resX: int, resZ: int)
    requires 2 <= resX && 2 <= resZ
    ensures TiledTexcoord(resX - 1, resZ - 1, resX, resZ) == Vec2(resX as real, resX as real)
    ensures TiledTexcoord(0, 0, resX, resZ) == Vec2(0.0, 0.0)
  {
    var wx, wz := (resX - 1) as real, (resZ - 1) as real;
    assert wx / wx == 1.0 && wz / wz == 1.0;
  }
}
