/** Index layout of Blender's volume-to-mesh conversion
    (source/blender/blenkernel/intern/volume_to_mesh.cc): OpenVDB hands back
    vertex positions, triangles and quads, and `fill_mesh_from_openvdb_data`
    writes them into a mesh's position, face-offset and corner-vertex
    buffers. OpenVDB's own meshing and all float geometry stay outside: the
    conversion's outcome is an input. */
module VolumeToMesh {

  /** Largest value of a C++ `int`. */
  const Int32Max: int := 0x7FFF_FFFF
  const U32Modulus: int := 0x1_0000_0000

  /** Components of `openvdb::Vec3I`/`Vec4I` are unsigned 32-bit integers. */
  type U32 = x: int | 0 <= x < 0x1_0000_0000

  /** `openvdb::Vec3I`: the vertex indices of one triangle. */
  type Tri = s: seq<U32> | |s| == 3 witness [0, 0, 0]

  /** `openvdb::Vec4I`: the vertex indices of one quad. */
  type Quad = s: seq<U32> | |s| == 4 witness [0, 0, 0, 0]

  /** A vertex position. Positions are only copied by this code. */
  datatype Position = Position(x: real, y: real, z: real)

  /** The vertex, triangle and quad lists of `OpenVDBMeshData`. */
  datatype MeshData = MeshData(verts: seq<Position>, tris: seq<Tri>, quads: seq<Quad>)

  const EmptyData: MeshData := MeshData([], [], [])

  /** The three buffers of a mesh that the conversion writes. */
  datatype Mesh = Mesh(positions: seq<Position>, faceOffsets: seq<int>, cornerVerts: seq<int>)

  /** C++ `int` + `unsigned int` is computed in `unsigned int` (modulo 2^32)
      and the sum is stored into an `int` buffer as its two's-complement
      reading. */
  function CornerValue(vertOffset: int, index: U32): (r: int)
    ensures -Int32Max - 1 <= r <= Int32Max
    ensures (r - vertOffset - index) % U32Modulus == 0
  {
    var u := (vertOffset + index) % U32Modulus;
    if u <= Int32Max then u else u - U32Modulus
  }

  /** Without overflow, a corner holds the offset vertex index itself. */
  lemma CornerValueNoWrap(vertOffset: int, index: U32)
    requires 0 <= vertOffset && vertOffset + index <= Int32Max
    ensures CornerValue(vertOffset, index) == vertOffset + index
  {
  }

  /** An offset vertex index from 2^31 up to 2^32 - 1 is stored as the
      negative corner 2^32 below it. */
  lemma CornerValueWraps(vertOffset: int, index: U32)
    requires 0 <= vertOffset && Int32Max < vertOffset + index < U32Modulus
    ensures CornerValue(vertOffset, index) == vertOffset + index - U32Modulus
    ensures CornerValue(vertOffset, index) < 0
  {
  }

  /** Faces `[faceOffset, faceOffset + nTris)` start at loops 3 apart from
      `loopOffset`; the quad faces after them start at loops 4 apart, after
      all triangle loops. */
  ghost predicate FaceOffsetsLaidOut(offsets: seq<int>, faceOffset: int, loopOffset: int, nTris: nat, nQuads: nat)
    requires 0 <= faceOffset && faceOffset + nTris + nQuads <= |offsets|
  {
    && (forall f :: faceOffset <= f < faceOffset + nTris ==>
          offsets[f] == loopOffset + 3 * (f - faceOffset))
    && (forall f :: faceOffset + nTris <= f < faceOffset + nTris + nQuads ==>
          offsets[f] == loopOffset + 3 * nTris + 4 * (f - faceOffset - nTris))
  }

  /** Loop `loopOffset + 3*i + j` holds corner `2 - j` of triangle `i`
      (reversed winding), shifted by `vertOffset`. */
  ghost predicate TriCornersLaidOut(corners: seq<int>, tris: seq<Tri>, vertOffset: int, loopOffset: int)
    requires 0 <= loopOffset && loopOffset + 3 * |tris| <= |corners|
  {
    forall k :: loopOffset <= k < loopOffset + 3 * |tris| ==>
      corners[k] == CornerValue(vertOffset, tris[(k - loopOffset) / 3][2 - (k - loopOffset) % 3])
  }

  /** Loop `loopOffset + 4*i + j` holds corner `3 - j` of quad `i`. */
  ghost predicate QuadCornersLaidOut(corners: seq<int>, quads: seq<Quad>, vertOffset: int, loopOffset: int)
    requires 0 <= loopOffset && loopOffset + 4 * |quads| <= |corners|
  {
    forall k :: loopOffset <= k < loopOffset + 4 * |quads| ==>
      corners[k] == CornerValue(vertOffset, quads[(k - loopOffset) / 4][3 - (k - loopOffset) % 4])
  }

  /** Entries outside `[lo, hi)` are those of `before`. */
  ghost predicate SameOutside<T>(after: seq<T>, before: seq<T>, lo: int, hi: int) {
    |after| == |before| && forall k :: 0 <= k < |before| && !(lo <= k < hi) ==> after[k] == before[k]
  }

  /** `fill_mesh_from_openvdb_data`: copy the vertices to
      `[vertOffset, +|verts|)`, then write one face per triangle followed by
      one face per quad from `faceOffset`, their loops from `loopOffset`,
      each face's corners in reversed order. The spans are passed in and the
      written spans come back. */
  method FillMeshFromOpenVdbData(
    verts: seq<Position>, tris: seq<Tri>, quads: seq<Quad>,
    vertOffset: int, faceOffset: int, loopOffset: int,
    positions: seq<Position>, faceOffsets: seq<int>, cornerVerts: seq<int>)
    returns (positions': seq<Position>, faceOffsets': seq<int>, cornerVerts': seq<int>)
    // the slices written must lie inside the spans
    requires 0 <= vertOffset && vertOffset + |verts| <= |positions|
    requires 0 <= faceOffset && faceOffset + |tris| + |quads| <= |faceOffsets|
    requires 0 <= loopOffset && loopOffset + 3 * |tris| + 4 * |quads| <= |cornerVerts|
    // loop offsets are C++ `int`s; a larger total would overflow
    requires loopOffset + 3 * |tris| + 4 * |quads| <= Int32Max
    ensures SameOutside(positions', positions, vertOffset, vertOffset + |verts|)
    ensures SameOutside(faceOffsets', faceOffsets, faceOffset, faceOffset + |tris| + |quads|)
    ensures SameOutside(cornerVerts', cornerVerts, loopOffset, loopOffset + 3 * |tris| + 4 * |quads|)
    ensures positions'[vertOffset..vertOffset + |verts|] == verts
    ensures FaceOffsetsLaidOut(faceOffsets', faceOffset, loopOffset, |tris|, |quads|)
    ensures TriCornersLaidOut(cornerVerts', tris, vertOffset, loopOffset)
    ensures QuadCornersLaidOut(cornerVerts', quads, vertOffset, loopOffset + 3 * |tris|)
  {
    positions' := positions[..vertOffset] + verts + positions[vertOffset + |verts|..];
    assert positions'[vertOffset..vertOffset + |verts|] == verts;

    var offsetsAfterTris, cornersAfterTris := WriteTriangles(tris, vertOffset, faceOffset, loopOffset, faceOffsets, cornerVerts);
    faceOffsets', cornerVerts' := WriteQuads(quads, vertOffset, faceOffset + |tris|, loopOffset + 3 * |tris|,
                                             offsetsAfterTris, cornersAfterTris);
    assert TriCornersLaidOut(cornerVerts', tris, vertOffset, loopOffset) by {
      forall k | loopOffset <= k < loopOffset + 3 * |tris|
        ensures cornerVerts'[k] == cornersAfterTris[k]
      {
      }
    }
  }

  /** The triangle block: face `faceOffset + i` starts at loop
      `loopOffset + 3*i` and lists the triangle's corners reversed. */
  method WriteTriangles(tris: seq<Tri>, vertOffset: int, faceOffset: int, loopOffset: int,
                        faceOffsets: seq<int>, cornerVerts: seq<int>)
    returns (faceOffsets': seq<int>, cornerVerts': seq<int>)
    requires 0 <= faceOffset && faceOffset + |tris| <= |faceOffsets|
    requires 0 <= loopOffset && loopOffset + 3 * |tris| <= |cornerVerts|
    ensures SameOutside(faceOffsets', faceOffsets, faceOffset, faceOffset + |tris|)
    ensures forall f :: faceOffset <= f < faceOffset + |tris| ==> faceOffsets'[f] == loopOffset + 3 * (f - faceOffset)
    ensures SameOutside(cornerVerts', cornerVerts, loopOffset, loopOffset + 3 * |tris|)
    ensures TriCornersLaidOut(cornerVerts', tris, vertOffset, loopOffset)
  {
    faceOffsets' := faceOffsets;
    cornerVerts' := cornerVerts;
    var i := 0;
    while i < |tris|
      invariant 0 <= i <= |tris|
      invariant SameOutside(faceOffsets', faceOffsets, faceOffset, faceOffset + i)
      invariant forall f :: faceOffset <= f < faceOffset + i ==> faceOffsets'[f] == loopOffset + 3 * (f - faceOffset)
      invariant SameOutside(cornerVerts', cornerVerts, loopOffset, loopOffset + 3 * i)
      invariant forall k :: loopOffset <= k < loopOffset + 3 * i ==>
        cornerVerts'[k] == CornerValue(vertOffset, tris[(k - loopOffset) / 3][2 - (k - loopOffset) % 3])
    {
      faceOffsets' := faceOffsets'[faceOffset + i := loopOffset + 3 * i];
      var j := 0;
      while j < 3
        invariant 0 <= j <= 3
        invariant SameOutside(cornerVerts', cornerVerts, loopOffset, loopOffset + 3 * i + j)
        invariant forall k :: loopOffset <= k < loopOffset + 3 * i + j ==>
          cornerVerts'[k] == CornerValue(vertOffset, tris[(k - loopOffset) / 3][2 - (k - loopOffset) % 3])
      {
        assert (3 * i + j) / 3 == i && (3 * i + j) % 3 == j;
        cornerVerts' := cornerVerts'[loopOffset + 3 * i + j := CornerValue(vertOffset, tris[i][2 - j])];
        j := j + 1;
      }
      i := i + 1;
    }
  }

  /** The quad block: face `faceOffset + i` starts at loop
      `loopOffset + 4*i` and lists the quad's corners reversed. */
  method WriteQuads(quads: seq<Quad>, vertOffset: int, faceOffset: int, loopOffset: int,
                    faceOffsets: seq<int>, cornerVerts: seq<int>)
    returns (faceOffsets': seq<int>, cornerVerts': seq<int>)
    requires 0 <= faceOffset && faceOffset + |quads| <= |faceOffsets|
    requires 0 <= loopOffset && loopOffset + 4 * |quads| <= |cornerVerts|
    ensures SameOutside(faceOffsets', faceOffsets, faceOffset, faceOffset + |quads|)
    ensures forall f :: faceOffset <= f < faceOffset + |quads| ==> faceOffsets'[f] == loopOffset + 4 * (f - faceOffset)
    ensures SameOutside(cornerVerts', cornerVerts, loopOffset, loopOffset + 4 * |quads|)
    ensures QuadCornersLaidOut(cornerVerts', quads, vertOffset, loopOffset)
  {
    faceOffsets' := faceOffsets;
    cornerVerts' := cornerVerts;
    var i := 0;
    while i < |quads|
      invariant 0 <= i <= |quads|
      invariant SameOutside(faceOffsets', faceOffsets, faceOffset, faceOffset + i)
      invariant forall f :: faceOffset <= f < faceOffset + i ==> faceOffsets'[f] == loopOffset + 4 * (f - faceOffset)
      invariant SameOutside(cornerVerts', cornerVerts, loopOffset, loopOffset + 4 * i)
      invariant forall k :: loopOffset <= k < loopOffset + 4 * i ==>
        cornerVerts'[k] == CornerValue(vertOffset, quads[(k - loopOffset) / 4][3 - (k - loopOffset) % 4])
    {
      faceOffsets' := faceOffsets'[faceOffset + i := loopOffset + 4 * i];
      var j := 0;
      while j < 4
        invariant 0 <= j <= 4
        invariant SameOutside(cornerVerts', cornerVerts, loopOffset, loopOffset + 4 * i + j)
        invariant forall k :: loopOffset <= k < loopOffset + 4 * i + j ==>
          cornerVerts'[k] == CornerValue(vertOffset, quads[(k - loopOffset) / 4][3 - (k - loopOffset) % 4])
      {
        assert (4 * i + j) / 4 == i && (4 * i + j) % 4 == j;
        cornerVerts' := cornerVerts'[loopOffset + 4 * i + j := CornerValue(vertOffset, quads[i][3 - j])];
        j := j + 1;
      }
      i := i + 1;
    }
  }

  /** Read back corner `j` of triangle `i` from a laid-out corner buffer. */
  lemma TriangleCorner(corners: seq<int>, tris: seq<Tri>, vertOffset: int, loopOffset: int, i: nat, j: nat)
    requires 0 <= loopOffset && loopOffset + 3 * |tris| <= |corners|
    requires TriCornersLaidOut(corners, tris, vertOffset, loopOffset)
    requires i < |tris| && j < 3
    ensures corners[loopOffset + 3 * i + j] == CornerValue(vertOffset, tris[i][2 - j])
  {
    var k := loopOffset + 3 * i + j;
    assert (k - loopOffset) / 3 == i && (k - loopOffset) % 3 == j;
  }

  /** Read back corner `j` of quad `i` from a laid-out corner buffer. */
  lemma QuadCorner(corners: seq<int>, quads: seq<Quad>, vertOffset: int, loopOffset: int, i: nat, j: nat)
    requires 0 <= loopOffset && loopOffset + 4 * |quads| <= |corners|
    requires QuadCornersLaidOut(corners, quads, vertOffset, loopOffset)
    requires i < |quads| && j < 4
    ensures corners[loopOffset + 4 * i + j] == CornerValue(vertOffset, quads[i][3 - j])
  {
    var k := loopOffset + 4 * i + j;
    assert (k - loopOffset) / 4 == i && (k - loopOffset) % 4 == j;
  }

  /** Consecutive face offsets differ by 3 within the triangle block and by
      4 from the first quad on, so the offsets written strictly increase. */
  lemma FaceOffsetSteps(offsets: seq<int>, faceOffset: int, loopOffset: int, nTris: nat, nQuads: nat, f: int)
    requires 0 <= faceOffset && faceOffset + nTris + nQuads <= |offsets|
    requires FaceOffsetsLaidOut(offsets, faceOffset, loopOffset, nTris, nQuads)
    requires faceOffset <= f && f + 1 < faceOffset + nTris + nQuads
    ensures offsets[f + 1] - offsets[f] == (if f < faceOffset + nTris then 3 else 4)
  {
  }

  /** The grid value types Blender's volume grids can hold. */
  datatype GridType =
    | Boolean | Float | Double | Int | Int64 | Mask
    | VectorFloat | VectorDouble | VectorInt | Points

  /** `std::is_scalar_v<GridType::ValueType>`: bool, float, double, int32
      and int64 values are scalar; mask, vector and point-index values are
      class types. */
  predicate HasScalarValue(t: GridType) {
    t in {Boolean, Float, Double, Int, Int64}
  }

  /** What `openvdb::tools::volumeToMesh` did: filled the three lists, or
      threw `std::exception` with `what()` after filling some of them. */
  datatype Conversion = Converted(data: MeshData) | Threw(what: string, partial: MeshData)

  /** `VolumeToMeshDataResult`: the mesh data and an error text. */
  datatype DataResult = DataResult(data: MeshData, error: string)

  /** `grid_to_mesh`: a thrown conversion leaves no vertices, triangles or
      quads, and its message is recorded. */
  function GridToMesh(c: Conversion): (r: DataResult)
    ensures r.data == EmptyData <== c.Threw?
    ensures r.error != "" <==> c.Threw?
    ensures c.Threw? ==> r.error == "OpenVDB error: " + c.what
    ensures c.Converted? ==> r == DataResult(c.data, "")
  {
    match c
    case Converted(data) => DataResult(data, "")
    case Threw(what, _) => DataResult(EmptyData, "OpenVDB error: " + what)
  }

  /** `volume_to_mesh_data`: only grids with scalar values are meshed; any
      other grid yields an empty result without error. */
  function VolumeToMeshData(t: GridType, c: Conversion): (r: DataResult)
    ensures !HasScalarValue(t) ==> r == DataResult(EmptyData, "")
    ensures HasScalarValue(t) ==> r == GridToMesh(c)
  {
    if HasScalarValue(t) then GridToMesh(c) else DataResult(EmptyData, "")
  }

  /** The mesh `volume_to_mesh` is meant to build from `data`, entry by
      entry: the vertices as given; face `f` starting at loop `3f` among the
      triangles and 4 loops apart after them, with the loop total as the
      closing offset; loop `k` holding the reversed corner it stands for.
      The offsets are always `faces + 1` long, so a mesh with no faces has
      the single offset `[0]`: that is this model's convention for the
      buffer, since how Blender allocates it for zero faces is not part of
      this model. */
  function BuiltMesh(data: MeshData): Mesh {
    var t := |data.tris|;
    var q := |data.quads|;
    Mesh(data.verts,
         seq(t + q + 1, f => if f < t then 3 * f else 3 * t + 4 * (f - t)),
         seq(3 * t + 4 * q, k requires 0 <= k < 3 * t + 4 * q =>
           if k < 3 * t then CornerValue(0, data.tris[k / 3][2 - k % 3])
           else CornerValue(0, data.quads[(k - 3 * t) / 4][3 - (k - 3 * t) % 4])))
  }

  /** `volume_to_mesh`: allocate a mesh of `|verts|` vertices, `T + Q`
      faces and `3T + 4Q` loops, then fill it from offset zero. The offsets
      buffer of the allocated mesh has one more entry than faces, holding the
      total loop count; that allocation (`BKE_mesh_new_nomain`) is not part
      of this model and is written out here. */
  method VolumeToMeshFromData(data: MeshData) returns (mesh: Mesh)
    requires 3 * |data.tris| + 4 * |data.quads| <= Int32Max
    ensures mesh.positions == data.verts
    ensures |mesh.faceOffsets| == |data.tris| + |data.quads| + 1
    ensures |mesh.cornerVerts| == 3 * |data.tris| + 4 * |data.quads|
    ensures mesh.faceOffsets[|data.tris| + |data.quads|] == |mesh.cornerVerts|
    ensures FaceOffsetsLaidOut(mesh.faceOffsets, 0, 0, |data.tris|, |data.quads|)
    ensures TriCornersLaidOut(mesh.cornerVerts, data.tris, 0, 0)
    ensures QuadCornersLaidOut(mesh.cornerVerts, data.quads, 0, 3 * |data.tris|)
    ensures mesh == BuiltMesh(data)
  {
    var totLoops := 3 * |data.tris| + 4 * |data.quads|;
    var totFaces := |data.tris| + |data.quads|;
    var positions := seq(|data.verts|, _ => Position(0.0, 0.0, 0.0));
    var offsets := seq(totFaces, _ => 0) + [totLoops];
    var corners := seq(totLoops, _ => 0);
    var p, f, c := FillMeshFromOpenVdbData(data.verts, data.tris, data.quads, 0, 0, 0, positions, offsets, corners);
    assert p == p[0..|data.verts|];
    mesh := Mesh(p, f, c);
    var built := BuiltMesh(data);
    forall i | 0 <= i < |f|
      ensures f[i] == built.faceOffsets[i]
    {
    }
    forall k | 0 <= k < |c|
      ensures c[k] == built.cornerVerts[k]
    {
    }
    assert f == built.faceOffsets && c == built.cornerVerts;
  }

  /** Every face of the mesh built by `volume_to_mesh` spans 3 loops if it
      comes from a triangle and 4 if it comes from a quad, the last face
      included. */
  lemma FaceSizes(mesh: Mesh, nTris: nat, nQuads: nat, f: nat)
    requires |mesh.faceOffsets| == nTris + nQuads + 1
    requires |mesh.cornerVerts| == 3 * nTris + 4 * nQuads
    requires mesh.faceOffsets[nTris + nQuads] == |mesh.cornerVerts|
    requires FaceOffsetsLaidOut(mesh.faceOffsets, 0, 0, nTris, nQuads)
    requires f < nTris + nQuads
    ensures mesh.faceOffsets[f + 1] - mesh.faceOffsets[f] == (if f < nTris then 3 else 4)
  {
  }

  /** `volume_to_mesh` from a grid: the mesh is built from whatever
      `volume_to_mesh_data` returns, and its error text is dropped, so a
      non-scalar grid or a failed conversion gives a mesh with no vertices,
      faces or loops, the same mesh an empty conversion gives. */
  method VolumeToMesh(t: GridType, c: Conversion) returns (mesh: Mesh)
    requires HasScalarValue(t) && c.Converted? ==> 3 * |c.data.tris| + 4 * |c.data.quads| <= Int32Max
    ensures mesh == BuiltMesh(VolumeToMeshData(t, c).data)
    ensures !HasScalarValue(t) || c.Threw? ==> mesh == Mesh([], [0], [])
    ensures HasScalarValue(t) && c.Converted? ==>
      && mesh.positions == c.data.verts
      && |mesh.faceOffsets| == |c.data.tris| + |c.data.quads| + 1
      && |mesh.cornerVerts| == 3 * |c.data.tris| + 4 * |c.data.quads|
      && FaceOffsetsLaidOut(mesh.faceOffsets, 0, 0, |c.data.tris|, |c.data.quads|)
      && TriCornersLaidOut(mesh.cornerVerts, c.data.tris, 0, 0)
      && QuadCornersLaidOut(mesh.cornerVerts, c.data.quads, 0, 3 * |c.data.tris|)
  {
    var result := VolumeToMeshData(t, c);
    mesh := VolumeToMeshFromData(result.data);
  }

  /** The mesh cannot tell a failed conversion from one that found no
      surface: both yield the data of an empty conversion. */
  lemma FailedConversionLooksEmpty(t: GridType, what: string, partial: MeshData)
    ensures VolumeToMeshData(t, Threw(what, partial)).data == VolumeToMeshData(t, Converted(EmptyData)).data
    ensures BuiltMesh(EmptyData) == Mesh([], [0], [])
  {
  }
}
