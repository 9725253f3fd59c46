/** The box primitive (Cube.js): a fixed 36-vertex triangle list over [0,1]^3,
    six faces of two triangles each, with per-face UVs and a per-face constant
    "normal" that is really a debug colour, and buffers built once per process. */
module CubeGeometry {
  import opened Maths
  import opened Results
  import opened Gl

  // The tables of _initCubeGeometry, one literal per face in the source's
  // order (front, back, left, right, top, bottom). The Float32Array the
  // source uploads is the flattening of each table (Flatten3, Flatten2).

  /** Front face (z = 0): two triangles. */
  const FrontPositions: seq<Vec3> := [
    Vec3(0.0, 0.0, 0.0), Vec3(1.0, 0.0, 0.0), Vec3(1.0, 1.0, 0.0),
    Vec3(0.0, 0.0, 0.0), Vec3(1.0, 1.0, 0.0), Vec3(0.0, 1.0, 0.0)
  ]
  /** Back face (z = 1): two triangles. */
  const BackPositions: seq<Vec3> := [
    Vec3(1.0, 0.0, 1.0), Vec3(0.0, 0.0, 1.0), Vec3(0.0, 1.0, 1.0),
    Vec3(1.0, 0.0, 1.0), Vec3(0.0, 1.0, 1.0), Vec3(1.0, 1.0, 1.0)
  ]
  /** Left face (x = 0): two triangles. */
  const LeftPositions: seq<Vec3> := [
    Vec3(0.0, 0.0, 1.0), Vec3(0.0, 0.0, 0.0), Vec3(0.0, 1.0, 0.0),
    Vec3(0.0, 0.0, 1.0), Vec3(0.0, 1.0, 0.0), Vec3(0.0, 1.0, 1.0)
  ]
  /** Right face (x = 1): two triangles. */
  const RightPositions: seq<Vec3> := [
    Vec3(1.0, 0.0, 0.0), Vec3(1.0, 0.0, 1.0), Vec3(1.0, 1.0, 1.0),
    Vec3(1.0, 0.0, 0.0), Vec3(1.0, 1.0, 1.0), Vec3(1.0, 1.0, 0.0)
  ]
  /** Top face (y = 1): two triangles. */
  const TopPositions: seq<Vec3> := [
    Vec3(0.0, 1.0, 0.0), Vec3(1.0, 1.0, 0.0), Vec3(1.0, 1.0, 1.0),
    Vec3(0.0, 1.0, 0.0), Vec3(1.0, 1.0, 1.0), Vec3(0.0, 1.0, 1.0)
  ]
  /** Bottom face (y = 0): two triangles. */
  const BottomPositions: seq<Vec3> := [
    Vec3(0.0, 0.0, 1.0), Vec3(1.0, 0.0, 1.0), Vec3(1.0, 0.0, 0.0),
    Vec3(0.0, 0.0, 1.0), Vec3(1.0, 0.0, 0.0), Vec3(0.0, 0.0, 0.0)
  ]

  const FrontUVs: seq<(real, real)> :=
    [(0.0, 0.0), (1.0, 0.0), (1.0, 1.0),
     (0.0, 0.0), (1.0, 1.0), (0.0, 1.0)]
  const BackUVs: seq<(real, real)> :=
    [(0.0, 0.0), (1.0, 0.0), (1.0, 1.0),
     (0.0, 0.0), (1.0, 1.0), (0.0, 1.0)]
  const LeftUVs: seq<(real, real)> :=
    [(0.0, 0.0), (1.0, 0.0), (1.0, 1.0),
     (0.0, 0.0), (1.0, 1.0), (0.0, 1.0)]
  const RightUVs: seq<(real, real)> :=
    [(0.0, 0.0), (1.0, 0.0), (1.0, 1.0),
     (0.0, 0.0), (1.0, 1.0), (0.0, 1.0)]
  const TopUVs: seq<(real, real)> :=
    [(0.0, 0.0), (1.0, 0.0), (1.0, 1.0),
     (0.0, 0.0), (1.0, 1.0), (0.0, 1.0)]
  const BottomUVs: seq<(real, real)> :=
    [(0.0, 0.0), (1.0, 0.0), (1.0, 1.0),
     (0.0, 0.0), (1.0, 1.0), (0.0, 1.0)]

  /** Front face: purple (1, 0, 1). */
  const FrontNormals: seq<Vec3> := [
    Vec3(1.0, 0.0, 1.0), Vec3(1.0, 0.0, 1.0), Vec3(1.0, 0.0, 1.0),
    Vec3(1.0, 0.0, 1.0), Vec3(1.0, 0.0, 1.0), Vec3(1.0, 0.0, 1.0)
  ]
  /** Back face: teal (0, 1, 1). */
  const BackNormals: seq<Vec3> := [
    Vec3(0.0, 1.0, 1.0), Vec3(0.0, 1.0, 1.0), Vec3(0.0, 1.0, 1.0),
    Vec3(0.0, 1.0, 1.0), Vec3(0.0, 1.0, 1.0), Vec3(0.0, 1.0, 1.0)
  ]
  /** Left face: navy (0, 0, 1). */
  const LeftNormals: seq<Vec3> := [
    Vec3(0.0, 0.0, 1.0), Vec3(0.0, 0.0, 1.0), Vec3(0.0, 0.0, 1.0),
    Vec3(0.0, 0.0, 1.0), Vec3(0.0, 0.0, 1.0), Vec3(0.0, 0.0, 1.0)
  ]
  /** Right face: red (1, 0, 0). */
  const RightNormals: seq<Vec3> := [
    Vec3(1.0, 0.0, 0.0), Vec3(1.0, 0.0, 0.0), Vec3(1.0, 0.0, 0.0),
    Vec3(1.0, 0.0, 0.0), Vec3(1.0, 0.0, 0.0), Vec3(1.0, 0.0, 0.0)
  ]
  /** Top face: green (0, 1, 0). */
  const TopNormals: seq<Vec3> := [
    Vec3(0.0, 1.0, 0.0), Vec3(0.0, 1.0, 0.0), Vec3(0.0, 1.0, 0.0),
    Vec3(0.0, 1.0, 0.0), Vec3(0.0, 1.0, 0.0), Vec3(0.0, 1.0, 0.0)
  ]
  /** Bottom face: yellow (1, 1, 0). */
  const BottomNormals: seq<Vec3> := [
    Vec3(1.0, 1.0, 0.0), Vec3(1.0, 1.0, 0.0), Vec3(1.0, 1.0, 0.0),
    Vec3(1.0, 1.0, 0.0), Vec3(1.0, 1.0, 0.0), Vec3(1.0, 1.0, 0.0)
  ]

  const CubePositions: seq<Vec3> :=
    FrontPositions + BackPositions + LeftPositions + RightPositions + TopPositions + BottomPositions
  const CubeUVs: seq<(real, real)> :=
    FrontUVs + BackUVs + LeftUVs + RightUVs + TopUVs + BottomUVs
  const CubeNormals: seq<Vec3> :=
    FrontNormals + BackNormals + LeftNormals + RightNormals + TopNormals + BottomNormals

  /** The vertex count drawCube passes to drawArrays. */
  const CubeDrawCount: int := 36

  /** Face f's six positions, six UVs and six normals (f = 0 front ... 5 bottom). */
  function FacePositions(f: nat): seq<Vec3>
    requires f < 6
  {
    [FrontPositions, BackPositions, LeftPositions, RightPositions, TopPositions, BottomPositions][f]
  }

  function FaceUVs(f: nat): seq<(real, real)>
    requires f < 6
  {
    [FrontUVs, BackUVs, LeftUVs, RightUVs, TopUVs, BottomUVs][f]
  }

  function FaceNormals(f: nat): seq<Vec3>
    requires f < 6
  {
    [FrontNormals, BackNormals, LeftNormals, RightNormals, TopNormals, BottomNormals][f]
  }

  /** The debug colour the source names for face f. */
  function FaceColor(f: nat): Vec3
    requires f < 6
  {
    [Vec3(1.0, 0.0, 1.0), Vec3(0.0, 1.0, 1.0), Vec3(0.0, 0.0, 1.0),
     Vec3(1.0, 0.0, 0.0), Vec3(0.0, 1.0, 0.0), Vec3(1.0, 1.0, 0.0)][f]
  }

  /** The plane face f is named after: front z=0, back z=1, left x=0, right x=1,
      top y=1, bottom y=0. */
  predicate OnFacePlane(f: nat, p: Vec3) {
    (f == 0 ==> p.z == 0.0) && (f == 1 ==> p.z == 1.0) &&
    (f == 2 ==> p.x == 0.0) && (f == 3 ==> p.x == 1.0) &&
    (f == 4 ==> p.y == 1.0) && (f == 5 ==> p.y == 0.0)
  }

  predicate Bit(r: real) { r == 0.0 || r == 1.0 }

  /** The UV unwrap every face uses. */
  const FaceUVPattern: seq<(real, real)> :=
    [(0.0, 0.0), (1.0, 0.0), (1.0, 1.0), (0.0, 0.0), (1.0, 1.0), (0.0, 1.0)]

  // ---------------------------------------------------------------------
  // Properties of the tables
  // ---------------------------------------------------------------------

  /** 36 vertices: 108 position floats, 72 UV floats, 108 normal floats, and
      drawCube's count is that vertex count. */
  lemma CubeTableSizes()
    ensures |CubePositions| == |CubeUVs| == |CubeNormals| == CubeDrawCount == 36
    ensures |Flatten3(CubePositions)| == 108 && |Flatten2(CubeUVs)| == 72 && |Flatten3(CubeNormals)| == 108
  {
  }

  /** Vertex k belongs to face k / 6, at position k % 6 within it. */
  lemma CubeFaceLayout(k: nat)
    requires k < 36
    ensures CubePositions[k] == FacePositions(k / 6)[k % 6]
    ensures CubeUVs[k] == FaceUVs(k / 6)[k % 6]
    ensures CubeNormals[k] == FaceNormals(k / 6)[k % 6]
  {
    var f, r := k / 6, k % 6;
    assert k == 6 * f + r;
    if f == 0 {
    } else if f == 1 {
    } else if f == 2 {
    } else if f == 3 {
    } else if f == 4 {
    } else {
      assert f == 5;
    }
  }

  /** Face f's six positions lie on its plane and have 0/1 coordinates. */
  lemma FaceOnPlane(f: nat)
    requires f < 6
    ensures forall r :: 0 <= r < 6 ==>
      OnFacePlane(f, FacePositions(f)[r]) &&
      Bit(FacePositions(f)[r].x) && Bit(FacePositions(f)[r].y) && Bit(FacePositions(f)[r].z)
  {
  }

  /** Every vertex lies on the plane of the face it belongs to, and every
      coordinate is 0 or 1. */
  lemma CubeVerticesOnFacePlanes()
    ensures forall k :: 0 <= k < |CubePositions| ==>
      OnFacePlane(k / 6, CubePositions[k]) &&
      Bit(CubePositions[k].x) && Bit(CubePositions[k].y) && Bit(CubePositions[k].z)
  {
    forall k | 0 <= k < |CubePositions|
      ensures OnFacePlane(k / 6, CubePositions[k])
      ensures Bit(CubePositions[k].x) && Bit(CubePositions[k].y) && Bit(CubePositions[k].z)
    {
      CubeFaceLayout(k);
      FaceOnPlane(k / 6);
    }
  }

  /** Within each face the normal triple is constant (the face's colour), and
      the six face colours are pairwise distinct. */
  lemma CubeNormalsPerFace()
    ensures forall k :: 0 <= k < |CubeNormals| ==> CubeNormals[k] == FaceColor(k / 6)
    ensures forall f, g :: 0 <= f < 6 && 0 <= g < 6 && f != g ==> FaceColor(f) != FaceColor(g)
  {
    forall k | 0 <= k < |CubeNormals|
      ensures CubeNormals[k] == FaceColor(k / 6)
    {
      CubeFaceLayout(k);
      assert CubeNormals[k] in FaceNormals(k / 6);
    }
  }

  /** Every face repeats the same six-entry UV pattern, so every UV component
      is 0 or 1. */
  lemma CubeUVsRepeatPattern()
    ensures forall k :: 0 <= k < |CubeUVs| ==> CubeUVs[k] == FaceUVPattern[k % 6]
    ensures forall k :: 0 <= k < |CubeUVs| ==> Bit(CubeUVs[k].0) && Bit(CubeUVs[k].1)
  {
    forall k | 0 <= k < |CubeUVs|
      ensures CubeUVs[k] == FaceUVPattern[k % 6]
    {
      CubeFaceLayout(k);
      assert FaceUVs(k / 6) == FaceUVPattern;
    }
  }

  // ---------------------------------------------------------------------
  // The shared buffers (the static fields of class Cube) and the instances
  // ---------------------------------------------------------------------

  /** What _initCubeGeometry appends to the context's log when it builds the
      buffers, starting from buffer id n. */
  function CubeUploadEvents(n: nat): seq<Event> {
    [Created(n), Uploaded(n, Flatten3(CubePositions)),
     Created(n + 1), Uploaded(n + 1, Flatten2(CubeUVs)),
     Created(n + 2), Uploaded(n + 2, Flatten3(CubeNormals))]
  }

  /** The static fields Cube.positionBuffer, Cube.uvBuffer, Cube.normalBuffer. */
  class CubeStatics {
    var positionBuffer: Option<nat>
    var uvBuffer: Option<nat>
    var normalBuffer: Option<nat>

    constructor ()
      ensures positionBuffer == None && uvBuffer == None && normalBuffer == None
    {
      positionBuffer, uvBuffer, normalBuffer := None, None, None;
    }

    /** Cube._initCubeGeometry: a no-op once positionBuffer is set; otherwise
        creates and fills the three buffers. */
    method InitCubeGeometry(gl: Context)
      modifies this, gl
      ensures CubeInitialized(this, gl)
    {
      if positionBuffer.Some? {
        return;
      }
      var positions := Flatten3(CubePositions);
      var uvcoords := Flatten2(CubeUVs);
      var normals := Flatten3(CubeNormals);

      var id := gl.CreateBuffer();
      positionBuffer := Some(id);
      gl.BufferData(id, positions);

      id := gl.CreateBuffer();
      uvBuffer := Some(id);
      gl.BufferData(id, uvcoords);

      id := gl.CreateBuffer();
      normalBuffer := Some(id);
      gl.BufferData(id, normals);
    }
  }

  /** The effect of one _initCubeGeometry call: when the buffers already exist
      nothing changes and nothing is allocated; otherwise three fresh buffer ids
      are taken and the three tables uploaded, and no uniform is touched. */
  twostate predicate CubeInitialized(s: CubeStatics, gl: Context)
    reads s, gl
  {
    gl.frame == old(gl.frame) && gl.material == old(gl.material) &&
    if old(s.positionBuffer).Some? then
      s.positionBuffer == old(s.positionBuffer) && s.uvBuffer == old(s.uvBuffer) &&
      s.normalBuffer == old(s.normalBuffer) &&
      gl.nextBuffer == old(gl.nextBuffer) && gl.log == old(gl.log)
    else
      var n := old(gl.nextBuffer);
      s.positionBuffer == Some(n) && s.uvBuffer == Some(n + 1) && s.normalBuffer == Some(n + 2) &&
      gl.nextBuffer == n + 3 && gl.log == old(gl.log) + CubeUploadEvents(n)
  }

  /** One box drawable (an instance of class Cube). */
  class Cube {
    var textureNum: int

    /** new Cube(): texture selector -2 (flat colour), then the one-time
        geometry initialisation. */
    constructor (statics: CubeStatics, gl: Context)
      modifies statics, gl
      ensures textureNum == -2
      ensures CubeInitialized(statics, gl)
    {
      textureNum := -2;
      new;
      statics.InitCubeGeometry(gl);
    }

    /** drawCube: bind the three shared buffers, select the texture, draw the
        36-vertex triangle list starting at 0. */
    method DrawCube(statics: CubeStatics, gl: Context)
      modifies gl`log, gl`material
      ensures gl.material == old(gl.material).(whichTexture := textureNum)
      ensures gl.log == old(gl.log) + CubeDrawEvents(statics.positionBuffer, statics.uvBuffer,
                                                     statics.normalBuffer, textureNum, gl.frame, gl.material)
    {
      gl.VertexAttribute(Position, statics.positionBuffer, 3);
      gl.VertexAttribute(UV, statics.uvBuffer, 2);
      gl.VertexAttribute(Normal, statics.normalBuffer, 3);
      gl.SetWhichTexture(textureNum);
      gl.DrawArrays(Triangles, 0, CubeDrawCount);
    }
  }

  /** The events of one drawCube call. */
  function CubeDrawEvents(position: Option<nat>, uv: Option<nat>, normal: Option<nat>, textureNum: int,
                          frame: Shading.FrameUniforms, material: Shading.MaterialUniforms): seq<Event> {
    [AttributeBound(Position, position, 3), AttributeBound(UV, uv, 2), AttributeBound(Normal, normal, 3),
     WhichTextureSet(textureNum), Drawn(Triangles, 0, CubeDrawCount, frame, material)]
  }
}
