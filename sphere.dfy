/** The UV-sphere primitive (sphere.js): latCount bands, each a triangle strip
    of (longCount + 1) * 2 interleaved vertices, built once per process behind
    a guard on Sphere.positionBuffer, and drawn band by band. */
module SphereGeometry {
  import opened Maths
  import opened Results
  import opened Gl

  /** One emitted vertex: the position pushed, the normal pushed, the UV pushed. */
  datatype Vertex = Vertex(position: Vec3, normal: Vec3, uv: (real, real))

  /** phi = pi * k / latCount, the polar angle of ring k. */
  function PolarAngle(k: nat, latCount: nat): real
    requires latCount > 0
  {
    Pi * (k as real) / (latCount as real)
  }

  /** theta = 2 * pi * j / longCount, the longitude of step j. */
  function Azimuth(j: nat, longCount: nat): real
    requires longCount > 0
  {
    2.0 * Pi * (j as real) / (longCount as real)
  }

  /** The unit-sphere point at polar angle phi and longitude theta:
      (sin phi cos theta, cos phi, sin phi sin theta). */
  function SpherePoint(trig: Trig, phi: real, theta: real): Vec3 {
    Vec3(trig.sin(phi) * trig.cos(theta), trig.cos(phi), trig.sin(phi) * trig.sin(theta))
  }

  /** The vertex at polar step k (angle pi*k/latCount) and longitude step j
      (angle 2*pi*j/longCount): the unit-sphere point is the normal, the
      position is that point scaled by the radius, and the UV is
      (j/longCount, k/latCount). */
  function RingVertex(trig: Trig, radius: real, latCount: nat, longCount: nat, k: nat, j: nat): Vertex
    requires latCount > 0 && longCount > 0
  {
    var p := SpherePoint(trig, PolarAngle(k, latCount), Azimuth(j, longCount));
    Vertex(Vec3(radius * p.x, radius * p.y, radius * p.z), p,
           ((j as real) / (longCount as real), (k as real) / (latCount as real)))
  }

  /** The vertices band i emits in its first n longitude steps: at step j the
      vertex on ring i, then the vertex on ring i + 1. */
  function BandPrefix(trig: Trig, radius: real, latCount: nat, longCount: nat, i: nat, n: nat): (r: seq<Vertex>)
    requires latCount > 0 && longCount > 0
    ensures |r| == 2 * n
  {
    if n == 0 then []
    else BandPrefix(trig, radius, latCount, longCount, i, n - 1)
         + [RingVertex(trig, radius, latCount, longCount, i, n - 1),
            RingVertex(trig, radius, latCount, longCount, i + 1, n - 1)]
  }

  /** The vertices of the first m bands, in emission order. */
  function SphereMesh(trig: Trig, radius: real, latCount: nat, longCount: nat, m: nat): seq<Vertex>
    requires m <= latCount && longCount > 0
  {
    if m == 0 then []
    else SphereMesh(trig, radius, latCount, longCount, m - 1)
         + BandPrefix(trig, radius, latCount, longCount, m - 1, longCount + 1)
  }

  /** The first m bands, for any counts initSphereGeometry can build from:
      none at all when latCount is 0. */
  ghost function Bands(trig: Trig, radius: real, latCount: nat, longCount: nat, m: nat): seq<Vertex>
    requires m <= latCount && (longCount > 0 || latCount == 0)
  {
    if latCount == 0 then [] else SphereMesh(trig, radius, latCount, longCount, m)
  }

  /** Band i extends the first i bands. */
  lemma BandsStep(trig: Trig, radius: real, latCount: nat, longCount: nat, i: nat)
    requires i < latCount && longCount > 0
    ensures Bands(trig, radius, latCount, longCount, i + 1) ==
            Bands(trig, radius, latCount, longCount, i) + BandPrefix(trig, radius, latCount, longCount, i, longCount + 1)
  {
  }

  /** The whole mesh initSphereGeometry builds (empty when latCount is 0,
      whatever longCount is, since the outer loop never runs). */
  function Mesh(trig: Trig, radius: real, latCount: nat, longCount: nat): seq<Vertex>
    requires longCount > 0 || latCount == 0
  {
    if latCount == 0 then [] else SphereMesh(trig, radius, latCount, longCount, latCount)
  }

  function PositionsOf(vs: seq<Vertex>): (r: seq<Vec3>)
    ensures |r| == |vs|
  {
    if vs == [] then [] else PositionsOf(vs[..|vs| - 1]) + [vs[|vs| - 1].position]
  }

  function NormalsOf(vs: seq<Vertex>): (r: seq<Vec3>)
    ensures |r| == |vs|
  {
    if vs == [] then [] else NormalsOf(vs[..|vs| - 1]) + [vs[|vs| - 1].normal]
  }

  function UVsOf(vs: seq<Vertex>): (r: seq<(real, real)>)
    ensures |r| == |vs|
  {
    if vs == [] then [] else UVsOf(vs[..|vs| - 1]) + [vs[|vs| - 1].uv]
  }

  /** The Float32Arrays uploaded for a vertex sequence. */
  function PositionData(vs: seq<Vertex>): seq<real> { Flatten3(PositionsOf(vs)) }
  function NormalData(vs: seq<Vertex>): seq<real> { Flatten3(NormalsOf(vs)) }
  function UVData(vs: seq<Vertex>): seq<real> { Flatten2(UVsOf(vs)) }

  /** Pushing one vertex pushes its floats onto the three arrays. */
  lemma PushVertex(vs: seq<Vertex>, v: Vertex)
    ensures PositionData(vs + [v]) == PositionData(vs) + [v.position.x, v.position.y, v.position.z]
    ensures NormalData(vs + [v]) == NormalData(vs) + [v.normal.x, v.normal.y, v.normal.z]
    ensures UVData(vs + [v]) == UVData(vs) + [v.uv.0, v.uv.1]
  {
    assert (vs + [v])[..|vs|] == vs;
    Flatten3Push(PositionsOf(vs), v.position);
    Flatten3Push(NormalsOf(vs), v.normal);
    Flatten2Push(UVsOf(vs), v.uv);
  }

  /** Attribute k of the per-vertex views is vertex k's. */
  lemma {:induction false} OfAt(vs: seq<Vertex>, k: nat)
    requires k < |vs|
    ensures PositionsOf(vs)[k] == vs[k].position
    ensures NormalsOf(vs)[k] == vs[k].normal
    ensures UVsOf(vs)[k] == vs[k].uv
  {
    if k < |vs| - 1 {
      OfAt(vs[..|vs| - 1], k);
    }
  }

  // ---------------------------------------------------------------------
  // Properties of the mesh
  // ---------------------------------------------------------------------

  /** m bands hold m * (longCount + 1) * 2 vertices. */
  lemma {:induction false} MeshSize(trig: Trig, radius: real, latCount: nat, longCount: nat, m: nat)
    requires m <= latCount && longCount > 0
    ensures |SphereMesh(trig, radius, latCount, longCount, m)| == m * ((longCount + 1) * 2)
  {
    if m > 0 {
      MeshSize(trig, radius, latCount, longCount, m - 1);
      MulFacts(m - 1, m - 1, (longCount + 1) * 2);
    }
  }

  /** Within a band, step j's two vertices sit at offsets 2j and 2j + 1. */
  lemma {:induction false} BandPrefixAt(trig: Trig, radius: real, latCount: nat, longCount: nat, i: nat, n: nat, j: nat)
    requires latCount > 0 && longCount > 0 && j < n
    ensures BandPrefix(trig, radius, latCount, longCount, i, n)[2 * j] == RingVertex(trig, radius, latCount, longCount, i, j)
    ensures BandPrefix(trig, radius, latCount, longCount, i, n)[2 * j + 1] == RingVertex(trig, radius, latCount, longCount, i + 1, j)
  {
    if j < n - 1 {
      BandPrefixAt(trig, radius, latCount, longCount, i, n - 1, j);
    }
  }

  /** Where step j of band i starts in the mesh: after i bands of
      (longCount + 1) * 2 vertices, two vertices per step. */
  function MeshIndex(longCount: nat, i: nat, j: nat): nat {
    i * ((longCount + 1) * 2) + 2 * j
  }

  /** The vertex at index i*(longCount+1)*2 + 2j is on ring i with UV
      (j/longCount, i/latCount); the next one is on ring i + 1 with UV
      (j/longCount, (i+1)/latCount). */
  lemma {:induction false} MeshVertexAt(trig: Trig, radius: real, latCount: nat, longCount: nat, m: nat, i: nat, j: nat)
    requires m <= latCount && longCount > 0 && i < m && j <= longCount
    ensures var mesh := SphereMesh(trig, radius, latCount, longCount, m);
      var k := MeshIndex(longCount, i, j);
      k + 1 < |mesh| &&
      mesh[k] == RingVertex(trig, radius, latCount, longCount, i, j) &&
      mesh[k + 1] == RingVertex(trig, radius, latCount, longCount, i + 1, j) &&
      mesh[k].uv == ((j as real) / (longCount as real), (i as real) / (latCount as real)) &&
      mesh[k + 1].uv == ((j as real) / (longCount as real), ((i + 1) as real) / (latCount as real))
  {
    var w := (longCount + 1) * 2;
    var prev := SphereMesh(trig, radius, latCount, longCount, m - 1);
    var band := BandPrefix(trig, radius, latCount, longCount, m - 1, longCount + 1);
    var mesh := SphereMesh(trig, radius, latCount, longCount, m);
    var k := MeshIndex(longCount, i, j);
    assert mesh == prev + band;
    MeshSize(trig, radius, latCount, longCount, m - 1);
    assert |prev| == (m - 1) * w;
    if i < m - 1 {
      MeshVertexAt(trig, radius, latCount, longCount, m - 1, i, j);
      assert k + 1 < |prev| by {
        MulFacts(i, m - 2, w);
      }
      assert mesh[k] == prev[k] && mesh[k + 1] == prev[k + 1];
    } else {
      assert k == |prev| + 2 * j;
      BandPrefixAt(trig, radius, latCount, longCount, i, longCount + 1, j);
      assert mesh[k] == band[2 * j] && mesh[k + 1] == band[2 * j + 1];
    }
  }

  /** A vertex whose UV lies in the unit square and whose position is the
      radius times its normal. */
  predicate WellFormed(radius: real, v: Vertex) {
    0.0 <= v.uv.0 <= 1.0 && 0.0 <= v.uv.1 <= 1.0 && v.position == Scale(v.normal, radius)
  }

  lemma RingVertexWellFormed(trig: Trig, radius: real, latCount: nat, longCount: nat, k: nat, j: nat)
    requires latCount > 0 && longCount > 0 && k <= latCount && j <= longCount
    ensures WellFormed(radius, RingVertex(trig, radius, latCount, longCount, k, j))
  {
    assert (j as real) / (longCount as real) <= 1.0;
    assert (k as real) / (latCount as real) <= 1.0;
  }

  lemma {:induction false} BandWellFormed(trig: Trig, radius: real, latCount: nat, longCount: nat, i: nat, n: nat)
    requires latCount > 0 && longCount > 0 && i < latCount && n <= longCount + 1
    ensures forall v :: v in BandPrefix(trig, radius, latCount, longCount, i, n) ==> WellFormed(radius, v)
  {
    if n > 0 {
      BandWellFormed(trig, radius, latCount, longCount, i, n - 1);
      RingVertexWellFormed(trig, radius, latCount, longCount, i, n - 1);
      RingVertexWellFormed(trig, radius, latCount, longCount, i + 1, n - 1);
    }
  }

  /** Every UV component of the mesh lies in [0, 1], and every position triple
      is exactly radius times its normal triple. */
  lemma {:induction false} MeshWellFormed(trig: Trig, radius: real, latCount: nat, longCount: nat, m: nat)
    requires m <= latCount && longCount > 0
    ensures forall v :: v in SphereMesh(trig, radius, latCount, longCount, m) ==> WellFormed(radius, v)
  {
    if m > 0 {
      MeshWellFormed(trig, radius, latCount, longCount, m - 1);
      BandWellFormed(trig, radius, latCount, longCount, m - 1, longCount + 1);
    }
  }

  /** Vertex k's three position floats are radius times its three normal floats. */
  lemma VertexFloatsScaled(vs: seq<Vertex>, radius: real, k: nat)
    requires forall v :: v in vs ==> WellFormed(radius, v)
    requires k < |vs|
    ensures PositionData(vs)[3 * k] == NormalData(vs)[3 * k] * radius
    ensures PositionData(vs)[3 * k + 1] == NormalData(vs)[3 * k + 1] * radius
    ensures PositionData(vs)[3 * k + 2] == NormalData(vs)[3 * k + 2] * radius
  {
    assert WellFormed(radius, vs[k]);
    OfAt(vs, k);
    Flatten3At(PositionsOf(vs), k);
    Flatten3At(NormalsOf(vs), k);
  }

  /** Float c of the position array is radius times float c of the normal array. */
  lemma PositionFloatScaled(vs: seq<Vertex>, radius: real, c: nat)
    requires forall v :: v in vs ==> WellFormed(radius, v)
    requires c < 3 * |vs|
    ensures PositionData(vs)[c] == NormalData(vs)[c] * radius
  {
    var k := c / 3;
    VertexFloatsScaled(vs, radius, k);
    assert c == 3 * k || c == 3 * k + 1 || c == 3 * k + 2;
  }

  /** Float c of the UV array lies in [0, 1]. */
  lemma {:induction false} UVFloatInUnitRange(vs: seq<Vertex>, radius: real, c: nat)
    requires forall v :: v in vs ==> WellFormed(radius, v)
    requires c < 2 * |vs|
    ensures 0.0 <= UVData(vs)[c] <= 1.0
  {
    var k := c / 2;
    assert vs[k] in vs;
    OfAt(vs, k);
    Flatten2At(UVsOf(vs), k);
    assert c == 2 * k || c == 2 * k + 1;
  }

  /** The same facts about the uploaded float arrays: each position float is
      radius times the matching normal float and each UV float is in [0, 1]. */
  lemma MeshDataWellFormed(trig: Trig, radius: real, latCount: nat, longCount: nat)
    requires longCount > 0 || latCount == 0
    ensures var mesh := Mesh(trig, radius, latCount, longCount);
      |PositionData(mesh)| == |NormalData(mesh)| == 3 * |mesh| && |UVData(mesh)| == 2 * |mesh| &&
      (forall c :: 0 <= c < |PositionData(mesh)| ==> PositionData(mesh)[c] == NormalData(mesh)[c] * radius) &&
      (forall c :: 0 <= c < |UVData(mesh)| ==> 0.0 <= UVData(mesh)[c] <= 1.0)
  {
    var mesh := Mesh(trig, radius, latCount, longCount);
    if latCount > 0 {
      MeshWellFormed(trig, radius, latCount, longCount, latCount);
    }
    forall c | 0 <= c < |PositionData(mesh)|
      ensures PositionData(mesh)[c] == NormalData(mesh)[c] * radius
    {
      PositionFloatScaled(mesh, radius, c);
    }
    forall c | 0 <= c < |UVData(mesh)|
      ensures 0.0 <= UVData(mesh)[c] <= 1.0
    {
      UVFloatInUnitRange(mesh, radius, c);
    }
  }

  // ---------------------------------------------------------------------
  // Strips
  // ---------------------------------------------------------------------

  /** The draw calls of the first n strips of vertsPerStrip vertices each. */
  function StripDraws(n: nat, vertsPerStrip: int, frame: Shading.FrameUniforms, material: Shading.MaterialUniforms): (r: seq<Event>)
    ensures |r| == n
  {
    if n == 0 then []
    else StripDraws(n - 1, vertsPerStrip, frame, material)
         + [Drawn(TriangleStrip, (n - 1) * vertsPerStrip, vertsPerStrip, frame, material)]
  }

  /** Draw i of the strips starts at i * vertsPerStrip and draws vertsPerStrip vertices. */
  lemma {:induction false} StripDrawAt(n: nat, vertsPerStrip: int, frame: Shading.FrameUniforms, material: Shading.MaterialUniforms, i: nat)
    requires i < n
    ensures StripDraws(n, vertsPerStrip, frame, material)[i] ==
            Drawn(TriangleStrip, i * vertsPerStrip, vertsPerStrip, frame, material)
  {
    if i < n - 1 {
      StripDrawAt(n - 1, vertsPerStrip, frame, material, i);
    }
  }

  /** The vertices draw event e covers. */
  predicate Covers(e: Event, v: int) {
    e.Drawn? && e.first <= v < e.first + e.count
  }

  /** Products with a fixed non-negative factor are monotone, and one more
      strip is w more vertices. */
  lemma MulFacts(a: int, b: int, w: nat)
    requires a <= b
    ensures a * w <= b * w
    ensures (a + 1) * w == a * w + w
  {
  }

  /** Euclidean division by a positive strip width. */
  lemma DivBounds(v: nat, w: nat)
    requires w > 0
    ensures (v / w) * w <= v < (v / w) * w + w
  {
  }

  /** Each of n strips of w vertices lies inside [0, n * w). */
  lemma StripsInBounds(n: nat, w: nat, total: int, frame: Shading.FrameUniforms, material: Shading.MaterialUniforms)
    requires total == n * w
    ensures var draws := StripDraws(n, w, frame, material);
      forall i :: 0 <= i < n ==> draws[i].Drawn? && 0 <= draws[i].first && draws[i].first + draws[i].count <= total
  {
    var draws := StripDraws(n, w, frame, material);
    forall i | 0 <= i < n
      ensures draws[i].Drawn? && 0 <= draws[i].first && draws[i].first + draws[i].count <= total
    {
      StripDrawAt(n, w, frame, material, i);
      MulFacts(i, n - 1, w);
      MulFacts(n - 1, n, w);
      MulFacts(0, i, w);
    }
  }

  /** No vertex is covered by two different strips. */
  lemma StripsDisjoint(n: nat, w: nat, frame: Shading.FrameUniforms, material: Shading.MaterialUniforms)
    ensures var draws := StripDraws(n, w, frame, material);
      forall i, i', v :: 0 <= i < i' < n && Covers(draws[i], v) ==> !Covers(draws[i'], v)
  {
    var draws := StripDraws(n, w, frame, material);
    forall i, i', v | 0 <= i < i' < n && Covers(draws[i], v)
      ensures !Covers(draws[i'], v)
    {
      StripDrawAt(n, w, frame, material, i);
      StripDrawAt(n, w, frame, material, i');
      MulFacts(i, i' - 1, w);
      MulFacts(i' - 1, i', w);
    }
  }

  /** Every vertex index below n * w is covered by strip v / w. */
  lemma StripsCover(n: nat, w: nat, total: int, frame: Shading.FrameUniforms, material: Shading.MaterialUniforms)
    requires total == n * w
    requires w > 0
    ensures var draws := StripDraws(n, w, frame, material);
      forall v :: 0 <= v < total ==> v / w < n && Covers(draws[v / w], v)
  {
    var draws := StripDraws(n, w, frame, material);
    forall v | 0 <= v < total
      ensures v / w < n && Covers(draws[v / w], v)
    {
      var q := v / w;
      DivBounds(v, w);
      if q >= n {
        MulFacts(n, q, w);
        assert false;
      }
      StripDrawAt(n, w, frame, material, q);
    }
  }

  /** latSegments strips of w = (longSegments + 1) * 2 vertices over a buffer
      of numVertices = latSegments * w vertices (the cached count whenever the
      instance's segment counts are the cached mesh's): the strips stay inside
      the buffer, are pairwise disjoint, and every vertex index in
      [0, numVertices) is drawn by the strip v / w. */
  lemma StripsPartitionMesh(latSegments: nat, w: nat, numVertices: int,
                            frame: Shading.FrameUniforms, material: Shading.MaterialUniforms)
    requires w > 0 && numVertices == latSegments * w
    ensures var draws := StripDraws(latSegments, w, frame, material);
      (forall i :: 0 <= i < latSegments ==> draws[i].Drawn? && 0 <= draws[i].first && draws[i].first + draws[i].count <= numVertices) &&
      (forall i, i', v :: 0 <= i < i' < latSegments && Covers(draws[i], v) ==> !Covers(draws[i'], v)) &&
      (forall v :: 0 <= v < numVertices ==> v / w < latSegments && Covers(draws[v / w], v))
  {
    StripsInBounds(latSegments, w, numVertices, frame, material);
    StripsDisjoint(latSegments, w, frame, material);
    StripsCover(latSegments, w, numVertices, frame, material);
  }

  // ---------------------------------------------------------------------
  // The shared buffers (the static fields of class Sphere) and the instances
  // ---------------------------------------------------------------------

  /** What initSphereGeometry appends to the log when it builds the buffers. */
  function SphereUploadEvents(n: nat, positions: seq<real>, normals: seq<real>, uvs: seq<real>): seq<Event> {
    [Created(n), Uploaded(n, positions),
     Created(n + 1), Uploaded(n + 1, normals),
     Created(n + 2), Uploaded(n + 2, uvs)]
  }

  /** One pass of the inner loop of initSphereGeometry: for each longitude
      step j <= longCount of band i, push the vertex on ring i (polar angle
      phi0) and then the one on ring i + 1 (phi1) onto the three arrays. */
  method PushBand(trig: Trig, radius: real, latCount: nat, longCount: nat, i: nat,
                  positions0: seq<real>, normals0: seq<real>, uvs0: seq<real>, ghost done: seq<Vertex>)
    returns (positions: seq<real>, normals: seq<real>, uvs: seq<real>)
    requires i < latCount && longCount > 0
    requires positions0 == PositionData(done) && normals0 == NormalData(done) && uvs0 == UVData(done)
    ensures var band := done + BandPrefix(trig, radius, latCount, longCount, i, longCount + 1);
      positions == PositionData(band) && normals == NormalData(band) && uvs == UVData(band)
  {
    positions, normals, uvs := positions0, normals0, uvs0;
    ghost var cur := done;

    for j := 0 to longCount + 1
      invariant cur == done + BandPrefix(trig, radius, latCount, longCount, i, j)
      invariant positions == PositionData(cur) && normals == NormalData(cur) && uvs == UVData(cur)
    {
      var a := RingVertex(trig, radius, latCount, longCount, i, j);
      positions := positions + [a.position.x, a.position.y, a.position.z];
      normals := normals + [a.normal.x, a.normal.y, a.normal.z];
      uvs := uvs + [a.uv.0, a.uv.1];
      PushVertex(cur, a);
      cur := cur + [a];

      var b := RingVertex(trig, radius, latCount, longCount, i + 1, j);
      positions := positions + [b.position.x, b.position.y, b.position.z];
      normals := normals + [b.normal.x, b.normal.y, b.normal.z];
      uvs := uvs + [b.uv.0, b.uv.1];
      PushVertex(cur, b);
      cur := cur + [b];
      BandPrefixStep(trig, radius, latCount, longCount, i, j, done);
    }
  }

  /** One longitude step extends the emitted prefix by its two vertices. */
  lemma BandPrefixStep(trig: Trig, radius: real, latCount: nat, longCount: nat, i: nat, j: nat, done: seq<Vertex>)
    requires latCount > 0 && longCount > 0
    ensures done + BandPrefix(trig, radius, latCount, longCount, i, j + 1) ==
            done + BandPrefix(trig, radius, latCount, longCount, i, j)
            + [RingVertex(trig, radius, latCount, longCount, i, j)]
            + [RingVertex(trig, radius, latCount, longCount, i + 1, j)]
  {
  }

  /** The vertex arrays initSphereGeometry builds: the outer loop over the
      latCount bands, each pass running the inner loop of PushBand. */
  method BuildSphereArrays(trig: Trig, radius: real, latCount: nat, longCount: nat)
    returns (positions: seq<real>, normals: seq<real>, uvs: seq<real>)
    requires longCount > 0 || latCount == 0
    ensures positions == PositionData(Mesh(trig, radius, latCount, longCount))
    ensures normals == NormalData(Mesh(trig, radius, latCount, longCount))
    ensures uvs == UVData(Mesh(trig, radius, latCount, longCount))
  {
    positions, normals, uvs := [], [], [];
    for i := 0 to latCount
      invariant positions == PositionData(Bands(trig, radius, latCount, longCount, i))
      invariant normals == NormalData(Bands(trig, radius, latCount, longCount, i))
      invariant uvs == UVData(Bands(trig, radius, latCount, longCount, i))
    {
      BandsStep(trig, radius, latCount, longCount, i);
      positions, normals, uvs := PushBand(trig, radius, latCount, longCount, i, positions, normals, uvs,
                                          Bands(trig, radius, latCount, longCount, i));
    }
  }

  /** The static fields Sphere.vertPositions/vertNormals/vertUVs, the three
      buffers and Sphere.numVertices. */
  class SphereStatics {
    var positionBuffer: Option<nat>
    var normalBuffer: Option<nat>
    var uvBuffer: Option<nat>
    var vertPositions: seq<real>
    var vertNormals: seq<real>
    var vertUVs: seq<real>
    var numVertices: int

    constructor ()
      ensures positionBuffer == None && normalBuffer == None && uvBuffer == None
      ensures vertPositions == [] && vertNormals == [] && vertUVs == [] && numVertices == 0
    {
      positionBuffer, normalBuffer, uvBuffer := None, None, None;
      vertPositions, vertNormals, vertUVs, numVertices := [], [], [], 0;
    }

    /** Sphere.initSphereGeometry: returns at once if positionBuffer is set;
        otherwise runs the two nested loops pushing two vertices per (i, j),
        uploads the three arrays and records the vertex count. */
    method InitSphereGeometry(gl: Context, trig: Trig, radius: real, latCount: nat, longCount: nat)
      requires positionBuffer.Some? || longCount > 0 || latCount == 0
      modifies this, gl
      ensures SphereInitialized(this, gl, trig, radius, latCount, longCount)
    {
      if positionBuffer.Some? {
        return;
      }
      var positions, normals, uvs := BuildSphereArrays(trig, radius, latCount, longCount);
      StoreAndUpload(gl, positions, normals, uvs);
      numVertices := (longCount + 1) * 2 * latCount;
    }

    /** The second half of initSphereGeometry: keep the three arrays, then
        create a buffer for each in turn and upload the array into it. */
    method StoreAndUpload(gl: Context, positions: seq<real>, normals: seq<real>, uvs: seq<real>)
      modifies this`vertPositions, this`vertNormals, this`vertUVs,
               this`positionBuffer, this`normalBuffer, this`uvBuffer, gl
      ensures vertPositions == positions && vertNormals == normals && vertUVs == uvs
      ensures positionBuffer == Some(old(gl.nextBuffer)) && normalBuffer == Some(old(gl.nextBuffer) + 1) &&
              uvBuffer == Some(old(gl.nextBuffer) + 2) && gl.nextBuffer == old(gl.nextBuffer) + 3
      ensures gl.log == old(gl.log) + SphereUploadEvents(old(gl.nextBuffer), positions, normals, uvs)
      ensures gl.frame == old(gl.frame) && gl.material == old(gl.material)
    {
      vertPositions, vertNormals, vertUVs := positions, normals, uvs;

      var id := gl.CreateBuffer();
      positionBuffer := Some(id);
      gl.BufferData(id, vertPositions);

      id := gl.CreateBuffer();
      normalBuffer := Some(id);
      gl.BufferData(id, vertNormals);

      id := gl.CreateBuffer();
      uvBuffer := Some(id);
      gl.BufferData(id, vertUVs);
    }
  }

  /** The effect of one initSphereGeometry(radius, latCount, longCount) call:
      if positionBuffer was already set nothing changes (the first call's
      geometry wins); otherwise the three arrays hold the mesh for these
      parameters, three fresh buffers receive them, and numVertices is
      (longCount + 1) * 2 * latCount. No uniform is touched. */
  twostate predicate SphereInitialized(s: SphereStatics, gl: Context, trig: Trig, radius: real, latCount: nat, longCount: nat)
    reads s, gl
  {
    gl.frame == old(gl.frame) && gl.material == old(gl.material) &&
    if old(s.positionBuffer).Some? then
      s.positionBuffer == old(s.positionBuffer) && s.normalBuffer == old(s.normalBuffer) &&
      s.uvBuffer == old(s.uvBuffer) && s.vertPositions == old(s.vertPositions) &&
      s.vertNormals == old(s.vertNormals) && s.vertUVs == old(s.vertUVs) &&
      s.numVertices == old(s.numVertices) &&
      gl.nextBuffer == old(gl.nextBuffer) && gl.log == old(gl.log)
    else
      (longCount > 0 || latCount == 0) &&
      var mesh := Mesh(trig, radius, latCount, longCount);
      var n := old(gl.nextBuffer);
      s.vertPositions == PositionData(mesh) && s.vertNormals == NormalData(mesh) &&
      s.vertUVs == UVData(mesh) &&
      s.numVertices == (longCount + 1) * 2 * latCount &&
      s.positionBuffer == Some(n) && s.normalBuffer == Some(n + 1) && s.uvBuffer == Some(n + 2) &&
      gl.nextBuffer == n + 3 &&
      gl.log == old(gl.log) + SphereUploadEvents(n, s.vertPositions, s.vertNormals, s.vertUVs)
  }

  /** After a building call, the arrays hold 3, 3 and 2 floats per vertex of
      numVertices vertices. */
  lemma BuiltSizes(trig: Trig, radius: real, latCount: nat, longCount: nat)
    requires longCount > 0 || latCount == 0
    ensures var mesh := Mesh(trig, radius, latCount, longCount);
      |mesh| == (longCount + 1) * 2 * latCount &&
      |PositionData(mesh)| == 3 * ((longCount + 1) * 2 * latCount) &&
      |NormalData(mesh)| == 3 * ((longCount + 1) * 2 * latCount) &&
      |UVData(mesh)| == 2 * ((longCount + 1) * 2 * latCount)
  {
    if latCount > 0 {
      MeshSize(trig, radius, latCount, longCount, latCount);
    }
  }

  /** The events of one drawSphere call that does not throw. */
  function SphereDrawEvents(s: SphereStatics, textureNum: int, baseColor: Option<Color4>,
                            latSegments: nat, longSegments: nat,
                            frame: Shading.FrameUniforms, material: Shading.MaterialUniforms): seq<Event>
    reads s
  {
    [AttributeBound(Position, s.positionBuffer, 3), AttributeBound(Normal, s.normalBuffer, 3),
     AttributeBound(UV, s.uvBuffer, 2), WhichTextureSet(textureNum)]
    + (if textureNum == -2 && baseColor.Some? then [FragColorSet(baseColor.value)] else [])
    + StripDraws(latSegments, (longSegments + 1) * 2, frame, material)
  }

  /** A stand-in for the text of the TypeError that drawSphere raises when it
      reads baseColor[0] of an undefined baseColor: the error is a TypeError,
      but its message depends on the JavaScript engine. */
  const UndefinedBaseColor: string := "TypeError: baseColor is undefined"

  /** One sphere drawable (an instance of class Sphere). */
  class Sphere {
    var radius: real
    var latSegments: nat
    var longSegments: nat
    var textureNum: int
    var baseColor: Option<Color4>   // set by the renderer; undefined after construction

    /** new Sphere({radius, latSegments, longSegments}) with the defaults
        1.0, 20, 20: selector -2, then initSphereGeometry with exactly these
        parameters. */
    constructor (statics: SphereStatics, gl: Context, trig: Trig,
                 radius: real := 1.0, latSegments: nat := 20, longSegments: nat := 20)
      requires statics.positionBuffer.Some? || longSegments > 0 || latSegments == 0
      modifies statics, gl
      ensures this.radius == radius && this.latSegments == latSegments && this.longSegments == longSegments
      ensures textureNum == -2 && baseColor == None
      ensures SphereInitialized(statics, gl, trig, radius, latSegments, longSegments)
    {
      this.radius := radius;
      this.latSegments := latSegments;
      this.longSegments := longSegments;
      textureNum := -2;
      baseColor := None;
      new;
      statics.InitSphereGeometry(gl, trig, radius, latSegments, longSegments);
    }

    /** drawSphere: bind the shared buffers, select the texture, upload the
        flat colour only when the selector is -2 (reading baseColor, which
        throws when it was never set), then draw latSegments triangle strips. */
    method DrawSphere(statics: SphereStatics, gl: Context) returns (outcome: Outcome)
      modifies gl`log, gl`material
      ensures outcome == if textureNum == -2 && baseColor.None? then Thrown(UndefinedBaseColor) else Done
      ensures gl.material == old(gl.material).(
                whichTexture := textureNum,
                fragColor := if textureNum == -2 && baseColor.Some? then baseColor.value else old(gl.material).fragColor)
      ensures outcome.Done? ==>
                gl.log == old(gl.log) + SphereDrawEvents(statics, textureNum, baseColor, latSegments, longSegments, gl.frame, gl.material)
      ensures outcome.Thrown? ==>
                gl.log == old(gl.log) + [AttributeBound(Position, statics.positionBuffer, 3), AttributeBound(Normal, statics.normalBuffer, 3),
                                         AttributeBound(UV, statics.uvBuffer, 2), WhichTextureSet(textureNum)]
    {
      gl.VertexAttribute(Position, statics.positionBuffer, 3);
      gl.VertexAttribute(Normal, statics.normalBuffer, 3);
      gl.VertexAttribute(UV, statics.uvBuffer, 2);
      gl.SetWhichTexture(textureNum);

      if textureNum == -2 {
        if baseColor.None? {
          return Thrown(UndefinedBaseColor);
        }
        gl.SetFragColor(baseColor.value);
      }

      ghost var log0, material0 := gl.log, gl.material;
      var vertsPerStrip := (longSegments + 1) * 2;
      for i := 0 to latSegments
        invariant gl.material == material0
        invariant gl.log == log0 + StripDraws(i, vertsPerStrip, gl.frame, gl.material)
      {
        var start := i * vertsPerStrip;
        gl.DrawArrays(TriangleStrip, start, vertsPerStrip);
      }
      outcome := Done;
    }
  }
}
