/** The page-level state of asg4.js: the light and spotlight globals, the
    per-frame light animation (tick), the mouse-drag rotation, the toggles,
    the sliders, the key dispatch and renderAllShapes. The pure parts (the
    light path, the drag step, the key table) are functions with lemmas; the
    handlers are methods of class Scene proved against them. */
module SceneState {
  import opened Maths
  import opened Results
  import opened Shading
  import opened Gl
  import CubeGeometry
  import SphereGeometry
  import CameraAlgebra
  import Cameras

  // ---------------------------------------------------------------------
  // Light animation (tick)
  // ---------------------------------------------------------------------

  const Amplitude: real := 2.0
  const AngularRate: real := 0.5

  /** The light position tick computes from the slider base after t seconds:
      the slider position itself when the animation is off, otherwise the
      slider position moved by 2 sin(t/2) in y and 2 cos(t/2) in z. */
  function LightPosition(trig: Trig, slider: Vec3, moveOn: bool, t: real): (p: Vec3)
    ensures p.x == slider.x
    ensures !moveOn ==> p == slider
  {
    if moveOn then
      var angle := t * AngularRate;
      Vec3(slider.x, slider.y + Amplitude * trig.sin(angle), slider.z + Amplitude * trig.cos(angle))
    else slider
  }

  /** sin^2 + cos^2 = 1 at the given angle. */
  ghost predicate Pythagorean(trig: Trig, a: real) {
    trig.sin(a) * trig.sin(a) + trig.cos(a) * trig.cos(a) == 1.0
  }

  /** With the animation on, the light is at slider + (0, 2 sin(t/2), 2 cos(t/2)),
      so it circles the slider position in the plane x = slider.x at distance 2. */
  lemma LightOrbitsSlider(trig: Trig, slider: Vec3, t: real)
    requires Pythagorean(trig, t * AngularRate)
    ensures var p := LightPosition(trig, slider, true, t);
      p.x == slider.x &&
      p.y == slider.y + Amplitude * trig.sin(t * AngularRate) &&
      p.z == slider.z + Amplitude * trig.cos(t * AngularRate) &&
      (p.y - slider.y) * (p.y - slider.y) + (p.z - slider.z) * (p.z - slider.z) == Amplitude * Amplitude
  {
    var a := t * AngularRate;
    var s, c := trig.sin(a), trig.cos(a);
    var p := LightPosition(trig, slider, true, t);
    assert p.y - slider.y == Amplitude * s;
    assert p.z - slider.z == Amplitude * c;
    calc {
      (Amplitude * s) * (Amplitude * s) + (Amplitude * c) * (Amplitude * c);
      Amplitude * Amplitude * (s * s + c * c);
      Amplitude * Amplitude;
    }
  }

  // ---------------------------------------------------------------------
  // Mouse drag (initializeMouseDrag)
  // ---------------------------------------------------------------------

  const DragFactor: real := 0.3
  const PitchLimit: real := 90.0

  /** The canvas's bounding client rectangle. */
  datatype Rect = Rect(left: real, right: real, top: real, bottom: real)

  /** The drag handler's closure state and the two rotation globals it drives. */
  datatype Drag = Drag(dragging: bool, lastX: real, lastY: real, rotX: real, rotY: real)

  const InitialDrag: Drag := Drag(false, -1.0, -1.0, 0.0, 0.0)

  /** The half-open rectangle test of startDrag. */
  predicate InRect(rect: Rect, x: real, y: real) {
    rect.left <= x < rect.right && rect.top <= y < rect.bottom
  }

  /** max(min(x, 90), -90). */
  function ClampPitch(x: real): (r: real)
    ensures -PitchLimit <= r <= PitchLimit
    ensures -PitchLimit <= x <= PitchLimit ==> r == x
    ensures x > PitchLimit ==> r == PitchLimit
    ensures x < -PitchLimit ==> r == -PitchLimit
  {
    Max(Min(x, PitchLimit), -PitchLimit)
  }

  /** startDrag: a press inside the canvas starts a drag from that point;
      a press outside changes nothing. */
  function StartDrag(d: Drag, rect: Rect, x: real, y: real): (r: Drag)
    ensures r.dragging <==> d.dragging || InRect(rect, x, y)
    ensures r.rotX == d.rotX && r.rotY == d.rotY
    ensures InRect(rect, x, y) ==> r.lastX == x && r.lastY == y
    ensures !InRect(rect, x, y) ==> r == d
  {
    if InRect(rect, x, y) then d.(dragging := true, lastX := x, lastY := y) else d
  }

  /** moveDrag: while dragging, yaw falls by 0.3 dx, pitch by 0.3 dy and is
      clamped to [-90, 90], and the pointer is remembered. */
  function MoveDrag(d: Drag, x: real, y: real): Drag {
    if d.dragging then
      var dx := DragFactor * (x - d.lastX);
      var dy := DragFactor * (y - d.lastY);
      d.(rotY := d.rotY - dx, rotX := ClampPitch(d.rotX - dy), lastX := x, lastY := y)
    else d
  }

  /** endDrag (mouseup and mouseleave). */
  function EndDrag(d: Drag): (r: Drag)
    ensures !r.dragging
    ensures r.lastX == d.lastX && r.lastY == d.lastY && r.rotX == d.rotX && r.rotY == d.rotY
  {
    d.(dragging := false)
  }

  /** A run of mousemove events, in order. */
  function MoveDragAll(d: Drag, points: seq<(real, real)>): Drag
    decreases |points|
  {
    if points == [] then d
    else MoveDrag(MoveDragAll(d, points[..|points| - 1]), points[|points| - 1].0, points[|points| - 1].1)
  }

  /** One move: nothing happens unless dragging; otherwise yaw changes by
      exactly -0.3 dx, unclamped, and the new pitch is in [-90, 90]. */
  lemma MoveDragStep(d: Drag, x: real, y: real)
    ensures !d.dragging ==> MoveDrag(d, x, y) == d
    ensures d.dragging ==> var r := MoveDrag(d, x, y);
      r.dragging && r.rotY == d.rotY - DragFactor * (x - d.lastX) &&
      -PitchLimit <= r.rotX <= PitchLimit && r.lastX == x && r.lastY == y
  {
  }

  /** Over any run of moves within one drag, the yaw changes by -0.3 times
      the total horizontal travel: the per-move steps add up with no clamp. */
  lemma {:induction false} YawTelescopes(d: Drag, points: seq<(real, real)>)
    requires d.dragging && points != []
    ensures var r := MoveDragAll(d, points);
      r.dragging && r.lastX == points[|points| - 1].0 && r.lastY == points[|points| - 1].1 &&
      r.rotY == d.rotY - DragFactor * (points[|points| - 1].0 - d.lastX)
    decreases |points|
  {
    var init := points[..|points| - 1];
    if init != [] {
      YawTelescopes(d, init);
      assert init[|init| - 1] == points[|points| - 2];
    }
  }

  /** The pitch stays within [-90, 90] across any run of moves, dragging or
      not, once it starts there. */
  lemma {:induction false} PitchStaysClamped(d: Drag, points: seq<(real, real)>)
    requires -PitchLimit <= d.rotX <= PitchLimit
    ensures -PitchLimit <= MoveDragAll(d, points).rotX <= PitchLimit
    ensures MoveDragAll(d, points).dragging == d.dragging
    decreases |points|
  {
    if points != [] {
      PitchStaysClamped(d, points[..|points| - 1]);
    }
  }

  // ---------------------------------------------------------------------
  // Key dispatch (handleKeyPress)
  // ---------------------------------------------------------------------

  datatype Command =
    | MoveForward | MoveBackward | MoveLeft | MoveRight
    | PanLeft | PanRight | LookUp | LookDown
    | NoCommand

  /** The switch on ev.keyCode: W S A D Q E O P; every other code does nothing. */
  function CommandOf(keyCode: int): (r: Command)
    ensures r == NoCommand <==> keyCode !in {87, 83, 65, 68, 81, 69, 79, 80}
  {
    match keyCode
    case 87 => MoveForward
    case 83 => MoveBackward
    case 65 => MoveLeft
    case 68 => MoveRight
    case 81 => PanLeft
    case 69 => PanRight
    case 79 => LookUp
    case 80 => LookDown
    case _ => NoCommand
  }

  /** What a command does to the camera, each with its default argument. */
  function Apply(lib: CameraAlgebra.MatrixLib, c: CameraAlgebra.CameraState, cmd: Command): CameraAlgebra.CameraState {
    match cmd
    case MoveForward => CameraAlgebra.MoveForward(lib, c, CameraAlgebra.DefaultSpeed)
    case MoveBackward => CameraAlgebra.MoveBackward(lib, c, CameraAlgebra.DefaultSpeed)
    case MoveLeft => CameraAlgebra.MoveLeft(lib, c, CameraAlgebra.DefaultSpeed)
    case MoveRight => CameraAlgebra.MoveRight(lib, c, CameraAlgebra.DefaultSpeed)
    case PanLeft => CameraAlgebra.PanLeft(lib, c, CameraAlgebra.DefaultAlpha)
    case PanRight => CameraAlgebra.PanRight(lib, c, CameraAlgebra.DefaultAlpha)
    case LookUp => CameraAlgebra.LookUp(lib, c, CameraAlgebra.DefaultAlpha)
    case LookDown => CameraAlgebra.LookDown(lib, c, CameraAlgebra.DefaultAlpha)
    case NoCommand => c
  }

  /** The key on the other side of each pair: W/S, A/D, Q/E, O/P. */
  function Partner(cmd: Command): Command {
    match cmd
    case MoveForward => MoveBackward
    case MoveBackward => MoveForward
    case MoveLeft => MoveRight
    case MoveRight => MoveLeft
    case PanLeft => PanRight
    case PanRight => PanLeft
    case LookUp => LookDown
    case LookDown => LookUp
    case NoCommand => NoCommand
  }

  /** The matrix-library facts the round trips rest on. */
  ghost predicate LibLaws(lib: CameraAlgebra.MatrixLib) {
    CameraAlgebra.NormalizeOdd(lib) && CameraAlgebra.NormalizeKeepsNonZero(lib) &&
    CameraAlgebra.RotationInverse(lib) && CameraAlgebra.RotationPreservesCross(lib) &&
    CameraAlgebra.RotationFixesAxis(lib)
  }

  /** Pressing a key and then its partner key puts the camera back where it
      was, for a camera whose up vector is non-zero and not parallel to the view. */
  lemma PartnerKeyUndoes(lib: CameraAlgebra.MatrixLib, c: CameraAlgebra.CameraState, cmd: Command)
    requires LibLaws(lib)
    requires c.up != CameraAlgebra.Zero && Cross(CameraAlgebra.View(c), c.up) != CameraAlgebra.Zero
    ensures Apply(lib, Apply(lib, c, cmd), Partner(cmd)) == c
  {
    match cmd
    case MoveForward => CameraAlgebra.ForwardBackwardUndo(lib, c, CameraAlgebra.DefaultSpeed);
    case MoveBackward => CameraAlgebra.ForwardBackwardUndo(lib, c, CameraAlgebra.DefaultSpeed);
    case MoveLeft => CameraAlgebra.LeftRightUndo(lib, c, CameraAlgebra.DefaultSpeed);
    case MoveRight => CameraAlgebra.LeftRightUndo(lib, c, CameraAlgebra.DefaultSpeed);
    case PanLeft => CameraAlgebra.PanUndo(lib, c, CameraAlgebra.DefaultAlpha);
    case PanRight => CameraAlgebra.PanUndo(lib, c, CameraAlgebra.DefaultAlpha);
    case LookUp => CameraAlgebra.LookUndo(lib, c, CameraAlgebra.DefaultAlpha);
    case LookDown => CameraAlgebra.LookUndo(lib, c, CameraAlgebra.DefaultAlpha);
    case NoCommand =>
  }

  /** The eight keys come in four partner pairs. */
  lemma KeyPairs()
    ensures Partner(CommandOf(87)) == CommandOf(83) && Partner(CommandOf(83)) == CommandOf(87)
    ensures Partner(CommandOf(65)) == CommandOf(68) && Partner(CommandOf(68)) == CommandOf(65)
    ensures Partner(CommandOf(81)) == CommandOf(69) && Partner(CommandOf(69)) == CommandOf(81)
    ensures Partner(CommandOf(79)) == CommandOf(80) && Partner(CommandOf(80)) == CommandOf(79)
  {
  }

  // ---------------------------------------------------------------------
  // What renderAllShapes draws
  // ---------------------------------------------------------------------

  /** The draw calls of a log, in order. */
  function DrawsOf(log: seq<Event>): seq<Event>
    decreases |log|
  {
    if log == [] then []
    else
      var last := log[|log| - 1];
      DrawsOf(log[..|log| - 1]) + (if last.Drawn? then [last] else [])
  }

  lemma {:induction false} DrawsOfAppend(a: seq<Event>, b: seq<Event>)
    ensures DrawsOf(a + b) == DrawsOf(a) + DrawsOf(b)
    decreases |b|
  {
    if b == [] {
      assert a + b == a;
    } else {
      var init := b[..|b| - 1];
      assert (a + b)[..|a + b| - 1] == a + init;
      assert (a + b)[|a + b| - 1] == b[|b| - 1];
      DrawsOfAppend(a, init);
    }
  }

  /** A log with no draw call contributes no draws. */
  lemma {:induction false} DrawsOfNone(log: seq<Event>)
    requires forall i :: 0 <= i < |log| ==> !log[i].Drawn?
    ensures DrawsOf(log) == []
    decreases |log|
  {
    if log != [] {
      DrawsOfNone(log[..|log| - 1]);
    }
  }

  /** A log of draw calls only is its own list of draws. */
  lemma {:induction false} DrawsOfAll(log: seq<Event>)
    requires forall i :: 0 <= i < |log| ==> log[i].Drawn?
    ensures DrawsOf(log) == log
    decreases |log|
  {
    if log != [] {
      DrawsOfAll(log[..|log| - 1]);
    }
  }

  lemma StripDrawsOnlyDraw(n: nat, w: int, frame: FrameUniforms, material: MaterialUniforms)
    ensures DrawsOf(SphereGeometry.StripDraws(n, w, frame, material)) == SphereGeometry.StripDraws(n, w, frame, material)
  {
    var draws := SphereGeometry.StripDraws(n, w, frame, material);
    forall i | 0 <= i < |draws| ensures draws[i].Drawn? {
      SphereGeometry.StripDrawAt(n, w, frame, material, i);
    }
    DrawsOfAll(draws);
  }

  /** Building the box geometry draws nothing. */
  lemma CubeUploadsDrawNothing(log: seq<Event>, n: nat)
    ensures DrawsOf(log + CubeGeometry.CubeUploadEvents(n)) == DrawsOf(log)
  {
    DrawsOfNone(CubeGeometry.CubeUploadEvents(n));
    DrawsOfAppend(log, CubeGeometry.CubeUploadEvents(n));
  }

  /** One drawCube draws exactly one 36-vertex triangle list. */
  lemma CubeDrawDrawsOneBox(log: seq<Event>, position: Option<nat>, uv: Option<nat>, normal: Option<nat>,
                            textureNum: int, frame: FrameUniforms, material: MaterialUniforms)
    ensures DrawsOf(log + CubeGeometry.CubeDrawEvents(position, uv, normal, textureNum, frame, material)) ==
            DrawsOf(log) + [BoxDraw(frame, material)]
  {
    var events := CubeGeometry.CubeDrawEvents(position, uv, normal, textureNum, frame, material);
    var setup, draw := events[..4], events[4..];
    assert DrawsOf(setup) == [] by { DrawsOfNone(setup); }
    assert DrawsOf(draw) == [BoxDraw(frame, material)] by { DrawsOfAll(draw); }
    assert DrawsOf(events) == [BoxDraw(frame, material)] by {
      assert events == setup + draw;
      DrawsOfAppend(setup, draw);
    }
    DrawsOfAppend(log, events);
  }

  /** Building the sphere geometry draws nothing. */
  lemma SphereUploadsDrawNothing(log: seq<Event>, n: nat, positions: seq<real>, normals: seq<real>, uvs: seq<real>)
    ensures DrawsOf(log + SphereGeometry.SphereUploadEvents(n, positions, normals, uvs)) == DrawsOf(log)
  {
    DrawsOfNone(SphereGeometry.SphereUploadEvents(n, positions, normals, uvs));
    DrawsOfAppend(log, SphereGeometry.SphereUploadEvents(n, positions, normals, uvs));
  }

  /** A drawSphere that does not throw draws exactly its strips. */
  lemma SphereDrawDrawsStrips(log: seq<Event>, s: SphereGeometry.SphereStatics, textureNum: int, baseColor: Option<Color4>,
                              latSegments: nat, longSegments: nat, frame: FrameUniforms, material: MaterialUniforms)
    ensures DrawsOf(log + SphereGeometry.SphereDrawEvents(s, textureNum, baseColor, latSegments, longSegments, frame, material)) ==
            DrawsOf(log) + SphereGeometry.StripDraws(latSegments, (longSegments + 1) * 2, frame, material)
  {
    var events := SphereGeometry.SphereDrawEvents(s, textureNum, baseColor, latSegments, longSegments, frame, material);
    var strips := SphereGeometry.StripDraws(latSegments, (longSegments + 1) * 2, frame, material);
    var head := [AttributeBound(Position, s.positionBuffer, 3), AttributeBound(Normal, s.normalBuffer, 3),
                 AttributeBound(UV, s.uvBuffer, 2), WhichTextureSet(textureNum)]
                + (if textureNum == -2 && baseColor.Some? then [FragColorSet(baseColor.value)] else []);
    assert events == head + strips;
    assert DrawsOf(head + strips) == strips by {
      DrawsOfNone(head);
      StripDrawsOnlyDraw(latSegments, (longSegments + 1) * 2, frame, material);
      DrawsOfAppend(head, strips);
    }
    DrawsOfAppend(log, head + strips);
  }

  const GroundTexture: int := 2
  const SkyTexture: int := 1
  const FlatColorTexture: int := -2
  const BallColor: Color4 := Color4(1.0, 0.0, 0.0, 1.0)
  const BallRadius: real := 1.0
  const BallSegments: nat := 20
  const BallStripWidth: nat := (BallSegments + 1) * 2
  const BallVertices: nat := BallSegments * BallStripWidth

  function BoxDraw(frame: FrameUniforms, material: MaterialUniforms): Event {
    Drawn(Triangles, 0, CubeGeometry.CubeDrawCount, frame, material)
  }

  /** The draws of one renderAllShapes, in order: the ground box, the sky box,
      the ball's strips, the light-position marker box. fragColor0 is the
      u_FragColor left over from before the frame. */
  function SceneDraws(frame: FrameUniforms, fragColor0: Color4): seq<Event> {
    [BoxDraw(frame, MaterialUniforms(GroundTexture, fragColor0)),
     BoxDraw(frame, MaterialUniforms(SkyTexture, fragColor0))]
    + SphereGeometry.StripDraws(BallSegments, BallStripWidth, frame, MaterialUniforms(FlatColorTexture, BallColor))
    + [BoxDraw(frame, MaterialUniforms(FlatColorTexture, BallColor))]
  }

  /** A frame is 23 draws, all with the frame's uniforms (the ball's 20
      strips of 42 vertices tile its 840 vertices by
      SphereGeometry.StripsPartitionMesh). drawCube never
      sends a colour, so the light marker is drawn with selector -2 and
      the colour the ball left in u_FragColor: its base colour is the
      ball's red. */
  lemma SceneDrawsLayout(lib: ShaderLib, frame: FrameUniforms, fragColor0: Color4, v: Varyings)
    ensures var draws := SceneDraws(frame, fragColor0);
      |draws| == 23 &&
      (forall i :: 0 <= i < |draws| ==> draws[i].Drawn? && draws[i].frame == frame) &&
      draws[22].material == draws[2].material &&
      (frame.showNormal != 1 ==> BaseColor(lib, frame.showNormal, draws[22].material, v) == BallColor)
  {
    var draws := SceneDraws(frame, fragColor0);
    var m := MaterialUniforms(FlatColorTexture, BallColor);
    var strips := SphereGeometry.StripDraws(BallSegments, BallStripWidth, frame, m);
    forall i | 0 <= i < BallSegments ensures strips[i].Drawn? && strips[i].frame == frame && strips[i].material == m {
      SphereGeometry.StripDrawAt(BallSegments, BallStripWidth, frame, m, i);
    }
    assert draws[2] == strips[0];
    forall i | 0 <= i < |draws| ensures draws[i].Drawn? && draws[i].frame == frame {
      if 2 <= i < 22 {
        assert draws[i] == strips[i - 2];
      }
    }
  }

  /** SceneDraws is the four drawables' draws one after the other. */
  lemma SceneDrawsInOrder(d0: seq<Event>, f: FrameUniforms, c0: Color4)
    ensures var flat := MaterialUniforms(FlatColorTexture, BallColor);
      d0 + [BoxDraw(f, MaterialUniforms(GroundTexture, c0))] + [BoxDraw(f, MaterialUniforms(SkyTexture, c0))]
      + SphereGeometry.StripDraws(BallSegments, BallStripWidth, f, flat) + [BoxDraw(f, flat)]
      == d0 + SceneDraws(f, c0)
  {
  }

  // ---------------------------------------------------------------------
  // The page state
  // ---------------------------------------------------------------------

  /** Which component a slider writes. */
  datatype Axis = X | Y | Z

  function WithComponent(v: Vec3, axis: Axis, value: real): (r: Vec3)
    ensures axis == X ==> r == Vec3(value, v.y, v.z)
    ensures axis == Y ==> r == Vec3(v.x, value, v.z)
    ensures axis == Z ==> r == Vec3(v.x, v.y, value)
  {
    match axis
    case X => v.(x := value)
    case Y => v.(y := value)
    case Z => v.(z := value)
  }

  class Scene {
    const trig: Trig
    const gl: Context
    const camera: Cameras.Camera
    const cubeStatics: CubeGeometry.CubeStatics
    const sphereStatics: SphereGeometry.SphereStatics

    var lightOn: bool
    var showNormal: bool
    var lightPos: Vec3
    var lightColor: Vec3
    var sliderLightPos: Vec3
    var lightMoveOn: bool
    var spotLightOn: bool
    var spotLightDir: Vec3
    var spotLightCutoff: real
    var globalRotX: real
    var globalRotY: real
    var globalRotZ: real
    var isDragging: bool
    var lastX: real
    var lastY: real
    var initialTime: real
    var timeElapsed: real

    /** The sphere geometry cache is empty or holds the ball's mesh (its
        vertex count and its position, normal and UV arrays): every
        Sphere this page makes is the 1.0 / 20 / 20 ball, so whichever call
        built the cache built it for the ball. */
    ghost predicate Valid()
      reads sphereStatics
    {
      sphereStatics.positionBuffer.Some? ==>
        sphereStatics.numVertices == BallVertices &&
        sphereStatics.vertPositions == SphereGeometry.PositionData(SphereGeometry.Mesh(trig, BallRadius, BallSegments, BallSegments)) &&
        sphereStatics.vertNormals == SphereGeometry.NormalData(SphereGeometry.Mesh(trig, BallRadius, BallSegments, BallSegments)) &&
        sphereStatics.vertUVs == SphereGeometry.UVData(SphereGeometry.Mesh(trig, BallRadius, BallSegments, BallSegments))
    }

    function DragState(): Drag
      reads this
    {
      Drag(isDragging, lastX, lastY, globalRotX, globalRotY)
    }

    /** The per-frame uniforms renderAllShapes writes from the globals; the
        tint gate u_light1 is always 1. */
    function FrameOf(): (f: FrameUniforms)
      reads this, camera
      ensures f.light1 == 1 && f.cameraPos == camera.eye && f.lightPos == lightPos
      ensures f.light == (if lightOn then 1 else 0) && f.showNormal == (if showNormal then 1 else 0)
    {
      FrameUniforms(if showNormal then 1 else 0, lightPos, camera.eye, lightColor,
                    if lightOn then 1 else 0, 1, if spotLightOn then 1 else 0, spotLightDir, spotLightCutoff)
    }

    /** The page as loaded and main() run: the globals at their initial
        values, a camera over the canvas, nothing built yet. startSeconds is
        performance.now() / 1000 at load. */
    constructor (trig: Trig, lib: CameraAlgebra.MatrixLib, canvas: Cameras.Canvas, startSeconds: real)
      ensures this.trig == trig && fresh(gl) && fresh(camera) && fresh(cubeStatics) && fresh(sphereStatics)
      ensures camera.lib == lib && camera.State() == Cameras.InitialState
      ensures gl.log == [] && sphereStatics.positionBuffer.None? && cubeStatics.positionBuffer.None?
      ensures lightOn && !showNormal && !lightMoveOn && !spotLightOn
      ensures lightPos == Vec3(2.0, 2.0, 2.0) && sliderLightPos == Vec3(2.0, 2.0, 2.0)
      ensures lightColor == Vec3(1.0, 1.0, 1.0)
      ensures spotLightDir == Vec3(0.0, -1.0, 0.0) && spotLightCutoff == 0.7
      ensures DragState() == InitialDrag && globalRotZ == 0.0
      ensures initialTime == startSeconds && timeElapsed == 0.0
      ensures Valid()
    {
      this.trig := trig;
      gl := new Context();
      camera := new Cameras.Camera(lib, canvas);
      cubeStatics := new CubeGeometry.CubeStatics();
      sphereStatics := new SphereGeometry.SphereStatics();
      lightOn := true;
      showNormal := false;
      lightPos := Vec3(2.0, 2.0, 2.0);
      lightColor := Vec3(1.0, 1.0, 1.0);
      sliderLightPos := Vec3(2.0, 2.0, 2.0);
      lightMoveOn := false;
      spotLightOn := false;
      spotLightDir := Vec3(0.0, -1.0, 0.0);
      spotLightCutoff := 0.7;
      globalRotX, globalRotY, globalRotZ := 0.0, 0.0, 0.0;
      isDragging, lastX, lastY := false, -1.0, -1.0;
      initialTime, timeElapsed := startSeconds, 0.0;
    }

    /** new Cube(), set its selector, drawCube(). The box's model matrix is
        not modelled, so ground, sky and marker differ only in the selector. */
    method DrawBox(textureNum: int)
      modifies gl, cubeStatics
      ensures gl.frame == old(gl.frame)
      ensures gl.material == old(gl.material).(whichTexture := textureNum)
      ensures DrawsOf(gl.log) == DrawsOf(old(gl.log)) + [BoxDraw(gl.frame, gl.material)]
    {
      ghost var log0, n := gl.log, gl.nextBuffer;
      var box := new CubeGeometry.Cube(cubeStatics, gl);
      box.textureNum := textureNum;
      ghost var log1 := gl.log;
      if log1 != log0 {
        CubeUploadsDrawNothing(log0, n);
      }
      box.DrawCube(cubeStatics, gl);
      CubeDrawDrawsOneBox(log1, cubeStatics.positionBuffer, cubeStatics.uvBuffer, cubeStatics.normalBuffer,
                          textureNum, gl.frame, gl.material);
    }

    /** new Sphere({radius: 1.0, latSegments: 20, longSegments: 20}), selector
        -2, baseColor red, drawSphere(). */
    method DrawBall()
      requires Valid()
      modifies gl, sphereStatics
      ensures Valid()
      ensures gl.frame == old(gl.frame)
      ensures gl.material == MaterialUniforms(FlatColorTexture, BallColor)
      ensures DrawsOf(gl.log) == DrawsOf(old(gl.log)) + SphereGeometry.StripDraws(BallSegments, BallStripWidth, gl.frame, gl.material)
      ensures sphereStatics.positionBuffer.Some? && sphereStatics.numVertices == BallVertices
    {
      ghost var log0 := gl.log;
      ghost var n := gl.nextBuffer;
      var ball := new SphereGeometry.Sphere(sphereStatics, gl, trig, BallRadius, BallSegments, BallSegments);
      ball.textureNum := FlatColorTexture;
      ball.baseColor := Some(BallColor);
      ghost var log1 := gl.log;
      if log1 != log0 {
        SphereUploadsDrawNothing(log0, n, sphereStatics.vertPositions, sphereStatics.vertNormals, sphereStatics.vertUVs);
      }
      var outcome := ball.DrawSphere(sphereStatics, gl);
      assert outcome == Done;
      SphereDrawDrawsStrips(log1, sphereStatics, FlatColorTexture, Some(BallColor), BallSegments, BallSegments, gl.frame, gl.material);
    }

    /** The four drawables of renderAllShapes, in order: ground, sky, ball,
        light marker. */
    method DrawObjects()
      requires Valid()
      modifies gl, cubeStatics, sphereStatics
      ensures Valid()
      ensures gl.frame == old(gl.frame)
      ensures gl.material == MaterialUniforms(FlatColorTexture, BallColor)
      ensures DrawsOf(gl.log) == DrawsOf(old(gl.log)) + SceneDraws(gl.frame, old(gl.material).fragColor)
      ensures sphereStatics.positionBuffer.Some? && sphereStatics.numVertices == BallVertices
    {
      ghost var d0, f, c0 := DrawsOf(gl.log), gl.frame, gl.material.fragColor;
      DrawBox(GroundTexture);
      DrawBox(SkyTexture);
      DrawBall();
      DrawBox(FlatColorTexture);
      SceneDrawsInOrder(d0, f, c0);
    }

    /** renderAllShapes: clear, write the frame uniforms, then draw. */
    method Render()
      requires Valid()
      modifies gl, cubeStatics, sphereStatics
      ensures Rendered(this)
    {
      ghost var log0 := gl.log;
      gl.Clear();
      var f := FrameOf();
      gl.SetFrame(f);
      assert DrawsOf(gl.log) == DrawsOf(log0) by {
        assert gl.log == log0 + [Cleared, FrameSet(f)];
        DrawsOfNone([Cleared, FrameSet(f)]);
        DrawsOfAppend(log0, [Cleared, FrameSet(f)]);
      }
      DrawObjects();
    }

    /** tick: advance the clock, place the light, render. */
    method Tick(nowSeconds: real)
      requires Valid()
      modifies this`timeElapsed, this`lightPos, gl, cubeStatics, sphereStatics
      ensures timeElapsed == nowSeconds - initialTime
      ensures lightPos == LightPosition(trig, sliderLightPos, lightMoveOn, timeElapsed)
      ensures Rendered(this)
    {
      timeElapsed := nowSeconds - initialTime;
      PlaceLight();
      Render();
    }

    /** The light update of tick: each component of g_lightPos written from
        the slider base, moved along the orbit when the animation is on. */
    method PlaceLight()
      modifies this`lightPos
      ensures lightPos == LightPosition(trig, sliderLightPos, lightMoveOn, timeElapsed)
    {
      if lightMoveOn {
        var amplitude := Amplitude;
        var angle := timeElapsed * AngularRate;
        lightPos := lightPos.(x := sliderLightPos.x);
        lightPos := lightPos.(y := sliderLightPos.y + amplitude * trig.sin(angle));
        lightPos := lightPos.(z := sliderLightPos.z + amplitude * trig.cos(angle));
      } else {
        lightPos := lightPos.(x := sliderLightPos.x);
        lightPos := lightPos.(y := sliderLightPos.y);
        lightPos := lightPos.(z := sliderLightPos.z);
      }
    }

    method ToggleLight()
      requires Valid()
      modifies this`lightOn, gl, cubeStatics, sphereStatics
      ensures lightOn == !old(lightOn)
      ensures Rendered(this)
    {
      lightOn := !lightOn;
      Render();
    }

    /** Takes effect at the next tick; does not render. */
    method ToggleLightAnimation()
      modifies this`lightMoveOn
      ensures lightMoveOn == !old(lightMoveOn)
    {
      lightMoveOn := !lightMoveOn;
    }

    method ToggleSpotLight()
      requires Valid()
      modifies this`spotLightOn, gl, cubeStatics, sphereStatics
      ensures spotLightOn == !old(spotLightOn)
      ensures Rendered(this)
    {
      spotLightOn := !spotLightOn;
      Render();
    }

    /** Takes effect at the next render; does not render. */
    method ToggleNormalVisualization()
      modifies this`showNormal
      ensures showNormal == !old(showNormal)
    {
      showNormal := !showNormal;
    }

    /** A light-position slider: writes the slider base only. The light
        itself moves at the next tick, so this render still shows the old
        light position. */
    method SetLightSlider(axis: Axis, value: real)
      requires Valid()
      modifies this`sliderLightPos, gl, cubeStatics, sphereStatics
      ensures sliderLightPos == WithComponent(old(sliderLightPos), axis, value)
      ensures Rendered(this)
    {
      sliderLightPos := WithComponent(sliderLightPos, axis, value);
      Render();
    }

    /** A light-colour slider (r, g, b as X, Y, Z). */
    method SetLightColor(channel: Axis, value: real)
      requires Valid()
      modifies this`lightColor, gl, cubeStatics, sphereStatics
      ensures lightColor == WithComponent(old(lightColor), channel, value)
      ensures Rendered(this)
    {
      lightColor := WithComponent(lightColor, channel, value);
      Render();
    }

    /** handleKeyPress (keydown and click): run the command for the key,
        then render. */
    method HandleKeyPress(keyCode: int)
      requires Valid()
      modifies camera`eye, camera`at, camera`up, camera`viewMatrix, gl, cubeStatics, sphereStatics
      ensures camera.State() == Apply(camera.lib, old(camera.State()), CommandOf(keyCode))
      ensures Rendered(this)
    {
      match keyCode {
      case 87 => camera.MoveForward();
      case 83 => camera.MoveBackward();
      case 65 => camera.MoveLeft();
      case 68 => camera.MoveRight();
      case 81 => camera.PanLeft();
      case 69 => camera.PanRight();
      case 79 => camera.LookUp();
      case 80 => camera.LookDown();
      case _ =>
      }
      Render();
    }

    method StartDragAt(rect: Rect, x: real, y: real)
      modifies this`isDragging, this`lastX, this`lastY
      ensures DragState() == StartDrag(old(DragState()), rect, x, y)
    {
      if rect.left <= x && x < rect.right && rect.top <= y && y < rect.bottom {
        isDragging := true;
        lastX := x;
        lastY := y;
      }
    }

    /** Changes the rotation globals only; the next render shows them. */
    method MoveDragTo(x: real, y: real)
      modifies this`globalRotX, this`globalRotY, this`lastX, this`lastY
      ensures DragState() == MoveDrag(old(DragState()), x, y)
    {
      if isDragging {
        var factor := DragFactor;
        var dx := factor * (x - lastX);
        var dy := factor * (y - lastY);
        globalRotY := globalRotY - dx;
        globalRotX := globalRotX - dy;
        globalRotX := Max(Min(globalRotX, PitchLimit), -PitchLimit);
        lastX, lastY := x, y;
      }
    }

    method EndDragNow()
      modifies this`isDragging
      ensures DragState() == EndDrag(old(DragState()))
    {
      isDragging := false;
    }
  }

  /** The effect of one renderAllShapes: the frame uniforms come from the
      globals and the camera; the draws appended are exactly SceneDraws with
      the colour left in u_FragColor before the frame; the flat colour left
      behind is the ball's; the sphere cache holds the ball. */
  twostate predicate Rendered(s: Scene)
    reads s, s.gl, s.camera, s.sphereStatics
  {
    s.Valid() &&
    s.gl.frame == s.FrameOf() &&
    s.gl.material == MaterialUniforms(FlatColorTexture, BallColor) &&
    DrawsOf(s.gl.log) == DrawsOf(old(s.gl.log)) + SceneDraws(s.FrameOf(), old(s.gl.material).fragColor) &&
    s.sphereStatics.positionBuffer.Some? && s.sphereStatics.numVertices == BallVertices
  }
}
