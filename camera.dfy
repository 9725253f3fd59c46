/** The Camera object of camera.js: eye, at and up are updated in place by
    the movement operators, which then refresh the view matrix. Each
    operator is proved to leave the camera in the state the matching
    function of CameraAlgebra computes, so the round trips proved there
    hold of the object. The matrix library is abstract: a view matrix is
    recorded as the look-at triple it was built from, a projection as its
    parameters. */
module Cameras {
  import opened Maths
  import opened Results
  import CameraAlgebra

  /** The canvas size the constructor reads. */
  datatype Canvas = Canvas(width: nat, height: nat)

  /** setLookAt(eye, at, up), recorded by its arguments. */
  datatype ViewMatrix = LookAt(eye: Vec3, at: Vec3, up: Vec3)

  /** setPerspective(fovY, width / height, near, far), recorded by its
      arguments (the aspect is kept as the pair it is divided from). */
  datatype ProjectionMatrix = Perspective(fovY: real, width: nat, height: nat, near: real, far: real)

  const InitialFov: real := 60.0
  const InitialState: CameraAlgebra.CameraState :=
    CameraAlgebra.CameraState(Vec3(0.0, 2.0, 5.0), Vec3(0.0, 2.0, 0.0), Vec3(0.0, 1.0, 0.0))
  const Near: real := 0.1
  const Far: real := 1000.0

  const MissingCanvas: string := "Camera constructor needs a valid canvas."

  class Camera {
    const lib: CameraAlgebra.MatrixLib
    var fov: real
    var eye: Vec3
    var at: Vec3
    var up: Vec3
    var viewMatrix: ViewMatrix
    var projectionMatrix: ProjectionMatrix

    /** The camera's position as a value. */
    function State(): CameraAlgebra.CameraState
      reads this
    {
      CameraAlgebra.CameraState(eye, at, up)
    }

    /** The view matrix was built from the current eye, at and up. */
    predicate ViewInSync()
      reads this
    {
      viewMatrix == LookAt(eye, at, up)
    }

    constructor (lib: CameraAlgebra.MatrixLib, canvas: Canvas)
      ensures this.lib == lib && fov == InitialFov
      ensures State() == InitialState && ViewInSync()
      ensures projectionMatrix == Perspective(InitialFov, canvas.width, canvas.height, Near, Far)
    {
      this.lib := lib;
      fov := InitialFov;
      eye := Vec3(0.0, 2.0, 5.0);
      at := Vec3(0.0, 2.0, 0.0);
      up := Vec3(0.0, 1.0, 0.0);
      new;
      UpdateViewMatrix();
      UpdateProjectionMatrix(canvas.width, canvas.height);
    }

    method UpdateViewMatrix()
      modifies this`viewMatrix
      ensures ViewInSync()
    {
      viewMatrix := LookAt(eye, at, up);
    }

    method UpdateProjectionMatrix(width: nat, height: nat)
      modifies this`projectionMatrix
      ensures projectionMatrix == Perspective(fov, width, height, Near, Far)
    {
      projectionMatrix := Perspective(fov, width, height, Near, Far);
    }

    method MoveForward(speed: real := CameraAlgebra.DefaultSpeed)
      modifies this`eye, this`at, this`viewMatrix
      ensures State() == CameraAlgebra.MoveForward(lib, old(State()), speed)
      ensures ViewInSync()
    {
      var f := at;
      f := Sub(f, eye);
      f := lib.normalize(f);
      f := Scale(f, speed);
      eye := Add(eye, f);
      at := Add(at, f);
      UpdateViewMatrix();
    }

    method MoveBackward(speed: real := CameraAlgebra.DefaultSpeed)
      modifies this`eye, this`at, this`viewMatrix
      ensures State() == CameraAlgebra.MoveBackward(lib, old(State()), speed)
      ensures ViewInSync()
    {
      var b := eye;
      b := Sub(b, at);
      b := lib.normalize(b);
      b := Scale(b, speed);
      eye := Add(eye, b);
      at := Add(at, b);
      UpdateViewMatrix();
    }

    method MoveLeft(speed: real := CameraAlgebra.DefaultSpeed)
      modifies this`eye, this`at, this`viewMatrix
      ensures State() == CameraAlgebra.MoveLeft(lib, old(State()), speed)
      ensures ViewInSync()
    {
      var f := at;
      f := Sub(f, eye);
      f := lib.normalize(f);
      var s := Cross(up, f);
      s := lib.normalize(s);
      s := Scale(s, speed);
      eye := Add(eye, s);
      at := Add(at, s);
      UpdateViewMatrix();
    }

    method MoveRight(speed: real := CameraAlgebra.DefaultSpeed)
      modifies this`eye, this`at, this`viewMatrix
      ensures State() == CameraAlgebra.MoveRight(lib, old(State()), speed)
      ensures ViewInSync()
    {
      var f := at;
      f := Sub(f, eye);
      f := lib.normalize(f);
      var s := Cross(f, up);
      s := lib.normalize(s);
      s := Scale(s, speed);
      eye := Add(eye, s);
      at := Add(at, s);
      UpdateViewMatrix();
    }

    method PanLeft(alpha: real := CameraAlgebra.DefaultAlpha)
      modifies this`at, this`viewMatrix
      ensures State() == CameraAlgebra.PanLeft(lib, old(State()), alpha)
      ensures ViewInSync()
    {
      var f := at;
      f := Sub(f, eye);
      var fPrime := lib.rotate(alpha, up, f);
      at := eye;
      at := Add(at, fPrime);
      UpdateViewMatrix();
    }

    method PanRight(alpha: real := CameraAlgebra.DefaultAlpha)
      modifies this`at, this`viewMatrix
      ensures State() == CameraAlgebra.PanRight(lib, old(State()), alpha)
      ensures ViewInSync()
    {
      PanLeft(-alpha);
    }

    method LookUp(alpha: real := CameraAlgebra.DefaultAlpha)
      modifies this`at, this`up, this`viewMatrix
      ensures State() == CameraAlgebra.LookUp(lib, old(State()), alpha)
      ensures ViewInSync()
    {
      var f := at;
      f := Sub(f, eye);
      var right := Cross(f, up);
      right := lib.normalize(right);
      var fPrime := lib.rotate(alpha, right, f);
      at := eye;
      at := Add(at, fPrime);
      up := lib.rotate(alpha, right, up);
      UpdateViewMatrix();
    }

    method LookDown(alpha: real := CameraAlgebra.DefaultAlpha)
      modifies this`at, this`up, this`viewMatrix
      ensures State() == CameraAlgebra.LookDown(lib, old(State()), alpha)
      ensures ViewInSync()
    {
      LookUp(-alpha);
    }
  }

  /** `new Camera(canvas)`: a missing canvas is rejected with the
      constructor's error; otherwise the camera starts in its initial state. */
  method NewCamera(lib: CameraAlgebra.MatrixLib, canvas: Option<Canvas>) returns (r: Result<Camera>)
    ensures canvas.None? <==> r.Error?
    ensures r.Error? ==> r.message == MissingCanvas
    ensures r.Ok? ==> fresh(r.value) && r.value.lib == lib && r.value.State() == InitialState &&
                      r.value.ViewInSync() && r.value.fov == InitialFov &&
                      r.value.projectionMatrix == Perspective(InitialFov, canvas.value.width, canvas.value.height, Near, Far)
  {
    if canvas.None? {
      return Error(MissingCanvas);
    }
    var c := new Camera(lib, canvas.value);
    return Ok(c);
  }

  /** The camera a fresh page starts with: eye two units up and five back,
      looking along -z with +y up, so the view is non-degenerate and lookUp
      is well defined from it. */
  lemma InitialStateNonDegenerate()
    ensures CameraAlgebra.View(InitialState) == Vec3(0.0, 0.0, -5.0)
    ensures Cross(CameraAlgebra.View(InitialState), InitialState.up) == Vec3(5.0, 0.0, 0.0)
    ensures InitialState.up != CameraAlgebra.Zero
  {
  }
}
