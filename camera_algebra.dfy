/** What the camera operations of camera.js do to the camera's eye, at and up,
    as functions of the state before. Vector3.normalize and the rotation that
    Matrix4.setRotate builds (applied with multiplyVector3) are left abstract;
    the facts about them that a proof needs are stated as predicates on them
    and required by the lemmas that use them. */
module CameraAlgebra {
  import opened Maths

  /** normalize(v): Vector3.normalize. rotate(alpha, axis, v): the matrix of
      Matrix4.setRotate(alpha, axis) in degrees, applied to v. */
  datatype MatrixLib = MatrixLib(normalize: Vec3 -> Vec3, rotate: (real, Vec3, Vec3) -> Vec3)

  const Zero: Vec3 := Vec3(0.0, 0.0, 0.0)

  /** The position, the look-at point and the up vector of a camera. */
  datatype CameraState = CameraState(eye: Vec3, at: Vec3, up: Vec3)

  /** Speed and angle the key handlers use when they pass no argument. */
  const DefaultSpeed: real := 0.2
  const DefaultAlpha: real := 5.0

  // ---------------------------------------------------------------------
  // Facts about normalize and rotate that the round trips rest on
  // ---------------------------------------------------------------------

  /** Normalizing the opposite vector gives the opposite unit vector. */
  ghost predicate NormalizeOdd(lib: MatrixLib) {
    forall v :: lib.normalize(Neg(v)) == Neg(lib.normalize(v))
  }

  /** A non-zero vector normalizes to a non-zero vector. */
  ghost predicate NormalizeKeepsNonZero(lib: MatrixLib) {
    forall v :: v != Zero ==> lib.normalize(v) != Zero
  }

  /** Rotating by -alpha about the same (non-zero) axis undoes a rotation by alpha. */
  ghost predicate RotationInverse(lib: MatrixLib) {
    forall a, b, n, v :: n != Zero && b == -a ==> lib.rotate(b, n, lib.rotate(a, n, v)) == v
  }

  /** A rotation about a non-zero axis commutes with the cross product. */
  ghost predicate RotationPreservesCross(lib: MatrixLib) {
    forall a, n, u, v :: n != Zero ==> Cross(lib.rotate(a, n, u), lib.rotate(a, n, v)) == lib.rotate(a, n, Cross(u, v))
  }

  /** A rotation about the direction of a non-zero w leaves w where it is. */
  ghost predicate RotationFixesAxis(lib: MatrixLib) {
    forall a, w :: w != Zero ==> lib.rotate(a, lib.normalize(w), w) == w
  }

  /** A rotation keeps the squared length of every vector. */
  ghost predicate RotationPreservesLength(lib: MatrixLib) {
    forall a, n, v :: n != Zero ==> Dot(lib.rotate(a, n, v), lib.rotate(a, n, v)) == Dot(v, v)
  }

  // ---------------------------------------------------------------------
  // The operations
  // ---------------------------------------------------------------------

  /** The view vector at - eye. */
  function View(c: CameraState): Vec3 { Sub(c.at, c.eye) }

  /** eye and at both moved by d; up kept. */
  function Translated(c: CameraState, d: Vec3): CameraState {
    CameraState(Add(c.eye, d), Add(c.at, d), c.up)
  }

  /** moveForward: step along the normalized view vector. */
  function MoveForward(lib: MatrixLib, c: CameraState, speed: real): CameraState {
    Translated(c, Scale(lib.normalize(Sub(c.at, c.eye)), speed))
  }

  /** moveBackward: step along the normalized eye - at. */
  function MoveBackward(lib: MatrixLib, c: CameraState, speed: real): CameraState {
    Translated(c, Scale(lib.normalize(Sub(c.eye, c.at)), speed))
  }

  /** moveLeft: step along normalize(up x normalize(view)). */
  function MoveLeft(lib: MatrixLib, c: CameraState, speed: real): CameraState {
    Translated(c, Scale(lib.normalize(Cross(c.up, lib.normalize(Sub(c.at, c.eye)))), speed))
  }

  /** moveRight: step along normalize(normalize(view) x up). */
  function MoveRight(lib: MatrixLib, c: CameraState, speed: real): CameraState {
    Translated(c, Scale(lib.normalize(Cross(lib.normalize(Sub(c.at, c.eye)), c.up)), speed))
  }

  /** panLeft: rotate the view vector by alpha degrees about up; eye and up stay. */
  function PanLeft(lib: MatrixLib, c: CameraState, alpha: real): CameraState {
    CameraState(c.eye, Add(c.eye, lib.rotate(alpha, c.up, Sub(c.at, c.eye))), c.up)
  }

  /** panRight(alpha) is panLeft(-alpha). */
  function PanRight(lib: MatrixLib, c: CameraState, alpha: real): CameraState {
    PanLeft(lib, c, -alpha)
  }

  /** The axis lookUp turns about: normalize(view x up). */
  function RightAxis(lib: MatrixLib, c: CameraState): Vec3 {
    lib.normalize(Cross(Sub(c.at, c.eye), c.up))
  }

  /** lookUp: rotate both the view vector and up by alpha degrees about the
      right axis; eye stays. */
  function LookUp(lib: MatrixLib, c: CameraState, alpha: real): CameraState {
    var r := RightAxis(lib, c);
    CameraState(c.eye, Add(c.eye, lib.rotate(alpha, r, Sub(c.at, c.eye))), lib.rotate(alpha, r, c.up))
  }

  /** lookDown(alpha) is lookUp(-alpha). */
  function LookDown(lib: MatrixLib, c: CameraState, alpha: real): CameraState {
    LookUp(lib, c, -alpha)
  }

  // ---------------------------------------------------------------------
  // Properties
  // ---------------------------------------------------------------------

  /** All four moves translate eye and at by the same step, so the view
      vector and up are unchanged; the step has the length of speed times the
      normalized direction it was built from. */
  lemma MovesKeepView(lib: MatrixLib, c: CameraState, speed: real)
    ensures forall r :: r in [MoveForward(lib, c, speed), MoveBackward(lib, c, speed),
                              MoveLeft(lib, c, speed), MoveRight(lib, c, speed)] ==>
              View(r) == View(c) && r.up == c.up &&
              Sub(r.at, c.at) == Sub(r.eye, c.eye)
  {
    forall d: Vec3 ensures View(Translated(c, d)) == View(c) && Sub(Translated(c, d).at, c.at) == d {
    }
  }

  /** Moving backward undoes moving forward by the same speed, and the
      other way round. */
  lemma ForwardBackwardUndo(lib: MatrixLib, c: CameraState, speed: real)
    requires NormalizeOdd(lib)
    ensures MoveBackward(lib, MoveForward(lib, c, speed), speed) == c
    ensures MoveForward(lib, MoveBackward(lib, c, speed), speed) == c
  {
    var f := Sub(c.at, c.eye);
    var d := Scale(lib.normalize(f), speed);
    var c1 := Translated(c, d);
    assert Sub(c1.eye, c1.at) == Neg(f);
    assert lib.normalize(Neg(f)) == Neg(lib.normalize(f));
    ScaleNeg(lib.normalize(f), speed);
    assert Translated(c1, Neg(d)) == c;

    var b := Scale(lib.normalize(Neg(f)), speed);
    var c2 := Translated(c, b);
    assert Sub(c.eye, c.at) == Neg(f);
    assert Sub(c2.at, c2.eye) == f;
    assert b == Neg(d);
    assert Translated(c2, d) == c;
  }

  /** Moving right undoes moving left by the same speed, and the other way
      round: the side vectors up x f and f x up are opposite, so the two
      steps are opposite. */
  lemma LeftRightUndo(lib: MatrixLib, c: CameraState, speed: real)
    requires NormalizeOdd(lib)
    ensures MoveRight(lib, MoveLeft(lib, c, speed), speed) == c
    ensures MoveLeft(lib, MoveRight(lib, c, speed), speed) == c
    ensures Sub(MoveRight(lib, c, speed).eye, c.eye) == Neg(Sub(MoveLeft(lib, c, speed).eye, c.eye))
  {
    var n := lib.normalize(Sub(c.at, c.eye));
    var sl := Scale(lib.normalize(Cross(c.up, n)), speed);
    var sr := Scale(lib.normalize(Cross(n, c.up)), speed);
    CrossAntiCommutes(c.up, n);
    assert lib.normalize(Neg(Cross(c.up, n))) == Neg(lib.normalize(Cross(c.up, n)));
    ScaleNeg(lib.normalize(Cross(c.up, n)), speed);
    assert sr == Neg(sl);

    var cl := Translated(c, sl);
    assert Sub(cl.eye, c.eye) == sl;
    assert Sub(Translated(c, sr).eye, c.eye) == sr;
    assert Sub(cl.at, cl.eye) == Sub(c.at, c.eye);
    assert MoveRight(lib, cl, speed) == Translated(cl, sr);
    assert Translated(cl, sr) == c;

    var cr := Translated(c, sr);
    assert Sub(cr.at, cr.eye) == Sub(c.at, c.eye);
    assert MoveLeft(lib, cr, speed) == Translated(cr, sl);
    assert Translated(cr, sl) == c;
  }

  /** Panning right undoes panning left by the same angle, and the other way
      round, whenever up is not the zero vector. */
  lemma PanUndo(lib: MatrixLib, c: CameraState, alpha: real)
    requires RotationInverse(lib) && c.up != Zero
    ensures PanRight(lib, PanLeft(lib, c, alpha), alpha) == c
    ensures PanLeft(lib, PanRight(lib, c, alpha), alpha) == c
  {
    var f := Sub(c.at, c.eye);
    var c1 := PanLeft(lib, c, alpha);
    assert Sub(c1.at, c1.eye) == lib.rotate(alpha, c.up, f);
    assert lib.rotate(-alpha, c.up, lib.rotate(alpha, c.up, f)) == f;
    assert Add(c.eye, f) == c.at;

    var c2 := PanRight(lib, c, alpha);
    assert Sub(c2.at, c2.eye) == lib.rotate(-alpha, c.up, f);
    assert lib.rotate(alpha, c.up, lib.rotate(-alpha, c.up, f)) == f;
  }

  /** Panning keeps eye and up and the distance from eye to at. */
  lemma PanKeepsDistance(lib: MatrixLib, c: CameraState, alpha: real)
    requires RotationPreservesLength(lib) && c.up != Zero
    ensures var r := PanLeft(lib, c, alpha);
      r.eye == c.eye && r.up == c.up && Dot(View(r), View(r)) == Dot(View(c), View(c))
  {
    var r := PanLeft(lib, c, alpha);
    assert View(r) == lib.rotate(alpha, c.up, View(c));
  }

  /** After lookUp the right axis is unchanged: the new view and up are the
      old ones rotated about the right axis, so their cross product is the
      old one rotated, which the rotation leaves fixed. */
  lemma LookUpKeepsRightAxis(lib: MatrixLib, c: CameraState, alpha: real)
    requires RotationPreservesCross(lib) && RotationFixesAxis(lib) && NormalizeKeepsNonZero(lib)
    requires Cross(View(c), c.up) != Zero
    ensures RightAxis(lib, LookUp(lib, c, alpha)) == RightAxis(lib, c)
    ensures Cross(View(LookUp(lib, c, alpha)), LookUp(lib, c, alpha).up) == Cross(View(c), c.up)
  {
    var w := Cross(View(c), c.up);
    var r := RightAxis(lib, c);
    assert r == lib.normalize(w);
    assert r != Zero;
    var c1 := LookUp(lib, c, alpha);
    assert View(c1) == lib.rotate(alpha, r, View(c));
    assert c1.up == lib.rotate(alpha, r, c.up);
    assert Cross(lib.rotate(alpha, r, View(c)), lib.rotate(alpha, r, c.up)) == lib.rotate(alpha, r, w);
    assert lib.rotate(alpha, lib.normalize(w), w) == w;
  }

  /** Rotating back by -alpha about the unchanged right axis undoes lookUp(alpha). */
  lemma LookUpThenBack(lib: MatrixLib, c: CameraState, alpha: real)
    requires RotationInverse(lib) && RotationPreservesCross(lib) && RotationFixesAxis(lib)
    requires NormalizeKeepsNonZero(lib)
    requires Cross(View(c), c.up) != Zero
    ensures LookUp(lib, LookUp(lib, c, alpha), -alpha) == c
  {
    var r := RightAxis(lib, c);
    var f := View(c);
    var c1 := LookUp(lib, c, alpha);
    LookUpKeepsRightAxis(lib, c, alpha);
    assert r != Zero;
    var f1 := lib.rotate(alpha, r, f);
    var u1 := lib.rotate(alpha, r, c.up);
    assert c1 == CameraState(c.eye, Add(c.eye, f1), u1);
    assert View(c1) == f1;
    assert lib.rotate(-alpha, r, f1) == f;
    assert lib.rotate(-alpha, r, u1) == c.up;
    assert Add(c.eye, f) == c.at;
    assert LookUp(lib, c1, -alpha) == CameraState(c.eye, Add(c.eye, lib.rotate(-alpha, r, f1)), lib.rotate(-alpha, r, u1));
  }

  /** Looking down undoes looking up by the same angle, and the other way
      round, whenever the view vector is not parallel to up. */
  lemma LookUndo(lib: MatrixLib, c: CameraState, alpha: real)
    requires RotationInverse(lib) && RotationPreservesCross(lib) && RotationFixesAxis(lib)
    requires NormalizeKeepsNonZero(lib)
    requires Cross(View(c), c.up) != Zero
    ensures LookDown(lib, LookUp(lib, c, alpha), alpha) == c
    ensures LookUp(lib, LookDown(lib, c, alpha), alpha) == c
  {
    LookUpThenBack(lib, c, alpha);
    LookUpThenBack(lib, c, -alpha);
    assert - -alpha == alpha;
  }

  /** lookUp keeps eye and, when rotations keep lengths, the distance from
      eye to at and the length of up. */
  lemma LookKeepsDistance(lib: MatrixLib, c: CameraState, alpha: real)
    requires RotationPreservesLength(lib) && NormalizeKeepsNonZero(lib)
    requires Cross(View(c), c.up) != Zero
    ensures var r := LookUp(lib, c, alpha);
      r.eye == c.eye && Dot(View(r), View(r)) == Dot(View(c), View(c)) && Dot(r.up, r.up) == Dot(c.up, c.up)
  {
    var r := RightAxis(lib, c);
    assert r != Zero;
    assert View(LookUp(lib, c, alpha)) == lib.rotate(alpha, r, View(c));
  }
}
