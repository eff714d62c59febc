/** The free-fly camera: Euler angles and a derived front/right/up basis, moved by
    keyboard, mouse-look and scroll input. Each state transition is specified by a
    function on `CameraState` values; the `Camera` class performs it in place. */
module FreeCamera {
  import opened Geometry

  /** The six directions a keyboard-like input can move the camera. */
  datatype CameraMovement = Forward | Backward | Left | Right | Up | Down

  // Default camera values.
  const YAW: real := -90.0
  const PITCH: real := 0.0
  const SPEED: real := 2.5
  const SENSITIVITY: real := 0.1
  const ZOOM: real := 45.0

  // Bounds enforced by clamping.
  const PITCH_LIMIT: real := 89.0
  const MIN_ZOOM: real := 1.0
  const MAX_ZOOM: real := 45.0

  const WorldUp: Vec3 := Vec3(0.0, 1.0, 0.0)

  /** Every field of a camera, as a value. */
  datatype CameraState = CameraState(
    position: Vec3,
    front: Vec3,
    up: Vec3,
    right: Vec3,
    worldUp: Vec3,
    yaw: real,
    pitch: real,
    movementSpeed: real,
    mouseSensitivity: real,
    zoom: real
  )

  datatype Basis = Basis(front: Vec3, right: Vec3, up: Vec3)

  /** The front/right/up basis recomputed from the Euler angles (in degrees) and the
      world up vector, through the library's trigonometry and vector operations. */
  function ComputeBasis(math: MathLib, yaw: real, pitch: real, worldUp: Vec3): Basis {
    var yawRad := DegreeToRadian(yaw);
    var pitchRad := DegreeToRadian(pitch);
    var direction := Vec3(math.cos(yawRad) * math.cos(pitchRad),
                          math.sin(pitchRad),
                          math.sin(yawRad) * math.cos(pitchRad));
    var front := math.normalize(direction);
    var right := math.normalize(math.cross(front, worldUp));
    var up := math.normalize(math.cross(right, front));
    Basis(front, right, up)
  }

  /** The basis vectors of `s` are the ones its angles and world up determine. */
  predicate BasisDerived(math: MathLib, s: CameraState) {
    Basis(s.front, s.right, s.up) == ComputeBasis(math, s.yaw, s.pitch, s.worldUp)
  }

  /** What every camera maintains: a derived basis and a zoom within its bounds. */
  predicate Consistent(math: MathLib, s: CameraState) {
    BasisDerived(math, s) && MIN_ZOOM <= s.zoom <= MAX_ZOOM
  }

  function Dist(a: real, b: real): real {
    if a <= b then b - a else a - b
  }

  /** `r` is the point of [lo, hi] nearest to `x`. */
  ghost predicate NearestIn(lo: real, hi: real, x: real, r: real) {
    lo <= r <= hi && forall y :: lo <= y <= hi ==> Dist(r, x) <= Dist(y, x)
  }

  /** Clamping moves a value to the nearest point of the interval. */
  function Clamp(lo: real, hi: real, x: real): (r: real)
    requires lo <= hi
    ensures NearestIn(lo, hi, x, r)
  {
    if x < lo then lo else if x > hi then hi else x
  }

  /** The nearest point of an interval is unique, so `NearestIn` fully specifies a clamp. */
  lemma NearestUnique(lo: real, hi: real, x: real, r1: real, r2: real)
    requires NearestIn(lo, hi, x, r1) && NearestIn(lo, hi, x, r2)
    ensures r1 == r2
  {
    var c := Clamp(lo, hi, x);
    assert Dist(r1, x) <= Dist(c, x);
    assert Dist(r2, x) <= Dist(c, x);
  }

  /** The movement that undoes `d`. */
  function Opposite(d: CameraMovement): (r: CameraMovement)
    ensures r != d
  {
    match d
    case Forward => Backward
    case Backward => Forward
    case Left => Right
    case Right => Left
    case Up => Down
    case Down => Up
  }

  /** The signed basis vector a movement travels along. */
  function Axis(s: CameraState, d: CameraMovement): Vec3 {
    match d
    case Forward => s.front
    case Backward => Neg(s.front)
    case Left => Neg(s.right)
    case Right => s.right
    case Up => s.up
    case Down => Neg(s.up)
  }

  /** The opposite movement travels along the negated axis. */
  lemma OppositeAxis(s: CameraState, d: CameraMovement)
    ensures Axis(s, Opposite(d)) == Neg(Axis(s, d))
  {
  }

  /** Keyboard translation: velocity = movement speed times elapsed time, applied
      along one basis vector. */
  function Keyboard(s: CameraState, direction: CameraMovement, deltaTime: real): (r: CameraState)
    ensures r == s.(position := r.position)
  {
    var velocity := s.movementSpeed * deltaTime;
    match direction
    case Forward => s.(position := Add(s.position, Scale(s.front, velocity)))
    case Backward => s.(position := Sub(s.position, Scale(s.front, velocity)))
    case Left => s.(position := Sub(s.position, Scale(s.right, velocity)))
    case Right => s.(position := Add(s.position, Scale(s.right, velocity)))
    case Up => s.(position := Add(s.position, Scale(s.up, velocity)))
    case Down => s.(position := Add(s.position, Scale(Scale(s.up, -1.0), velocity)))
  }

  /** Keyboard translation moves the position by velocity times the movement's axis. */
  lemma KeyboardAlongAxis(s: CameraState, d: CameraMovement, deltaTime: real)
    ensures Keyboard(s, d, deltaTime).position
            == Add(s.position, Scale(Axis(s, d), s.movementSpeed * deltaTime))
  {
    var v := s.movementSpeed * deltaTime;
    var p := Keyboard(s, d, deltaTime).position;
    match d
    case Forward => assert p == Add(s.position, Scale(s.front, v));
    case Backward =>
      assert p == Sub(s.position, Scale(s.front, v));
      SubScaled(s.position, s.front, v);
    case Left =>
      assert p == Sub(s.position, Scale(s.right, v));
      SubScaled(s.position, s.right, v);
    case Right => assert p == Add(s.position, Scale(s.right, v));
    case Up => assert p == Add(s.position, Scale(s.up, v));
    case Down =>
      assert p == Add(s.position, Scale(Scale(s.up, -1.0), v));
      ScaleByMinusOne(s.up);
  }

  /** Moving one way and then the opposite way with the same elapsed time returns
      the camera to where it was (exact over the reals). */
  lemma KeyboardInverse(s: CameraState, d: CameraMovement, deltaTime: real)
    ensures Keyboard(Keyboard(s, d, deltaTime), Opposite(d), deltaTime) == s
  {
    var t := Keyboard(s, d, deltaTime);
    var v := s.movementSpeed * deltaTime;
    KeyboardAlongAxis(s, d, deltaTime);
    KeyboardAlongAxis(t, Opposite(d), deltaTime);
    OppositeAxis(s, d);
    AddScaledCancel(s.position, Axis(s, d), v);
  }

  /** Keyboard movement keeps the camera consistent. */
  lemma KeyboardConsistent(math: MathLib, s: CameraState, d: CameraMovement, deltaTime: real)
    requires Consistent(math, s)
    ensures Consistent(math, Keyboard(s, d, deltaTime))
  {
  }

  /** The result of mouse-look: the new camera and the caller's offsets as they are
      left after scaling in place. */
  datatype Looked = Looked(cam: CameraState, xoffset: real, yoffset: real)

  /** Mouse-look: offsets are scaled by the sensitivity and added to yaw and pitch,
      pitch is optionally clamped to [-89, 89], and the basis is recomputed. */
  function MouseMovement(math: MathLib, s: CameraState, xoffset: real, yoffset: real, constrainPitch: bool): (r: Looked)
    ensures r.xoffset == xoffset * s.mouseSensitivity && r.yoffset == yoffset * s.mouseSensitivity
    ensures r.cam.yaw == s.yaw + r.xoffset
    ensures constrainPitch ==> NearestIn(-PITCH_LIMIT, PITCH_LIMIT, s.pitch + r.yoffset, r.cam.pitch)
    ensures !constrainPitch ==> r.cam.pitch == s.pitch + r.yoffset
    ensures r.cam == s.(yaw := r.cam.yaw, pitch := r.cam.pitch,
                        front := r.cam.front, right := r.cam.right, up := r.cam.up)
    ensures BasisDerived(math, r.cam)
  {
    var x := xoffset * s.mouseSensitivity;
    var y := yoffset * s.mouseSensitivity;
    var yaw := s.yaw + x;
    var pitch := if constrainPitch then Clamp(-PITCH_LIMIT, PITCH_LIMIT, s.pitch + y) else s.pitch + y;
    var b := ComputeBasis(math, yaw, pitch, s.worldUp);
    Looked(s.(yaw := yaw, pitch := pitch, front := b.front, right := b.right, up := b.up), x, y)
  }

  /** Mouse-look keeps the camera consistent. */
  lemma MouseMovementConsistent(math: MathLib, s: CameraState, xoffset: real, yoffset: real, constrainPitch: bool)
    requires Consistent(math, s)
    ensures Consistent(math, MouseMovement(math, s, xoffset, yoffset, constrainPitch).cam)
  {
  }

  /** Scroll: the offset is subtracted from zoom, which is then clamped to [1, 45]. */
  function Scroll(s: CameraState, yoffset: real): (r: CameraState)
    ensures r == s.(zoom := r.zoom)
    ensures NearestIn(MIN_ZOOM, MAX_ZOOM, s.zoom - yoffset, r.zoom)
  {
    s.(zoom := Clamp(MIN_ZOOM, MAX_ZOOM, s.zoom - yoffset))
  }

  /** The view matrix: look from the position towards position + front, with `up` up. */
  function ViewMatrix(math: MathLib, s: CameraState): Mat4 {
    math.lookAt(s.position, Add(s.position, s.front), s.up)
  }

  /** For a consistent camera the view matrix is determined by its position, its
      angles and its world up vector alone. */
  lemma ViewDeterminedByPose(math: MathLib, s1: CameraState, s2: CameraState)
    requires BasisDerived(math, s1) && BasisDerived(math, s2)
    requires s1.position == s2.position && s1.yaw == s2.yaw && s1.pitch == s2.pitch
    requires s1.worldUp == s2.worldUp
    ensures ViewMatrix(math, s1) == ViewMatrix(math, s2)
  {
  }

  /** A camera, updated in place by its input-processing methods. */
  class Camera {
    const math: MathLib
    var position: Vec3
    var front: Vec3
    var up: Vec3
    var right: Vec3
    var worldUp: Vec3
    var yaw: real
    var pitch: real
    var movementSpeed: real
    var mouseSensitivity: real
    var zoom: real

    function State(): CameraState
      reads this
    {
      CameraState(position, front, up, right, worldUp, yaw, pitch, movementSpeed, mouseSensitivity, zoom)
    }

    predicate Valid()
      reads this
    {
      Consistent(math, State())
    }

    /** A camera at the origin, looking down -Z, with the default constants. */
    constructor (math: MathLib)
      ensures this.math == math
      ensures position == Origin && worldUp == WorldUp
      ensures yaw == YAW && pitch == PITCH
      ensures movementSpeed == SPEED && mouseSensitivity == SENSITIVITY && zoom == ZOOM
      ensures Basis(front, right, up) == ComputeBasis(math, YAW, PITCH, WorldUp)
      ensures Valid()
    {
      this.math := math;
      front := Vec3(0.0, 0.0, -1.0);
      movementSpeed := SPEED;
      mouseSensitivity := SENSITIVITY;
      zoom := ZOOM;
      right := Origin;
      up := Origin;
      position := Origin;
      worldUp := WorldUp;
      yaw := YAW;
      pitch := PITCH;
      new;
      UpdateCameraVectors();
    }

    function GetViewMatrix(): (m: Mat4)
      reads this
      ensures m == ViewMatrix(math, State())
    {
      math.lookAt(position, Add(position, front), up)
    }

    method ProcessKeyboard(direction: CameraMovement, deltaTime: real)
      modifies this`position
      ensures State() == Keyboard(old(State()), direction, deltaTime)
    {
      ghost var s := State();
      var velocity := movementSpeed * deltaTime;
      match direction {
        case Forward =>
          position := Add(position, Scale(front, velocity));
          assert position == Keyboard(s, Forward, deltaTime).position;
        case Backward =>
          position := Sub(position, Scale(front, velocity));
          assert position == Keyboard(s, Backward, deltaTime).position;
        case Left =>
          position := Sub(position, Scale(right, velocity));
          assert position == Keyboard(s, Left, deltaTime).position;
        case Right =>
          position := Add(position, Scale(right, velocity));
          assert position == Keyboard(s, Right, deltaTime).position;
        case Up =>
          position := Add(position, Scale(up, velocity));
          assert position == Keyboard(s, Up, deltaTime).position;
        case Down =>
          position := Add(position, Scale(Scale(up, -1.0), velocity));
          assert position == Keyboard(s, Down, deltaTime).position;
      }
    }

    /** Returns the caller's offsets as this method leaves them: scaled by the
        mouse sensitivity. */
    method ProcessMouseMovement(xoffset: real, yoffset: real, constrainPitch: bool)
      returns (xScaled: real, yScaled: real)
      modifies this`yaw, this`pitch, this`front, this`right, this`up
      ensures Looked(State(), xScaled, yScaled)
              == MouseMovement(math, old(State()), xoffset, yoffset, constrainPitch)
      ensures old(Valid()) ==> Valid()
      ensures constrainPitch ==> -PITCH_LIMIT <= pitch <= PITCH_LIMIT
    {
      ghost var spec := MouseMovement(math, State(), xoffset, yoffset, constrainPitch);
      xScaled := xoffset * mouseSensitivity;
      yScaled := yoffset * mouseSensitivity;

      yaw := yaw + xScaled;
      pitch := pitch + yScaled;

      if constrainPitch {
        if pitch > PITCH_LIMIT {
          pitch := PITCH_LIMIT;
        }
        if pitch < -PITCH_LIMIT {
          pitch := -PITCH_LIMIT;
        }
      }
      assert pitch == spec.cam.pitch && yaw == spec.cam.yaw;

      UpdateCameraVectors();
      assert State() == spec.cam;
    }

    method ProcessMouseScroll(yoffset: real)
      modifies this`zoom
      ensures State() == Scroll(old(State()), yoffset)
      ensures MIN_ZOOM <= zoom <= MAX_ZOOM
      ensures old(Valid()) ==> Valid()
    {
      zoom := zoom - yoffset;
      if zoom < MIN_ZOOM {
        zoom := MIN_ZOOM;
      }
      if zoom > MAX_ZOOM {
        zoom := MAX_ZOOM;
      }
    }

    /** Recomputes front, right and up from yaw, pitch and world up. */
    method UpdateCameraVectors()
      modifies this`front, this`right, this`up
      ensures BasisDerived(math, State())
    {
      var b := ComputeBasis(math, yaw, pitch, worldUp);
      front, right, up := b.front, b.right, b.up;
    }
  }
}
