/** The input glue of the demo's frame loop: the mouse and scroll callbacks, the
    mapping from window events to camera calls, and the loop state those events
    update. The camera model is in module FreeCamera. */
module App {
  import opened Geometry
  import opened FreeCamera

  datatype Option<T> = None | Some(value: T)

  /** The keys the loop reacts to; every other key is `OtherKey`. */
  datatype Keycode = Escape | W | S | A | D | Space | LShift | X | OtherKey

  /** The window events the loop distinguishes; positions and wheel offsets are integers. */
  datatype Event =
    | Quit
    | KeyDown(keycode: Option<Keycode>)
    | MouseMotion(x: int, y: int)
    | MouseWheel(x: int, y: int)
    | OtherEvent

  /** What the loop does with one event. */
  datatype Command =
    | Exit
    | Move(movement: CameraMovement)
    | Look(x: int, y: int)
    | Wheel(x: int, y: int)
    | Ignore

  /** The movement a key is bound to, if any. */
  function KeyMovement(k: Keycode): Option<CameraMovement> {
    match k
    case W => Some(Forward)
    case S => Some(Backward)
    case A => Some(Left)
    case D => Some(Right)
    case Space => Some(Up)
    case LShift => Some(Down)
    case X => Some(Down)
    case _ => None
  }

  /** The key bindings seen from the movement side. */
  function BoundKeys(m: CameraMovement): set<Keycode> {
    match m
    case Forward => {W}
    case Backward => {S}
    case Left => {A}
    case Right => {D}
    case Up => {Space}
    case Down => {LShift, X}
  }

  /** A key moves the camera in direction `m` exactly when it is one of m's bound keys. */
  lemma KeyMovementMatchesBindings(k: Keycode, m: CameraMovement)
    ensures KeyMovement(k) == Some(m) <==> k in BoundKeys(m)
  {
  }

  /** Every movement is reachable from the keyboard. */
  lemma EveryMovementBound(m: CameraMovement)
    ensures exists k :: KeyMovement(k) == Some(m)
  {
    var k :| k in BoundKeys(m);
    KeyMovementMatchesBindings(k, m);
  }

  /** Dispatch of one event. */
  function Classify(e: Event): (c: Command)
    ensures c == Exit <==> e == Quit || e == KeyDown(Some(Escape))
    ensures forall m :: c == Move(m) <==> e.KeyDown? && e.keycode.Some? && e.keycode.value in BoundKeys(m)
    ensures c.Look? <==> e.MouseMotion?
    ensures c.Wheel? <==> e.MouseWheel?
    ensures e.MouseMotion? ==> c == Look(e.x, e.y)
    ensures e.MouseWheel? ==> c == Wheel(e.x, e.y)
  {
    match e
    case Quit => Exit
    case KeyDown(Some(Escape)) => Exit
    case KeyDown(Some(k)) =>
      (match KeyMovement(k)
       case Some(m) => Move(m)
       case None => Ignore)
    case MouseMotion(x, y) => Look(x, y)
    case MouseWheel(x, y) => Wheel(x, y)
    case _ => Ignore
  }

  /** The mouse callback: offsets from the last position (y reversed, since screen
      y grows downwards), the last position updated, and the camera turned with the
      pitch constrained. The `yaw` and `pitch` parameters are handed back unwritten. */
  method MouseCallback(camera: Camera, xpos: int, ypos: int, lastX: int, lastY: int, yaw: real, pitch: real)
    returns (newLastX: int, newLastY: int, newYaw: real, newPitch: real)
    modifies camera`yaw, camera`pitch, camera`front, camera`right, camera`up
    ensures newLastX == xpos && newLastY == ypos
    ensures newYaw == yaw && newPitch == pitch
    ensures camera.State()
            == MouseMovement(camera.math, old(camera.State()), (xpos - lastX) as real, (lastY - ypos) as real, true).cam
    ensures -PITCH_LIMIT <= camera.pitch <= PITCH_LIMIT
  {
    var xoffset: real := (xpos - lastX) as real;
    var yoffset: real := (lastY - ypos) as real;

    newLastX, newLastY := xpos, ypos;
    newYaw, newPitch := yaw, pitch;

    xoffset, yoffset := camera.ProcessMouseMovement(xoffset, yoffset, true);
  }

  /** The scroll callback: the loop's own copy of the zoom gets the same
      subtract-and-clamp as the camera's. */
  method ScrollCallback(camera: Camera, zoom: real, xoffset: int, yoffset: int) returns (newZoom: real)
    modifies camera`zoom
    ensures NearestIn(MIN_ZOOM, MAX_ZOOM, zoom - yoffset as real, newZoom)
    ensures camera.State() == Scroll(old(camera.State()), yoffset as real)
    ensures zoom == old(camera.zoom) ==> newZoom == camera.zoom
  {
    newZoom := zoom - yoffset as real;
    if newZoom < MIN_ZOOM {
      newZoom := MIN_ZOOM;
    }
    if newZoom > MAX_ZOOM {
      newZoom := MAX_ZOOM;
    }

    camera.ProcessMouseScroll(yoffset as real);
  }

  /** The loop's variables, as a value. `yaw` and `pitch` are the loop's own copies,
      which nothing writes. */
  datatype LoopState = LoopState(
    camera: CameraState,
    mouseLastX: int,
    mouseLastY: int,
    yaw: real,
    pitch: real,
    fov: real,
    firstMouse: bool,
    running: bool
  )

  /** What holds of the loop state after any events: the camera is consistent, its
      pitch is within [-89, 89], the loop's zoom equals the camera's, and the loop's
      own yaw and pitch keep their initial values. */
  predicate LoopInv(math: MathLib, s: LoopState) {
    Consistent(math, s.camera)
    && -PITCH_LIMIT <= s.camera.pitch <= PITCH_LIMIT
    && s.fov == s.camera.zoom
    && s.yaw == YAW && s.pitch == PITCH
  }

  /** A mouse motion to (x, y): on the first one the last position is set to the
      pointer position, so the offsets are zero; then the mouse callback runs. */
  function MouseMotionStep(math: MathLib, s: LoopState, x: int, y: int): LoopState {
    var lastX := if s.firstMouse then x else s.mouseLastX;
    var lastY := if s.firstMouse then y else s.mouseLastY;
    var turned := MouseMovement(math, s.camera, (x - lastX) as real, (lastY - y) as real, true);
    s.(camera := turned.cam, mouseLastX := x, mouseLastY := y, firstMouse := false)
  }

  /** The loop's reaction to one event (a running loop). */
  function Step(math: MathLib, s: LoopState, e: Event, deltaTime: real): (r: LoopState)
    ensures LoopInv(math, s) ==> LoopInv(math, r)
    ensures r.running <==> s.running && Classify(e) != Exit
    ensures !Classify(e).Look? ==> r.firstMouse == s.firstMouse
    ensures Classify(e).Look? ==> !r.firstMouse && r.mouseLastX == e.x && r.mouseLastY == e.y
  {
    match Classify(e)
    case Exit => s.(running := false)
    case Move(m) => s.(camera := Keyboard(s.camera, m, deltaTime))
    case Look(x, y) => MouseMotionStep(math, s, x, y)
    case Wheel(_, y) =>
      s.(camera := Scroll(s.camera, y as real), fov := Clamp(MIN_ZOOM, MAX_ZOOM, s.fov - y as real))
    case Ignore => s
  }

  /** The first mouse motion only records the pointer position: the camera does not turn. */
  lemma FirstMotionDoesNotTurn(math: MathLib, s: LoopState, x: int, y: int, deltaTime: real)
    requires LoopInv(math, s) && s.firstMouse
    ensures Step(math, s, MouseMotion(x, y), deltaTime).camera == s.camera
  {
    var lastX, lastY := x, y;
    assert (x - lastX) as real == 0.0 && (lastY - y) as real == 0.0;
    var turned := MouseMovement(math, s.camera, 0.0, 0.0, true);
    assert turned.cam.yaw == s.camera.yaw;
    NearestUnique(-PITCH_LIMIT, PITCH_LIMIT, s.camera.pitch, turned.cam.pitch, s.camera.pitch);
  }

  /** The events of a frame, handled in order until one ends the loop. */
  function Run(math: MathLib, s: LoopState, events: seq<Event>, deltaTime: real): (r: LoopState)
    ensures LoopInv(math, s) ==> LoopInv(math, r)
    ensures r.running ==> s.running
    decreases |events|
  {
    if events == [] then s
    else
      var t := Run(math, s, events[..|events| - 1], deltaTime);
      if t.running then Step(math, t, events[|events| - 1], deltaTime) else t
  }

  /** Once the loop has ended, later events change nothing. */
  lemma {:induction false} RunStopsAtExit(math: MathLib, s: LoopState, events: seq<Event>, k: nat, deltaTime: real)
    requires k <= |events|
    requires !Run(math, s, events[..k], deltaTime).running
    ensures Run(math, s, events, deltaTime) == Run(math, s, events[..k], deltaTime)
    decreases |events| - k
  {
    if k < |events| {
      var n := |events|;
      assert events[..n] == events;
      assert events[..n - 1][..k] == events[..k];
      RunStopsAtExit(math, s, events[..n - 1], k, deltaTime);
    } else {
      assert events[..k] == events;
    }
  }

  /** The frame loop's state: the camera and the variables the event handling updates. */
  class EventLoop {
    const camera: Camera
    var mouseLastX: int
    var mouseLastY: int
    var yaw: real
    var pitch: real
    var fov: real
    var firstMouse: bool
    var running: bool

    function State(): LoopState
      reads this, camera
    {
      LoopState(camera.State(), mouseLastX, mouseLastY, yaw, pitch, fov, firstMouse, running)
    }

    predicate Valid()
      reads this, camera
    {
      LoopInv(camera.math, State())
    }

    /** The camera starts at (0, 0, 3); the pointer is assumed at the window centre. */
    constructor (math: MathLib)
      ensures Valid() && fresh(camera) && camera.math == math
      ensures camera.position == Vec3(0.0, 0.0, 3.0)
      ensures camera.yaw == YAW && camera.pitch == PITCH && camera.zoom == ZOOM
      ensures camera.movementSpeed == SPEED && camera.mouseSensitivity == SENSITIVITY
      ensures camera.worldUp == WorldUp
      ensures fov == ZOOM && yaw == YAW && pitch == PITCH
      ensures mouseLastX == 400 && mouseLastY == 300
      ensures firstMouse && running
    {
      var c := new Camera(math);
      c.position := Vec3(0.0, 0.0, 3.0);
      camera := c;
      mouseLastX := 400;
      mouseLastY := 300;
      yaw := YAW;
      pitch := PITCH;
      fov := 45.0;
      firstMouse := true;
      running := true;
    }

    /** One event of the frame loop: the event is classified, then the camera and
        the loop variables are updated accordingly. */
    method HandleEvent(e: Event, deltaTime: real)
      requires running
      modifies this, camera
      ensures State() == Step(camera.math, old(State()), e, deltaTime)
    {
      match Classify(e) {
        case Exit =>
          running := false;
        case Move(m) =>
          camera.ProcessKeyboard(m, deltaTime);
        case Look(x, y) =>
          OnMouseMotion(x, y);
        case Wheel(x, y) =>
          ghost var oldFov := fov;
          fov := ScrollCallback(camera, fov, x, y);
          NearestUnique(MIN_ZOOM, MAX_ZOOM, oldFov - y as real, fov, Clamp(MIN_ZOOM, MAX_ZOOM, oldFov - y as real));
        case Ignore =>
      }
    }

    /** The MouseMotion arm of the loop: the first motion only records the pointer
        position, then the mouse callback turns the camera. */
    method OnMouseMotion(x: int, y: int)
      modifies this, camera
      ensures State() == MouseMotionStep(camera.math, old(State()), x, y)
    {
      ghost var before := State();
      ghost var expected := MouseMotionStep(camera.math, before, x, y);
      if firstMouse {
        mouseLastX := x;
        mouseLastY := y;
        firstMouse := false;
      }
      ghost var turned := MouseMovement(camera.math, camera.State(), (x - mouseLastX) as real, (mouseLastY - y) as real, true);
      assert expected == before.(camera := turned.cam, mouseLastX := x, mouseLastY := y, firstMouse := false);
      mouseLastX, mouseLastY, yaw, pitch := MouseCallback(camera, x, y, mouseLastX, mouseLastY, yaw, pitch);
      assert camera.State() == turned.cam;
    }

    /** Handles one frame's events in order; returns whether the loop was asked to end. */
    method PollEvents(events: seq<Event>, deltaTime: real) returns (quit: bool)
      requires running
      modifies this, camera
      ensures State() == Run(camera.math, old(State()), events, deltaTime)
      ensures quit == !running
      ensures old(Valid()) ==> Valid()
    {
      ghost var start := State();
      var i := 0;
      while i < |events| && running
        invariant 0 <= i <= |events|
        invariant State() == Run(camera.math, start, events[..i], deltaTime)
        invariant !running ==> State() == Run(camera.math, start, events, deltaTime)
      {
        HandleEvent(events[i], deltaTime);
        assert events[..i + 1][..i] == events[..i];
        i := i + 1;
        if !running {
          RunStopsAtExit(camera.math, start, events, i, deltaTime);
        }
      }
      if running {
        assert events[..i] == events;
      }
      quit := !running;
    }
  }
}
