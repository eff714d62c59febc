# Free-fly camera of rust_opengl, modelled in Dafny

The demo renders rotating cubes seen through a free-fly camera. This project models
the camera (`src/camera.rs`) and the input glue in the frame loop that drives it
(`src/main.rs`): the mouse and scroll callbacks and the dispatch of window events to
camera calls, including the "first mouse event" reset.

- `geometry.dfy`, module `Geometry`: 3-vectors over `real`, and `MathLib`, a record of
  the math library's cosine, sine, normalisation, cross product and look-at. The
  library is a parameter of the model, so every property holds whatever those
  functions compute. `DegreeToRadian` uses the single-precision value of pi.
- `camera.dfy`, module `FreeCamera`: the `CameraMovement` enumeration, the default
  constants, and `CameraState`, the camera's fields as a value. Each state transition
  is a function on `CameraState` (`Keyboard`, `MouseMovement`, `Scroll`), and
  `ComputeBasis` recomputes front/right/up. The class `Camera` holds the same fields
  and updates them in place. Each of its methods is proved to produce exactly the
  state the matching function describes, and modifies only the fields the source
  writes.
- `main.dfy`, module `App`: window events, the key bindings (`KeyMovement`, `Classify`),
  `MouseCallback` and `ScrollCallback`, and the frame loop's variables. `LoopState`,
  `Step` and `Run` describe the loop as a value. The class `EventLoop` performs it in
  place, and `LoopInv` is the invariant it keeps across any event sequence.

Scalars are `real`, so addition and multiplication are exact. The inverse-pair
property (move one way and then back) holds only under this abstraction.

Notes on what the code does:
- `Camera::new` takes no arguments; speed and sensitivity are the fixed defaults.
- The basis is not claimed orthonormal. That claim rests on floating-point library
  code, which is not part of this model.
- The frame loop keeps its own `yaw`, `pitch` and `fov` copies. `fov` is kept in
  step with the camera's zoom by a duplicated clamp; the model keeps all three and
  proves `fov` equals the zoom and `yaw`/`pitch` are never written.

## Model

| member | source | states |
|---|---|---|
| FreeCamera.Clamp | src/camera.rs:107-115 | the clamped value is the point of [lo, hi] nearest to the input |
| FreeCamera.NearestUnique | src/camera.rs:124-130 | the nearest point of an interval is unique, so any two clamps of one value agree |
| FreeCamera.Keyboard | src/camera.rs:71-95 | keyboard movement changes the position and no other field |
| FreeCamera.KeyboardAlongAxis | src/camera.rs:73-93 | the position moves by movement_speed·delta_time along front, right or up, negated for BACKWARD, LEFT and DOWN |
| FreeCamera.KeyboardInverse | src/camera.rs:77-93 | FORWARD/BACKWARD, LEFT/RIGHT and UP/DOWN with equal delta_time undo each other exactly, in real arithmetic |
| FreeCamera.KeyboardConsistent | src/camera.rs:71-95 | keyboard movement keeps the basis derived and the zoom in [1, 45] |
| FreeCamera.MouseMovement | src/camera.rs:98-119 | offsets come back multiplied by the sensitivity; yaw grows by the x offset, never clamped; pitch grows by the y offset, exactly when unconstrained, or becomes the nearest point of [-89, 89] when constrained; the basis is recomputed from the new angles and world up; position, zoom, speed, sensitivity and world up are unchanged |
| FreeCamera.MouseMovementConsistent | src/camera.rs:106-118 | mouse-look keeps the basis derived and the zoom in [1, 45] |
| FreeCamera.Scroll | src/camera.rs:122-131 | zoom becomes the point of [1, 45] nearest to zoom − yoffset, whatever yoffset is; no other field changes |
| FreeCamera.ViewDeterminedByPose | src/camera.rs:65-68 | with a derived basis, the view matrix depends only on position, yaw, pitch and world up |
| FreeCamera.Camera.constructor | src/camera.rs:42-62 | origin position, world up (0, 1, 0), yaw −90, pitch 0, speed 2.5, sensitivity 0.1, zoom 45, basis derived from these angles |
| FreeCamera.Camera.GetViewMatrix | src/camera.rs:65-68 | look-at from the position toward position + front with up, reading the camera only |
| FreeCamera.Camera.ProcessKeyboard | src/camera.rs:71-95 | modifies only position; the new state is `Keyboard` of the old |
| FreeCamera.Camera.ProcessMouseMovement | src/camera.rs:98-119 | modifies only yaw, pitch, front, right and up; returns the caller's offsets scaled in place; new state is `MouseMovement` of the old; pitch within [-89, 89] when constrained |
| FreeCamera.Camera.ProcessMouseScroll | src/camera.rs:122-131 | modifies only zoom; new state is `Scroll` of the old; zoom within [1, 45] |
| FreeCamera.Camera.UpdateCameraVectors | src/camera.rs:134-146 | front, right and up become the basis determined by yaw, pitch and world up |
| App.KeyMovementMatchesBindings | src/main.rs:319-343 | W, S, A, D, Space and LShift/X are exactly the keys bound to FORWARD, BACKWARD, LEFT, RIGHT, UP and DOWN |
| App.EveryMovementBound | src/main.rs:319-343 | every camera movement is reachable from some key, derived from the binding table |
| App.Classify | src/main.rs:314-357 | an event ends the loop exactly when it is Quit or Escape; it moves the camera in m exactly when it is a key bound to m; mouse motion and wheel events go to their callbacks with the event's coordinates |
| App.MouseCallback | src/main.rs:61-70 | offsets are xpos − last_x and last_y − ypos (y reversed); last position becomes (xpos, ypos); the yaw/pitch parameters come back unwritten; the camera turns with pitch constrained to [-89, 89] |
| App.ScrollCallback | src/main.rs:72-82 | the local zoom becomes the point of [1, 45] nearest to zoom − yoffset; the camera scrolls by the same offset; if the two zooms were equal they stay equal |
| App.Step | src/main.rs:311-357 | one event preserves the loop invariant; the loop stops exactly on Quit/Escape; after a mouse motion first_mouse is false and the last position is the event's |
| App.FirstMotionDoesNotTurn | src/main.rs:344-351 | on the first mouse motion the offsets are zero, so the camera is unchanged |
| App.Run | src/main.rs:311-358 | after any sequence of events the camera pitch is within [-89, 89], zoom is within [1, 45] and equals the loop's fov, the basis is derived, and the loop's own yaw/pitch are untouched |
| App.RunStopsAtExit | src/main.rs:315-318 | once Quit or Escape has been handled, later events change nothing |
| App.EventLoop.constructor | src/main.rs:287-303 | camera at (0, 0, 3) with the default yaw, pitch, zoom, speed, sensitivity and world up; last mouse position (400, 300); the loop's fov 45 and its yaw/pitch copies −90 and 0; first_mouse set; loop invariant established |
| App.EventLoop.HandleEvent | src/main.rs:314-357 | performs `Step` in place |
| App.EventLoop.OnMouseMotion | src/main.rs:344-352 | resets the last position on the first motion, then calls the mouse callback |
| App.EventLoop.PollEvents | src/main.rs:311-358 | handles the events in order until one ends the loop; the new state is `Run` of the old and the invariant is kept |

## Left out

- Floating point: every `f32` is a `real`, so rounding is not modelled. The constant 0.1 is the real 0.1, not its nearest `f32`.
- The numeric content of `update_camera_vectors` and `get_view_matrix`. Cosine, sine, `normalize`, `cross` and `look_at` come from the library as arbitrary functions, so unit length and orthogonality of the basis are not stated.
- App.MouseCallback: does not model overflow of the `i32` subtraction of pointer positions. Pointer positions are window coordinates, and the conversion of the difference to `f32` is taken as exact.
- Timing: `delta_time` comes from the system clock and is a parameter. `Run` and `PollEvents` apply one `delta_time` to the events of one frame. Successive frames compose because each keeps the invariant.
- Rendering and setup in `src/main.rs`: SDL/GL context, buffers, textures, shaders, projection matrix and draw calls. Also the unused `camera_speed` and `direction` values and the unreferenced `vertex_shapes` module.
- SDL event fields other than the keycode, pointer position and wheel offsets (key repeat, modifiers, window ids).
- `src/shader.rs`, `src/sandbox.rs` and the C-string helpers of `src/utils.rs` are not part of this model. `degree_to_radian` is `Geometry.DegreeToRadian`.
