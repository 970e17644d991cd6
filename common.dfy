/**
 * Values shared by both revisions of the panorama viewer: optional values,
 * pointer samples, what the camera is doing, the queue of camera tweens and
 * the clamp used for the polar angle and the zoom factor.
 */
module Common {

  datatype Option<T> = None | Some(value: T)

  /** A pickable fruit mesh, named by its position among the pickable children. */
  type MeshId = nat

  /** Math.PI / 2, the double the viewer subtracts the polar offset from. */
  const HalfPi: real := 1.5707963267948966

  /** The focus distance the camera collapses to once a fruit is focused. */
  const FocusedDistance: real := 0.001

  /**
   * One pointer position as the handlers read it: the page coordinates
   * (clientX, clientY) drive rotation, the coordinates relative to the
   * canvas (clientX - rect.left, clientY - rect.top) drive the click test.
   */
  datatype PointerSample = PointerSample(clientX: real, clientY: real, offsetX: real, offsetY: real)

  /**
   * The camera's placement: never placed yet, placed by the orbit write of the
   * render step (spherical coordinates around the look-at point), or moved by a
   * running camera tween.
   */
  datatype CameraPose = Unplaced | Orbit(radius: real, polar: real, azimuth: real) | Animated

  /** The point the camera looks at: the origin, a focused fruit, or a point a tween is moving. */
  datatype LookAt = Origin | AtMesh(mesh: MeshId) | Interpolating

  /**
   * A camera animation in flight. Every tween of one viewer has the same
   * duration, so tweens complete in the order they were started.
   */
  datatype Tween = FocusIn(target: MeshId) | FocusOut

  /** The optional on-screen buttons; the go-back button always exists. */
  datatype ButtonKind = ZoomButtons | AutoRotateButton | FullScreenButton

  /** The focus mode, encoded in the code by the pair (isMoving, inTheFruit). */
  datatype FocusMode = Orbiting | MovingIn | Focused | MovingOut

  function ModeOf(isMoving: bool, inTheFruit: bool): FocusMode
  {
    match (isMoving, inTheFruit)
    case (false, false) => Orbiting
    case (true, false) => MovingIn
    case (false, true) => Focused
    case (true, true) => MovingOut
  }

  /** Math.max(lo, Math.min(hi, x)), which is also THREE.Math.clamp. */
  function Clamp(x: real, lo: real, hi: real): (r: real)
    ensures lo <= hi ==> lo <= r <= hi
    ensures lo <= x <= hi ==> r == x
    ensures lo <= hi && x < lo ==> r == lo
    ensures lo <= hi && hi < x ==> r == hi
  {
    var m := if x < hi then x else hi;
    if m < lo then lo else m
  }

  /**
   * The polar angle of the orbit write: PI / 2 minus the vertical rotation
   * offset, clamped to [minPolar, maxPolar].
   */
  function OrbitPolar(offset: real, minPolar: real, maxPolar: real): (polar: real)
    ensures minPolar <= maxPolar ==> minPolar <= polar <= maxPolar
    ensures minPolar <= HalfPi - offset <= maxPolar ==> polar == HalfPi - offset
  {
    Clamp(HalfPi - offset, minPolar, maxPolar)
  }

  /**
   * One render step of camera.zoom: the plus flag's clamped step, then the
   * minus flag's. No flag leaves the zoom alone; a flag lands it in
   * [zoomMin, zoomMax]; a zoom already within the bounds stays within them.
   * Plus alone adds zoomSpeed and minus alone subtracts it before the clamp,
   * so with a positive speed each moves a zoom strictly inside the bounds
   * in its own direction.
   */
  function ZoomAfterTick(plus: bool, minus: bool, speed: real, zoomMin: real, zoomMax: real, zoom: real): (r: real)
    ensures !plus && !minus ==> r == zoom
    ensures (plus || minus) && zoomMin <= zoomMax ==> zoomMin <= r <= zoomMax
    ensures zoomMin <= zoomMax && zoomMin <= zoom <= zoomMax ==> zoomMin <= r <= zoomMax
    ensures plus && !minus ==> r == Clamp(zoom + speed, zoomMin, zoomMax)
    ensures minus && !plus ==> r == Clamp(zoom - speed, zoomMin, zoomMax)
    ensures plus && !minus && 0.0 < speed && zoomMin <= zoom < zoomMax ==> zoom < r
    ensures minus && !plus && 0.0 < speed && zoomMin < zoom <= zoomMax ==> r < zoom
  {
    var afterPlus := if plus then Clamp(zoom + speed, zoomMin, zoomMax) else zoom;
    if minus then Clamp(afterPlus - speed, zoomMin, zoomMax) else afterPlus
  }

  /** The camera's placement satisfies the polar bounds (vacuous unless it was orbit-placed). */
  predicate PolarWithin(camera: CameraPose, minPolar: real, maxPolar: real)
  {
    camera.Orbit? ==> minPolar <= camera.polar <= maxPolar
  }
}
