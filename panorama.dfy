/**
 * The interaction state machine of the later viewer revision
 * (fruitpanorama.js, FRUITPANORAMA): pointer, touch, wheel and button
 * handlers, the render step, the go-back click and the effects of a finished
 * camera tween.
 *
 * Each handler is given here as a function on a State value; these
 * functions are the specification of the class PanoramaViewer.Viewer, which
 * holds the same state in mutable fields as the closure does.
 */
module Panorama {
  import opened Common

  /** The options read once at construction that the handlers consult. */
  datatype Config = Config(
    enableRotation: bool,
    rotationSpeed: real,
    autoRotateSpeed: real,
    startPolarAngle: real,
    minPolarAngle: real,
    maxPolarAngle: real,
    zoomSpeed: real,
    zoomMin: real,
    zoomMax: real)

  /** Bounds that make the two clamps meaningful; the code itself never checks them. */
  predicate WellFormed(cfg: Config)
  {
    cfg.minPolarAngle <= cfg.maxPolarAngle && cfg.zoomMin <= cfg.zoomMax
  }

  datatype RotationActions = RotationActions(
    isActive: bool, phi: real, theta: real,
    startPhi: real, startTheta: real, startX: real, startY: real)

  datatype IntersectionActions = IntersectionActions(
    isMoving: bool, startX: real, startY: real, moveX: real, moveY: real, fingerNumber: nat)

  datatype ZoomingActions = ZoomingActions(isZoomingPlus: bool, isZoomingMinus: bool, fingerDistance: real)

  /**
   * Everything the handlers read or write. `configuredDistance` and
   * `configuredAutoRotate` are the public `cameraDistance` and `autoRotate`
   * options, which the runtime setters change; `cameraDistance` and
   * `autoRotate` are the private working copies. `zoom` is camera.zoom,
   * `tweens` the camera animations in flight, oldest first, and
   * `pendingWheelTimeouts` the wheel timeouts not yet fired.
   */
  datatype State = State(
    rotation: RotationActions,
    intersection: IntersectionActions,
    zooming: ZoomingActions,
    inTheFruit: bool,
    autoRotate: bool,
    cameraDistance: real,
    intersected: Option<MeshId>,
    goBackVisible: bool,
    buttons: set<ButtonKind>,
    configuredDistance: real,
    configuredAutoRotate: bool,
    zoom: real,
    camera: CameraPose,
    lookAt: LookAt,
    tweens: seq<Tween>,
    pendingWheelTimeouts: nat)

  function Mode(s: State): FocusMode
  {
    ModeOf(s.intersection.isMoving, s.inTheFruit)
  }

  /** The invariant every reachable state keeps. */
  predicate Inv(cfg: Config, s: State)
  {
    && !(s.zooming.isZoomingPlus && s.zooming.isZoomingMinus)
    && s.goBackVisible == s.inTheFruit
    && (s.tweens == [] ==> !s.intersection.isMoving)
    && (cfg.zoomMin <= cfg.zoomMax ==> s.zoom == 1.0 || cfg.zoomMin <= s.zoom <= cfg.zoomMax)
    && (cfg.minPolarAngle <= cfg.maxPolarAngle ==> PolarWithin(s.camera, cfg.minPolarAngle, cfg.maxPolarAngle))
  }

  /** The closure variables as the constructor leaves them; the go-back button starts hidden. */
  function Init(cfg: Config, distance: real, autoRotate: bool, buttons: set<ButtonKind>): (s: State)
    ensures Inv(cfg, s) && Mode(s) == Orbiting
    ensures s.zoom == 1.0 && s.tweens == [] && !s.goBackVisible
  {
    State(
      RotationActions(false, cfg.startPolarAngle, 0.0, 0.0, 0.0, 0.0, 0.0),
      IntersectionActions(false, 0.0, 0.0, 0.0, 0.0, 0),
      ZoomingActions(false, false, 0.0),
      false, autoRotate, distance, None, false, buttons,
      distance, autoRotate, 1.0, Unplaced, Origin, [], 0)
  }

  // ---------------------------------------------------------------- rotation

  function RotationPointerStart(s: State, p: PointerSample): State
  {
    if s.intersection.isMoving then s
    else s.(rotation := s.rotation.(
      isActive := true, startX := p.clientX, startY := p.clientY,
      startPhi := s.rotation.phi, startTheta := s.rotation.theta))
  }

  function RotationPointerMove(cfg: Config, s: State, p: PointerSample): State
  {
    if s.intersection.isMoving || !s.rotation.isActive then s
    else s.(rotation := s.rotation.(
      phi := (p.clientY - s.rotation.startY) * (cfg.rotationSpeed * 0.001) + s.rotation.startPhi,
      theta := (s.rotation.startX - p.clientX) * (cfg.rotationSpeed * 0.001) + s.rotation.startTheta))
  }

  function RotationPointerEnd(s: State): State
  {
    if s.intersection.isMoving then s
    else s.(rotation := s.rotation.(isActive := false))
  }

  // ------------------------------------------------------------ intersection

  function IntersectionPointerStart(s: State, p: PointerSample): State
  {
    if s.inTheFruit then s
    else s.(intersection := s.intersection.(
      startX := p.offsetX, startY := p.offsetY, moveX := p.offsetX, moveY := p.offsetY))
  }

  function IntersectionPointerMove(s: State, p: PointerSample): State
  {
    if s.inTheFruit then s
    else s.(intersection := s.intersection.(moveX := p.offsetX, moveY := p.offsetY))
  }

  /** The press and the last move were at the same canvas point in both coordinates. */
  predicate IsClick(s: State)
  {
    s.intersection.startX == s.intersection.moveX && s.intersection.startY == s.intersection.moveY
  }

  /** What the pointer-end handler checks before it starts a focus-in tween. */
  predicate CanStartFocus(s: State)
  {
    s.intersected.Some? && !s.inTheFruit && IsClick(s)
  }

  function IntersectionPointerEnd(s: State): State
  {
    if s.intersected.None? then s
    else if s.inTheFruit then s
    else if !IsClick(s) then s
    else s.(
      intersection := s.intersection.(isMoving := true),
      autoRotate := false,
      tweens := s.tweens + [FocusIn(s.intersected.value)])
  }

  // ----------------------------------------------------------------- zooming

  function ZoomingMouseWheel(s: State, deltaY: real): State
  {
    var z :=
      if deltaY < 0.0 then s.zooming.(isZoomingPlus := true, isZoomingMinus := false)
      else if deltaY > 0.0 then s.zooming.(isZoomingPlus := false, isZoomingMinus := true)
      else s.zooming;
    s.(zooming := z, pendingWheelTimeouts := s.pendingWheelTimeouts + 1)
  }

  /** The 200 ms timeout a wheel event schedules. */
  function WheelTimeoutFired(s: State): State
    requires s.pendingWheelTimeouts > 0
  {
    s.(zooming := s.zooming.(isZoomingPlus := false, isZoomingMinus := false),
       pendingWheelTimeouts := s.pendingWheelTimeouts - 1)
  }

  function ZoomingTouchStart(s: State, distance: real): State
  {
    s.(zooming := s.zooming.(fingerDistance := distance))
  }

  function ZoomingTouchMove(s: State, distance: real): State
  {
    if distance > s.zooming.fingerDistance then
      s.(zooming := ZoomingActions(true, false, distance))
    else
      s.(zooming := ZoomingActions(false, true, distance))
  }

  function ZoomingTouchEnd(s: State): State
  {
    s.(zooming := s.zooming.(isZoomingPlus := false, isZoomingMinus := false))
  }

  function ZoomPlusStart(s: State): State
  {
    s.(zooming := s.zooming.(isZoomingPlus := true, isZoomingMinus := false))
  }

  function ZoomMinusStart(s: State): State
  {
    s.(zooming := s.zooming.(isZoomingPlus := false, isZoomingMinus := true))
  }

  /** Releasing either zoom button clears both flags. */
  function ZoomButtonEnd(s: State): State
  {
    s.(zooming := s.zooming.(isZoomingPlus := false, isZoomingMinus := false))
  }

  // ------------------------------------------------------------ input events

  function OnMouseDown(s: State, p: PointerSample, modifier: bool): State
  {
    if modifier then s
    else IntersectionPointerStart(RotationPointerStart(s, p), p)
  }

  function OnMouseMove(cfg: Config, s: State, p: PointerSample, modifier: bool): State
  {
    if modifier then s
    else IntersectionPointerMove(RotationPointerMove(cfg, s, p), p)
  }

  /** Mouse-up and mouse-leave. */
  function OnMouseUp(s: State): State
  {
    IntersectionPointerEnd(RotationPointerEnd(s))
  }

  /** `touches` fingers are down; `p` is the first one, `distance` the gap between the first two. */
  function OnTouchStart(s: State, touches: nat, p: PointerSample, distance: real): State
  {
    var s1 := s.(intersection := s.intersection.(fingerNumber := touches));
    if touches == 1 then IntersectionPointerStart(RotationPointerStart(s1, p), p)
    else if touches == 2 then ZoomingTouchStart(s1, distance)
    else s1
  }

  function OnTouchMove(cfg: Config, s: State, touches: nat, p: PointerSample, distance: real): State
  {
    if touches == 1 then
      var s1 := RotationPointerMove(cfg, s, p);
      if s.intersection.fingerNumber == 1 then IntersectionPointerMove(s1, p) else s1
    else if touches == 2 then ZoomingTouchMove(s, distance)
    else s
  }

  function OnTouchEnd(s: State): State
  {
    var s1 := RotationPointerEnd(s);
    var s2 := if s1.intersection.fingerNumber == 1 then IntersectionPointerEnd(s1) else s1;
    ZoomingTouchEnd(s2)
  }

  function OnClickAutoRotate(s: State): State
  {
    s.(autoRotate := !s.autoRotate)
  }

  /** Starts the tween back to the orbit; the button is clickable only while shown. */
  function OnClickGoBack(s: State): State
  {
    s.(intersection := s.intersection.(isMoving := true),
       autoRotate := false,
       tweens := s.tweens + [FocusOut])
  }

  /** The focus-in tween reached its end: the values written at completion. */
  function FocusInComplete(s: State): State
    requires s.tweens != [] && s.tweens[0].FocusIn?
  {
    s.(intersection := s.intersection.(isMoving := false),
       autoRotate := s.configuredAutoRotate,
       cameraDistance := FocusedDistance,
       inTheFruit := true,
       goBackVisible := true,
       intersected := None,
       camera := Animated,
       lookAt := AtMesh(s.tweens[0].target),
       tweens := s.tweens[1..])
  }

  /** The go-back tween reached its end. */
  function FocusOutComplete(s: State): State
    requires s.tweens != [] && s.tweens[0].FocusOut?
  {
    s.(intersection := s.intersection.(isMoving := false),
       autoRotate := s.configuredAutoRotate,
       cameraDistance := s.configuredDistance,
       inTheFruit := false,
       goBackVisible := false,
       camera := Animated,
       lookAt := Origin,
       tweens := s.tweens[1..])
  }

  /** The buttons are rebuilt (go-back hidden) and go-back is shown again when in the fruit. */
  function SetButtons(s: State, buttons: set<ButtonKind>): State
  {
    s.(buttons := buttons, goBackVisible := s.inTheFruit)
  }

  function SetCameraDistance(s: State, value: real): State
  {
    s.(configuredDistance := value, cameraDistance := value)
  }

  function SetAutoRotate(s: State, value: bool): State
  {
    s.(configuredAutoRotate := value, autoRotate := value)
  }

  /** The host assigns this.autoRotate directly, bypassing setAutoRotate. */
  function AssignAutoRotate(s: State, on: bool): State
  {
    s.(configuredAutoRotate := on)
  }

  /** The host assigns this.cameraDistance directly, bypassing setCameraDistance. */
  function AssignCameraDistance(s: State, distance: real): State
  {
    s.(configuredDistance := distance)
  }

  // ----------------------------------------------------------------- render

  /** TWEEN.update(): a running tween moves the camera and the look-at point. */
  function TweenUpdate(s: State): State
  {
    if s.tweens != [] then s.(camera := Animated, lookAt := Interpolating) else s
  }

  /** Auto-rotation advances theta unless a drag is active. */
  function AutoRotateTick(cfg: Config, s: State): State
  {
    if s.autoRotate && !s.rotation.isActive then
      s.(rotation := s.rotation.(theta := s.rotation.theta + cfg.autoRotateSpeed * 0.001))
    else s
  }

  /** The orbit write: the camera placed from (cameraDistance, clamped polar, theta). */
  function OrbitWrite(cfg: Config, s: State): State
  {
    if !s.intersection.isMoving && cfg.enableRotation then
      s.(camera := Orbit(s.cameraDistance, OrbitPolar(s.rotation.phi, cfg.minPolarAngle, cfg.maxPolarAngle), s.rotation.theta))
    else s
  }

  function ZoomTick(cfg: Config, s: State): State
  {
    s.(zoom := ZoomAfterTick(s.zooming.isZoomingPlus, s.zooming.isZoomingMinus, cfg.zoomSpeed, cfg.zoomMin, cfg.zoomMax, s.zoom))
  }

  /**
   * One render step with `pick` the raycaster's nearest pickable mesh. Running
   * tweens move the camera and the look-at point first; then auto-rotation,
   * the orbit write (skipped while moving), the zoom step and the pick.
   */
  function Render(cfg: Config, s: State, pick: Option<MeshId>): (r: State)
    ensures r.intersected == pick
    ensures r.zooming == s.zooming && r.intersection == s.intersection && r.tweens == s.tweens
    ensures r.inTheFruit == s.inTheFruit && r.goBackVisible == s.goBackVisible
    ensures r.autoRotate == s.autoRotate && r.cameraDistance == s.cameraDistance
  {
    ZoomTick(cfg, OrbitWrite(cfg, AutoRotateTick(cfg, TweenUpdate(s)))).(intersected := pick)
  }

  /**
   * Auto-rotation: theta grows by autoRotateSpeed * 0.001 when auto-rotation
   * is on and no drag is active, and the render step changes nothing else of
   * the rotation record.
   */
  lemma RenderAutoRotation(cfg: Config, s: State, pick: Option<MeshId>)
    ensures var r := Render(cfg, s, pick);
      && r.rotation.(theta := s.rotation.theta) == s.rotation
      && (s.autoRotate && !s.rotation.isActive ==> r.rotation.theta == s.rotation.theta + cfg.autoRotateSpeed * 0.001)
      && (!(s.autoRotate && !s.rotation.isActive) ==> r.rotation.theta == s.rotation.theta)
  {
  }

  /**
   * The orbit write: unless moving (and with rotation enabled) the camera is
   * placed at the current radius, the clamped polar angle and theta; while
   * moving only a running tween moves it.
   */
  lemma RenderCamera(cfg: Config, s: State, pick: Option<MeshId>)
    ensures var r := Render(cfg, s, pick);
      && (!s.intersection.isMoving && cfg.enableRotation ==>
            r.camera == Orbit(s.cameraDistance, OrbitPolar(s.rotation.phi, cfg.minPolarAngle, cfg.maxPolarAngle), r.rotation.theta))
      && (s.intersection.isMoving ==> r.camera == (if s.tweens == [] then s.camera else Animated))
  {
  }

  /**
   * The render step keeps the clamp bounds: an orbit-placed camera within
   * the polar bounds, and camera.zoom untouched without a flag and otherwise
   * moved to a value within [zoomMin, zoomMax].
   */
  lemma RenderKeepsBounds(cfg: Config, s: State, pick: Option<MeshId>)
    ensures var r := Render(cfg, s, pick);
      && (cfg.minPolarAngle <= cfg.maxPolarAngle && PolarWithin(s.camera, cfg.minPolarAngle, cfg.maxPolarAngle) ==>
            PolarWithin(r.camera, cfg.minPolarAngle, cfg.maxPolarAngle))
      && (!s.zooming.isZoomingPlus && !s.zooming.isZoomingMinus ==> r.zoom == s.zoom)
      && (cfg.zoomMin <= cfg.zoomMax && (s.zoom == 1.0 || cfg.zoomMin <= s.zoom <= cfg.zoomMax) ==>
            r.zoom == 1.0 || cfg.zoomMin <= r.zoom <= cfg.zoomMax)
      && (cfg.zoomMin <= s.zoom <= cfg.zoomMax ==> cfg.zoomMin <= r.zoom <= cfg.zoomMax)
  {
  }

  // ------------------------------------------------------------------ events

  datatype Event =
    | MouseDown(p: PointerSample, modifier: bool)
    | MouseMove(p: PointerSample, modifier: bool)
    | MouseUp
    | TouchStart(touches: nat, p: PointerSample, distance: real)
    | TouchMove(touches: nat, p: PointerSample, distance: real)
    | TouchEnd
    | Wheel(deltaY: real)
    | WheelTimeout
    | ZoomPlusPress
    | ZoomPlusRelease
    | ZoomMinusPress
    | ZoomMinusRelease
    | AutoRotateClick
    | GoBackClick
    | FocusInDone
    | FocusOutDone
    | ButtonsSet(buttons: set<ButtonKind>)
    | CameraDistanceSet(distance: real)
    | AutoRotateSet(on: bool)
    | AutoRotateAssigned(on: bool)
    | CameraDistanceAssigned(distance: real)
    | Tick(pick: Option<MeshId>)

  /**
   * Whether the event can be delivered at all: a button event needs its
   * button on screen, a completion needs that tween at the head of the queue,
   * a timeout needs one pending.
   */
  predicate Enabled(s: State, e: Event)
  {
    match e
    case ZoomPlusPress | ZoomPlusRelease | ZoomMinusPress | ZoomMinusRelease => ZoomButtons in s.buttons
    case AutoRotateClick => AutoRotateButton in s.buttons
    case GoBackClick => s.goBackVisible
    case FocusInDone => s.tweens != [] && s.tweens[0].FocusIn?
    case FocusOutDone => s.tweens != [] && s.tweens[0].FocusOut?
    case WheelTimeout => s.pendingWheelTimeouts > 0
    case _ => true
  }

  /** The effect of one event; an event that cannot be delivered leaves the state alone. */
  function Step(cfg: Config, s: State, e: Event): State
  {
    if !Enabled(s, e) then s
    else match e
      case MouseDown(p, modifier) => OnMouseDown(s, p, modifier)
      case MouseMove(p, modifier) => OnMouseMove(cfg, s, p, modifier)
      case MouseUp => OnMouseUp(s)
      case TouchStart(n, p, d) => OnTouchStart(s, n, p, d)
      case TouchMove(n, p, d) => OnTouchMove(cfg, s, n, p, d)
      case TouchEnd => OnTouchEnd(s)
      case Wheel(dy) => ZoomingMouseWheel(s, dy)
      case WheelTimeout => WheelTimeoutFired(s)
      case ZoomPlusPress => ZoomPlusStart(s)
      case ZoomPlusRelease => ZoomButtonEnd(s)
      case ZoomMinusPress => ZoomMinusStart(s)
      case ZoomMinusRelease => ZoomButtonEnd(s)
      case AutoRotateClick => OnClickAutoRotate(s)
      case GoBackClick => OnClickGoBack(s)
      case FocusInDone => FocusInComplete(s)
      case FocusOutDone => FocusOutComplete(s)
      case ButtonsSet(b) => SetButtons(s, b)
      case CameraDistanceSet(v) => SetCameraDistance(s, v)
      case AutoRotateSet(v) => SetAutoRotate(s, v)
      case AutoRotateAssigned(on) => AssignAutoRotate(s, on)
      case CameraDistanceAssigned(d) => AssignCameraDistance(s, d)
      case Tick(pick) => Render(cfg, s, pick)
  }

  function Run(cfg: Config, s: State, events: seq<Event>): State
    decreases |events|
  {
    if events == [] then s else Run(cfg, Step(cfg, s, events[0]), events[1..])
  }

  // ------------------------------------------------------------------ lemmas

  lemma MouseDownKeepsInv(cfg: Config, s: State, p: PointerSample, modifier: bool)
    requires Inv(cfg, s)
    ensures Inv(cfg, OnMouseDown(s, p, modifier))
  {
  }

  lemma MouseMoveKeepsInv(cfg: Config, s: State, p: PointerSample, modifier: bool)
    requires Inv(cfg, s)
    ensures Inv(cfg, OnMouseMove(cfg, s, p, modifier))
  {
  }

  lemma MouseUpKeepsInv(cfg: Config, s: State)
    requires Inv(cfg, s)
    ensures Inv(cfg, OnMouseUp(s))
  {
  }

  lemma TouchStartKeepsInv(cfg: Config, s: State, n: nat, p: PointerSample, d: real)
    requires Inv(cfg, s)
    ensures Inv(cfg, OnTouchStart(s, n, p, d))
  {
  }

  lemma TouchMoveKeepsInv(cfg: Config, s: State, n: nat, p: PointerSample, d: real)
    requires Inv(cfg, s)
    ensures Inv(cfg, OnTouchMove(cfg, s, n, p, d))
  {
  }

  lemma TouchEndKeepsInv(cfg: Config, s: State)
    requires Inv(cfg, s)
    ensures Inv(cfg, OnTouchEnd(s))
  {
  }

  lemma FocusInCompleteKeepsInv(cfg: Config, s: State)
    requires Inv(cfg, s) && s.tweens != [] && s.tweens[0].FocusIn?
    ensures Inv(cfg, FocusInComplete(s))
  {
  }

  lemma FocusOutCompleteKeepsInv(cfg: Config, s: State)
    requires Inv(cfg, s) && s.tweens != [] && s.tweens[0].FocusOut?
    ensures Inv(cfg, FocusOutComplete(s))
  {
  }

  lemma RenderKeepsInv(cfg: Config, s: State, pick: Option<MeshId>)
    requires Inv(cfg, s)
    ensures Inv(cfg, Render(cfg, s, pick))
  {
    RenderKeepsBounds(cfg, s, pick);
  }

  /** Every deliverable event keeps the invariant. */
  lemma StepPreservesInv(cfg: Config, s: State, e: Event)
    requires Inv(cfg, s)
    ensures Inv(cfg, Step(cfg, s, e))
  {
    if e.MouseDown? {
      MouseDownKeepsInv(cfg, s, e.p, e.modifier);
    } else if e.MouseMove? {
      MouseMoveKeepsInv(cfg, s, e.p, e.modifier);
    } else if e.MouseUp? {
      MouseUpKeepsInv(cfg, s);
    } else if e.TouchStart? {
      TouchStartKeepsInv(cfg, s, e.touches, e.p, e.distance);
    } else if e.TouchMove? {
      TouchMoveKeepsInv(cfg, s, e.touches, e.p, e.distance);
    } else if e.TouchEnd? {
      TouchEndKeepsInv(cfg, s);
    } else if e.Tick? {
      RenderKeepsInv(cfg, s, e.pick);
    }
  }

  lemma {:induction false} RunPreservesInv(cfg: Config, s: State, events: seq<Event>)
    requires Inv(cfg, s)
    ensures Inv(cfg, Run(cfg, s, events))
    decreases |events|
  {
    if events != [] {
      StepPreservesInv(cfg, s, events[0]);
      RunPreservesInv(cfg, Step(cfg, s, events[0]), events[1..]);
    }
  }

  /**
   * After any sequence of events from construction: never both zoom flags,
   * go-back shown exactly when in the fruit, and, for bounds that are not
   * inverted, camera.zoom still the initial 1 or within [zoomMin, zoomMax]
   * and every orbit-placed camera within the polar bounds.
   */
  lemma ReachableStates(cfg: Config, distance: real, autoRotate: bool, buttons: set<ButtonKind>, events: seq<Event>)
    ensures var s := Run(cfg, Init(cfg, distance, autoRotate, buttons), events);
      && !(s.zooming.isZoomingPlus && s.zooming.isZoomingMinus)
      && s.goBackVisible == s.inTheFruit
      && (s.tweens == [] ==> Mode(s) in {Orbiting, Focused})
      && (WellFormed(cfg) ==> s.zoom == 1.0 || cfg.zoomMin <= s.zoom <= cfg.zoomMax)
      && (WellFormed(cfg) ==> PolarWithin(s.camera, cfg.minPolarAngle, cfg.maxPolarAngle))
  {
    RunPreservesInv(cfg, Init(cfg, distance, autoRotate, buttons), events);
  }

  /** A pinch selects plus exactly when the fingers moved apart, minus otherwise (ties included), and records the distance. */
  lemma PinchDirection(cfg: Config, s: State, p: PointerSample, distance: real)
    ensures OnTouchMove(cfg, s, 2, p, distance).zooming ==
      ZoomingActions(distance > s.zooming.fingerDistance, distance <= s.zooming.fingerDistance, distance)
  {
  }

  /** Mouse events with alt, ctrl or shift held change nothing. */
  lemma ModifierKeysIgnored(cfg: Config, s: State, p: PointerSample)
    ensures OnMouseDown(s, p, true) == s && OnMouseMove(cfg, s, p, true) == s
  {
  }

  /**
   * Releasing the pointer starts a focus-in tween exactly when a mesh is under
   * the pointer, the viewer is not in the fruit and the press was a click;
   * otherwise only the drag ends.
   */
  lemma MouseUpStartsFocusOnlyOnClick(s: State)
    ensures var r := OnMouseUp(s);
      && (r.tweens != s.tweens <==> CanStartFocus(s))
      && (CanStartFocus(s) ==>
            r.intersection.isMoving && !r.autoRotate && r.tweens == s.tweens + [FocusIn(s.intersected.value)])
      && (!CanStartFocus(s) ==> r == RotationPointerEnd(s))
  {
  }

  predicate IsPointerEvent(e: Event)
  {
    e.MouseDown? || e.MouseMove? || e.MouseUp? || e.TouchStart? || e.TouchMove? || e.TouchEnd?
  }

  /** While a tween is moving the camera, pointer input leaves the rotation record alone. */
  lemma RotationFrozenWhileMoving(cfg: Config, s: State, e: Event)
    requires s.intersection.isMoving && IsPointerEvent(e)
    ensures Step(cfg, s, e).rotation == s.rotation
  {
  }

  /**
   * Focus-in completion, the go-back click and go-back completion in a row
   * return to orbiting with the configured radius and auto-rotation and the
   * camera looking at the origin again.
   */
  lemma FocusRoundTrip(cfg: Config, s: State, m: MeshId)
    requires s.tweens == [FocusIn(m)]
    ensures var focused := Step(cfg, s, FocusInDone);
      && Mode(focused) == Focused && focused.goBackVisible
      && focused.cameraDistance == FocusedDistance && focused.autoRotate == s.configuredAutoRotate
      && focused.intersected == None && focused.lookAt == AtMesh(m)
    ensures var back := Run(cfg, s, [FocusInDone, GoBackClick, FocusOutDone]);
      && Mode(back) == Orbiting && !back.goBackVisible && back.tweens == []
      && back.cameraDistance == s.configuredDistance && back.autoRotate == s.configuredAutoRotate
      && back.lookAt == Origin
  {
    var focused := FocusInComplete(s);
    assert Step(cfg, s, FocusInDone) == focused;
    var leaving := OnClickGoBack(focused);
    assert Step(cfg, focused, GoBackClick) == leaving;
    assert leaving.tweens == [FocusOut];
    var back := FocusOutComplete(leaving);
    assert Run(cfg, leaving, [FocusOutDone]) == back;
    assert Run(cfg, s, [FocusInDone, GoBackClick, FocusOutDone])
        == Run(cfg, leaving, [FocusOutDone]);
  }

  /**
   * A direct write to the public autoRotate or cameraDistance property does
   * not touch the working flag or radius; the next tween completion picks
   * the written values up (focus-in the flag, go-back both).
   */
  lemma DirectWritesTakeEffectAtCompletion(s: State, on: bool, d: real)
    ensures var a := AssignCameraDistance(AssignAutoRotate(s, on), d);
      && a == s.(configuredAutoRotate := on, configuredDistance := d)
      && (s.tweens != [] && s.tweens[0].FocusIn? ==> FocusInComplete(a).autoRotate == on)
      && (s.tweens != [] && s.tweens[0].FocusOut? ==>
            FocusOutComplete(a).autoRotate == on && FocusOutComplete(a).cameraDistance == d)
  {
  }

  /** Press, a render that picks mesh `m`, release at the same point: the camera starts moving in to `m`. */
  lemma ClickOnFruitStartsFocus(cfg: Config, s: State, p: PointerSample, m: MeshId)
    requires Mode(s) == Orbiting && s.tweens == []
    ensures var r := Run(cfg, s, [MouseDown(p, false), Tick(Some(m)), MouseUp]);
      Mode(r) == MovingIn && r.tweens == [FocusIn(m)] && !r.autoRotate
  {
    var s1 := Step(cfg, s, MouseDown(p, false));
    var s2 := Step(cfg, s1, Tick(Some(m)));
    assert Run(cfg, s, [MouseDown(p, false), Tick(Some(m)), MouseUp]) == Run(cfg, s2, [MouseUp]);
  }

  /** The same click with nothing under the pointer leaves the viewer orbiting. */
  lemma ClickOnNothingKeepsOrbiting(cfg: Config, s: State, p: PointerSample)
    requires Mode(s) == Orbiting && s.tweens == []
    ensures var r := Run(cfg, s, [MouseDown(p, false), Tick(None), MouseUp]);
      Mode(r) == Orbiting && r.tweens == []
  {
    var s1 := Step(cfg, s, MouseDown(p, false));
    var s2 := Step(cfg, s1, Tick(None));
    assert Run(cfg, s, [MouseDown(p, false), Tick(None), MouseUp]) == Run(cfg, s2, [MouseUp]);
  }

  /** A drag to a different canvas point never starts a focus, even with a mesh under the release point. */
  lemma DragNeverStartsFocus(cfg: Config, s: State, p: PointerSample, q: PointerSample, m: MeshId)
    requires Mode(s) == Orbiting
    requires p.offsetX != q.offsetX || p.offsetY != q.offsetY
    ensures var r := Run(cfg, s, [MouseDown(p, false), MouseMove(q, false), Tick(Some(m)), MouseUp]);
      r.tweens == s.tweens && Mode(r) == Orbiting
  {
    var s1 := Step(cfg, s, MouseDown(p, false));
    var s2 := Step(cfg, s1, MouseMove(q, false));
    var s3 := Step(cfg, s2, Tick(Some(m)));
    var events := [MouseDown(p, false), MouseMove(q, false), Tick(Some(m)), MouseUp];
    assert events[1..] == [MouseMove(q, false), Tick(Some(m)), MouseUp];
    assert events[1..][1..] == [Tick(Some(m)), MouseUp];
    assert !IsClick(s3);
    assert Run(cfg, s, events) == Run(cfg, s1, events[1..]);
    assert Run(cfg, s1, events[1..]) == Run(cfg, s2, events[1..][1..]);
    assert Run(cfg, s, events) == Run(cfg, s3, [MouseUp]);
  }

  /** Nothing blocks a second click while moving in: it queues a second focus-in tween. */
  lemma SecondClickWhileMovingIn(s: State)
    requires Mode(s) == MovingIn && s.intersected.Some? && IsClick(s)
    ensures OnMouseUp(s).tweens == s.tweens + [FocusIn(s.intersected.value)]
  {
  }

  /** Go-back stays on screen while moving out, so it can queue a second go-back tween. */
  lemma GoBackAgainWhileMovingOut(cfg: Config, s: State)
    requires Inv(cfg, s) && Mode(s) == MovingOut
    ensures Step(cfg, s, GoBackClick).tweens == s.tweens + [FocusOut]
  {
  }
}
