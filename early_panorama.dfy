/**
 * The interaction state machine of the earlier viewer revision (fruit.js,
 * FRUITPANORAMA). It differs from the later one in what it gates and how:
 * auto-rotation needs four flags, the click test accepts a purely horizontal
 * or purely vertical drag, touch never picks a fruit, a pinch tie zooms in,
 * the two zoom buttons keep their own flags (so both can be on at once), and
 * the completion of a tween fires the in/out events whose handlers show and
 * hide go-back.
 *
 * Each handler is a function on a State value; these functions specify the
 * class EarlyViewer.Viewer.
 */
module EarlyPanorama {
  import opened Common

  /** The options the handlers consult; the on-screen buttons are fixed at construction. */
  datatype Config = Config(
    rotationSpeed: real,
    autoRotateSpeed: real,
    minPolarAngle: real,
    maxPolarAngle: real,
    zoomSpeed: real,
    zoomMin: real,
    zoomMax: real,
    buttons: set<ButtonKind>)

  predicate WellFormed(cfg: Config)
  {
    cfg.minPolarAngle <= cfg.maxPolarAngle && cfg.zoomMin <= cfg.zoomMax
  }

  /** rotationActions: longitude and latitude of the drag, and where it started. */
  datatype RotationActions = RotationActions(
    isActive: bool, startX: real, lon: real, startLon: real, startY: real, lat: real, startLat: real)

  datatype ZoomingActions = ZoomingActions(isZoomingPlus: bool, isZoomingMinus: bool, fingersDistance: real)

  /** intersectionActions, which here also carries the tween's auto-rotation gate. */
  datatype IntersectionActions = IntersectionActions(
    startX: real, startY: real, moveX: real, moveY: real, autoRotate: bool, isMoving: bool)

  /**
   * The closure variables the handlers touch, plus the two public properties
   * the host may overwrite (this.autoRotate and this.cameraDistance) and the
   * timeouts still pending for the wheel and for each zoom button.
   */
  datatype State = State(
    rotation: RotationActions,
    zooming: ZoomingActions,
    intersection: IntersectionActions,
    buttonsAutoRotate: bool,
    optionAutoRotate: bool,
    optionDistance: real,
    cameraDistance: real,
    inTheSphere: bool,
    goBackVisible: bool,
    intersected: Option<MeshId>,
    zoom: real,
    camera: CameraPose,
    lookAt: LookAt,
    tweens: seq<Tween>,
    pendingWheelTimeouts: nat,
    pendingPlusTimeouts: nat,
    pendingMinusTimeouts: nat)

  function Mode(s: State): FocusMode
  {
    ModeOf(s.intersection.isMoving, s.inTheSphere)
  }

  /**
   * The invariant every reachable state keeps. Unlike the later revision it
   * does not exclude both zoom flags at once.
   */
  predicate Inv(cfg: Config, s: State)
  {
    && s.goBackVisible == s.inTheSphere
    && (s.tweens == [] ==> !s.intersection.isMoving)
    && (cfg.zoomMin <= cfg.zoomMax ==> s.zoom == 1.0 || cfg.zoomMin <= s.zoom <= cfg.zoomMax)
    && (cfg.minPolarAngle <= cfg.maxPolarAngle ==> PolarWithin(s.camera, cfg.minPolarAngle, cfg.maxPolarAngle))
  }

  /** The state after construction: every auto-rotation gate copies the option. */
  function Init(cfg: Config, distance: real, autoRotate: bool): (s: State)
    ensures Inv(cfg, s) && Mode(s) == Orbiting
    ensures s.intersection.autoRotate == autoRotate && s.buttonsAutoRotate == autoRotate
    ensures s.zoom == 1.0 && s.tweens == [] && !s.goBackVisible
  {
    State(
      RotationActions(false, 0.0, 0.0, 0.0, 0.0, 0.0, 0.0),
      ZoomingActions(false, false, 0.0),
      IntersectionActions(0.0, 0.0, 0.0, 0.0, autoRotate, false),
      autoRotate, autoRotate, distance, distance, false, false, None,
      1.0, Unplaced, Origin, [], 0, 0, 0)
  }

  // ---------------------------------------------------------------- rotation

  function RotationPointerStart(s: State, p: PointerSample): State
  {
    if s.intersection.isMoving then s
    else s.(rotation := s.rotation.(
      isActive := true, startX := p.clientX, startY := p.clientY,
      startLon := s.rotation.lon, startLat := s.rotation.lat))
  }

  /** The drag offset times rotationSpeed, with no further scaling. */
  function RotationPointerMove(cfg: Config, s: State, p: PointerSample): State
  {
    if s.intersection.isMoving || !s.rotation.isActive then s
    else s.(rotation := s.rotation.(
      lon := (s.rotation.startX - p.clientX) * cfg.rotationSpeed + s.rotation.startLon,
      lat := (p.clientY - s.rotation.startY) * cfg.rotationSpeed + s.rotation.startLat))
  }

  function RotationPointerEnd(s: State): State
  {
    if s.intersection.isMoving then s
    else s.(rotation := s.rotation.(isActive := false))
  }

  // ----------------------------------------------------------------- zooming

  function ZoomingTouchStart(s: State, distance: real): State
  {
    s.(zooming := s.zooming.(fingersDistance := distance))
  }

  /** Fingers closer: zoom out; otherwise, a tie included, zoom in. */
  function ZoomingTouchMove(s: State, distance: real): State
  {
    var z := if distance < s.zooming.fingersDistance
      then s.zooming.(isZoomingPlus := false, isZoomingMinus := true)
      else s.zooming.(isZoomingMinus := false, isZoomingPlus := true);
    s.(zooming := z.(fingersDistance := distance))
  }

  function ZoomingTouchEnd(s: State): State
  {
    s.(zooming := s.zooming.(isZoomingPlus := false, isZoomingMinus := false))
  }

  function ZoomingMouseWheel(s: State, deltaY: real): State
  {
    var z :=
      if deltaY < 0.0 then s.zooming.(isZoomingPlus := true, isZoomingMinus := false)
      else if deltaY > 0.0 then s.zooming.(isZoomingPlus := false, isZoomingMinus := true)
      else s.zooming;
    s.(zooming := z, pendingWheelTimeouts := s.pendingWheelTimeouts + 1)
  }

  /** The 200 ms wheel timeout clears both flags. */
  function WheelTimeoutFired(s: State): State
    requires s.pendingWheelTimeouts > 0
  {
    s.(zooming := s.zooming.(isZoomingPlus := false, isZoomingMinus := false),
       pendingWheelTimeouts := s.pendingWheelTimeouts - 1)
  }

  /** A zoom-plus click sets only the plus flag and schedules a 400 ms timeout. */
  function ZoomPlusClick(s: State): State
  {
    s.(zooming := s.zooming.(isZoomingPlus := true), pendingPlusTimeouts := s.pendingPlusTimeouts + 1)
  }

  /** The zoom-plus timeout clears only the plus flag. */
  function PlusTimeoutFired(s: State): State
    requires s.pendingPlusTimeouts > 0
  {
    s.(zooming := s.zooming.(isZoomingPlus := false), pendingPlusTimeouts := s.pendingPlusTimeouts - 1)
  }

  function ZoomMinusClick(s: State): State
  {
    s.(zooming := s.zooming.(isZoomingMinus := true), pendingMinusTimeouts := s.pendingMinusTimeouts + 1)
  }

  function MinusTimeoutFired(s: State): State
    requires s.pendingMinusTimeouts > 0
  {
    s.(zooming := s.zooming.(isZoomingMinus := false), pendingMinusTimeouts := s.pendingMinusTimeouts - 1)
  }

  // ------------------------------------------------------------ intersection

  /** Records only where the press happened; the move position stays as the last move left it. */
  function IntersectionPointerStart(s: State, p: PointerSample): State
  {
    s.(intersection := s.intersection.(startX := p.offsetX, startY := p.offsetY))
  }

  function IntersectionPointerMove(s: State, p: PointerSample): State
  {
    s.(intersection := s.intersection.(moveX := p.offsetX, moveY := p.offsetY))
  }

  /** The test onMouseUp applies: the same column OR the same row counts as a click. */
  predicate PassesClickTest(s: State)
  {
    s.intersection.startX == s.intersection.moveX || s.intersection.startY == s.intersection.moveY
  }

  predicate CanStartFocus(s: State)
  {
    s.intersected.Some? && !s.inTheSphere
  }

  /**
   * Starts the focus-in tween; auto-rotation is gated off only when the
   * option is on. INTERSECTED is not cleared.
   */
  function IntersectionPointerEnd(s: State): State
  {
    if !CanStartFocus(s) then s
    else s.(intersection := s.intersection.(
              autoRotate := if s.optionAutoRotate then false else s.intersection.autoRotate,
              isMoving := true),
            tweens := s.tweens + [FocusIn(s.intersected.value)])
  }

  // ------------------------------------------------------------ input events

  /** No modifier-key check in this revision. */
  function OnMouseDown(s: State, p: PointerSample): State
  {
    IntersectionPointerStart(RotationPointerStart(s, p), p)
  }

  function OnMouseMove(cfg: Config, s: State, p: PointerSample): State
  {
    IntersectionPointerMove(RotationPointerMove(cfg, s, p), p)
  }

  /** Mouse-up and mouse-leave. */
  function OnMouseUp(s: State): State
  {
    var s1 := RotationPointerEnd(s);
    if PassesClickTest(s1) then IntersectionPointerEnd(s1) else s1
  }

  /** Touch drives rotation and pinch only; it never reaches the intersection handlers. */
  function OnTouchStart(s: State, touches: nat, p: PointerSample, distance: real): State
  {
    if touches == 1 then RotationPointerStart(s, p)
    else if touches == 2 then ZoomingTouchStart(s, distance)
    else s
  }

  function OnTouchMove(cfg: Config, s: State, touches: nat, p: PointerSample, distance: real): State
  {
    if touches == 1 then RotationPointerMove(cfg, s, p)
    else if touches == 2 then ZoomingTouchMove(s, distance)
    else s
  }

  function OnTouchEnd(s: State): State
  {
    ZoomingTouchEnd(RotationPointerEnd(s))
  }

  // ------------------------------------------------- buttons and custom events

  /** The fruitpanoInTheSphere handler. */
  function OnInTheSphere(s: State): State
  {
    s.(inTheSphere := true, goBackVisible := true)
  }

  /** The fruitpanoOutTheSphere handler. */
  function OnOutTheSphere(s: State): State
  {
    s.(inTheSphere := false, goBackVisible := false)
  }

  /** Switches the option on (and the tween gate with it) if it was off, and toggles the button gate. */
  function OnClickAutoRotate(s: State): State
  {
    var s1 :=
      if !s.optionAutoRotate then s.(optionAutoRotate := true, intersection := s.intersection.(autoRotate := true))
      else s;
    s1.(buttonsAutoRotate := !s1.buttonsAutoRotate)
  }

  function OnClickGoBack(s: State): State
  {
    s.(intersection := s.intersection.(
         autoRotate := if s.optionAutoRotate then false else s.intersection.autoRotate,
         isMoving := true),
       tweens := s.tweens + [FocusOut])
  }

  /** The focus-in tween ends; its completion dispatches fruitpanoInTheSphere. */
  function FocusInComplete(s: State): State
    requires s.tweens != [] && s.tweens[0].FocusIn?
  {
    OnInTheSphere(s.(
      intersection := s.intersection.(isMoving := false, autoRotate := true),
      cameraDistance := FocusedDistance,
      camera := Animated,
      lookAt := AtMesh(s.tweens[0].target),
      tweens := s.tweens[1..]))
  }

  /** The go-back tween ends; its completion dispatches fruitpanoOutTheSphere. */
  function FocusOutComplete(s: State): State
    requires s.tweens != [] && s.tweens[0].FocusOut?
  {
    OnOutTheSphere(s.(
      intersection := s.intersection.(isMoving := false, autoRotate := true),
      cameraDistance := s.optionDistance,
      camera := Animated,
      lookAt := Origin,
      tweens := s.tweens[1..]))
  }

  /** The host assigns this.autoRotate. */
  function AssignAutoRotate(s: State, on: bool): State
  {
    s.(optionAutoRotate := on)
  }

  /** The host assigns this.cameraDistance. */
  function AssignCameraDistance(s: State, distance: real): State
  {
    s.(optionDistance := distance)
  }

  /** changeCameraDistance(): the orbit radius takes the public property. */
  function ChangeCameraDistance(s: State): State
  {
    s.(cameraDistance := s.optionDistance)
  }

  /** updateAutoRotate(): both gates take the public property. */
  function UpdateAutoRotate(s: State): State
  {
    s.(intersection := s.intersection.(autoRotate := s.optionAutoRotate),
       buttonsAutoRotate := s.optionAutoRotate)
  }

  // ------------------------------------------------------------------ render

  function TweenUpdate(s: State): State
  {
    if s.tweens != [] then s.(camera := Animated, lookAt := Interpolating) else s
  }

  predicate AutoRotating(s: State)
  {
    !s.rotation.isActive && s.optionAutoRotate && s.intersection.autoRotate && s.buttonsAutoRotate
  }

  /** Longitude grows by autoRotateSpeed (unscaled) when all four gates are open. */
  function AutoRotateTick(cfg: Config, s: State): State
  {
    if AutoRotating(s) then s.(rotation := s.rotation.(lon := s.rotation.lon + cfg.autoRotateSpeed)) else s
  }

  /** The orbit write, skipped only while a tween moves the camera. */
  function OrbitWrite(cfg: Config, s: State): State
  {
    if !s.intersection.isMoving then
      s.(camera := Orbit(s.cameraDistance, OrbitPolar(s.rotation.lat, cfg.minPolarAngle, cfg.maxPolarAngle), s.rotation.lon))
    else s
  }

  function ZoomTick(cfg: Config, s: State): State
  {
    s.(zoom := ZoomAfterTick(s.zooming.isZoomingPlus, s.zooming.isZoomingMinus, cfg.zoomSpeed, cfg.zoomMin, cfg.zoomMax, s.zoom))
  }

  /** One animation frame with `pick` the raycaster's nearest pickable mesh. */
  function Render(cfg: Config, s: State, pick: Option<MeshId>): (r: State)
    ensures r.intersected == pick
    ensures r.zooming == s.zooming && r.intersection == s.intersection && r.tweens == s.tweens
    ensures r.inTheSphere == s.inTheSphere && r.goBackVisible == s.goBackVisible
    ensures r.cameraDistance == s.cameraDistance
  {
    ZoomTick(cfg, OrbitWrite(cfg, AutoRotateTick(cfg, TweenUpdate(s)))).(intersected := pick)
  }

  // ------------------------------------------------------------------ events

  datatype Event =
    | MouseDown(p: PointerSample)
    | MouseMove(p: PointerSample)
    | MouseUp
    | TouchStart(touches: nat, p: PointerSample, distance: real)
    | TouchMove(touches: nat, p: PointerSample, distance: real)
    | TouchEnd
    | Wheel(deltaY: real)
    | WheelTimeout
    | ZoomPlusClicked
    | PlusTimeout
    | ZoomMinusClicked
    | MinusTimeout
    | AutoRotateClick
    | GoBackClick
    | FocusInDone
    | FocusOutDone
    | AutoRotateAssigned(on: bool)
    | CameraDistanceAssigned(distance: real)
    | CameraDistanceChanged
    | AutoRotateUpdated
    | Tick(pick: Option<MeshId>)

  /** A button event needs its button; a completion, its tween at the head; a timeout, one pending. */
  predicate Enabled(cfg: Config, s: State, e: Event)
  {
    match e
    case ZoomPlusClicked | ZoomMinusClicked => ZoomButtons in cfg.buttons
    case AutoRotateClick => AutoRotateButton in cfg.buttons
    case GoBackClick => s.goBackVisible
    case FocusInDone => s.tweens != [] && s.tweens[0].FocusIn?
    case FocusOutDone => s.tweens != [] && s.tweens[0].FocusOut?
    case WheelTimeout => s.pendingWheelTimeouts > 0
    case PlusTimeout => s.pendingPlusTimeouts > 0
    case MinusTimeout => s.pendingMinusTimeouts > 0
    case _ => true
  }

  function Step(cfg: Config, s: State, e: Event): State
  {
    if !Enabled(cfg, s, e) then s
    else match e
      case MouseDown(p) => OnMouseDown(s, p)
      case MouseMove(p) => OnMouseMove(cfg, s, p)
      case MouseUp => OnMouseUp(s)
      case TouchStart(n, p, d) => OnTouchStart(s, n, p, d)
      case TouchMove(n, p, d) => OnTouchMove(cfg, s, n, p, d)
      case TouchEnd => OnTouchEnd(s)
      case Wheel(dy) => ZoomingMouseWheel(s, dy)
      case WheelTimeout => WheelTimeoutFired(s)
      case ZoomPlusClicked => ZoomPlusClick(s)
      case PlusTimeout => PlusTimeoutFired(s)
      case ZoomMinusClicked => ZoomMinusClick(s)
      case MinusTimeout => MinusTimeoutFired(s)
      case AutoRotateClick => OnClickAutoRotate(s)
      case GoBackClick => OnClickGoBack(s)
      case FocusInDone => FocusInComplete(s)
      case FocusOutDone => FocusOutComplete(s)
      case AutoRotateAssigned(on) => AssignAutoRotate(s, on)
      case CameraDistanceAssigned(d) => AssignCameraDistance(s, d)
      case CameraDistanceChanged => ChangeCameraDistance(s)
      case AutoRotateUpdated => UpdateAutoRotate(s)
      case Tick(pick) => Render(cfg, s, pick)
  }

  function Run(cfg: Config, s: State, events: seq<Event>): State
    decreases |events|
  {
    if events == [] then s else Run(cfg, Step(cfg, s, events[0]), events[1..])
  }

  // ------------------------------------------------------------------ lemmas

  lemma MouseDownKeepsInv(cfg: Config, s: State, p: PointerSample)
    requires Inv(cfg, s)
    ensures Inv(cfg, OnMouseDown(s, p))
  {
  }

  lemma MouseMoveKeepsInv(cfg: Config, s: State, p: PointerSample)
    requires Inv(cfg, s)
    ensures Inv(cfg, OnMouseMove(cfg, s, p))
  {
  }

  lemma MouseUpKeepsInv(cfg: Config, s: State)
    requires Inv(cfg, s)
    ensures Inv(cfg, OnMouseUp(s))
  {
  }

  lemma TouchStartKeepsInv(cfg: Config, s: State, n: nat, p: PointerSample, d: real)
    requires Inv(cfg, s)
    ensures Inv(cfg, OnTouchStart(s, n, p, d))
  {
  }

  lemma TouchMoveKeepsInv(cfg: Config, s: State, n: nat, p: PointerSample, d: real)
    requires Inv(cfg, s)
    ensures Inv(cfg, OnTouchMove(cfg, s, n, p, d))
  {
  }

  lemma TouchEndKeepsInv(cfg: Config, s: State)
    requires Inv(cfg, s)
    ensures Inv(cfg, OnTouchEnd(s))
  {
  }

  lemma FocusInCompleteKeepsInv(cfg: Config, s: State)
    requires Inv(cfg, s) && s.tweens != [] && s.tweens[0].FocusIn?
    ensures Inv(cfg, FocusInComplete(s))
  {
  }

  lemma FocusOutCompleteKeepsInv(cfg: Config, s: State)
    requires Inv(cfg, s) && s.tweens != [] && s.tweens[0].FocusOut?
    ensures Inv(cfg, FocusOutComplete(s))
  {
  }

  lemma TweenUpdateKeepsInv(cfg: Config, s: State)
    requires Inv(cfg, s)
    ensures Inv(cfg, TweenUpdate(s))
  {
  }

  lemma AutoRotateTickKeepsInv(cfg: Config, s: State)
    requires Inv(cfg, s)
    ensures Inv(cfg, AutoRotateTick(cfg, s))
  {
  }

  /** The orbit write keeps the camera within the polar bounds. */
  lemma OrbitWriteKeepsInv(cfg: Config, s: State)
    requires Inv(cfg, s)
    ensures Inv(cfg, OrbitWrite(cfg, s))
  {
  }

  /** The zoom step keeps camera.zoom at 1 or within the bounds, with both flags on as much as with one. */
  lemma ZoomTickKeepsInv(cfg: Config, s: State)
    requires Inv(cfg, s)
    ensures Inv(cfg, ZoomTick(cfg, s))
  {
  }

  lemma RenderKeepsInv(cfg: Config, s: State, pick: Option<MeshId>)
    requires Inv(cfg, s)
    ensures Inv(cfg, Render(cfg, s, pick))
  {
    var t := TweenUpdate(s);
    TweenUpdateKeepsInv(cfg, s);
    var u := AutoRotateTick(cfg, t);
    AutoRotateTickKeepsInv(cfg, t);
    var v := OrbitWrite(cfg, u);
    OrbitWriteKeepsInv(cfg, u);
    ZoomTickKeepsInv(cfg, v);
  }

  lemma StepPreservesInv(cfg: Config, s: State, e: Event)
    requires Inv(cfg, s)
    ensures Inv(cfg, Step(cfg, s, e))
  {
    if !Enabled(cfg, s, e) {
    } else if e.MouseUp? {
      MouseUpKeepsInv(cfg, s);
    } else if e.TouchStart? {
      TouchStartKeepsInv(cfg, s, e.touches, e.p, e.distance);
    } else if e.TouchMove? {
      TouchMoveKeepsInv(cfg, s, e.touches, e.p, e.distance);
    } else if e.TouchEnd? {
      TouchEndKeepsInv(cfg, s);
    } else if e.FocusInDone? {
      FocusInCompleteKeepsInv(cfg, s);
    } else if e.FocusOutDone? {
      FocusOutCompleteKeepsInv(cfg, s);
    } else if e.Tick? {
      RenderKeepsInv(cfg, s, e.pick);
    }
  }

  lemma {:induction false} RunPreservesInv(cfg: Config, s: State, events: seq<Event>)
    requires Inv(cfg, s)
    ensures Inv(cfg, Run(cfg, s, events))
    decreases |events|
  {
    if events != [] {
      StepPreservesInv(cfg, s, events[0]);
      RunPreservesInv(cfg, Step(cfg, s, events[0]), events[1..]);
    }
  }

  /**
   * After any sequence of events from construction: go-back shown exactly
   * when in the sphere, no tween running means not moving, and, for bounds
   * that are not inverted, camera.zoom still the initial 1 or within
   * [zoomMin, zoomMax] and every orbit-placed camera within the polar bounds.
   */
  lemma ReachableStates(cfg: Config, distance: real, autoRotate: bool, events: seq<Event>)
    ensures var s := Run(cfg, Init(cfg, distance, autoRotate), events);
      && s.goBackVisible == s.inTheSphere
      && (s.tweens == [] ==> Mode(s) in {Orbiting, Focused})
      && (WellFormed(cfg) ==> s.zoom == 1.0 || cfg.zoomMin <= s.zoom <= cfg.zoomMax)
      && (WellFormed(cfg) ==> PolarWithin(s.camera, cfg.minPolarAngle, cfg.maxPolarAngle))
  {
    RunPreservesInv(cfg, Init(cfg, distance, autoRotate), events);
  }

  /**
   * A wheel-up followed by a zoom-minus click turns both zoom flags on; the
   * next frame applies both clamped steps and still lands within the bounds.
   */
  lemma BothZoomFlagsReachable(cfg: Config, distance: real, autoRotate: bool, pick: Option<MeshId>)
    requires ZoomButtons in cfg.buttons && WellFormed(cfg)
    ensures var s := Run(cfg, Init(cfg, distance, autoRotate), [Wheel(-1.0), ZoomMinusClicked]);
      && s.zooming.isZoomingPlus && s.zooming.isZoomingMinus
      && var r := Render(cfg, s, pick);
         cfg.zoomMin <= r.zoom <= cfg.zoomMax
  {
    var s0 := Init(cfg, distance, autoRotate);
    var s1 := Step(cfg, s0, Wheel(-1.0));
    assert s1.zooming.isZoomingPlus;
    assert Run(cfg, s0, [Wheel(-1.0), ZoomMinusClicked]) == Run(cfg, s1, [ZoomMinusClicked]);
  }

  /**
   * Each zoom-button timeout, whenever one is pending, clears its own flag
   * only, whatever set the other flag (the other button or the wheel).
   */
  lemma ButtonTimeoutsClearOwnFlag(s: State)
    ensures s.pendingPlusTimeouts > 0 ==>
      && !PlusTimeoutFired(s).zooming.isZoomingPlus
      && PlusTimeoutFired(s).zooming.isZoomingMinus == s.zooming.isZoomingMinus
      && PlusTimeoutFired(s).pendingMinusTimeouts == s.pendingMinusTimeouts
    ensures s.pendingMinusTimeouts > 0 ==>
      && !MinusTimeoutFired(s).zooming.isZoomingMinus
      && MinusTimeoutFired(s).zooming.isZoomingPlus == s.zooming.isZoomingPlus
      && MinusTimeoutFired(s).pendingPlusTimeouts == s.pendingPlusTimeouts
  {
  }

  /** A pinch zooms out exactly when the fingers came closer; a tie zooms in. */
  lemma PinchDirection(cfg: Config, s: State, p: PointerSample, distance: real)
    ensures OnTouchMove(cfg, s, 2, p, distance).zooming ==
      ZoomingActions(distance >= s.zooming.fingersDistance, distance < s.zooming.fingersDistance, distance)
  {
  }

  /** Longitude advances in a frame exactly when all four auto-rotation gates are open. */
  lemma AutoRotationNeedsFourGates(cfg: Config, s: State, pick: Option<MeshId>)
    ensures var r := Render(cfg, s, pick);
      && (AutoRotating(s) ==> r.rotation.lon == s.rotation.lon + cfg.autoRotateSpeed)
      && (!AutoRotating(s) ==> r.rotation.lon == s.rotation.lon)
      && r.rotation.(lon := s.rotation.lon) == s.rotation
  {
  }

  /**
   * The orbit write: unless moving the camera is placed at the current
   * radius, the clamped polar angle and lon (there is no rotation switch in
   * this revision); while moving only a running tween moves it.
   */
  lemma RenderCamera(cfg: Config, s: State, pick: Option<MeshId>)
    ensures var r := Render(cfg, s, pick);
      && (!s.intersection.isMoving ==>
            r.camera == Orbit(s.cameraDistance, OrbitPolar(s.rotation.lat, cfg.minPolarAngle, cfg.maxPolarAngle), r.rotation.lon))
      && (s.intersection.isMoving ==> r.camera == (if s.tweens == [] then s.camera else Animated))
  {
  }

  /**
   * Releasing the mouse starts a focus-in exactly when a mesh is picked,
   * the viewer is outside the sphere and the press and the last move share
   * a column or a row.
   */
  lemma MouseUpStartsFocusExactly(s: State)
    ensures var r := OnMouseUp(s);
      && (r.tweens != s.tweens <==> CanStartFocus(s) && PassesClickTest(s))
      && (CanStartFocus(s) && PassesClickTest(s) ==>
            && r.intersection.isMoving
            && r.tweens == s.tweens + [FocusIn(s.intersected.value)]
            && r.intersection.autoRotate == (if s.optionAutoRotate then false else s.intersection.autoRotate))
      && (!(CanStartFocus(s) && PassesClickTest(s)) ==> r == RotationPointerEnd(s))
  {
  }

  /**
   * A purely horizontal drag onto a fruit counts as a click: the camera
   * starts moving in.
   */
  lemma HorizontalDragStartsFocus(cfg: Config, s: State, p: PointerSample, q: PointerSample, m: MeshId)
    requires Mode(s) == Orbiting && s.tweens == []
    requires p.offsetY == q.offsetY && p.offsetX != q.offsetX
    ensures var r := Run(cfg, s, [MouseDown(p), MouseMove(q), Tick(Some(m)), MouseUp]);
      Mode(r) == MovingIn && r.tweens == [FocusIn(m)]
  {
    var s1 := Step(cfg, s, MouseDown(p));
    var s2 := Step(cfg, s1, MouseMove(q));
    var s3 := Step(cfg, s2, Tick(Some(m)));
    var events := [MouseDown(p), MouseMove(q), Tick(Some(m)), MouseUp];
    assert events[1..] == [MouseMove(q), Tick(Some(m)), MouseUp];
    assert events[1..][1..] == [Tick(Some(m)), MouseUp];
    assert PassesClickTest(s3);
    assert Run(cfg, s, events) == Run(cfg, s1, events[1..]);
    assert Run(cfg, s1, events[1..]) == Run(cfg, s2, events[1..][1..]);
    assert Run(cfg, s, events) == Run(cfg, s3, [MouseUp]);
  }

  predicate IsTouchEvent(e: Event)
  {
    e.TouchStart? || e.TouchMove? || e.TouchEnd?
  }

  /** Touch input never starts a tween and never touches the click record. */
  lemma TouchNeverFocuses(cfg: Config, s: State, e: Event)
    requires IsTouchEvent(e)
    ensures Step(cfg, s, e).tweens == s.tweens
    ensures Step(cfg, s, e).intersection == s.intersection
  {
  }

  /** While a tween is moving the camera, mouse and touch input leave the rotation record alone. */
  lemma RotationFrozenWhileMoving(cfg: Config, s: State, e: Event)
    requires s.intersection.isMoving && (IsTouchEvent(e) || e.MouseDown? || e.MouseMove? || e.MouseUp?)
    ensures Step(cfg, s, e).rotation == s.rotation
  {
  }

  /** The auto-rotate button toggles its own gate and leaves the option on. */
  lemma AutoRotateClickToggles(s: State)
    ensures var r := OnClickAutoRotate(s);
      && r.buttonsAutoRotate == !s.buttonsAutoRotate && r.optionAutoRotate
      && r.intersection.autoRotate == (s.intersection.autoRotate || !s.optionAutoRotate)
  {
  }

  /**
   * Focus-in completion shows go-back, collapses the radius and reopens the
   * tween gate but keeps INTERSECTED; going back restores the radius from
   * the public property and hides go-back again.
   */
  lemma FocusRoundTrip(cfg: Config, s: State, m: MeshId)
    requires s.tweens == [FocusIn(m)]
    ensures var focused := Step(cfg, s, FocusInDone);
      && Mode(focused) == Focused && focused.goBackVisible
      && focused.cameraDistance == FocusedDistance && focused.intersection.autoRotate
      && focused.intersected == s.intersected && focused.lookAt == AtMesh(m)
    ensures var back := Run(cfg, s, [FocusInDone, GoBackClick, FocusOutDone]);
      && Mode(back) == Orbiting && !back.goBackVisible && back.tweens == []
      && back.cameraDistance == s.optionDistance && back.intersection.autoRotate
      && back.lookAt == Origin
  {
    var focused := FocusInComplete(s);
    assert Step(cfg, s, FocusInDone) == focused;
    var leaving := OnClickGoBack(focused);
    assert Step(cfg, focused, GoBackClick) == leaving;
    assert leaving.tweens == [FocusOut];
    var back := FocusOutComplete(leaving);
    assert Run(cfg, leaving, [FocusOutDone]) == back;
    assert Run(cfg, s, [FocusInDone, GoBackClick, FocusOutDone])
        == Run(cfg, leaving, [FocusOutDone]);
  }
}
