/**
 * The earlier revision's closure state (fruit.js, FRUITPANORAMA) as a class:
 * each field one of the closure variables or one of the two public
 * properties the handlers read back, each method one of the handlers. Every
 * method leaves the fields exactly as the matching function of module
 * EarlyPanorama says, and the public ones keep EarlyPanorama.Inv.
 */
module EarlyViewer {
  import opened Common
  import EarlyPanorama

  class Viewer {
    const cfg: EarlyPanorama.Config
    var rotationActions: EarlyPanorama.RotationActions
    var zoomingActions: EarlyPanorama.ZoomingActions
    var intersectionActions: EarlyPanorama.IntersectionActions
    /** buttonsActions.autoRotate */
    var buttonsAutoRotate: bool
    /** this.autoRotate */
    var optionAutoRotate: bool
    /** this.cameraDistance */
    var optionDistance: real
    var cameraDistance: real
    var inTheSphere: bool
    var goBackVisible: bool
    /** INTERSECTED */
    var intersected: Option<MeshId>
    var zoom: real
    var camera: CameraPose
    var lookAt: LookAt
    var tweens: seq<Tween>
    var pendingWheelTimeouts: nat
    var pendingPlusTimeouts: nat
    var pendingMinusTimeouts: nat

    function Snapshot(): EarlyPanorama.State
      reads this
    {
      EarlyPanorama.State(
        rotationActions, zoomingActions, intersectionActions, buttonsAutoRotate,
        optionAutoRotate, optionDistance, cameraDistance, inTheSphere, goBackVisible,
        intersected, zoom, camera, lookAt, tweens,
        pendingWheelTimeouts, pendingPlusTimeouts, pendingMinusTimeouts)
    }

    ghost predicate Valid()
      reads this
    {
      EarlyPanorama.Inv(cfg, Snapshot())
    }

    constructor (cfg: EarlyPanorama.Config, distance: real, autoRotate: bool)
      ensures this.cfg == cfg && Snapshot() == EarlyPanorama.Init(cfg, distance, autoRotate)
      ensures Valid()
    {
      this.cfg := cfg;
      optionDistance := distance;
      optionAutoRotate := autoRotate;
      intersected := None;
      cameraDistance := distance;
      inTheSphere := false;
      rotationActions := EarlyPanorama.RotationActions(false, 0.0, 0.0, 0.0, 0.0, 0.0, 0.0);
      zoomingActions := EarlyPanorama.ZoomingActions(false, false, 0.0);
      intersectionActions := EarlyPanorama.IntersectionActions(0.0, 0.0, 0.0, 0.0, autoRotate, false);
      buttonsAutoRotate := autoRotate;
      goBackVisible := false;
      zoom := 1.0;
      camera := Unplaced;
      lookAt := Origin;
      tweens := [];
      pendingWheelTimeouts, pendingPlusTimeouts, pendingMinusTimeouts := 0, 0, 0;
    }

    // ------------------------------------------------------------ rotation

    method HandleRotationPointerStart(p: PointerSample)
      modifies this
      ensures Snapshot() == EarlyPanorama.RotationPointerStart(old(Snapshot()), p)
    {
      if intersectionActions.isMoving {
        return;
      }
      rotationActions := rotationActions.(
        isActive := true, startX := p.clientX, startY := p.clientY,
        startLon := rotationActions.lon, startLat := rotationActions.lat);
    }

    method HandleRotationPointerMove(p: PointerSample)
      modifies this
      ensures Snapshot() == EarlyPanorama.RotationPointerMove(cfg, old(Snapshot()), p)
    {
      if intersectionActions.isMoving {
        return;
      }
      if !rotationActions.isActive {
        return;
      }
      ghost var moved := EarlyPanorama.RotationPointerMove(cfg, Snapshot(), p).rotation;
      rotationActions := rotationActions.(
        lon := (rotationActions.startX - p.clientX) * cfg.rotationSpeed + rotationActions.startLon,
        lat := (p.clientY - rotationActions.startY) * cfg.rotationSpeed + rotationActions.startLat);
      assert rotationActions == moved;
    }

    method HandleRotationPointerEnd()
      modifies this
      ensures Snapshot() == EarlyPanorama.RotationPointerEnd(old(Snapshot()))
    {
      if intersectionActions.isMoving {
        return;
      }
      rotationActions := rotationActions.(isActive := false);
    }

    // ------------------------------------------------------------- zooming

    method HandleZoomingTouchStart(distance: real)
      modifies this
      ensures Snapshot() == EarlyPanorama.ZoomingTouchStart(old(Snapshot()), distance)
    {
      zoomingActions := zoomingActions.(fingersDistance := distance);
    }

    method HandleZoomingTouchMove(distance: real)
      modifies this
      ensures Snapshot() == EarlyPanorama.ZoomingTouchMove(old(Snapshot()), distance)
    {
      if distance < zoomingActions.fingersDistance {
        zoomingActions := zoomingActions.(isZoomingPlus := false, isZoomingMinus := true);
      } else {
        zoomingActions := zoomingActions.(isZoomingMinus := false, isZoomingPlus := true);
      }
      zoomingActions := zoomingActions.(fingersDistance := distance);
    }

    method HandleZoomingTouchEnd()
      modifies this
      ensures Snapshot() == EarlyPanorama.ZoomingTouchEnd(old(Snapshot()))
    {
      zoomingActions := zoomingActions.(isZoomingPlus := false, isZoomingMinus := false);
    }

    method HandleZoomingMouseWheel(deltaY: real)
      requires Valid()
      modifies this
      ensures Snapshot() == EarlyPanorama.ZoomingMouseWheel(old(Snapshot()), deltaY)
      ensures Valid()
    {
      if deltaY < 0.0 {
        zoomingActions := zoomingActions.(isZoomingPlus := true, isZoomingMinus := false);
      } else if deltaY > 0.0 {
        zoomingActions := zoomingActions.(isZoomingPlus := false, isZoomingMinus := true);
      }
      pendingWheelTimeouts := pendingWheelTimeouts + 1;
    }

    /** The 200 ms timeout a wheel event scheduled fires. */
    method OnWheelTimeout()
      requires Valid() && pendingWheelTimeouts > 0
      modifies this
      ensures Snapshot() == EarlyPanorama.WheelTimeoutFired(old(Snapshot()))
      ensures Valid()
    {
      zoomingActions := zoomingActions.(isZoomingPlus := false, isZoomingMinus := false);
      pendingWheelTimeouts := pendingWheelTimeouts - 1;
    }

    // -------------------------------------------------------- intersection

    method HandleIntersectionPointerStart(p: PointerSample)
      modifies this
      ensures Snapshot() == EarlyPanorama.IntersectionPointerStart(old(Snapshot()), p)
    {
      intersectionActions := intersectionActions.(startX := p.offsetX, startY := p.offsetY);
    }

    method HandleIntersectionPointerMove(p: PointerSample)
      modifies this
      ensures Snapshot() == EarlyPanorama.IntersectionPointerMove(old(Snapshot()), p)
    {
      intersectionActions := intersectionActions.(moveX := p.offsetX, moveY := p.offsetY);
    }

    method HandleIntersectionPointerEnd()
      modifies this
      ensures Snapshot() == EarlyPanorama.IntersectionPointerEnd(old(Snapshot()))
    {
      if intersected.None? || inTheSphere {
        return;
      }
      if optionAutoRotate {
        intersectionActions := intersectionActions.(autoRotate := false);
      }
      intersectionActions := intersectionActions.(isMoving := true);
      tweens := tweens + [FocusIn(intersected.value)];
    }

    // -------------------------------------------------------- input events

    method OnMouseDown(p: PointerSample)
      requires Valid()
      modifies this
      ensures Snapshot() == EarlyPanorama.OnMouseDown(old(Snapshot()), p)
      ensures Valid()
    {
      ghost var s := Snapshot();
      HandleRotationPointerStart(p);
      HandleIntersectionPointerStart(p);
      EarlyPanorama.MouseDownKeepsInv(cfg, s, p);
    }

    method OnMouseMove(p: PointerSample)
      requires Valid()
      modifies this
      ensures Snapshot() == EarlyPanorama.OnMouseMove(cfg, old(Snapshot()), p)
      ensures Valid()
    {
      ghost var s := Snapshot();
      HandleRotationPointerMove(p);
      HandleIntersectionPointerMove(p);
      EarlyPanorama.MouseMoveKeepsInv(cfg, s, p);
    }

    /** Mouse-up and mouse-leave. */
    method OnMouseUp()
      requires Valid()
      modifies this
      ensures Snapshot() == EarlyPanorama.OnMouseUp(old(Snapshot()))
      ensures Valid()
    {
      ghost var s := Snapshot();
      HandleRotationPointerEnd();
      if intersectionActions.startX == intersectionActions.moveX || intersectionActions.startY == intersectionActions.moveY {
        HandleIntersectionPointerEnd();
      }
      EarlyPanorama.MouseUpKeepsInv(cfg, s);
    }

    method OnTouchStart(touches: nat, p: PointerSample, distance: real)
      requires Valid()
      modifies this
      ensures Snapshot() == EarlyPanorama.OnTouchStart(old(Snapshot()), touches, p, distance)
      ensures Valid()
    {
      ghost var s := Snapshot();
      if touches == 1 {
        HandleRotationPointerStart(p);
      } else if touches == 2 {
        HandleZoomingTouchStart(distance);
      }
      EarlyPanorama.TouchStartKeepsInv(cfg, s, touches, p, distance);
    }

    method OnTouchMove(touches: nat, p: PointerSample, distance: real)
      requires Valid()
      modifies this
      ensures Snapshot() == EarlyPanorama.OnTouchMove(cfg, old(Snapshot()), touches, p, distance)
      ensures Valid()
    {
      ghost var s := Snapshot();
      if touches == 1 {
        HandleRotationPointerMove(p);
      } else if touches == 2 {
        HandleZoomingTouchMove(distance);
      }
      EarlyPanorama.TouchMoveKeepsInv(cfg, s, touches, p, distance);
    }

    method OnTouchEnd()
      requires Valid()
      modifies this
      ensures Snapshot() == EarlyPanorama.OnTouchEnd(old(Snapshot()))
      ensures Valid()
    {
      ghost var s := Snapshot();
      HandleRotationPointerEnd();
      HandleZoomingTouchEnd();
      EarlyPanorama.TouchEndKeepsInv(cfg, s);
    }

    // ------------------------------------------------------- custom events

    method OnInTheSphere()
      modifies this
      ensures Snapshot() == EarlyPanorama.OnInTheSphere(old(Snapshot()))
    {
      inTheSphere := true;
      goBackVisible := true;
    }

    method OnOutTheSphere()
      modifies this
      ensures Snapshot() == EarlyPanorama.OnOutTheSphere(old(Snapshot()))
    {
      inTheSphere := false;
      goBackVisible := false;
    }

    // ------------------------------------------------------------- buttons

    method OnClickZoomPlus()
      requires Valid() && ZoomButtons in cfg.buttons
      modifies this
      ensures Snapshot() == EarlyPanorama.ZoomPlusClick(old(Snapshot()))
      ensures Valid()
    {
      zoomingActions := zoomingActions.(isZoomingPlus := true);
      pendingPlusTimeouts := pendingPlusTimeouts + 1;
    }

    /** The 400 ms timeout a zoom-plus click scheduled fires. */
    method OnPlusTimeout()
      requires Valid() && pendingPlusTimeouts > 0
      modifies this
      ensures Snapshot() == EarlyPanorama.PlusTimeoutFired(old(Snapshot()))
      ensures Valid()
    {
      zoomingActions := zoomingActions.(isZoomingPlus := false);
      pendingPlusTimeouts := pendingPlusTimeouts - 1;
    }

    method OnClickZoomMinus()
      requires Valid() && ZoomButtons in cfg.buttons
      modifies this
      ensures Snapshot() == EarlyPanorama.ZoomMinusClick(old(Snapshot()))
      ensures Valid()
    {
      zoomingActions := zoomingActions.(isZoomingMinus := true);
      pendingMinusTimeouts := pendingMinusTimeouts + 1;
    }

    method OnMinusTimeout()
      requires Valid() && pendingMinusTimeouts > 0
      modifies this
      ensures Snapshot() == EarlyPanorama.MinusTimeoutFired(old(Snapshot()))
      ensures Valid()
    {
      zoomingActions := zoomingActions.(isZoomingMinus := false);
      pendingMinusTimeouts := pendingMinusTimeouts - 1;
    }

    method OnClickAutoRotate()
      requires Valid() && AutoRotateButton in cfg.buttons
      modifies this
      ensures Snapshot() == EarlyPanorama.OnClickAutoRotate(old(Snapshot()))
      ensures Valid()
    {
      if !optionAutoRotate {
        optionAutoRotate := true;
        intersectionActions := intersectionActions.(autoRotate := optionAutoRotate);
      }
      if buttonsAutoRotate {
        buttonsAutoRotate := false;
      } else {
        buttonsAutoRotate := true;
      }
    }

    /** The go-back button can only be clicked while it is shown. */
    method OnClickGoBack()
      requires Valid() && goBackVisible
      modifies this
      ensures Snapshot() == EarlyPanorama.OnClickGoBack(old(Snapshot()))
      ensures Valid()
    {
      if optionAutoRotate {
        intersectionActions := intersectionActions.(autoRotate := false);
      }
      intersectionActions := intersectionActions.(isMoving := true);
      tweens := tweens + [FocusOut];
    }

    /** The oldest tween, a focus-in, completes and dispatches the in-the-sphere event. */
    method OnFocusInComplete()
      requires Valid() && tweens != [] && tweens[0].FocusIn?
      modifies this
      ensures Snapshot() == EarlyPanorama.FocusInComplete(old(Snapshot()))
      ensures Valid()
    {
      ghost var s := Snapshot();
      EarlyPanorama.FocusInCompleteKeepsInv(cfg, s);
      camera := Animated;
      lookAt := AtMesh(tweens[0].target);
      tweens := tweens[1..];
      intersectionActions := intersectionActions.(isMoving := false, autoRotate := true);
      cameraDistance := FocusedDistance;
      OnInTheSphere();
    }

    /** The oldest tween, a go-back, completes and dispatches the out-of-the-sphere event. */
    method OnFocusOutComplete()
      requires Valid() && tweens != [] && tweens[0].FocusOut?
      modifies this
      ensures Snapshot() == EarlyPanorama.FocusOutComplete(old(Snapshot()))
      ensures Valid()
    {
      ghost var s := Snapshot();
      EarlyPanorama.FocusOutCompleteKeepsInv(cfg, s);
      camera := Animated;
      lookAt := Origin;
      tweens := tweens[1..];
      intersectionActions := intersectionActions.(isMoving := false, autoRotate := true);
      cameraDistance := optionDistance;
      OnOutTheSphere();
    }

    // ------------------------------------------------- public properties

    /** The host assigns this.autoRotate. */
    method AssignAutoRotate(on: bool)
      requires Valid()
      modifies this
      ensures Snapshot() == EarlyPanorama.AssignAutoRotate(old(Snapshot()), on)
      ensures Valid()
    {
      optionAutoRotate := on;
    }

    /** The host assigns this.cameraDistance. */
    method AssignCameraDistance(distance: real)
      requires Valid()
      modifies this
      ensures Snapshot() == EarlyPanorama.AssignCameraDistance(old(Snapshot()), distance)
      ensures Valid()
    {
      optionDistance := distance;
    }

    method ChangeCameraDistance()
      requires Valid()
      modifies this
      ensures Snapshot() == EarlyPanorama.ChangeCameraDistance(old(Snapshot()))
      ensures Valid()
    {
      cameraDistance := optionDistance;
    }

    method UpdateAutoRotate()
      requires Valid()
      modifies this
      ensures Snapshot() == EarlyPanorama.UpdateAutoRotate(old(Snapshot()))
      ensures Valid()
    {
      intersectionActions := intersectionActions.(autoRotate := optionAutoRotate);
      buttonsAutoRotate := optionAutoRotate;
    }

    // -------------------------------------------------------------- render

    method UpdateTweens()
      modifies this
      ensures Snapshot() == EarlyPanorama.TweenUpdate(old(Snapshot()))
    {
      if tweens != [] {
        camera := Animated;
        lookAt := Interpolating;
      }
    }

    method AdvanceAutoRotation()
      modifies this
      ensures Snapshot() == EarlyPanorama.AutoRotateTick(cfg, old(Snapshot()))
    {
      if !rotationActions.isActive && optionAutoRotate && intersectionActions.autoRotate && buttonsAutoRotate {
        rotationActions := rotationActions.(lon := rotationActions.lon + cfg.autoRotateSpeed);
      }
    }

    method PlaceCamera()
      modifies this
      ensures Snapshot() == EarlyPanorama.OrbitWrite(cfg, old(Snapshot()))
    {
      if !intersectionActions.isMoving {
        var phi := HalfPi - rotationActions.lat;
        phi := Clamp(phi, cfg.minPolarAngle, cfg.maxPolarAngle);
        var theta := rotationActions.lon;
        camera := Orbit(cameraDistance, phi, theta);
      }
    }

    method StepZoom()
      modifies this
      ensures Snapshot() == EarlyPanorama.ZoomTick(cfg, old(Snapshot()))
    {
      if zoomingActions.isZoomingPlus {
        zoom := Clamp(zoom + cfg.zoomSpeed, cfg.zoomMin, cfg.zoomMax);
      }
      if zoomingActions.isZoomingMinus {
        zoom := Clamp(zoom - cfg.zoomSpeed, cfg.zoomMin, cfg.zoomMax);
      }
    }

    /** One animation frame; `pick` is the raycaster's nearest pickable mesh. */
    method Render(pick: Option<MeshId>)
      requires Valid()
      modifies this
      ensures Snapshot() == EarlyPanorama.Render(cfg, old(Snapshot()), pick)
      ensures Valid()
    {
      ghost var s := Snapshot();
      UpdateTweens();
      AdvanceAutoRotation();
      PlaceCamera();
      StepZoom();
      intersected := pick;
      EarlyPanorama.RenderKeepsInv(cfg, s, pick);
    }
  }
}
