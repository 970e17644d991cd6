/**
 * The later revision's closure state (fruitpanorama.js, FRUITPANORAMA) as a
 * class: each field is one of the closure variables or records, each method
 * one of the handlers, changing the fields in place as the handler does.
 * Every method is proved to leave the fields exactly as the matching function
 * of module Panorama says, and the public ones to keep Panorama.Inv.
 */
module PanoramaViewer {
  import opened Common
  import Panorama

  class Viewer {
    const cfg: Panorama.Config
    var rotationActions: Panorama.RotationActions
    var intersectionActions: Panorama.IntersectionActions
    var zoomingActions: Panorama.ZoomingActions
    var inTheFruit: bool
    var autoRotate: bool
    var cameraDistance: real
    /** INTERSECTED */
    var intersected: Option<MeshId>
    var goBackVisible: bool
    var buttons: set<ButtonKind>
    /** The public options this.cameraDistance and this.autoRotate. */
    var configuredDistance: real
    var configuredAutoRotate: bool
    /** camera.zoom */
    var zoom: real
    var camera: CameraPose
    /** cameraLookAt */
    var lookAt: LookAt
    var tweens: seq<Tween>
    var pendingWheelTimeouts: nat

    function Snapshot(): Panorama.State
      reads this
    {
      Panorama.State(
        rotationActions, intersectionActions, zoomingActions, inTheFruit, autoRotate,
        cameraDistance, intersected, goBackVisible, buttons, configuredDistance,
        configuredAutoRotate, zoom, camera, lookAt, tweens, pendingWheelTimeouts)
    }

    ghost predicate Valid()
      reads this
    {
      Panorama.Inv(cfg, Snapshot())
    }

    constructor (cfg: Panorama.Config, distance: real, autoRotate: bool, buttons: set<ButtonKind>)
      ensures this.cfg == cfg && Snapshot() == Panorama.Init(cfg, distance, autoRotate, buttons)
      ensures Valid()
    {
      this.cfg := cfg;
      intersected := None;
      this.cameraDistance := distance;
      this.autoRotate := autoRotate;
      inTheFruit := false;
      rotationActions := Panorama.RotationActions(false, cfg.startPolarAngle, 0.0, 0.0, 0.0, 0.0, 0.0);
      intersectionActions := Panorama.IntersectionActions(false, 0.0, 0.0, 0.0, 0.0, 0);
      zoomingActions := Panorama.ZoomingActions(false, false, 0.0);
      goBackVisible := false;
      this.buttons := buttons;
      configuredDistance := distance;
      configuredAutoRotate := autoRotate;
      zoom := 1.0;
      camera := Unplaced;
      lookAt := Origin;
      tweens := [];
      pendingWheelTimeouts := 0;
    }

    // ------------------------------------------------------------ rotation

    method HandleRotationPointerStart(p: PointerSample)
      modifies this
      ensures Snapshot() == Panorama.RotationPointerStart(old(Snapshot()), p)
    {
      if intersectionActions.isMoving {
        return;
      }
      rotationActions := rotationActions.(
        isActive := true, startX := p.clientX, startY := p.clientY,
        startPhi := rotationActions.phi, startTheta := rotationActions.theta);
    }

    method HandleRotationPointerMove(p: PointerSample)
      modifies this
      ensures Snapshot() == Panorama.RotationPointerMove(cfg, old(Snapshot()), p)
    {
      if intersectionActions.isMoving || !rotationActions.isActive {
        return;
      }
      ghost var moved := Panorama.RotationPointerMove(cfg, Snapshot(), p).rotation;
      rotationActions := rotationActions.(
        phi := (p.clientY - rotationActions.startY) * (cfg.rotationSpeed * 0.001) + rotationActions.startPhi,
        theta := (rotationActions.startX - p.clientX) * (cfg.rotationSpeed * 0.001) + rotationActions.startTheta);
      assert rotationActions == moved;
    }

    method HandleRotationPointerEnd()
      modifies this
      ensures Snapshot() == Panorama.RotationPointerEnd(old(Snapshot()))
    {
      if intersectionActions.isMoving {
        return;
      }
      rotationActions := rotationActions.(isActive := false);
    }

    // -------------------------------------------------------- intersection

    method HandleIntersectionPointerStart(p: PointerSample)
      modifies this
      ensures Snapshot() == Panorama.IntersectionPointerStart(old(Snapshot()), p)
    {
      if inTheFruit {
        return;
      }
      intersectionActions := intersectionActions.(
        startX := p.offsetX, startY := p.offsetY, moveX := p.offsetX, moveY := p.offsetY);
    }

    method HandleIntersectionPointerMove(p: PointerSample)
      modifies this
      ensures Snapshot() == Panorama.IntersectionPointerMove(old(Snapshot()), p)
    {
      if inTheFruit {
        return;
      }
      intersectionActions := intersectionActions.(moveX := p.offsetX, moveY := p.offsetY);
    }

    /** Starts the focus-in tween towards INTERSECTED. */
    method HandleIntersectionPointerEnd()
      modifies this
      ensures Snapshot() == Panorama.IntersectionPointerEnd(old(Snapshot()))
    {
      if intersected.None? {
        return;
      }
      if inTheFruit {
        return;
      }
      if intersectionActions.startX != intersectionActions.moveX || intersectionActions.startY != intersectionActions.moveY {
        return;
      }
      intersectionActions := intersectionActions.(isMoving := true);
      autoRotate := false;
      tweens := tweens + [FocusIn(intersected.value)];
    }

    // ------------------------------------------------------------- zooming

    method HandleZoomingMouseWheel(deltaY: real)
      requires Valid()
      modifies this
      ensures Snapshot() == Panorama.ZoomingMouseWheel(old(Snapshot()), deltaY)
      ensures Valid()
    {
      if deltaY < 0.0 {
        zoomingActions := zoomingActions.(isZoomingPlus := true, isZoomingMinus := false);
      } else if deltaY > 0.0 {
        zoomingActions := zoomingActions.(isZoomingPlus := false, isZoomingMinus := true);
      }
      pendingWheelTimeouts := pendingWheelTimeouts + 1;
    }

    /** The timeout a wheel event scheduled fires. */
    method OnWheelTimeout()
      requires Valid() && pendingWheelTimeouts > 0
      modifies this
      ensures Snapshot() == Panorama.WheelTimeoutFired(old(Snapshot()))
      ensures Valid()
    {
      zoomingActions := zoomingActions.(isZoomingPlus := false, isZoomingMinus := false);
      pendingWheelTimeouts := pendingWheelTimeouts - 1;
    }

    method HandleZoomingTouchStart(distance: real)
      modifies this
      ensures Snapshot() == Panorama.ZoomingTouchStart(old(Snapshot()), distance)
    {
      zoomingActions := zoomingActions.(fingerDistance := distance);
    }

    method HandleZoomingTouchMove(distance: real)
      modifies this
      ensures Snapshot() == Panorama.ZoomingTouchMove(old(Snapshot()), distance)
    {
      if distance > zoomingActions.fingerDistance {
        zoomingActions := zoomingActions.(isZoomingPlus := true, isZoomingMinus := false);
      } else {
        zoomingActions := zoomingActions.(isZoomingPlus := false, isZoomingMinus := true);
      }
      zoomingActions := zoomingActions.(fingerDistance := distance);
    }

    method HandleZoomingTouchEnd()
      modifies this
      ensures Snapshot() == Panorama.ZoomingTouchEnd(old(Snapshot()))
    {
      zoomingActions := zoomingActions.(isZoomingPlus := false, isZoomingMinus := false);
    }

    // -------------------------------------------------------- input events

    method OnMouseDown(p: PointerSample, modifier: bool)
      requires Valid()
      modifies this
      ensures Snapshot() == Panorama.OnMouseDown(old(Snapshot()), p, modifier)
      ensures Valid()
    {
      ghost var s := Snapshot();
      if modifier {
        return;
      }
      HandleRotationPointerStart(p);
      HandleIntersectionPointerStart(p);
      Panorama.MouseDownKeepsInv(cfg, s, p, modifier);
    }

    method OnMouseMove(p: PointerSample, modifier: bool)
      requires Valid()
      modifies this
      ensures Snapshot() == Panorama.OnMouseMove(cfg, old(Snapshot()), p, modifier)
      ensures Valid()
    {
      ghost var s := Snapshot();
      if modifier {
        return;
      }
      HandleRotationPointerMove(p);
      HandleIntersectionPointerMove(p);
      Panorama.MouseMoveKeepsInv(cfg, s, p, modifier);
    }

    /** Mouse-up and mouse-leave. */
    method OnMouseUp()
      requires Valid()
      modifies this
      ensures Snapshot() == Panorama.OnMouseUp(old(Snapshot()))
      ensures Valid()
    {
      ghost var s := Snapshot();
      HandleRotationPointerEnd();
      HandleIntersectionPointerEnd();
      Panorama.MouseUpKeepsInv(cfg, s);
    }

    method OnTouchStart(touches: nat, p: PointerSample, distance: real)
      requires Valid()
      modifies this
      ensures Snapshot() == Panorama.OnTouchStart(old(Snapshot()), touches, p, distance)
      ensures Valid()
    {
      ghost var s := Snapshot();
      intersectionActions := intersectionActions.(fingerNumber := touches);
      if touches == 1 {
        HandleRotationPointerStart(p);
        HandleIntersectionPointerStart(p);
      } else if touches == 2 {
        HandleZoomingTouchStart(distance);
      }
      Panorama.TouchStartKeepsInv(cfg, s, touches, p, distance);
    }

    method OnTouchMove(touches: nat, p: PointerSample, distance: real)
      requires Valid()
      modifies this
      ensures Snapshot() == Panorama.OnTouchMove(cfg, old(Snapshot()), touches, p, distance)
      ensures Valid()
    {
      ghost var s := Snapshot();
      if touches == 1 {
        HandleRotationPointerMove(p);
        if intersectionActions.fingerNumber == 1 {
          HandleIntersectionPointerMove(p);
        }
      } else if touches == 2 {
        HandleZoomingTouchMove(distance);
      }
      Panorama.TouchMoveKeepsInv(cfg, s, touches, p, distance);
    }

    method OnTouchEnd()
      requires Valid()
      modifies this
      ensures Snapshot() == Panorama.OnTouchEnd(old(Snapshot()))
      ensures Valid()
    {
      ghost var s := Snapshot();
      HandleRotationPointerEnd();
      if intersectionActions.fingerNumber == 1 {
        HandleIntersectionPointerEnd();
      }
      HandleZoomingTouchEnd();
      Panorama.TouchEndKeepsInv(cfg, s);
    }

    // ------------------------------------------------------------- buttons

    method OnPointerStartZoomPlus()
      requires Valid() && ZoomButtons in buttons
      modifies this
      ensures Snapshot() == Panorama.ZoomPlusStart(old(Snapshot()))
      ensures Valid()
    {
      zoomingActions := zoomingActions.(isZoomingPlus := true, isZoomingMinus := false);
    }

    method OnPointerEndZoomPlus()
      requires Valid() && ZoomButtons in buttons
      modifies this
      ensures Snapshot() == Panorama.ZoomButtonEnd(old(Snapshot()))
      ensures Valid()
    {
      zoomingActions := zoomingActions.(isZoomingPlus := false, isZoomingMinus := false);
    }

    method OnPointerStartZoomMinus()
      requires Valid() && ZoomButtons in buttons
      modifies this
      ensures Snapshot() == Panorama.ZoomMinusStart(old(Snapshot()))
      ensures Valid()
    {
      zoomingActions := zoomingActions.(isZoomingPlus := false, isZoomingMinus := true);
    }

    method OnPointerEndZoomMinus()
      requires Valid() && ZoomButtons in buttons
      modifies this
      ensures Snapshot() == Panorama.ZoomButtonEnd(old(Snapshot()))
      ensures Valid()
    {
      zoomingActions := zoomingActions.(isZoomingPlus := false, isZoomingMinus := false);
    }

    method OnClickAutoRotate()
      requires Valid() && AutoRotateButton in buttons
      modifies this
      ensures Snapshot() == Panorama.OnClickAutoRotate(old(Snapshot()))
      ensures Valid()
    {
      autoRotate := !autoRotate;
    }

    /** The go-back button can only be clicked while it is shown. */
    method OnClickGoBack()
      requires Valid() && goBackVisible
      modifies this
      ensures Snapshot() == Panorama.OnClickGoBack(old(Snapshot()))
      ensures Valid()
    {
      intersectionActions := intersectionActions.(isMoving := true);
      autoRotate := false;
      tweens := tweens + [FocusOut];
    }

    /** The oldest tween, a focus-in, completes. */
    method OnFocusInComplete()
      requires Valid() && tweens != [] && tweens[0].FocusIn?
      modifies this
      ensures Snapshot() == Panorama.FocusInComplete(old(Snapshot()))
      ensures Valid()
    {
      ghost var s := Snapshot();
      Panorama.FocusInCompleteKeepsInv(cfg, s);
      camera := Animated;
      lookAt := AtMesh(tweens[0].target);
      intersectionActions := intersectionActions.(isMoving := false);
      autoRotate := configuredAutoRotate;
      cameraDistance := FocusedDistance;
      inTheFruit := true;
      goBackVisible := true;
      intersected := None;
      tweens := tweens[1..];
      assert Snapshot() == Panorama.FocusInComplete(s);
    }

    /** The oldest tween, a go-back, completes. */
    method OnFocusOutComplete()
      requires Valid() && tweens != [] && tweens[0].FocusOut?
      modifies this
      ensures Snapshot() == Panorama.FocusOutComplete(old(Snapshot()))
      ensures Valid()
    {
      ghost var s := Snapshot();
      Panorama.FocusOutCompleteKeepsInv(cfg, s);
      camera := Animated;
      lookAt := Origin;
      intersectionActions := intersectionActions.(isMoving := false);
      autoRotate := configuredAutoRotate;
      cameraDistance := configuredDistance;
      inTheFruit := false;
      goBackVisible := false;
      tweens := tweens[1..];
      assert Snapshot() == Panorama.FocusOutComplete(s);
    }

    // ------------------------------------------------------ public setters

    method SetButtons(btn: set<ButtonKind>)
      requires Valid()
      modifies this
      ensures Snapshot() == Panorama.SetButtons(old(Snapshot()), btn)
      ensures Valid()
    {
      buttons := btn;
      goBackVisible := false;
      if inTheFruit {
        goBackVisible := true;
      }
    }

    method SetCameraDistance(value: real)
      requires Valid()
      modifies this
      ensures Snapshot() == Panorama.SetCameraDistance(old(Snapshot()), value)
      ensures Valid()
    {
      configuredDistance := value;
      cameraDistance := value;
    }

    method SetAutoRotate(value: bool)
      requires Valid()
      modifies this
      ensures Snapshot() == Panorama.SetAutoRotate(old(Snapshot()), value)
      ensures Valid()
    {
      configuredAutoRotate := value;
      autoRotate := value;
    }

    /** The host assigns this.autoRotate. */
    method AssignAutoRotate(on: bool)
      requires Valid()
      modifies this
      ensures Snapshot() == Panorama.AssignAutoRotate(old(Snapshot()), on)
      ensures Valid()
    {
      configuredAutoRotate := on;
    }

    /** The host assigns this.cameraDistance. */
    method AssignCameraDistance(distance: real)
      requires Valid()
      modifies this
      ensures Snapshot() == Panorama.AssignCameraDistance(old(Snapshot()), distance)
      ensures Valid()
    {
      configuredDistance := distance;
    }

    // -------------------------------------------------------------- render

    method UpdateTweens()
      modifies this
      ensures Snapshot() == Panorama.TweenUpdate(old(Snapshot()))
    {
      if tweens != [] {
        camera := Animated;
        lookAt := Interpolating;
      }
    }

    method AdvanceAutoRotation()
      modifies this
      ensures Snapshot() == Panorama.AutoRotateTick(cfg, old(Snapshot()))
    {
      if autoRotate && !rotationActions.isActive {
        rotationActions := rotationActions.(theta := rotationActions.theta + cfg.autoRotateSpeed * 0.001);
      }
    }

    method PlaceCamera()
      modifies this
      ensures Snapshot() == Panorama.OrbitWrite(cfg, old(Snapshot()))
    {
      if !intersectionActions.isMoving && cfg.enableRotation {
        var phi := HalfPi - rotationActions.phi;
        phi := Clamp(phi, cfg.minPolarAngle, cfg.maxPolarAngle);
        camera := Orbit(cameraDistance, phi, rotationActions.theta);
      }
    }

    method StepZoom()
      modifies this
      ensures Snapshot() == Panorama.ZoomTick(cfg, old(Snapshot()))
    {
      if zoomingActions.isZoomingPlus {
        zoom := Clamp(zoom + cfg.zoomSpeed, cfg.zoomMin, cfg.zoomMax);
      }
      if zoomingActions.isZoomingMinus {
        zoom := Clamp(zoom - cfg.zoomSpeed, cfg.zoomMin, cfg.zoomMax);
      }
    }

    /** One animation frame; `pick` is the raycaster's nearest pickable mesh. */
    method Render(pick: Option<MeshId>)
      requires Valid()
      modifies this
      ensures Snapshot() == Panorama.Render(cfg, old(Snapshot()), pick)
      ensures Valid()
    {
      ghost var s := Snapshot();
      UpdateTweens();
      AdvanceAutoRotation();
      PlaceCamera();
      StepZoom();
      intersected := pick;
      Panorama.RenderKeepsInv(cfg, s, pick);
    }
  }
}
