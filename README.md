# fruitpanorama: the viewer's interaction state machine and the fruit builders

fruitpanorama is a WebGL widget that shows a set of images as the textured
spheres of a "fruit" (a bunch of grapes, cherries, apples on a branch, a bowl
of fruit or a custom arrangement). The user orbits the fruit by dragging,
zooms with the wheel, a pinch or on-screen buttons, and clicks a sphere to fly
the camera into it. The go-back button flies the camera out again. The
repository holds two revisions of the viewer: `fruitpanorama.js`, the later
one, and `fruit.js`, the earlier one.

This project models three things:

- **The later viewer** (`fruitpanorama.js`, FRUITPANORAMA).
  - Module `Panorama` gives every handler as a function on a `State` value.
    The handlers are mouse, touch, wheel, the zoom buttons, auto-rotate, go-back and the two tween
    completions. `State` holds `rotationActions`, `intersectionActions`,
    `zoomingActions`, `inTheFruit`, `autoRotate`, `cameraDistance`,
    `INTERSECTED`, camera.zoom, the camera pose, the look-at point and the
    running tweens.
  - `Panorama` also gives the render step, the runtime setters, an
    `Event` type with `Step`/`Run`, the invariant `Inv` and lemmas.
  - Class `PanoramaViewer.Viewer` holds the same state in mutable fields, as
    the closure does. Each of its methods is proved to leave the fields
    exactly as the matching `Panorama` function says. Each public handler
    (the methods the DOM events, timeouts, tweens and setters call) also
    requires and keeps `Inv`; the inner helpers they are built from do not
    promise `Inv` on their own.
- **The earlier viewer** (`fruit.js`), in the same shape: module
  `EarlyPanorama` and class `EarlyViewer.Viewer`, whose public handlers
  likewise keep `Inv`. Its state adds
  `buttonsActions.autoRotate`, the `inTheSphere` custom events and the
  400 ms timeouts of the zoom buttons.
- **The builders** (module `Builders`). Each builder's `addToInit` decides
  from the image count whether it accepts the images. It then appends the
  fruit meshes to SPHERES (one per image, the loop index or an `nth` counter naming the image)
  and its decorations to EXTRAS.
  - A function gives what each builder adds.
  - The methods of class `Builders.Scene` run the builders' loops and are
    proved to append exactly that.
  - Lemmas prove the acceptance rules and the mesh counts.

The focus mode is the pair (`isMoving`, `inTheFruit`): orbiting, moving in,
focused, moving out (`Common.ModeOf`).

Timers and animations become explicit events:

- A wheel `setTimeout` and the zoom buttons' timeouts are counters of
  pending timeouts; a timeout event needs one pending.
- A camera tween is an entry in a queue. Every tween of a viewer has the
  same duration while the options are not changed at run time, so tweens
  complete in the order they started.
- `requestAnimationFrame` is the `Tick(pick)` event, where `pick` is what
  the raycaster found under the pointer.
- `mouseleave` is delivered as a mouse-up, as the code registers it.

The model keeps these behaviours of the code:

- A focus round trip restores only the radius, the auto-rotate flag and the
  look-at point. It does not restore the orbit angles.
- Picking is not suppressed during a transition. A second click while moving
  in queues a second focus-in tween.
- Go-back can be clicked again while moving out.
- In the later revision the render step writes the orbit camera only when
  `enableRotation` is set.
- In the earlier revision the click test is `startX == moveX || startY ==
  moveY`, so a purely horizontal or vertical drag counts as a click.

## Model

| member | source | states |
|---|---|---|
| Common.Clamp | fruitpanorama.js:138-147 | Math.max(lo, Math.min(hi, x)): within [lo, hi] when lo <= hi, x itself when x is inside, the nearer bound when x is outside |
| Common.OrbitPolar | fruitpanorama.js:137-138 | the orbit polar angle PI/2 - phi clamped to [minPolar, maxPolar]: within the bounds, and exactly PI/2 - phi when that is already inside |
| Common.ZoomAfterTick | fruitpanorama.js:146-153 | one frame's zoom steps: unchanged with no flag set; plus alone is zoom + zoomSpeed clamped, minus alone zoom - zoomSpeed clamped, and with a positive speed each moves a zoom strictly inside the bounds its own way; with a flag set the result lies in [zoomMin, zoomMax]; a zoom inside the bounds stays inside |
| Panorama.Init | fruitpanorama.js:51-81 | the closure state after construction satisfies the invariant, is orbiting with camera.zoom 1, no tween and go-back hidden |
| Panorama.Render | fruitpanorama.js:130-164 | a render step records the pick and leaves the zoom flags, the click record, the tweens, inTheFruit, go-back, autoRotate and the radius alone |
| Panorama.RenderAutoRotation | fruitpanorama.js:133-135 | theta grows by exactly autoRotateSpeed * 0.001 iff autoRotate && !isActive, and the rest of the rotation record is untouched |
| Panorama.RenderCamera | fruitpanorama.js:132-145 | unless moving (with rotation enabled) the camera is placed at cameraDistance, the clamped polar angle and theta; while moving only a running tween moves it |
| Panorama.RenderKeepsBounds | fruitpanorama.js:136-153 | a frame keeps an orbit camera within the polar bounds, leaves zoom alone without a flag, keeps zoom at 1 or within [zoomMin, zoomMax], and keeps a zoom already within [zoomMin, zoomMax] there |
| Panorama.MouseDownKeepsInv | fruitpanorama.js:334-339 | mouse-down keeps the invariant (zoom flags exclusive, go-back visible iff in the fruit, isMoving only with a tween, bounds) |
| Panorama.MouseMoveKeepsInv | fruitpanorama.js:341-346 | mouse-move keeps the invariant |
| Panorama.MouseUpKeepsInv | fruitpanorama.js:348-351 | mouse-up, including a started focus-in, keeps the invariant |
| Panorama.TouchStartKeepsInv | fruitpanorama.js:357-368 | touch-start keeps the invariant |
| Panorama.TouchMoveKeepsInv | fruitpanorama.js:370-381 | touch-move, including a pinch, keeps the invariant |
| Panorama.TouchEndKeepsInv | fruitpanorama.js:383-388 | touch-end keeps the invariant |
| Panorama.FocusInCompleteKeepsInv | fruitpanorama.js:483-490 | completing a focus-in tween keeps the invariant |
| Panorama.FocusOutCompleteKeepsInv | fruitpanorama.js:631-637 | completing a go-back tween keeps the invariant |
| Panorama.RenderKeepsInv | fruitpanorama.js:130-164 | a render step keeps the invariant |
| Panorama.StepPreservesInv | fruitpanorama.js:334-639 | every deliverable event keeps the invariant |
| Panorama.RunPreservesInv | fruitpanorama.js:334-639 | any sequence of events keeps the invariant |
| Panorama.ReachableStates | fruitpanorama.js:498-567 | from construction, never both zoom flags; go-back visible iff inTheFruit; with no tween running, orbiting or focused (never mid-transition); zoom at 1 or within its bounds; orbit camera within the polar bounds |
| Panorama.PinchDirection | fruitpanorama.js:520-534 | a pinch selects plus iff the fingers moved apart, minus otherwise (a tie gives minus), and always records the new distance |
| Panorama.ModifierKeysIgnored | fruitpanorama.js:334-346 | mouse-down and mouse-move with alt, ctrl or shift held change nothing |
| Panorama.MouseUpStartsFocusOnlyOnClick | fruitpanorama.js:445-453 | a release starts a focus-in iff INTERSECTED is set, not in the fruit and start == move; it then sets isMoving, clears autoRotate and queues the tween; otherwise only the drag ends |
| Panorama.RotationFrozenWhileMoving | fruitpanorama.js:394-415 | while isMoving, mouse and touch events leave rotationActions unchanged |
| Panorama.DirectWritesTakeEffectAtCompletion | fruitpanorama.js:23-26 | a direct write of the public autoRotate or cameraDistance changes only those properties; the next focus-in completion takes the written autoRotate (485) and the next go-back completion takes both (633-634) |
| Panorama.FocusRoundTrip | fruitpanorama.js:483-637 | focus-in completion focuses (go-back shown, radius 0.001, configured autoRotate, INTERSECTED cleared); go-back then its completion returns to orbiting with the configured radius and autoRotate |
| Panorama.ClickOnFruitStartsFocus | fruitpanorama.js:421-453 | press, a frame picking mesh m, release at the same point: moving in, one focus-in tween to m, auto-rotation off |
| Panorama.ClickOnNothingKeepsOrbiting | fruitpanorama.js:445-447 | the same click with nothing picked leaves the viewer orbiting with no tween |
| Panorama.DragNeverStartsFocus | fruitpanorama.js:450-451 | a release at a different canvas point than the press never starts a focus |
| Panorama.SecondClickWhileMovingIn | fruitpanorama.js:445-452 | a click while moving in is not blocked and queues a second focus-in tween |
| Panorama.GoBackAgainWhileMovingOut | fruitpanorama.js:597-636 | go-back stays visible while moving out, so a second click queues a second go-back tween |
| PanoramaViewer.Viewer.constructor | fruitpanorama.js:51-81 | the fields start as Panorama.Init and satisfy the invariant |
| PanoramaViewer.Viewer.HandleRotationPointerStart | fruitpanorama.js:394-402 | fields become Panorama.RotationPointerStart of the old fields: drag started unless moving |
| PanoramaViewer.Viewer.HandleRotationPointerMove | fruitpanorama.js:404-409 | fields become Panorama.RotationPointerMove: phi and theta from the drag offset times rotationSpeed * 0.001, unless moving or not dragging |
| PanoramaViewer.Viewer.HandleRotationPointerEnd | fruitpanorama.js:411-415 | fields become Panorama.RotationPointerEnd: drag ended unless moving |
| PanoramaViewer.Viewer.HandleIntersectionPointerStart | fruitpanorama.js:421-433 | fields become Panorama.IntersectionPointerStart: click start and move points set unless in the fruit |
| PanoramaViewer.Viewer.HandleIntersectionPointerMove | fruitpanorama.js:435-443 | fields become Panorama.IntersectionPointerMove: move point updated unless in the fruit |
| PanoramaViewer.Viewer.HandleIntersectionPointerEnd | fruitpanorama.js:445-492 | fields become Panorama.IntersectionPointerEnd: the guarded focus-in start |
| PanoramaViewer.Viewer.HandleZoomingMouseWheel | fruitpanorama.js:498-510 | fields become Panorama.ZoomingMouseWheel (one flag by the sign of deltaY, a timeout pending) and the invariant holds |
| PanoramaViewer.Viewer.OnWheelTimeout | fruitpanorama.js:506-509 | fields become Panorama.WheelTimeoutFired: both flags cleared |
| PanoramaViewer.Viewer.HandleZoomingTouchStart | fruitpanorama.js:512-518 | fields become Panorama.ZoomingTouchStart: the finger distance recorded |
| PanoramaViewer.Viewer.HandleZoomingTouchMove | fruitpanorama.js:520-534 | fields become Panorama.ZoomingTouchMove: the pinch direction and new distance |
| PanoramaViewer.Viewer.HandleZoomingTouchEnd | fruitpanorama.js:536-539 | fields become Panorama.ZoomingTouchEnd: both flags cleared |
| PanoramaViewer.Viewer.OnMouseDown | fruitpanorama.js:334-339 | fields become Panorama.OnMouseDown and the invariant holds |
| PanoramaViewer.Viewer.OnMouseMove | fruitpanorama.js:341-346 | fields become Panorama.OnMouseMove and the invariant holds |
| PanoramaViewer.Viewer.OnMouseUp | fruitpanorama.js:348-351 | fields become Panorama.OnMouseUp and the invariant holds |
| PanoramaViewer.Viewer.OnTouchStart | fruitpanorama.js:357-368 | fields become Panorama.OnTouchStart (finger count, then one-finger drag or two-finger pinch) and the invariant holds |
| PanoramaViewer.Viewer.OnTouchMove | fruitpanorama.js:370-381 | fields become Panorama.OnTouchMove and the invariant holds |
| PanoramaViewer.Viewer.OnTouchEnd | fruitpanorama.js:383-388 | fields become Panorama.OnTouchEnd and the invariant holds |
| PanoramaViewer.Viewer.OnPointerStartZoomPlus | fruitpanorama.js:545-549 | fields become Panorama.ZoomPlusStart: plus on, minus off |
| PanoramaViewer.Viewer.OnPointerEndZoomPlus | fruitpanorama.js:551-555 | fields become Panorama.ZoomButtonEnd: both flags off |
| PanoramaViewer.Viewer.OnPointerStartZoomMinus | fruitpanorama.js:557-561 | fields become Panorama.ZoomMinusStart: minus on, plus off |
| PanoramaViewer.Viewer.OnPointerEndZoomMinus | fruitpanorama.js:563-567 | fields become Panorama.ZoomButtonEnd: both flags off |
| PanoramaViewer.Viewer.OnClickAutoRotate | fruitpanorama.js:569-572 | fields become Panorama.OnClickAutoRotate: autoRotate negated |
| PanoramaViewer.Viewer.OnClickGoBack | fruitpanorama.js:597-639 | fields become Panorama.OnClickGoBack: moving, auto-rotation off, a go-back tween queued |
| PanoramaViewer.Viewer.OnFocusInComplete | fruitpanorama.js:483-490 | fields become Panorama.FocusInComplete and the invariant holds |
| PanoramaViewer.Viewer.OnFocusOutComplete | fruitpanorama.js:631-637 | fields become Panorama.FocusOutComplete and the invariant holds |
| PanoramaViewer.Viewer.SetButtons | fruitpanorama.js:696-706 | fields become Panorama.SetButtons: buttons replaced, go-back shown again iff in the fruit |
| PanoramaViewer.Viewer.SetCameraDistance | fruitpanorama.js:758-767 | fields become Panorama.SetCameraDistance: the public and working radius both set |
| PanoramaViewer.Viewer.SetAutoRotate | fruitpanorama.js:768-773 | fields become Panorama.SetAutoRotate: the public and working flag both set |
| PanoramaViewer.Viewer.AssignAutoRotate | fruitpanorama.js:26 | fields become Panorama.AssignAutoRotate: only the public autoRotate property written, and the invariant holds |
| PanoramaViewer.Viewer.AssignCameraDistance | fruitpanorama.js:23 | fields become Panorama.AssignCameraDistance: only the public cameraDistance property written, and the invariant holds |
| PanoramaViewer.Viewer.UpdateTweens | fruitpanorama.js:132 | fields become Panorama.TweenUpdate: a running tween owns the camera and look-at point |
| PanoramaViewer.Viewer.AdvanceAutoRotation | fruitpanorama.js:133-135 | fields become Panorama.AutoRotateTick |
| PanoramaViewer.Viewer.PlaceCamera | fruitpanorama.js:136-145 | fields become Panorama.OrbitWrite |
| PanoramaViewer.Viewer.StepZoom | fruitpanorama.js:146-153 | fields become Panorama.ZoomTick |
| PanoramaViewer.Viewer.Render | fruitpanorama.js:130-164 | fields become Panorama.Render of the old fields and the invariant holds |
| EarlyPanorama.Init | fruit.js:42-88 | the state after construction satisfies the invariant, is orbiting, every auto-rotation gate copies the option, zoom is 1 and go-back hidden |
| EarlyPanorama.Render | fruit.js:189-224 | a render step records the pick and leaves the zoom flags, the click record, the tweens, inTheSphere, go-back and the radius alone |
| EarlyPanorama.MouseDownKeepsInv | fruit.js:242-245 | mouse-down keeps the invariant (go-back visible iff inTheSphere, isMoving only with a tween, bounds) |
| EarlyPanorama.MouseMoveKeepsInv | fruit.js:247-250 | mouse-move keeps the invariant |
| EarlyPanorama.MouseUpKeepsInv | fruit.js:252-256 | mouse-up, including a started focus-in, keeps the invariant |
| EarlyPanorama.TouchStartKeepsInv | fruit.js:262-271 | touch-start keeps the invariant |
| EarlyPanorama.TouchMoveKeepsInv | fruit.js:273-282 | touch-move keeps the invariant |
| EarlyPanorama.TouchEndKeepsInv | fruit.js:284-287 | touch-end keeps the invariant |
| EarlyPanorama.FocusInCompleteKeepsInv | fruit.js:437-442 | focus-in completion with its in-the-sphere event keeps the invariant |
| EarlyPanorama.FocusOutCompleteKeepsInv | fruit.js:538-543 | go-back completion with its out-of-the-sphere event keeps the invariant |
| EarlyPanorama.TweenUpdateKeepsInv | fruit.js:191 | the tween update keeps the invariant |
| EarlyPanorama.AutoRotateTickKeepsInv | fruit.js:192-194 | the longitude step keeps the invariant |
| EarlyPanorama.OrbitWriteKeepsInv | fruit.js:195-205 | the orbit write keeps the polar bound |
| EarlyPanorama.ZoomTickKeepsInv | fruit.js:206-213 | the zoom steps keep zoom at 1 or within [zoomMin, zoomMax] |
| EarlyPanorama.RenderKeepsInv | fruit.js:189-224 | a render step keeps the invariant |
| EarlyPanorama.StepPreservesInv | fruit.js:242-564 | every deliverable event keeps the invariant |
| EarlyPanorama.RunPreservesInv | fruit.js:242-564 | any sequence of events keeps the invariant |
| EarlyPanorama.ReachableStates | fruit.js:189-564 | from construction, go-back visible iff inTheSphere; with no tween running, orbiting or focused; zoom at 1 or within its bounds, orbit camera within the polar bounds |
| EarlyPanorama.BothZoomFlagsReachable | fruit.js:365-377 | a wheel-up then a zoom-minus click turn both flags on, and the next frame still leaves zoom within [zoomMin, zoomMax] |
| EarlyPanorama.ButtonTimeoutsClearOwnFlag | fruit.js:450-464 | whenever its timeout is pending, each zoom button's timeout clears its own flag and leaves the other flag (set by the other button or the wheel) and the other button's pending count as they were |
| EarlyPanorama.PinchDirection | fruit.js:344-358 | a pinch selects minus iff the distance strictly decreased, plus otherwise (a tie gives plus), and records the new distance |
| EarlyPanorama.RenderCamera | fruit.js:195-205 | unless moving the camera is placed at cameraDistance, the clamped polar angle and lon; while moving only a running tween moves it |
| EarlyPanorama.AutoRotationNeedsFourGates | fruit.js:192-194 | lon grows by autoRotateSpeed iff !isActive and the option, the intersection gate and the button gate are all on; nothing else of the rotation record changes |
| EarlyPanorama.MouseUpStartsFocusExactly | fruit.js:252-256 | a release queues a focus-in iff a mesh is picked, not in the sphere and start and move share a column or a row; it then sets isMoving, queues the tween and clears the intersection gate only when the autoRotate option is on; otherwise only the drag ends |
| EarlyPanorama.HorizontalDragStartsFocus | fruit.js:254 | a purely horizontal drag released over a mesh counts as a click and starts moving in |
| EarlyPanorama.TouchNeverFocuses | fruit.js:262-287 | touch events never queue a tween and never change the click record |
| EarlyPanorama.RotationFrozenWhileMoving | fruit.js:307-330 | while isMoving, mouse and touch events leave the rotation record unchanged |
| EarlyPanorama.AutoRotateClickToggles | fruit.js:466-476 | the auto-rotate click flips the button gate, forces the option on, and reopens the intersection gate if the option was off |
| EarlyPanorama.FocusRoundTrip | fruit.js:437-543 | focus-in completion shows go-back, sets radius 0.001, reopens the gate and keeps INTERSECTED; go-back then its completion return to orbiting with the configured radius |
| EarlyViewer.Viewer.constructor | fruit.js:42-88 | the fields start as EarlyPanorama.Init and satisfy the invariant |
| EarlyViewer.Viewer.HandleRotationPointerStart | fruit.js:307-315 | fields become EarlyPanorama.RotationPointerStart: drag started unless moving |
| EarlyViewer.Viewer.HandleRotationPointerMove | fruit.js:317-324 | fields become EarlyPanorama.RotationPointerMove: lon and lat from the drag offset times rotationSpeed, unless moving or not dragging |
| EarlyViewer.Viewer.HandleRotationPointerEnd | fruit.js:326-330 | fields become EarlyPanorama.RotationPointerEnd |
| EarlyViewer.Viewer.HandleZoomingTouchStart | fruit.js:336-342 | fields become EarlyPanorama.ZoomingTouchStart |
| EarlyViewer.Viewer.HandleZoomingTouchMove | fruit.js:344-358 | fields become EarlyPanorama.ZoomingTouchMove |
| EarlyViewer.Viewer.HandleZoomingTouchEnd | fruit.js:360-363 | fields become EarlyPanorama.ZoomingTouchEnd |
| EarlyViewer.Viewer.HandleZoomingMouseWheel | fruit.js:365-377 | fields become EarlyPanorama.ZoomingMouseWheel and the invariant holds |
| EarlyViewer.Viewer.OnWheelTimeout | fruit.js:373-376 | fields become EarlyPanorama.WheelTimeoutFired and the invariant holds |
| EarlyViewer.Viewer.HandleIntersectionPointerStart | fruit.js:383-389 | fields become EarlyPanorama.IntersectionPointerStart: the click start point |
| EarlyViewer.Viewer.HandleIntersectionPointerMove | fruit.js:391-399 | fields become EarlyPanorama.IntersectionPointerMove: the move point |
| EarlyViewer.Viewer.HandleIntersectionPointerEnd | fruit.js:401-443 | fields become EarlyPanorama.IntersectionPointerEnd: the guarded focus-in start |
| EarlyViewer.Viewer.OnMouseDown | fruit.js:242-245 | fields become EarlyPanorama.OnMouseDown and the invariant holds |
| EarlyViewer.Viewer.OnMouseMove | fruit.js:247-250 | fields become EarlyPanorama.OnMouseMove and the invariant holds |
| EarlyViewer.Viewer.OnMouseUp | fruit.js:252-256 | fields become EarlyPanorama.OnMouseUp and the invariant holds |
| EarlyViewer.Viewer.OnTouchStart | fruit.js:262-271 | fields become EarlyPanorama.OnTouchStart and the invariant holds |
| EarlyViewer.Viewer.OnTouchMove | fruit.js:273-282 | fields become EarlyPanorama.OnTouchMove and the invariant holds |
| EarlyViewer.Viewer.OnTouchEnd | fruit.js:284-287 | fields become EarlyPanorama.OnTouchEnd and the invariant holds |
| EarlyViewer.Viewer.OnInTheSphere | fruit.js:293-296 | fields become EarlyPanorama.OnInTheSphere: in the sphere, go-back shown |
| EarlyViewer.Viewer.OnOutTheSphere | fruit.js:298-301 | fields become EarlyPanorama.OnOutTheSphere: out of the sphere, go-back hidden |
| EarlyViewer.Viewer.OnClickZoomPlus | fruit.js:450-456 | fields become EarlyPanorama.ZoomPlusClick: plus on, a plus timeout pending |
| EarlyViewer.Viewer.OnPlusTimeout | fruit.js:453-455 | fields become EarlyPanorama.PlusTimeoutFired: plus off |
| EarlyViewer.Viewer.OnClickZoomMinus | fruit.js:458-464 | fields become EarlyPanorama.ZoomMinusClick: minus on, a minus timeout pending |
| EarlyViewer.Viewer.OnMinusTimeout | fruit.js:461-463 | fields become EarlyPanorama.MinusTimeoutFired: minus off |
| EarlyViewer.Viewer.OnClickAutoRotate | fruit.js:466-476 | fields become EarlyPanorama.OnClickAutoRotate and the invariant holds |
| EarlyViewer.Viewer.OnClickGoBack | fruit.js:501-545 | fields become EarlyPanorama.OnClickGoBack: moving, the gate closed if the option is on, a go-back tween queued |
| EarlyViewer.Viewer.OnFocusInComplete | fruit.js:437-442 | fields become EarlyPanorama.FocusInComplete, with the in-the-sphere event handled, and the invariant holds |
| EarlyViewer.Viewer.OnFocusOutComplete | fruit.js:538-543 | fields become EarlyPanorama.FocusOutComplete, with the out-of-the-sphere event handled, and the invariant holds |
| EarlyViewer.Viewer.AssignAutoRotate | fruit.js:21 | fields become EarlyPanorama.AssignAutoRotate: the public autoRotate property written |
| EarlyViewer.Viewer.AssignCameraDistance | fruit.js:20 | fields become EarlyPanorama.AssignCameraDistance: the public cameraDistance property written |
| EarlyViewer.Viewer.ChangeCameraDistance | fruit.js:552-557 | fields become EarlyPanorama.ChangeCameraDistance: the working radius copies the public one |
| EarlyViewer.Viewer.UpdateAutoRotate | fruit.js:558-564 | fields become EarlyPanorama.UpdateAutoRotate: both gates copy the public option |
| EarlyViewer.Viewer.UpdateTweens | fruit.js:191 | fields become EarlyPanorama.TweenUpdate |
| EarlyViewer.Viewer.AdvanceAutoRotation | fruit.js:192-194 | fields become EarlyPanorama.AutoRotateTick |
| EarlyViewer.Viewer.PlaceCamera | fruit.js:195-205 | fields become EarlyPanorama.OrbitWrite |
| EarlyViewer.Viewer.StepZoom | fruit.js:206-213 | fields become EarlyPanorama.ZoomTick |
| EarlyViewer.Viewer.Render | fruit.js:189-224 | fields become EarlyPanorama.Render of the old fields and the invariant holds |
| Builders.FloorSqrt | fruitpanorama.js:793-794 | the integer square root: r * r <= n < (r + 1) * (r + 1) |
| Builders.SqrtOfSquare | fruitpanorama.js:793-794 | the square root of r * r is r, so r * r passes the integer test |
| Builders.GrapeAcceptance | fruitpanorama.js:852-860 | GRAPE accepts r * r images iff r > 0, and never a count strictly between two squares |
| Builders.GrapeRing | fruitpanorama.js:798-808 | ring i holds 2i+1 grapes whose images are consecutive from the ring's first |
| Builders.GrapeRingsShape | fruitpanorama.js:796-811 | rings of 1, 3, 5, ... grapes hold count² grapes, the k-th with image k |
| Builders.GrapeBuild | fruitpanorama.js:852-866 | a rejected count adds nothing; an accepted one adds exactly n grapes, each image once, two branches and the optional leaf |
| Builders.EarlyGrapeBuild | fruit.js:601-661 | fruit.js GRAPE always adds the two branches and the leaf; it adds each image once for a square count and no grapes otherwise |
| Builders.CherryBuild | fruitpanorama.js:888-962 | a count outside 1..3 adds nothing; otherwise n cherries, each image once, n branches and the optional leaf |
| Builders.EarlyCherryBuild | fruit.js:683-742 | fruit.js CHERRY adds no cherries for more than 3 images but still adds exactly n branches and then the leaf when enabled; up to 3 it adds each image once |
| Builders.BranchNumber | fruitpanorama.js:985 | the tree branch has 3 or 5 forks |
| Builders.AppleBuild | fruitpanorama.js:984-1065 | a count outside 2..6 adds nothing; otherwise n apples at their own table entries (never overrun), and the extras are exactly a 3-fork tree branch for 2 apples (5 otherwise) followed by 6 or 9 leaves when enabled |
| Builders.BowlBuild | fruitpanorama.js:1084-1148 | the row split covers all n images (2n/3 + n/3 = n, the upper row half the lower); 3..5 is one row; a rejected count adds nothing, an accepted one n fruits and the bowl |
| Builders.CustomScale | fruitpanorama.js:1178 | a missing or zero scale becomes 1, any other is kept; the scale is never 0 |
| Builders.CustomBuild | fruitpanorama.js:1168-1181 | CUSTOM adds every image once, at fruitsPositions[i] when given, at the origin when not, with a non-zero scale |
| Builders.Scene.constructor | fruitpanorama.js:5-90 | SPHERES and EXTRAS start empty |
| Builders.Scene.CreateGrapes | fruitpanorama.js:796-811 | the nested loop with the nth counter appends exactly the grape layout of `rows` rings |
| Builders.Scene.CreateGrapeBranch | fruitpanorama.js:813-831 | two branches appended to EXTRAS |
| Builders.Scene.CreateLeaf | fruitpanorama.js:833-850 | one leaf appended iff leaves are enabled |
| Builders.Scene.AddGrapes | fruitpanorama.js:852-866 | GRAPE addToInit appends exactly GrapeAdditions(n) |
| Builders.Scene.AddGrapesEarly | fruit.js:601-661 | fruit.js GRAPE addToInit appends exactly EarlyGrapeAdditions(n) |
| Builders.Scene.CreateCherries | fruitpanorama.js:891-900 | the loop appends exactly the cherry ring |
| Builders.Scene.CreateCherryBranches | fruitpanorama.js:902-922 | one branch per cherry appended |
| Builders.Scene.AddCherries | fruitpanorama.js:950-962 | CHERRY addToInit appends exactly CherryAdditions(n) |
| Builders.Scene.AddCherriesEarly | fruit.js:683-742 | fruit.js CHERRY addToInit appends exactly EarlyCherryAdditions(n) |
| Builders.Scene.CreateApples | fruitpanorama.js:1010-1016 | apple i placed at table entry i |
| Builders.Scene.CreateAppleLeaves | fruitpanorama.js:1034-1053 | one leaf per leaf-table entry when leaves are enabled |
| Builders.Scene.AddApples | fruitpanorama.js:1055-1065 | APPLEBRANCH addToInit appends exactly AppleAdditions(n) |
| Builders.Scene.CreateBowlFruits | fruitpanorama.js:1097-1120 | the lower row, then the upper row at height 1.65 if not empty, with nth counting on |
| Builders.Scene.AddBowl | fruitpanorama.js:1084-1148 | FRUITBOWL addToInit appends exactly BowlAdditions(n) |
| Builders.Scene.AddCustomFruits | fruitpanorama.js:1168-1181 | CUSTOM createFruits appends exactly the custom layout |

## Left out

- WebGL rendering, the scene graph, `camera.lookAt` and raycasting are not
  modelled. The raycaster's result is the `pick` input of a render step.
- Tween interpolation and easing are not modelled. A tween only starts
  (queued) and completes, and the camera and look-at point are `Animated` and
  `Interpolating` while one runs. After the go-back tween completes the camera
  stays `Animated` until the next orbit write.
- `setTimeout`, `requestAnimationFrame` and the DOM custom events become
  explicit events. The model does not order them in time beyond the tween
  queue.
- The camera's Cartesian position from `setFromSphericalCoords` and the
  look-at offset are not modelled. For an orbit write the model keeps the
  radius, the clamped polar angle and the azimuth; the go-back tween's
  unclamped target is not kept (see the `FocusOutComplete` line below). The canvas pointer in device coordinates is not
  kept either.
- The finger distance `Math.sqrt(dx*dx + dy*dy)` is an input of the touch
  events.
- Ring radii from `Math.sin` and all mesh coordinates except the apple table
  and the custom positions are not modelled. A ring slot is given by ring,
  slot, ring size, height and turn.
- The SPHERES and EXTRAS group offsets that addToInit sets are not modelled.
- The positions, rotations, geometries, materials and textures of branches,
  leaves, the tree branch and the bowl are not modelled.
- CUSTOMPANORAMA `createExtras` (OBJ, font and geometry loading) and the
  geometry generators are float geometry over library constructors.
- Preloader, loading manager, background, button DOM, fullscreen, resize,
  `setBackground`, `setTexture`, `setColor` and the read-only property
  getters are I/O and UI.
- `setEventListeners` is not modelled. The model delivers every event, as
  with listeners attached.
- Option parsing (`parseInt`, `parseFloat`, the truncations of fruit.js) is
  not modelled. The constructors take the parsed values.
- The warnings and errors logged for rejected image counts are not modelled.
- Panorama.FocusOutComplete / EarlyPanorama.FocusOutComplete: the go-back
  tween's target pose is not modelled. In the source it is the configured
  radius with the UNCLAMPED polar angle `PI/2 - phi` (`PI/2 - lat` in
  fruit.js) and azimuth `theta` (`lon`), at fruitpanorama.js:601-603 and
  fruit.js:507-510. That pose may lie outside [minPolarAngle, maxPolarAngle]
  until the next orbit write clamps it, and in fruitpanorama.js it stays
  there while `enableRotation` is false, since no orbit write happens then.
  The model instead sets the camera to `Animated` at completion, so the
  polar-bound part of `Inv` says nothing about that pose.
- The per-frame hook `_this.addToRender()` (fruitpanorama.js:162,
  fruit.js:222) is user code run after each frame and is not modelled.
- Runtime writes to the public options (`enableRotation`, `zoomMin`,
  `zoomMax`, `zoomSpeed`, `autoRotateSpeed`, the polar bounds, and
  `cameraSpeed` in fruit.js) are not modelled: `Config` is fixed for a run.
  Direct writes to the public `autoRotate` and `cameraDistance` properties
  are modelled, in both revisions, as the `AutoRotateAssigned` and
  `CameraDistanceAssigned` events.
  A change of `cameraSpeed` between two clicks would let a later tween end
  before an earlier one; the model's tween queue completes tweens in the
  order they started, which holds only while every tween has the same
  duration.
- Builders.FloorSqrt: `Math.sqrt` on doubles is taken to be exact, so the
  perfect-square test is the integer one. The model does not capture
  rounding for image counts beyond 2^52.
- Builders.BowlRows: `n * (2/3)` and `n * (1/3)` in doubles are taken to be
  the integers 2n/3 and n/3 for a multiple of 3.
- Angles, zoom and radius are reals, so double rounding in the rotation and
  zoom arithmetic is not modelled.
