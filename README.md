# Dual-viewport scene service and split resizer, modelled in Dafny

The application shows one 3D scene in two panels. The left panel draws the
scene through camera 2 and shows camera 1 as a frustum inside it. The right
panel draws what camera 1 sees. A draggable divider sets the width of the
left panel. This project models the two stateful pieces of that application:

- `ThreeSceneService` (`src/app/services/three-scene.service.ts`). It holds
  the two camera configurations and the live cameras, and tracks whether the
  main view and the 2D view exist. It merges partial camera updates, sets the
  aspect ratios crosswise on resize, and runs the animation loop.
- `SplitResizerComponent` (`src/app/components/split-resizer/split-resizer.component.ts`).
  It is the drag state machine. Mouse-down records the drag origin. Mouse-move
  clamps the new left width to [200, 0.8 × window width] and requests at most
  one animation frame that emits `resizing`. Mouse-up ends the drag.

Each piece has two layers:

- A pure module (`SceneModel`, `ResizerModel`) states the component's fields
  as a datatype and each operation as a function from the old state to the
  new one. The contracts and lemmas live here.
- A class (`ThreeScene.ThreeSceneService`, `SplitResizer.SplitResizerComponent`)
  has the same fields. Each method is proved to change them exactly as its
  function does, and to keep the state invariant.

`CameraConfigs` holds the configuration record, its defaults and the object
spread `{ ...config, ...partial }`.

Numbers are modelled as `real`s. DOM client sizes are modelled as `nat`s.
Where the code divides one client dimension by another, the model gives the
exact real quotient (floating point is left out), `Infinity` for `w / 0`, or
`NaN` for `0 / 0`.

Two behaviours of the code are easy to miss:

- `initialize` does not reject a second call
  (three-scene.service.ts:56-117). It rebuilds the scene, the renderer and
  both cameras, and starts a second animation loop. It keeps the 2D canvas
  and `renderer2D`, and `mainCamera` takes the 3D canvas's aspect ratio until
  the next resize. `ngOnDestroy` cancels only the frame request whose id was
  stored last, so one of the two loops keeps running
  (`SceneLemmas.DestroyStopsOnlyLastLoop`).
- `resizeCanvases` does not skip zero-size containers. It divides
  unconditionally (three-scene.service.ts:217-221, 231-235;
  `SceneLemmas.ZeroHeightNotSkipped`).

## Model

| member | source | states |
|---|---|---|
| CameraConfigs.DefaultCamera1 | src/app/services/three-scene.service.ts:33-40 | camera 1's default (15, π/4, π/4, fov 50, 0.1, 1000) is well formed: distance > 0, fov > 0, 0 < near < far, angles in range |
| CameraConfigs.DefaultCamera2 | src/app/services/three-scene.service.ts:43-50 | camera 2's default (20, π/3, π, fov 45, 0.1, 1000) is well formed |
| CameraConfigs.ConfigExtensionality | src/app/services/three-scene.service.ts:4-11 | two configurations that agree on all six keys are equal |
| CameraConfigs.Merge | src/app/services/three-scene.service.ts:165 | the spread takes each key given in the partial from the partial and keeps every other key |
| CameraConfigs.Overlay | src/app/services/three-scene.service.ts:164 | the spread of two partials: the second partial's keys win, the first fills the rest |
| CameraConfigs.MergeNoChange | src/app/services/three-scene.service.ts:165 | merging `{}` leaves the configuration unchanged |
| CameraConfigs.MergeIdempotent | src/app/services/three-scene.service.ts:165 | merging the same partial twice equals merging it once |
| CameraConfigs.MergeCompose | src/app/services/three-scene.service.ts:165 | two successive merges equal one merge of the spread of both partials |
| CameraConfigs.MergeTotal | src/app/services/three-scene.service.ts:165 | a partial giving every key replaces the configuration |
| CameraConfigs.MergeDoesNotValidate | src/app/services/three-scene.service.ts:164-170 | the merge does no validation: one key can break 0 < near < far |
| SceneModel.Divide | src/app/services/three-scene.service.ts:221 | the aspect ratio is finite iff the height is positive, and then it times the height gives the width; it is NaN iff both are 0 |
| SceneModel.NewCamera | src/app/services/three-scene.service.ts:78-96 | a new camera has its config's fov, near, far and placement, and the given aspect |
| SceneModel.Fresh | src/app/services/three-scene.service.ts:28-54 | a new service has the default configs, nothing built, no loop running, and is consistent |
| SceneModel.Initialize | src/app/services/three-scene.service.ts:56-117 | initialize builds the scene, canvas, renderer sized to the canvas, and both cameras from their configs with the canvas's aspect; it starts one more loop, leaves the configs and the 2D view alone, and keeps consistency |
| SceneModel.Initialize2D | src/app/services/three-scene.service.ts:258-279 | it fails iff the scene or camera 1 is missing, and then changes nothing; otherwise it records the 2D canvas and renderer, sets camera 1's aspect to the 2D canvas's, and leaves every other field (configs, scene, primary renderer, camera 2, animation) unchanged |
| SceneModel.UpdateCamera1 | src/app/services/three-scene.service.ts:164-170 | camera 1's config becomes the merge and camera 2 is untouched; if mainCamera exists, its fov and placement follow the merged config and its aspect/near/far are kept, otherwise it throws after the merge |
| SceneModel.UpdateCamera2 | src/app/services/three-scene.service.ts:172-177 | the same for camera 2; camera 1's config and mainCamera are untouched |
| SceneModel.Resize | src/app/services/three-scene.service.ts:209-244 | no-op before initialize or without a parent container; otherwise camera2's aspect comes from the 3D container and mainCamera's from the 2D container, only once the 2D view exists; nothing else changes |
| SceneModel.Destroy | src/app/services/three-scene.service.ts:281-284 | cancelling the pending frame stops exactly one running loop; without a pending frame nothing changes |
| SceneLemmas.ResizeIdempotent | src/app/services/three-scene.service.ts:209-244 | resizing twice with unchanged containers equals resizing once |
| SceneLemmas.ResizeCommutesWithUpdate1 | src/app/services/three-scene.service.ts:164-170 | a resize and a camera-1 update commute |
| SceneLemmas.ResizeCommutesWithUpdate2 | src/app/services/three-scene.service.ts:172-177 | a resize and a camera-2 update commute |
| SceneLemmas.Initialize2DNeedsInitialize | src/app/services/three-scene.service.ts:259-261 | on a fresh service initialize2D throws and records no 2D canvas or renderer |
| SceneLemmas.ResizeBeforeInitialize | src/app/services/three-scene.service.ts:210 | on a fresh service a resize changes nothing |
| SceneLemmas.ResizeWithout2DKeepsCamera1 | src/app/services/three-scene.service.ts:227-240 | without the 2D view a resize keeps mainCamera, even when a 2D container is given |
| SceneLemmas.EndToEndAspects | src/app/services/three-scene.service.ts:217-235 | after initialize at 800x600, initialize2D at 400x300 and a resize, camera 2's aspect is 800/600 and camera 1's is 400/300 |
| SceneLemmas.ZeroHeightNotSkipped | src/app/services/three-scene.service.ts:217-221 | a zero-height container gives camera 2 an aspect of Infinity (or NaN for 0x0) |
| SceneLemmas.UpdateDoesNotApplyClipPlanes | src/app/services/three-scene.service.ts:164-168 | after updateCamera1({near: 5}) the config says 5 and the live camera keeps 0.1 |
| SceneLemmas.DestroyStopsOnlyLastLoop | src/app/services/three-scene.service.ts:179-187 | initialize then ngOnDestroy leaves no loop; initialize twice then ngOnDestroy leaves one loop running |
| SceneLemmas.DestroyIdempotent | src/app/services/three-scene.service.ts:281-284 | an immediately repeated ngOnDestroy, with no animation frame in between, cancels nothing more |
| SceneLemmas.Apply | src/app/services/three-scene.service.ts:56-294 | each public call keeps the service consistent |
| SceneLemmas.Run | src/app/services/three-scene.service.ts:56-294 | any sequence of public calls keeps the service consistent |
| SceneLemmas.RunKeepsCamerasInSync | src/app/services/three-scene.service.ts:164-177 | after any sequence of calls each live camera has the placement and fov of its config |
| SceneLemmas.RunWithoutUpdatesKeepsConfigs | src/app/services/three-scene.service.ts:32-50 | calls other than the two updates never change either config |
| ThreeScene.ThreeSceneService.constructor | src/app/services/three-scene.service.ts:28-54 | the fields start as SceneModel.Fresh |
| ThreeScene.ThreeSceneService.Initialize | src/app/services/three-scene.service.ts:56-117 | the fields change as SceneModel.Initialize says, and the invariant holds |
| ThreeScene.ThreeSceneService.Initialize2D | src/app/services/three-scene.service.ts:258-279 | the fields and the outcome are those of SceneModel.Initialize2D |
| ThreeScene.ThreeSceneService.UpdateCamera1 | src/app/services/three-scene.service.ts:164-170 | the fields and the outcome are those of SceneModel.UpdateCamera1 |
| ThreeScene.ThreeSceneService.UpdateCamera2 | src/app/services/three-scene.service.ts:172-177 | the fields and the outcome are those of SceneModel.UpdateCamera2 |
| ThreeScene.ThreeSceneService.ResizeCanvases | src/app/services/three-scene.service.ts:209-244 | the fields change as SceneModel.Resize says |
| ThreeScene.ThreeSceneService.GetCamera1Config | src/app/services/three-scene.service.ts:246-248 | returns a value equal to camera 1's config on every key; later updates cannot affect it (ThreeScene.HostSession shows a copy keeping fov 50 after an update to 70) |
| ThreeScene.ThreeSceneService.GetCamera2Config | src/app/services/three-scene.service.ts:250-252 | returns a value equal to camera 2's config on every key |
| ThreeScene.ThreeSceneService.OnDestroy | src/app/services/three-scene.service.ts:281-284 | the fields change as SceneModel.Destroy says |
| ResizerModel.Clamp | src/app/components/split-resizer/split-resizer.component.ts:63-66 | the width is at least 200, at most 0.8 × innerWidth when 200 fits, exactly 200 when it does not; 200 for any width ≤ 200, 0.8 × innerWidth for any width above that bound when 200 fits, and the width itself inside the bounds |
| ResizerModel.ClampMonotone | src/app/components/split-resizer/split-resizer.component.ts:66 | the clamp preserves the order of widths |
| ResizerModel.ClampExamples | src/app/components/split-resizer/split-resizer.component.ts:60-66 | start 400, window 1000: delta +10000 gives 800, delta −10000 gives 200 |
| ResizerModel.Initial | src/app/components/split-resizer/split-resizer.component.ts:15-24 | a new component is not dragging, has startX = startLeftWidth = 0, no panels, no pending frame, no document handlers, and has emitted nothing |
| ResizerModel.AfterViewInit | src/app/components/split-resizer/split-resizer.component.ts:26-33 | the panels are set from the parent's children when there is a parent; otherwise nothing changes |
| ResizerModel.MouseDown | src/app/components/split-resizer/split-resizer.component.ts:36-55 | dragging starts at clientX; the start width is the left panel's width, or the old value when there is no left panel; emits resizeStart once and registers one more handler pair |
| ResizerModel.MouseMove | src/app/components/split-resizer/split-resizer.component.ts:57-85 | does nothing when not dragging; otherwise writes the clamped width and flex none to the left panel and flex 1 to the right; requests a frame only when none is pending; emits nothing and keeps the drag origin |
| ResizerModel.FrameCallback | src/app/components/split-resizer/split-resizer.component.ts:80-83 | emits resizing once and clears the request |
| ResizerModel.MouseUp | src/app/components/split-resizer/split-resizer.component.ts:87-96 | does nothing when not dragging; otherwise ends the drag and emits resizeEnd once |
| ResizerModel.MoveWidthBounds | src/app/components/split-resizer/split-resizer.component.ts:60-71 | the width written to the left panel is ≥ 200, ≤ 0.8 × innerWidth when that is ≥ 200, and equal to start + delta inside the bounds |
| ResizerModel.MouseMoveIdempotent | src/app/components/split-resizer/split-resizer.component.ts:57-85 | handling the same move twice equals handling it once |
| ResizerModel.MouseUpIdempotent | src/app/components/split-resizer/split-resizer.component.ts:87-92 | a second mouse-up is a no-op |
| ResizerModel.DispatchMoveActsOnce | src/app/components/split-resizer/split-resizer.component.ts:49 | any number (≥ 1) of accumulated mousemove handlers act like one |
| ResizerModel.DispatchUpActsOnce | src/app/components/split-resizer/split-resizer.component.ts:50 | any number (≥ 1) of accumulated mouseup handlers act like one |
| ResizerModel.StepActsOnce | src/app/components/split-resizer/split-resizer.component.ts:49-50 | a document move or release does nothing before the first mouse-down and acts like a single handler after it |
| ResizerModel.StepThrottle | src/app/components/split-resizer/split-resizer.component.ts:79-84 | per input: only a refresh emits resizing, at most once; only a move adds a pending request; consistency is kept |
| ResizerModel.RunThrottle | src/app/components/split-resizer/split-resizer.component.ts:79-84 | over any run: the number of resizing events is at most the number of refreshes, and at most the number of moves minus what is still pending |
| ResizerModel.RunKeepsConsistent | src/app/components/split-resizer/split-resizer.component.ts:38-46 | over any run, every resizeEnd answers an earlier resizeStart |
| ResizerModel.RunWithoutDownKeepsOrigin | src/app/components/split-resizer/split-resizer.component.ts:39-43 | moves, releases and refreshes never change startX or startLeftWidth |
| ResizerModel.DragExample | src/app/components/split-resizer/split-resizer.component.ts:36-71 | press at 500 over a 400-pixel panel in a 1000-pixel window: moving to 10500 writes 800, moving to −9500 writes 200 |
| SplitResizer.SplitResizerComponent.constructor | src/app/components/split-resizer/split-resizer.component.ts:15-24 | the fields start as ResizerModel.Initial |
| SplitResizer.SplitResizerComponent.NgAfterViewInit | src/app/components/split-resizer/split-resizer.component.ts:26-33 | the fields change as ResizerModel.AfterViewInit says |
| SplitResizer.SplitResizerComponent.OnMouseDown | src/app/components/split-resizer/split-resizer.component.ts:36-55 | the fields change as ResizerModel.MouseDown says, and consistency is kept |
| SplitResizer.SplitResizerComponent.OnMouseMove | src/app/components/split-resizer/split-resizer.component.ts:57-85 | the fields change as ResizerModel.MouseMove says |
| SplitResizer.SplitResizerComponent.OnAnimationFrame | src/app/components/split-resizer/split-resizer.component.ts:80-83 | the fields change as ResizerModel.FrameCallback says |
| SplitResizer.SplitResizerComponent.OnMouseUp | src/app/components/split-resizer/split-resizer.component.ts:87-96 | the fields change as ResizerModel.MouseUp says |

## Left out

- Spherical-to-Cartesian conversion, `lookAt` and the matrix updates (three-scene.service.ts:152-162). They are floating-point trigonometry on Three.js objects. A camera records its spherical placement, and its position is a function of that placement.
- Three.js objects and rendering are not modelled. This covers the scene, the box, the lights, the axes and camera helpers (`cameraHelper.update()` included), `render()` (including the immediate render inside `resizeCanvases`), `setPixelRatio` and `dispose`. These are foreign library calls. A renderer is reduced to the size last given to `setSize`.
- Failures inside foreign constructors are not modelled. A `WebGLRenderer` that throws halfway through `initialize` or `initialize2D` cannot occur in the model.
- The frames of the animation loop are not modelled. The loop is reduced to the id of the last requested frame, whether that request is pending, and the number of running loops. This is event-loop scheduling. A loop that survives ngOnDestroy stores a new id at its next frame; the model does not, so it cannot show a later ngOnDestroy stopping that loop.
- Direct writes to the public fields `camera1Config`/`camera2Config` (three-scene.service.ts:33, 43) are not modelled. Such a write bypasses `updateCamera1`/`updateCamera2`; the sync and config invariants (`SceneLemmas.RunKeepsCamerasInSync`, `SceneLemmas.RunWithoutUpdatesKeepsConfigs`) hold for calls to the public methods only.
- The window `resize` listener (three-scene.service.ts:116, 285) is not modelled. It is browser I/O.
- The `updateCallback` stored by `initialize` is not modelled. The service never calls it.
- A `Partial<CameraConfig>` key that is present but holds `undefined` is not modelled. Its spread would write `undefined` into the configuration; the model has only "given" and "absent".
- Floating point is not modelled. Numbers are exact reals, and `Math.PI` is its 16-digit decimal.
- The offset width of the left panel is taken to equal the width last written to it. Layout rounding and CSS constraints are not modelled.
- DOM plumbing in the resizer is not modelled: `preventDefault`, the body `userSelect`/`cursor` styles, and how `Renderer2.listen` registers handlers. Registration is kept only as a count of handler pairs, because the returned unlisten functions are discarded and the handlers pile up.
- Emitted outputs are recorded in a log field. Whatever subscribes to them is outside the model.
- `app.component.ts`, `left-panel.component.ts` and `right-panel.component.ts` are not modelled. They only declare constant strings.
