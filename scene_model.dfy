/** The state of `ThreeSceneService` as a value, and each public operation of
    the service as a function from the old state to the new one. The class in
    module ThreeScene is proved against these functions. Three.js objects are
    reduced to the fields the service reads or writes. */
module SceneModel {
  import opened Wrappers
  import opened CameraConfigs

  /** `clientWidth`/`clientHeight` of a DOM element: whole, non-negative pixels. */
  datatype Size = Size(width: nat, height: nat)

  /** A JavaScript number obtained by dividing one client dimension by another. */
  datatype Quotient = Finite(value: real) | PositiveInfinity | NotANumber

  /** JavaScript `/` on two non-negative integers: exact when the divisor is
      positive, `Infinity` for `w / 0` with `w > 0`, `NaN` for `0 / 0`. */
  function Divide(w: nat, h: nat): (q: Quotient)
    ensures q.Finite? <==> h > 0
    ensures q.Finite? ==> q.value >= 0.0 && q.value * (h as real) == w as real
    ensures q.NotANumber? <==> w == 0 && h == 0
  {
    if h > 0 then Finite(w as real / h as real)
    else if w > 0 then PositiveInfinity
    else NotANumber
  }

  /** The aspect ratio `width / height` of an element. */
  function AspectOf(s: Size): Quotient {
    Divide(s.width, s.height)
  }

  /** Where a camera was put, in the spherical coordinates of its configuration.
      The Cartesian position (sine/cosine), `lookAt` and the matrix updates are
      not modelled; the camera's position is a function of this triple. */
  datatype Placement = Placement(distance: real, phi: real, theta: real)

  function PlacementOf(c: CameraConfig): Placement {
    Placement(c.distance, c.phi, c.theta)
  }

  /** The fields of a `PerspectiveCamera` the service reads or writes. */
  datatype Camera = Camera(fov: real, aspect: Quotient, near: real, far: real, placement: Placement)

  /** A camera shows configuration `c` when its placement and its perspective
      parameters are those of `c`. */
  predicate Shows(cam: Camera, c: CameraConfig) {
    cam.placement == PlacementOf(c) && cam.fov == c.fov && cam.near == c.near && cam.far == c.far
  }

  /** `new PerspectiveCamera(c.fov, aspect, c.near, c.far)` followed by
      `updateCameraPosition(camera, c)`. */
  function NewCamera(c: CameraConfig, aspect: Quotient): (cam: Camera)
    ensures Shows(cam, c) && cam.aspect == aspect
  {
    Camera(c.fov, aspect, c.near, c.far, PlacementOf(c))
  }

  /** Errors the service throws. */
  datatype Error =
    | SceneNotInitialized  // `initialize2D` before `initialize`
    | CameraMissing        // TypeError: the live camera is still `undefined`

  /** The fields of the service. `renderer`/`renderer2D` hold the size last
      given to `setSize`; `hasCanvas`/`hasCanvas2D` say whether the canvas
      references are set. The animation loop is described by the id of the
      last requested frame, whether that request is still pending, and how
      many self-rescheduling loops are running. */
  datatype SceneState = SceneState(
    camera1Config: CameraConfig,
    camera2Config: CameraConfig,
    sceneBuilt: bool,
    hasCanvas: bool,
    renderer: Option<Size>,
    mainCamera: Option<Camera>,
    camera2: Option<Camera>,
    hasCanvas2D: bool,
    renderer2D: Option<Size>,
    animationId: Option<nat>,
    animationPending: bool,
    runningLoops: nat)

  /** What holds between the fields after any sequence of operations:
      `initialize` sets the scene, the canvas, the renderer and both cameras
      together, `initialize2D` sets the 2D canvas and renderer together and
      only after `initialize`, and a pending frame belongs to a running loop. */
  predicate Consistent(s: SceneState) {
    (s.hasCanvas <==> s.sceneBuilt)
    && (s.renderer.Some? <==> s.sceneBuilt)
    && (s.mainCamera.Some? <==> s.sceneBuilt)
    && (s.camera2.Some? <==> s.sceneBuilt)
    && (s.animationId.Some? <==> s.sceneBuilt)
    && (s.hasCanvas2D <==> s.renderer2D.Some?)
    && (s.hasCanvas2D ==> s.sceneBuilt)
    && (s.animationPending ==> s.animationId.Some? && s.runningLoops > 0)
  }

  /** The live cameras show the position and field of view of their
      configurations (camera 1 is `mainCamera`, camera 2 is `camera2`). */
  predicate InSync(s: SceneState) {
    (s.mainCamera.Some? ==> s.mainCamera.value.placement == PlacementOf(s.camera1Config)
                            && s.mainCamera.value.fov == s.camera1Config.fov)
    && (s.camera2.Some? ==> s.camera2.value.placement == PlacementOf(s.camera2Config)
                            && s.camera2.value.fov == s.camera2Config.fov)
  }

  /** The freshly constructed service: default configurations, nothing built. */
  function Fresh(): (s: SceneState)
    ensures Consistent(s) && InSync(s) && !s.sceneBuilt && s.runningLoops == 0
    ensures s.camera1Config == DefaultCamera1() && s.camera2Config == DefaultCamera2()
  {
    SceneState(DefaultCamera1(), DefaultCamera2(), false, false, None, None, None,
               false, None, None, false, 0)
  }

  /** `initialize(canvasRef)`: builds the scene, the renderer sized to the
      canvas, both cameras with the canvas's aspect ratio, and starts one more
      animation loop whose first frame request is `frame`. A second call is
      not rejected: it rebuilds the scene, the renderer and both cameras
      (`mainCamera` takes this canvas's aspect ratio), keeps the 2D canvas and
      its renderer, and starts another loop. */
  function Initialize(s: SceneState, canvas: Size, frame: nat): (r: SceneState)
    ensures Consistent(s) ==> Consistent(r)
    ensures InSync(r)
    ensures r.sceneBuilt && r.hasCanvas && r.renderer == Some(canvas)
    ensures r.mainCamera.Some? && Shows(r.mainCamera.value, s.camera1Config)
    ensures r.camera2.Some? && Shows(r.camera2.value, s.camera2Config)
    ensures r.mainCamera.value.aspect == AspectOf(canvas) && r.camera2.value.aspect == AspectOf(canvas)
    ensures r.runningLoops == s.runningLoops + 1 && r.animationId == Some(frame) && r.animationPending
    ensures r.camera1Config == s.camera1Config && r.camera2Config == s.camera2Config
    ensures r.hasCanvas2D == s.hasCanvas2D && r.renderer2D == s.renderer2D
  {
    s.(sceneBuilt := true, hasCanvas := true, renderer := Some(canvas),
       mainCamera := Some(NewCamera(s.camera1Config, AspectOf(canvas))),
       camera2 := Some(NewCamera(s.camera2Config, AspectOf(canvas))),
       animationId := Some(frame), animationPending := true,
       runningLoops := s.runningLoops + 1)
  }

  /** `initialize2D(canvasRef)`: throws unless the scene and camera 1 exist;
      otherwise records the 2D canvas and a renderer sized to it, and gives
      camera 1 the 2D canvas's aspect ratio. */
  function Initialize2D(s: SceneState, canvas2D: Size): (r: (SceneState, Outcome<Error>))
    ensures r.1.Pass? <==> s.sceneBuilt && s.mainCamera.Some?
    ensures r.1.Fail? ==> r.1.error == SceneNotInitialized && r.0 == s
    ensures r.1.Pass? ==> r.0.hasCanvas2D && r.0.renderer2D == Some(canvas2D)
    ensures r.1.Pass? ==> r.0.mainCamera == Some(s.mainCamera.value.(aspect := AspectOf(canvas2D)))
    ensures r.1.Pass? ==> r.0.camera2 == s.camera2 && r.0.renderer == s.renderer
    ensures r.1.Pass? ==> r.0 == s.(hasCanvas2D := true, mainCamera := r.0.mainCamera,
                                    renderer2D := r.0.renderer2D)
    ensures Consistent(s) ==> Consistent(r.0)
    ensures InSync(s) ==> InSync(r.0)
  {
    if !s.sceneBuilt || s.mainCamera.None? then
      (s, Fail(SceneNotInitialized))
    else
      (s.(hasCanvas2D := true,
          mainCamera := Some(s.mainCamera.value.(aspect := AspectOf(canvas2D))),
          renderer2D := Some(canvas2D)),
       Pass)
  }

  /** `updateCamera1(partial)`: merges `partial` into camera 1's configuration
      first, then moves `mainCamera` and sets its field of view; with no
      `mainCamera` yet that second step throws, leaving the merge done. */
  function UpdateCamera1(s: SceneState, p: PartialConfig): (r: (SceneState, Outcome<Error>))
    ensures r.0.camera1Config == Merge(s.camera1Config, p)
    ensures r.0.camera2Config == s.camera2Config && r.0.camera2 == s.camera2
    ensures r.1.Pass? <==> s.mainCamera.Some?
    ensures r.1.Fail? ==> r.1.error == CameraMissing && r.0 == s.(camera1Config := r.0.camera1Config)
    ensures r.1.Pass? ==> r.0.mainCamera.Some?
                          && r.0.mainCamera.value.fov == r.0.camera1Config.fov
                          && r.0.mainCamera.value.placement == PlacementOf(r.0.camera1Config)
                          && r.0.mainCamera.value.aspect == s.mainCamera.value.aspect
                          && r.0.mainCamera.value.near == s.mainCamera.value.near
                          && r.0.mainCamera.value.far == s.mainCamera.value.far
    ensures r.1.Pass? ==> r.0 == s.(camera1Config := r.0.camera1Config, mainCamera := r.0.mainCamera)
    ensures Consistent(s) ==> Consistent(r.0)
    ensures Consistent(s) && InSync(s) ==> InSync(r.0)
  {
    var c := Merge(s.camera1Config, p);
    if s.mainCamera.None? then
      (s.(camera1Config := c), Fail(CameraMissing))
    else
      (s.(camera1Config := c,
          mainCamera := Some(s.mainCamera.value.(placement := PlacementOf(c), fov := c.fov))),
       Pass)
  }

  /** `updateCamera2(partial)`: the same for camera 2 and `camera2`. */
  function UpdateCamera2(s: SceneState, p: PartialConfig): (r: (SceneState, Outcome<Error>))
    ensures r.0.camera2Config == Merge(s.camera2Config, p)
    ensures r.0.camera1Config == s.camera1Config && r.0.mainCamera == s.mainCamera
    ensures r.1.Pass? <==> s.camera2.Some?
    ensures r.1.Fail? ==> r.1.error == CameraMissing && r.0 == s.(camera2Config := r.0.camera2Config)
    ensures r.1.Pass? ==> r.0.camera2.Some?
                          && r.0.camera2.value.fov == r.0.camera2Config.fov
                          && r.0.camera2.value.placement == PlacementOf(r.0.camera2Config)
                          && r.0.camera2.value.aspect == s.camera2.value.aspect
                          && r.0.camera2.value.near == s.camera2.value.near
                          && r.0.camera2.value.far == s.camera2.value.far
    ensures r.1.Pass? ==> r.0 == s.(camera2Config := r.0.camera2Config, camera2 := r.0.camera2)
    ensures Consistent(s) ==> Consistent(r.0)
    ensures Consistent(s) && InSync(s) ==> InSync(r.0)
  {
    var c := Merge(s.camera2Config, p);
    if s.camera2.None? then
      (s.(camera2Config := c), Fail(CameraMissing))
    else
      (s.(camera2Config := c,
          camera2 := Some(s.camera2.value.(placement := PlacementOf(c), fov := c.fov))),
       Pass)
  }

  /** Whether `resizeCanvases` gets past its guards: the canvas reference and
      the renderer exist and the canvas has a parent container. */
  predicate ResizeApplies(s: SceneState, container: Option<Size>) {
    s.hasCanvas && s.renderer.Some? && container.Some?
  }

  /** Whether `resizeCanvases` also resizes the 2D view. */
  predicate Resize2DApplies(s: SceneState, container2D: Option<Size>) {
    s.hasCanvas2D && s.renderer2D.Some? && container2D.Some?
  }

  /** `resizeCanvases()`, given the client sizes of the two canvases' parent
      containers (`None` for a canvas without a parent). The aspect ratios are
      set crosswise: `camera2`, drawn on the 3D canvas, gets the 3D container's
      ratio; `mainCamera`, drawn on the 2D canvas, gets the 2D container's,
      and only once the 2D view exists. Nothing is skipped for a zero size. */
  function Resize(s: SceneState, container: Option<Size>, container2D: Option<Size>): (r: SceneState)
    requires Consistent(s)
    ensures Consistent(r)
    ensures !ResizeApplies(s, container) ==> r == s
    ensures ResizeApplies(s, container) ==>
              r.camera2 == Some(s.camera2.value.(aspect := AspectOf(container.value)))
              && r.renderer == container
    ensures ResizeApplies(s, container) && Resize2DApplies(s, container2D) ==>
              r.mainCamera == Some(s.mainCamera.value.(aspect := AspectOf(container2D.value)))
              && r.renderer2D == container2D
    ensures !(ResizeApplies(s, container) && Resize2DApplies(s, container2D)) ==>
              r.mainCamera == s.mainCamera && r.renderer2D == s.renderer2D
    ensures r == s.(camera2 := r.camera2, renderer := r.renderer,
                    mainCamera := r.mainCamera, renderer2D := r.renderer2D)
  {
    if !ResizeApplies(s, container) then s
    else
      var t := s.(camera2 := Some(s.camera2.value.(aspect := AspectOf(container.value))),
                  renderer := container);
      if Resize2DApplies(s, container2D) then
        t.(mainCamera := Some(s.mainCamera.value.(aspect := AspectOf(container2D.value))),
           renderer2D := container2D)
      else t
  }

  /** `ngOnDestroy()`, its animation part: a pending frame request is cancelled,
      which stops the loop that made it. The id is not cleared. */
  function Destroy(s: SceneState): (r: SceneState)
    requires Consistent(s)
    ensures Consistent(r)
    ensures !r.animationPending
    ensures s.animationPending ==> r.runningLoops == s.runningLoops - 1
    ensures !s.animationPending ==> r.runningLoops == s.runningLoops
    ensures r == s.(animationPending := false, runningLoops := r.runningLoops)
  {
    if s.animationId.Some? && s.animationPending then
      s.(animationPending := false, runningLoops := s.runningLoops - 1)
    else s
  }
}
