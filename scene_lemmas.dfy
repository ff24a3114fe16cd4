/** Properties of the scene service that relate several operations. */
module SceneLemmas {
  import opened Wrappers
  import opened CameraConfigs
  import opened SceneModel

  /** Calling `resizeCanvases` twice with unchanged containers gives the state
      one call gives. */
  lemma ResizeIdempotent(s: SceneState, container: Option<Size>, container2D: Option<Size>)
    requires Consistent(s)
    ensures Resize(Resize(s, container, container2D), container, container2D)
         == Resize(s, container, container2D)
  {
  }

  /** Resizing touches only aspect ratios and renderer sizes, a camera update
      only a configuration, a position and a field of view: the two commute. */
  lemma ResizeCommutesWithUpdate1(s: SceneState, p: PartialConfig, container: Option<Size>, container2D: Option<Size>)
    requires Consistent(s)
    ensures Resize(UpdateCamera1(s, p).0, container, container2D)
         == UpdateCamera1(Resize(s, container, container2D), p).0
  {
  }

  lemma ResizeCommutesWithUpdate2(s: SceneState, p: PartialConfig, container: Option<Size>, container2D: Option<Size>)
    requires Consistent(s)
    ensures Resize(UpdateCamera2(s, p).0, container, container2D)
         == UpdateCamera2(Resize(s, container, container2D), p).0
  {
  }

  /** Before `initialize`, `initialize2D` throws and records nothing. */
  lemma Initialize2DNeedsInitialize(canvas2D: Size)
    ensures Initialize2D(Fresh(), canvas2D) == (Fresh(), Fail(SceneNotInitialized))
  {
  }

  /** Before `initialize`, `resizeCanvases` changes nothing. */
  lemma ResizeBeforeInitialize(container: Option<Size>, container2D: Option<Size>)
    ensures Resize(Fresh(), container, container2D) == Fresh()
  {
  }

  /** Without the 2D view, a resize leaves camera 1's aspect ratio alone, even
      when a 2D container is present. */
  lemma ResizeWithout2DKeepsCamera1(s: SceneState, container: Option<Size>, container2D: Option<Size>)
    requires Consistent(s) && !s.hasCanvas2D
    ensures Resize(s, container, container2D).mainCamera == s.mainCamera
  {
  }

  /** Primary canvas 800x600 and 2D canvas 400x300, then one resize with the
      same containers: camera 2 (the 3D view) has aspect 800/600 and camera 1
      (the 2D view) 400/300. */
  lemma EndToEndAspects(frame: nat)
    ensures var s1 := Initialize(Fresh(), Size(800, 600), frame);
            var s2 := Initialize2D(s1, Size(400, 300)).0;
            var s3 := Resize(s2, Some(Size(800, 600)), Some(Size(400, 300)));
            s3.camera2.Some? && s3.camera2.value.aspect == Finite(800.0 / 600.0)
            && s3.mainCamera.Some? && s3.mainCamera.value.aspect == Finite(400.0 / 300.0)
  {
    var s1 := Initialize(Fresh(), Size(800, 600), frame);
    var s2 := Initialize2D(s1, Size(400, 300)).0;
    assert ResizeApplies(s2, Some(Size(800, 600)));
    assert Resize2DApplies(s2, Some(Size(400, 300)));
  }

  /** A zero-height container is not skipped: its width over 0 becomes the
      camera's aspect ratio. */
  lemma ZeroHeightNotSkipped(s: SceneState, w: nat)
    requires Consistent(s) && s.sceneBuilt
    ensures var r := Resize(s, Some(Size(w, 0)), None);
            r.camera2.value.aspect == (if w > 0 then PositiveInfinity else NotANumber)
  {
  }

  /** The camera updates move the live camera and set its field of view but
      never hand the near and far planes to it: after `updateCamera1({near: 5})`
      on a just-initialised service the configuration says 5 and the camera
      still uses the default 0.1. */
  lemma UpdateDoesNotApplyClipPlanes(canvas: Size, frame: nat)
    ensures var s := Initialize(Fresh(), canvas, frame);
            var r := UpdateCamera1(s, NoChange.(near := Some(5.0)));
            r.1.Pass? && r.0.camera1Config.near == 5.0 && r.0.mainCamera.value.near == 0.1
  {
    var s := Initialize(Fresh(), canvas, frame);
    var r := UpdateCamera1(s, NoChange.(near := Some(5.0)));
    assert Given(NoChange.(near := Some(5.0)), Near) == Some(5.0);
  }

  /** One `initialize` and `ngOnDestroy` leave no animation loop running. A
      second `initialize` starts a second loop; each loop stores its frame id in
      the one `animationId` field, so `ngOnDestroy` cancels only the request
      stored last (the second loop's) and the first loop keeps running. */
  lemma DestroyStopsOnlyLastLoop(canvas: Size, canvas': Size, frame: nat, frame': nat)
    ensures Destroy(Initialize(Fresh(), canvas, frame)).runningLoops == 0
    ensures Destroy(Initialize(Initialize(Fresh(), canvas, frame), canvas', frame')).runningLoops == 1
  {
  }

  /** An immediately repeated `ngOnDestroy`, with no animation frame in
      between, cancels nothing more. */
  lemma DestroyIdempotent(s: SceneState)
    requires Consistent(s)
    ensures Destroy(Destroy(s)) == Destroy(s)
  {
  }

  /** The public calls a host page makes on the service. */
  datatype Call =
    | InitializeCall(canvas: Size, frame: nat)
    | Initialize2DCall(canvas2D: Size)
    | UpdateCamera1Call(p: PartialConfig)
    | UpdateCamera2Call(p: PartialConfig)
    | ResizeCall(container: Option<Size>, container2D: Option<Size>)
    | DestroyCall

  /** One call; a call that throws leaves the state it reached. */
  function Apply(s: SceneState, c: Call): (r: SceneState)
    requires Consistent(s)
    ensures Consistent(r)
  {
    match c
    case InitializeCall(canvas, frame) => Initialize(s, canvas, frame)
    case Initialize2DCall(canvas2D) => Initialize2D(s, canvas2D).0
    case UpdateCamera1Call(p) => UpdateCamera1(s, p).0
    case UpdateCamera2Call(p) => UpdateCamera2(s, p).0
    case ResizeCall(container, container2D) => Resize(s, container, container2D)
    case DestroyCall => Destroy(s)
  }

  function Run(s: SceneState, calls: seq<Call>): (r: SceneState)
    requires Consistent(s)
    ensures Consistent(r)
    decreases |calls|
  {
    if calls == [] then s else Run(Apply(s, calls[0]), calls[1..])
  }

  /** Whatever public methods the host calls in whatever order, starting from
      a synchronised state the live cameras keep showing the position and
      field of view of their configurations. */
  lemma {:induction false} RunKeepsCamerasInSync(s: SceneState, calls: seq<Call>)
    requires Consistent(s) && InSync(s)
    ensures InSync(Run(s, calls))
    decreases |calls|
  {
    if calls != [] {
      var t := Apply(s, calls[0]);
      assert InSync(t);
      RunKeepsCamerasInSync(t, calls[1..]);
    }
  }

  /** Among the public methods, only the two update calls change the camera
      configurations: a run made of the other calls leaves both as they were.
      (The fields `camera1Config`/`camera2Config` are public too; a direct
      write to them is not one of these calls.) */
  lemma {:induction false} RunWithoutUpdatesKeepsConfigs(s: SceneState, calls: seq<Call>)
    requires Consistent(s)
    requires forall i :: 0 <= i < |calls| ==> !calls[i].UpdateCamera1Call? && !calls[i].UpdateCamera2Call?
    ensures Run(s, calls).camera1Config == s.camera1Config
    ensures Run(s, calls).camera2Config == s.camera2Config
    decreases |calls|
  {
    if calls != [] {
      var t := Apply(s, calls[0]);
      assert t.camera1Config == s.camera1Config && t.camera2Config == s.camera2Config;
      RunWithoutUpdatesKeepsConfigs(t, calls[1..]);
    }
  }
}
