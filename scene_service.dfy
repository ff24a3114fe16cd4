/** `ThreeSceneService` as a class with the fields the service updates in
    place. Each method is proved to move the fields exactly as the matching
    function of SceneModel moves a SceneState. */
module ThreeScene {
  import opened Wrappers
  import opened CameraConfigs
  import M = SceneModel

  class ThreeSceneService {
    var camera1Config: CameraConfig
    var camera2Config: CameraConfig
    var sceneBuilt: bool
    var hasCanvas: bool
    var renderer: Option<M.Size>
    var mainCamera: Option<M.Camera>
    var camera2: Option<M.Camera>
    var hasCanvas2D: bool
    var renderer2D: Option<M.Size>
    var animationId: Option<nat>
    var animationPending: bool
    var runningLoops: nat

    /** The fields, as one value. */
    function State(): M.SceneState
      reads this
    {
      M.SceneState(camera1Config, camera2Config, sceneBuilt, hasCanvas, renderer,
                   mainCamera, camera2, hasCanvas2D, renderer2D,
                   animationId, animationPending, runningLoops)
    }

    ghost predicate Valid()
      reads this
    {
      M.Consistent(State()) && M.InSync(State())
    }

    constructor ()
      ensures Valid() && State() == M.Fresh()
    {
      camera1Config := DefaultCamera1();
      camera2Config := DefaultCamera2();
      sceneBuilt, hasCanvas := false, false;
      renderer, mainCamera, camera2 := None, None, None;
      hasCanvas2D, renderer2D := false, None;
      animationId, animationPending, runningLoops := None, false, 0;
    }

    /** `initialize(canvasRef)` for a canvas of client size `canvas`;
        `frame` is the id `requestAnimationFrame` returns for the loop's
        first request. */
    method Initialize(canvas: M.Size, frame: nat)
      requires Valid()
      modifies this
      ensures Valid() && State() == M.Initialize(old(State()), canvas, frame)
    {
      hasCanvas := true;
      sceneBuilt := true;
      renderer := Some(canvas);
      var aspect := M.AspectOf(canvas);
      mainCamera := Some(M.NewCamera(camera1Config, aspect));
      camera2 := Some(M.NewCamera(camera2Config, aspect));
      animationId := Some(frame);
      animationPending := true;
      runningLoops := runningLoops + 1;
    }

    /** `initialize2D(canvasRef)`; `Fail` stands for the thrown error. */
    method Initialize2D(canvas2D: M.Size) returns (outcome: Outcome<M.Error>)
      requires Valid()
      modifies this
      ensures Valid() && (State(), outcome) == M.Initialize2D(old(State()), canvas2D)
    {
      if !sceneBuilt || mainCamera.None? {
        return Fail(M.SceneNotInitialized);
      }
      hasCanvas2D := true;
      mainCamera := Some(mainCamera.value.(aspect := M.AspectOf(canvas2D)));
      renderer2D := Some(canvas2D);
      outcome := Pass;
    }

    /** `updateCamera1(partial)`; `Fail` stands for the TypeError thrown when
        `mainCamera` does not exist yet. */
    method UpdateCamera1(p: PartialConfig) returns (outcome: Outcome<M.Error>)
      requires Valid()
      modifies this
      ensures Valid() && (State(), outcome) == M.UpdateCamera1(old(State()), p)
    {
      camera1Config := Merge(camera1Config, p);
      if mainCamera.None? {
        return Fail(M.CameraMissing);
      }
      mainCamera := Some(mainCamera.value.(placement := M.PlacementOf(camera1Config),
                                           fov := camera1Config.fov));
      outcome := Pass;
    }

    /** `updateCamera2(partial)`. */
    method UpdateCamera2(p: PartialConfig) returns (outcome: Outcome<M.Error>)
      requires Valid()
      modifies this
      ensures Valid() && (State(), outcome) == M.UpdateCamera2(old(State()), p)
    {
      camera2Config := Merge(camera2Config, p);
      if camera2.None? {
        return Fail(M.CameraMissing);
      }
      camera2 := Some(camera2.value.(placement := M.PlacementOf(camera2Config),
                                     fov := camera2Config.fov));
      outcome := Pass;
    }

    /** `resizeCanvases()`; `container` and `container2D` are the client
        sizes of the two canvases' parent elements, `None` when a canvas has
        no parent. */
    method ResizeCanvases(container: Option<M.Size>, container2D: Option<M.Size>)
      requires Valid()
      modifies this
      ensures Valid() && State() == M.Resize(old(State()), container, container2D)
    {
      if !hasCanvas || renderer.None? {
        return;
      }
      if container.None? {
        return;
      }
      var size := container.value;
      camera2 := Some(camera2.value.(aspect := M.AspectOf(size)));
      renderer := Some(size);
      if hasCanvas2D && renderer2D.Some? && container2D.Some? {
        var size2D := container2D.value;
        mainCamera := Some(mainCamera.value.(aspect := M.AspectOf(size2D)));
        renderer2D := Some(size2D);
      }
    }

    /** `getCamera1Config()`: a copy of camera 1's configuration. */
    method GetCamera1Config() returns (c: CameraConfig)
      ensures forall f :: Get(c, f) == Get(camera1Config, f)
    {
      c := camera1Config;
    }

    /** `getCamera2Config()`: a copy of camera 2's configuration. */
    method GetCamera2Config() returns (c: CameraConfig)
      ensures forall f :: Get(c, f) == Get(camera2Config, f)
    {
      c := camera2Config;
    }

    /** `ngOnDestroy()`, its animation part. */
    method OnDestroy()
      requires Valid()
      modifies this
      ensures Valid() && State() == M.Destroy(old(State()))
    {
      if animationId.Some? && animationPending {
        animationPending := false;
        runningLoops := runningLoops - 1;
      }
    }
  }

  /** A host page driving the service in the order its comments ask for
      (`initialize` before `initialize2D`, three-scene.service.ts:256). The copy
      returned by the getter keeps its values after later updates. */
  method HostSession(canvas: M.Size, canvas2D: M.Size, frame: nat)
  {
    var service := new ThreeSceneService();
    var early := service.Initialize2D(canvas2D);
    assert early == Fail(M.SceneNotInitialized);
    service.Initialize(canvas, frame);
    var ok := service.Initialize2D(canvas2D);
    assert ok == Pass;
    var before := service.GetCamera1Config();
    var updated := service.UpdateCamera1(NoChange.(fov := Some(70.0)));
    assert updated == Pass;
    assert Get(before, Fov) == 50.0;
    assert service.mainCamera.value.fov == 70.0;
    service.ResizeCanvases(Some(canvas), Some(canvas2D));
    assert service.mainCamera.value.aspect == M.AspectOf(canvas2D);
    assert service.camera2.value.aspect == M.AspectOf(canvas);
    service.OnDestroy();
    assert service.runningLoops == 0;
  }
}
