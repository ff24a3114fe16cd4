/** The `CameraConfig` record of the scene service, its two defaults, and the
    merge `{ ...config, ...partial }` that `updateCamera1`/`updateCamera2` perform. */
module CameraConfigs {
  import opened Wrappers

  /** `Math.PI`, written as the shortest decimal that denotes the same double. */
  const Pi: real := 3.141592653589793

  /** Spherical placement (distance, polar angle phi, azimuth theta) plus the
      perspective parameters of one camera. */
  datatype CameraConfig = CameraConfig(distance: real, phi: real, theta: real, fov: real, near: real, far: real)

  /** A `Partial<CameraConfig>`: every key is either given or absent. */
  datatype PartialConfig = PartialConfig(
    distance: Option<real>, phi: Option<real>, theta: Option<real>,
    fov: Option<real>, near: Option<real>, far: Option<real>)

  /** The empty partial `{}`. */
  const NoChange := PartialConfig(None, None, None, None, None, None)

  /** The keys of a camera configuration, so that records can be compared key by key. */
  datatype Field = Distance | Phi | Theta | Fov | Near | Far

  function Get(c: CameraConfig, f: Field): real {
    match f
    case Distance => c.distance
    case Phi => c.phi
    case Theta => c.theta
    case Fov => c.fov
    case Near => c.near
    case Far => c.far
  }

  function Given(p: PartialConfig, f: Field): Option<real> {
    match f
    case Distance => p.distance
    case Phi => p.phi
    case Theta => p.theta
    case Fov => p.fov
    case Near => p.near
    case Far => p.far
  }

  /** The expected shape of a usable configuration: a camera off the origin,
      a positive field of view, clip planes with 0 < near < far, and angles in
      the ranges the interface's comments give (three-scene.service.ts:6-7).
      The service itself never checks it. */
  predicate WellFormed(c: CameraConfig) {
    c.distance > 0.0 && c.fov > 0.0 && 0.0 < c.near < c.far
    && 0.0 <= c.phi <= Pi && 0.0 <= c.theta < 2.0 * Pi
  }

  /** The initial `camera1Config` of the service. */
  function DefaultCamera1(): (c: CameraConfig)
    ensures WellFormed(c)
  {
    CameraConfig(15.0, Pi / 4.0, Pi / 4.0, 50.0, 0.1, 1000.0)
  }

  /** The initial `camera2Config` of the service. */
  function DefaultCamera2(): (c: CameraConfig)
    ensures WellFormed(c)
  {
    CameraConfig(20.0, Pi / 3.0, Pi, 45.0, 0.1, 1000.0)
  }

  /** Two configurations that agree on every key are the same record. */
  lemma ConfigExtensionality(a: CameraConfig, b: CameraConfig)
    requires forall f :: Get(a, f) == Get(b, f)
    ensures a == b
  {
    assert Get(a, Distance) == Get(b, Distance) && Get(a, Phi) == Get(b, Phi);
    assert Get(a, Theta) == Get(b, Theta) && Get(a, Fov) == Get(b, Fov);
    assert Get(a, Near) == Get(b, Near) && Get(a, Far) == Get(b, Far);
  }

  /** The object spread `{ ...c, ...p }`: a key given in `p` takes `p`'s value,
      every other key keeps `c`'s. */
  function Merge(c: CameraConfig, p: PartialConfig): (r: CameraConfig)
    ensures forall f :: Given(p, f).Some? ==> Get(r, f) == Given(p, f).value
    ensures forall f :: Given(p, f).None? ==> Get(r, f) == Get(c, f)
  {
    CameraConfig(
      p.distance.GetOr(c.distance), p.phi.GetOr(c.phi), p.theta.GetOr(c.theta),
      p.fov.GetOr(c.fov), p.near.GetOr(c.near), p.far.GetOr(c.far))
  }

  /** The spread of two partials, `{ ...p, ...q }`. */
  function Overlay(p: PartialConfig, q: PartialConfig): (r: PartialConfig)
    ensures forall f :: Given(q, f).Some? ==> Given(r, f) == Given(q, f)
    ensures forall f :: Given(q, f).None? ==> Given(r, f) == Given(p, f)
  {
    PartialConfig(
      if q.distance.Some? then q.distance else p.distance,
      if q.phi.Some? then q.phi else p.phi,
      if q.theta.Some? then q.theta else p.theta,
      if q.fov.Some? then q.fov else p.fov,
      if q.near.Some? then q.near else p.near,
      if q.far.Some? then q.far else p.far)
  }

  /** Merging `{}` leaves a configuration as it was. */
  lemma MergeNoChange(c: CameraConfig)
    ensures Merge(c, NoChange) == c
  {
    forall f ensures Get(Merge(c, NoChange), f) == Get(c, f) {
      assert Given(NoChange, f).None?;
    }
    ConfigExtensionality(Merge(c, NoChange), c);
  }

  /** Merging the same partial twice is the same as merging it once. */
  lemma MergeIdempotent(c: CameraConfig, p: PartialConfig)
    ensures Merge(Merge(c, p), p) == Merge(c, p)
  {
    ConfigExtensionality(Merge(Merge(c, p), p), Merge(c, p));
  }

  /** Two successive updates equal one update with the spread of both partials. */
  lemma MergeCompose(c: CameraConfig, p: PartialConfig, q: PartialConfig)
    ensures Merge(Merge(c, p), q) == Merge(c, Overlay(p, q))
  {
    ConfigExtensionality(Merge(Merge(c, p), q), Merge(c, Overlay(p, q)));
  }

  /** A partial that gives every key replaces the configuration outright. */
  lemma MergeTotal(c: CameraConfig, d: CameraConfig)
    ensures Merge(c, PartialConfig(Some(d.distance), Some(d.phi), Some(d.theta),
                                   Some(d.fov), Some(d.near), Some(d.far))) == d
  {
    var p := PartialConfig(Some(d.distance), Some(d.phi), Some(d.theta), Some(d.fov), Some(d.near), Some(d.far));
    forall f ensures Get(Merge(c, p), f) == Get(d, f) {
      assert Given(p, f) == Some(Get(d, f));
    }
    ConfigExtensionality(Merge(c, p), d);
  }

  /** The merge does not validate: a single key can take a well-formed
      configuration out of shape (here, a near plane beyond the far plane). */
  lemma MergeDoesNotValidate()
    ensures WellFormed(DefaultCamera1())
    ensures !WellFormed(Merge(DefaultCamera1(), NoChange.(near := Some(2000.0))))
  {
  }
}
