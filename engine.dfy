/** Stand-ins for the parts of the Bevy engine that the combat systems use:
    entity handles, 2D vectors, mouse buttons, timers, the NextState resource,
    and the geometry helpers, which the model keeps abstract. */
module Engine {

  /** A Bevy `Entity`: a stable handle that may outlive the entity it names. */
  type Entity = nat

  datatype Option<T> = None | Some(value: T)

  /** A world-space vector (Bevy's `Vec3` with z = 0, or `Vec2`). f32 is modelled as `real`. */
  datatype Vec2 = Vec2(x: real, y: real) {
    function Plus(o: Vec2): Vec2 { Vec2(x + o.x, y + o.y) }
    function Minus(o: Vec2): Vec2 { Vec2(x - o.x, y - o.y) }
    function Scale(k: real): Vec2 { Vec2(k * x, k * y) }
    /** `v *= -1.0` */
    function Neg(): Vec2 { Vec2(-x, -y) }
  }

  /** The two mouse buttons, the only input tokens of the counter-attack minigame. */
  datatype MouseButton = Left | Right

  /** Bevy's `Timer`, reduced to its elapsed time. Whether a timer "just finished"
      during this frame is an input of the systems that ask. */
  datatype Timer = Timer(duration: real, elapsed: real) {
    function Tick(dt: real): Timer { this.(elapsed := elapsed + dt) }
    function Reset(): Timer { this.(elapsed := 0.0) }
  }

  /** Bevy's `NextState<S>` resource: a state change queued for the next frame. */
  class NextState<S> {
    var pending: Option<S>

    constructor ()
      ensures pending == None
    {
      pending := None;
    }
  }

  /** The state in force on the next frame: a queued state replaces the current one. */
  function Applied<S>(current: S, pending: Option<S>): S {
    if pending.Some? then pending.value else current
  }

  /** A resource that holds one timer (`EnemySpawnTimer`, `CounterAttackTimer`,
      `PlayerDamageInvulnerabilityTimer`). */
  class TimerResource {
    var timer: Timer

    constructor (duration: real)
      ensures timer == Timer(duration, 0.0)
    {
      timer := Timer(duration, 0.0);
    }
  }

  /** The vector helpers the systems call, left abstract: `normalize`, `distance`
      and `collide` from `bevy::sprite::collide_aabb` (positions and sizes of two boxes). */
  datatype Geometry = Geometry(
    normalize: Vec2 -> Vec2,
    distance: (Vec2, Vec2) -> real,
    collide: (Vec2, Vec2, Vec2, Vec2) -> bool)
}
