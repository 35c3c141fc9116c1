/** The enemy systems: the spawn scheduler and its archetype queue, movement
    flags, position limiting, following the player, damage and death, ignition
    by fire waves, extinguishing, and the timers that drive them. */
module EnemySystems {
  import opened Engine
  import opened Game
  import opened PlayerPlugin
  import opened Components

  // ----- Enemy life cycle ---------------------------------------------------

  /** The allowed moves of an enemy's state: Spawned -> Engaging <-> OnFire.
      No system ever puts an enemy back into Spawned. */
  predicate LifecycleStep(from: EnemyState, to: EnemyState) {
    from == to
    || (from == Spawned && to == Engaging)
    || (from == Engaging && to == OnFire)
    || (from == OnFire && to == Engaging)
  }

  // ----- Spawning -----------------------------------------------------------

  /** The random draws one spawn cycle consumes: the archetype draw, the speed
      factor (drawn from `ENEMY_RANGE_SPEED`) and the three position draws in `[0, 1)`. */
  datatype SpawnDraws = SpawnDraws(kind: real, speedFactor: real, startX: real, destX: real, destY: real)

  /** The archetype constants of an enemy type. */
  function Stats(ty: EnemyType, t: Tuning): Archetype {
    match ty
    case Follower => t.follower
    case Shooter => t.shooter
    case Boss => t.boss
  }

  /** The archetype pushed by a spawn cycle: Boss at the boss depth, a shooter
      with probability 0.6 between the two depths, and a follower otherwise. */
  function ChooseEnemyType(progress: real, draw: real, t: Tuning): (r: EnemyType)
    ensures r == Boss <==> progress >= t.bossDepthLevel
    ensures r == Shooter <==> progress < t.bossDepthLevel && progress >= t.shooterDepthLevel && draw > 0.4
    ensures r == Follower <==>
      progress < t.bossDepthLevel && (progress < t.shooterDepthLevel || draw <= 0.4)
  {
    if progress >= t.bossDepthLevel then Boss
    else if progress >= t.shooterDepthLevel then (if draw > 0.4 then Shooter else Follower)
    else Follower
  }

  /** A freshly spawned enemy of type `ty` with handle `h`: it starts just below
      the window and heads for a staging destination inside it. */
  function NewEnemy(ty: EnemyType, h: Entity, d: SpawnDraws, window: Vec2, t: Tuning, geo: Geometry): (r: Enemy)
    ensures r.entity == h && r.enemyType == ty && r.collider == Stats(ty, t).colliderSize
    ensures r.state == Spawned && !r.destinationReached
    ensures r.currentHp == r.maxHp == Stats(ty, t).health
    ensures r.currentSpeed == r.defaultSpeed == d.speedFactor * Stats(ty, t).movementSpeed
    ensures r.translation.y == 0.0 - Stats(ty, t).colliderSize.y
    ensures r.direction == geo.normalize(r.destination.Minus(r.translation))
    ensures r.fireTimer == Timer(t.fireDuration, 0.0)
    ensures r.ai.FollowAi? <==> ty == Follower
    ensures r.ai.ShooterAi? ==> r.ai.reloadTimer == Timer(Stats(ty, t).reloadSpeed, 0.0)
  {
    var a := Stats(ty, t);
    var start := if ty == Boss then Vec2(window.x / 2.0, 0.0 - a.colliderSize.y)
                 else Vec2(d.startX * (window.x - a.colliderSize.x), 0.0 - a.colliderSize.y);
    var destination := if ty == Boss then Vec2(window.x / 2.0, window.y / 2.0)
                       else Vec2(d.destX * (window.x - a.colliderSize.x), 0.0 + a.colliderSize.y + d.destY * a.colliderSize.y);
    var speed := d.speedFactor * a.movementSpeed;
    var ai := if ty == Follower then FollowAi
              else ShooterAi(a.reloadSpeed, a.distanceFromPlayer, Timer(a.reloadSpeed, 0.0));
    Enemy(h, a.health, a.health, speed, speed, ty, a.colliderSize, Spawned, start,
          geo.normalize(destination.Minus(start)), destination, false, a.counterAttackHeal,
          Timer(t.fireDuration, 0.0), ai)
  }

  /** The part of `GameInfo` the spawn scheduler owns. */
  datatype Spawner = Spawner(enemiesNum: nat, isBossSpawned: bool, queue: seq<EnemyType>)

  /** A completed spawn cycle is skipped at the population cap or once a boss has been queued. */
  predicate SpawnBlocked(s: Spawner, t: Tuning) {
    s.enemiesNum >= t.maxEnemiesNum || s.isBossSpawned
  }

  /** One completed spawn cycle that chose `pushed`: the token is pushed at the
      back, the front token is instantiated and popped. Returns the new
      scheduler state and the archetype instantiated, if any. */
  function SpawnCycle(s: Spawner, pushed: EnemyType, t: Tuning): (r: (Spawner, Option<EnemyType>))
    ensures SpawnBlocked(s, t) ==> r == (s, None)
    ensures !SpawnBlocked(s, t) ==>
      && r.0.enemiesNum == s.enemiesNum + 1
      && (r.0.isBossSpawned <==> pushed == Boss)
      && |r.0.queue| == |s.queue|
      && r.0.queue == (if s.queue == [] then [] else s.queue[1..] + [pushed])
      && r.1 == Some(if s.queue == [] then pushed else s.queue[0])
  {
    if SpawnBlocked(s, t) then (s, None)
    else
      var q := s.queue + [pushed];
      (Spawner(s.enemiesNum + 1, s.isBossSpawned || q[|q| - 1] == Boss, q[1..]), Some(q[0]))
  }

  /** The scheduler state after a run of completed cycles choosing `pushes` in turn. */
  function SpawnRun(s: Spawner, pushes: seq<EnemyType>, t: Tuning): (r: Spawner)
    decreases |pushes|
    ensures SpawnBlocked(s, t) ==> r == s
    ensures s.isBossSpawned ==> r.isBossSpawned
  {
    if pushes == [] then s else SpawnRun(SpawnCycle(s, pushes[0], t).0, pushes[1..], t)
  }

  /** How many Boss tokens a run actually pushes onto the queue. */
  function BossesQueued(s: Spawner, pushes: seq<EnemyType>, t: Tuning): nat
    decreases |pushes|
  {
    if pushes == [] then 0
    else
      (if !SpawnBlocked(s, t) && pushes[0] == Boss then 1 else 0)
      + BossesQueued(SpawnCycle(s, pushes[0], t).0, pushes[1..], t)
  }

  /** The boss latch: at most one Boss token is ever queued, and none once the
      flag is already set. */
  lemma {:induction false} AtMostOneBoss(s: Spawner, pushes: seq<EnemyType>, t: Tuning)
    decreases |pushes|
    ensures BossesQueued(s, pushes, t) <= (if s.isBossSpawned then 0 else 1)
  {
    if pushes != [] {
      var next := SpawnCycle(s, pushes[0], t).0;
      AtMostOneBoss(next, pushes[1..], t);
    }
  }

  /** Spawning never takes the population counter past the cap. */
  lemma {:induction false} SpawnRunCapped(s: Spawner, pushes: seq<EnemyType>, t: Tuning)
    requires s.enemiesNum <= t.maxEnemiesNum
    decreases |pushes|
    ensures SpawnRun(s, pushes, t).enemiesNum <= t.maxEnemiesNum
    ensures SpawnRun(s, pushes, t).enemiesNum >= s.enemiesNum
  {
    if pushes != [] {
      SpawnRunCapped(SpawnCycle(s, pushes[0], t).0, pushes[1..], t);
    }
  }

  /** At the cap, or with the boss latched, no number of cycles changes anything. */
  lemma {:induction false} SpawnRunBlocked(s: Spawner, pushes: seq<EnemyType>, t: Tuning)
    requires SpawnBlocked(s, t)
    decreases |pushes|
    ensures SpawnRun(s, pushes, t) == s
  {
    if pushes != [] {
      SpawnRunBlocked(SpawnCycle(s, pushes[0], t).0, pushes[1..], t);
    }
  }

  /** A queue that starts empty stays empty, and every cycle that spawns
      instantiates exactly the token it pushed. */
  lemma {:induction false} SpawnRunQueueEmpty(s: Spawner, pushes: seq<EnemyType>, t: Tuning)
    requires s.queue == []
    decreases |pushes|
    ensures SpawnRun(s, pushes, t).queue == []
    ensures forall k :: 0 <= k < |pushes| ==>
      var r := SpawnCycle(SpawnRun(s, pushes[..k], t), pushes[k], t);
      r.1.Some? ==> r.1.value == pushes[k]
  {
    if pushes != [] {
      var next := SpawnCycle(s, pushes[0], t).0;
      SpawnRunQueueEmpty(next, pushes[1..], t);
      forall k | 0 <= k < |pushes|
        ensures var r := SpawnCycle(SpawnRun(s, pushes[..k], t), pushes[k], t);
          r.1.Some? ==> r.1.value == pushes[k]
      {
        if k > 0 {
          assert pushes[..k][1..] == pushes[1..][..k - 1];
          assert SpawnRun(s, pushes[..k], t) == SpawnRun(next, pushes[1..][..k - 1], t);
          assert pushes[k] == pushes[1..][k - 1];
        }
      }
    }
  }

  /** `spawn_enemies_over_time`: on a finished spawn timer, unless blocked,
      count the new enemy, queue the chosen archetype, latch the boss flag,
      spawn the front archetype and pop it. */
  method SpawnEnemiesOverTime(game: GameInfo, w: World, justFinished: bool, d: SpawnDraws,
                              window: Vec2, t: Tuning, geo: Geometry)
    modifies game`enemiesNum, game`isBossSpawned, game`enemiesSpawnQueue, w`enemies, w`nextEntity
    ensures var s := Spawner(old(game.enemiesNum), old(game.isBossSpawned), old(game.enemiesSpawnQueue));
      var r := if justFinished then SpawnCycle(s, ChooseEnemyType(game.playerProgress, d.kind, t), t) else (s, None);
      && Spawner(game.enemiesNum, game.isBossSpawned, game.enemiesSpawnQueue) == r.0
      && w.enemies == old(w.enemies) + (if r.1.Some? then [NewEnemy(r.1.value, old(w.nextEntity), d, window, t, geo)] else [])
      && w.nextEntity == old(w.nextEntity) + (if r.1.Some? then 1 else 0)
  {
    if justFinished {
      if game.enemiesNum >= t.maxEnemiesNum || game.isBossSpawned {
        return;
      }
      var progress := game.playerProgress;
      game.enemiesNum := game.enemiesNum + 1;
      game.enemiesSpawnQueue := game.enemiesSpawnQueue + [ChooseEnemyType(progress, d.kind, t)];
      if game.enemiesSpawnQueue[|game.enemiesSpawnQueue| - 1] == Boss {
        game.isBossSpawned := true;
      }
      var front := game.enemiesSpawnQueue[0];
      w.enemies := w.enemies + [NewEnemy(front, w.nextEntity, d, window, t, geo)];
      w.nextEntity := w.nextEntity + 1;
      game.enemiesSpawnQueue := game.enemiesSpawnQueue[1..];
    }
  }

  // ----- Movement -----------------------------------------------------------

  /** A position moved `distance` along `direction`. */
  function Advanced(p: Vec2, direction: Vec2, distance: real): Vec2 {
    p.Plus(direction.Scale(distance))
  }

  /** One enemy after `move_enemies_to_destination`: a Spawned enemy that has
      reached its staging point starts engaging; a burning enemy keeps running
      in its direction; any other enemy heads for (a follower facing the
      chainsaw: away from) its destination until within 1 unit of it. */
  function MovedEnemy(e: Enemy, ps: PlayerState, dt: real, geo: Geometry): (r: Enemy)
    ensures r.entity == e.entity && r.enemyType == e.enemyType && r.destination == e.destination
    ensures r.currentHp == e.currentHp && r.currentSpeed == e.currentSpeed
  {
    var state := if e.destinationReached && e.state == Spawned then Engaging else e.state;
    if state == OnFire then
      e.(destinationReached := false, translation := Advanced(e.translation, e.direction, dt * e.currentSpeed))
    else
      var direction := if e.enemyType == Follower && ps == Chainsaw
                       then geo.normalize(e.translation.Minus(e.destination))
                       else geo.normalize(e.destination.Minus(e.translation));
      var far := geo.distance(e.translation, e.destination) > 1.0;
      e.(state := state, direction := direction, destinationReached := !far,
         translation := if far then Advanced(e.translation, direction, dt * e.currentSpeed) else e.translation)
  }

  /** What `MovedEnemy` promises: only an arrived Spawned enemy changes
      state; an enemy has arrived exactly when it is not burning and is within
      1 unit of its destination, and then it stands still; otherwise it heads
      towards (a follower facing the chainsaw: away from) its destination and
      advances along its new heading at its current speed; a burning enemy
      advances along its unchanged heading; and
      nothing but state, arrival, position and heading changes. */
  lemma MovedEnemyRule(e: Enemy, ps: PlayerState, dt: real, geo: Geometry)
    ensures var r := MovedEnemy(e, ps, dt, geo);
      && LifecycleStep(e.state, r.state)
      && r.state == (if e.state == Spawned && e.destinationReached then Engaging else e.state)
      && (r.destinationReached <==> e.state != OnFire && geo.distance(e.translation, e.destination) <= 1.0)
      && (e.state == OnFire ==> r.direction == e.direction)
      && (e.state != OnFire ==>
            r.direction == if e.enemyType == Follower && ps == Chainsaw
                           then geo.normalize(e.translation.Minus(e.destination))
                           else geo.normalize(e.destination.Minus(e.translation)))
      && (r.destinationReached ==> r.translation == e.translation)
      && (e.state == OnFire ==> r.translation == Advanced(e.translation, e.direction, dt * e.currentSpeed))
      && (e.state != OnFire && !r.destinationReached ==>
            r.translation == Advanced(e.translation, r.direction, dt * e.currentSpeed))
      && r == e.(state := r.state, destinationReached := r.destinationReached,
                 translation := r.translation, direction := r.direction)
  {
  }

  /** A Spawned enemy starts engaging on the frame after the one on which it
      reaches its destination, never on the same frame. */
  lemma EngagesOneFrameAfterArrival(e: Enemy, ps: PlayerState, dt: real, geo: Geometry)
    requires e.state == Spawned && !e.destinationReached
    ensures MovedEnemy(e, ps, dt, geo).state == Spawned
    ensures MovedEnemy(e, ps, dt, geo).destinationReached ==>
      MovedEnemy(MovedEnemy(e, ps, dt, geo), ps, dt, geo).state == Engaging
  {
  }

  /** The body of the `move_enemies_to_destination` loop for one enemy. */
  method MoveEnemy(e0: Enemy, ps: PlayerState, dt: real, geo: Geometry) returns (e: Enemy)
    ensures e == MovedEnemy(e0, ps, dt, geo)
  {
    var state := e0.state;
    if e0.destinationReached && state == Spawned {
      state := Engaging;
    }
    if state == OnFire {
      e := e0.(destinationReached := false, translation := Advanced(e0.translation, e0.direction, dt * e0.currentSpeed));
    } else {
      var direction: Vec2;
      if e0.enemyType == Follower && ps == Chainsaw {
        direction := geo.normalize(e0.translation.Minus(e0.destination));
      } else {
        direction := geo.normalize(e0.destination.Minus(e0.translation));
      }
      var far := geo.distance(e0.translation, e0.destination) > 1.0;
      var translation := e0.translation;
      if far {
        translation := Advanced(translation, direction, dt * e0.currentSpeed);
      }
      e := e0.(state := state, direction := direction, destinationReached := !far, translation := translation);
    }
  }

  /** `move_enemies_to_destination`. */
  method MoveEnemiesToDestination(w: World, ps: PlayerState, dt: real, geo: Geometry)
    modifies w`enemies
    ensures |w.enemies| == |old(w.enemies)|
    ensures forall j :: 0 <= j < |w.enemies| ==> w.enemies[j] == MovedEnemy(old(w.enemies)[j], ps, dt, geo)
  {
    var i := 0;
    while i < |w.enemies|
      invariant 0 <= i <= |w.enemies| == |old(w.enemies)|
      invariant forall j :: 0 <= j < i ==> w.enemies[j] == MovedEnemy(old(w.enemies)[j], ps, dt, geo)
      invariant forall j :: i <= j < |w.enemies| ==> w.enemies[j] == old(w.enemies)[j]
    {
      var e := MoveEnemy(w.enemies[i], ps, dt, geo);
      w.enemies := w.enemies[i := e];
      i := i + 1;
    }
  }

  // ----- Position limits ----------------------------------------------------

  /** One axis of `limit_enemy_movement`: the lower bound is applied first,
      then the upper one. */
  function ClampAxis(v: real, lo: real, hi: real): (r: real)
    ensures lo <= hi ==> lo <= r <= hi
    ensures lo <= v <= hi ==> r == v
    ensures hi < lo ==> r == hi
  {
    var raised := if v < lo then lo else v;
    if raised > hi then hi else raised
  }

  /** Whether `v` lies outside `[lo, hi]`. */
  predicate OutOf(v: real, lo: real, hi: real) {
    v < lo || v > hi
  }

  /** One enemy after `limit_enemy_movement`: Spawned enemies are left alone;
      the others are kept inside the window inset by the chainsaw collider, and
      a burning enemy outside a bound first bounces on that axis. */
  function LimitedEnemy(e: Enemy, window: Vec2, t: Tuning): (r: Enemy)
    ensures e.state == Spawned ==> r == e
    ensures r == e.(translation := r.translation, direction := r.direction)
    ensures e.state != Spawned ==>
      var c := t.playerChainsawCollider;
      && (c.x <= window.x - c.x ==> c.x <= r.translation.x <= window.x - c.x)
      && (c.y <= window.y - c.y ==> c.y <= r.translation.y <= window.y - c.y)
      && (c.x <= e.translation.x <= window.x - c.x ==> r.translation.x == e.translation.x)
      && (c.y <= e.translation.y <= window.y - c.y ==> r.translation.y == e.translation.y)
      && (r.direction.x == if e.state == OnFire && OutOf(e.translation.x, c.x, window.x - c.x)
                           then -e.direction.x else e.direction.x)
      && (r.direction.y == if e.state == OnFire && OutOf(e.translation.y, c.y, window.y - c.y)
                           then -e.direction.y else e.direction.y)
  {
    if e.state == Spawned then e
    else
      var c := t.playerChainsawCollider;
      var minX, maxX, minY, maxY := 0.0 + c.x, window.x - c.x, 0.0 + c.y, window.y - c.y;
      var p := e.translation;
      var dx := if e.state == OnFire && OutOf(p.x, minX, maxX) then e.direction.Neg().x else e.direction.x;
      var dy := if e.state == OnFire && OutOf(p.y, minY, maxY) then e.direction.Neg().y else e.direction.y;
      e.(direction := Vec2(dx, dy), translation := Vec2(ClampAxis(p.x, minX, maxX), ClampAxis(p.y, minY, maxY)))
  }

  /** With a window larger than the insets, limiting a second time changes
      nothing: the first pass leaves the enemy inside, so it does not bounce again. */
  lemma LimitedEnemyIdempotent(e: Enemy, window: Vec2, t: Tuning)
    requires t.playerChainsawCollider.x <= window.x - t.playerChainsawCollider.x
    requires t.playerChainsawCollider.y <= window.y - t.playerChainsawCollider.y
    ensures LimitedEnemy(LimitedEnemy(e, window, t), window, t) == LimitedEnemy(e, window, t)
  {
  }

  /** The body of the `limit_enemy_movement` loop for one enemy. */
  method LimitEnemy(e0: Enemy, window: Vec2, t: Tuning) returns (e: Enemy)
    ensures e == LimitedEnemy(e0, window, t)
  {
    if e0.state == Spawned {
      return e0;
    }
    var c := t.playerChainsawCollider;
    var minX, maxX, minY, maxY := 0.0 + c.x, window.x - c.x, 0.0 + c.y, window.y - c.y;
    var d := e0.direction;
    var p := e0.translation;
    if e0.state == OnFire {
      if p.x < minX || p.x > maxX {
        d := d.(x := d.x * -1.0);
      }
      if p.y < minY || p.y > maxY {
        d := d.(y := d.y * -1.0);
      }
    }
    if p.x < minX {
      p := p.(x := minX);
    }
    if p.x > maxX {
      p := p.(x := maxX);
    }
    if p.y < minY {
      p := p.(y := minY);
    }
    if p.y > maxY {
      p := p.(y := maxY);
    }
    e := e0.(direction := d, translation := p);
  }

  /** `limit_enemy_movement`. */
  method LimitEnemyMovement(w: World, window: Vec2, t: Tuning)
    modifies w`enemies
    ensures |w.enemies| == |old(w.enemies)|
    ensures forall j :: 0 <= j < |w.enemies| ==> w.enemies[j] == LimitedEnemy(old(w.enemies)[j], window, t)
  {
    var i := 0;
    while i < |w.enemies|
      invariant 0 <= i <= |w.enemies| == |old(w.enemies)|
      invariant forall j :: 0 <= j < i ==> w.enemies[j] == LimitedEnemy(old(w.enemies)[j], window, t)
      invariant forall j :: i <= j < |w.enemies| ==> w.enemies[j] == old(w.enemies)[j]
    {
      var e := LimitEnemy(w.enemies[i], window, t);
      w.enemies := w.enemies[i := e];
      i := i + 1;
    }
  }

  // ----- Following the player -----------------------------------------------

  /** One enemy after `follow_player`: an engaging follower targets the player. */
  function Followed(e: Enemy, target: Vec2): (r: Enemy)
    ensures e.ai.FollowAi? && e.state == Engaging ==> r.destination == target
    ensures !(e.ai.FollowAi? && e.state == Engaging) ==> r == e
    ensures r == e.(destination := r.destination)
  {
    if e.ai.FollowAi? && e.state == Engaging then e.(destination := target) else e
  }

  /** `follow_player`: nothing happens without a player. */
  method FollowPlayer(w: World)
    modifies w`enemies
    ensures w.player.None? ==> w.enemies == old(w.enemies)
    ensures |w.enemies| == |old(w.enemies)|
    ensures w.player.Some? ==>
      forall j :: 0 <= j < |w.enemies| ==> w.enemies[j] == Followed(old(w.enemies)[j], w.player.value.translation)
  {
    if w.player.None? {
      return;
    }
    var target := w.player.value.translation;
    var i := 0;
    while i < |w.enemies|
      invariant 0 <= i <= |w.enemies| == |old(w.enemies)|
      invariant forall j :: 0 <= j < i ==> w.enemies[j] == Followed(old(w.enemies)[j], target)
      invariant forall j :: i <= j < |w.enemies| ==> w.enemies[j] == old(w.enemies)[j]
    {
      var e := w.enemies[i];
      if e.ai.FollowAi? && e.state == Engaging {
        w.enemies := w.enemies[i := e.(destination := target)];
      }
      i := i + 1;
    }
  }

  // ----- Damage and death ---------------------------------------------------

  /** `change_enemy_health`: health after adding `amount`, capped at the
      maximum first and then kept non-negative. */
  function ChangeEnemyHealth(e: Enemy, amount: real): (r: Enemy)
    ensures r == e.(currentHp := r.currentHp)
    ensures 0.0 <= e.maxHp ==> 0.0 <= r.currentHp <= e.maxHp
    ensures 0.0 <= e.currentHp + amount <= e.maxHp ==> r.currentHp == e.currentHp + amount
    ensures e.currentHp + amount > e.maxHp ==> r.currentHp == e.maxHp
    ensures e.currentHp + amount < 0.0 && e.currentHp + amount <= e.maxHp ==> r.currentHp == 0.0
  {
    e.(currentHp := if e.currentHp + amount > e.maxHp then e.maxHp
                    else if e.currentHp + amount < 0.0 then 0.0
                    else e.currentHp + amount)
  }

  /** A larger change never leaves less health (for a non-negative maximum). */
  lemma ChangeEnemyHealthMonotonic(e: Enemy, a: real, b: real)
    requires 0.0 <= e.maxHp && a <= b
    ensures ChangeEnemyHealth(e, a).currentHp <= ChangeEnemyHealth(e, b).currentHp
  {
  }

  /** A live enemy hit for one frame: health and speed drop, without a clamp. */
  function Wounded(e: Enemy, dt: real, t: Tuning): (r: Enemy)
    ensures r.currentHp == e.currentHp - (PLAYER_DAMAGE as real) * PLAYER_DAMAGE_SPEED * dt
    ensures r.currentSpeed == e.currentSpeed - dt * t.chainsawEnemySlowDownFactor
    ensures r == e.(currentHp := r.currentHp, currentSpeed := r.currentSpeed)
  {
    e.(currentHp := e.currentHp - (PLAYER_DAMAGE as real) * PLAYER_DAMAGE_SPEED * dt,
       currentSpeed := e.currentSpeed - dt * t.chainsawEnemySlowDownFactor)
  }

  /** What `handle_enemy_take_damage_event` has done part-way: the enemies as
      the query still sees them, the population counter, and the handles
      whose despawn is queued. */
  datatype DamageState = DamageState(enemies: seq<Enemy>, enemiesNum: nat, despawned: set<Entity>)

  /** One damage event for handle `h`. A handle that no longer resolves is
      skipped; a dead enemy (health at most 0) is queued for despawn and the
      counter drops, saturating at 0; a live enemy is wounded. */
  function DamageStep(st: DamageState, h: Entity, dt: real, t: Tuning): (r: DamageState)
    ensures FindEnemy(st.enemies, h).None? ==> r == st
    ensures FindEnemy(st.enemies, h).Some? ==>
      var k := FindEnemy(st.enemies, h).value;
      if st.enemies[k].currentHp <= 0.0 then
        r == DamageState(st.enemies, if st.enemiesNum == 0 then 0 else st.enemiesNum - 1, st.despawned + {h})
      else
        r == st.(enemies := st.enemies[k := Wounded(st.enemies[k], dt, t)])
  {
    match FindEnemy(st.enemies, h)
    case None => st
    case Some(k) =>
      if st.enemies[k].currentHp <= 0.0 then
        st.(enemiesNum := if st.enemiesNum != 0 then st.enemiesNum - 1 else 0, despawned := st.despawned + {h})
      else
        st.(enemies := st.enemies[k := Wounded(st.enemies[k], dt, t)])
  }

  /** The damage events `hs`, handled in order. */
  function DamageAll(st: DamageState, hs: seq<Entity>, dt: real, t: Tuning): (r: DamageState)
    decreases |hs|
    ensures |r.enemies| == |st.enemies|
    ensures r.enemiesNum <= st.enemiesNum && st.despawned <= r.despawned
  {
    if hs == [] then st else DamageStep(DamageAll(st, hs[..|hs| - 1], dt, t), hs[|hs| - 1], dt, t)
  }

  /** Damage keeps every enemy in its place with its handle, type and maximum;
      with a non-negative frame time no enemy's health or speed ever rises. */
  lemma {:induction false} DamageAllKeepsEnemies(st: DamageState, hs: seq<Entity>, dt: real, t: Tuning)
    requires dt >= 0.0 && t.chainsawEnemySlowDownFactor >= 0.0
    decreases |hs|
    ensures var r := DamageAll(st, hs, dt, t);
      && |r.enemies| == |st.enemies|
      && forall j :: 0 <= j < |st.enemies| ==>
           && r.enemies[j] == st.enemies[j].(currentHp := r.enemies[j].currentHp, currentSpeed := r.enemies[j].currentSpeed)
           && r.enemies[j].currentHp <= st.enemies[j].currentHp
           && r.enemies[j].currentSpeed <= st.enemies[j].currentSpeed
  {
    if hs != [] {
      var before := DamageAll(st, hs[..|hs| - 1], dt, t);
      DamageAllKeepsEnemies(st, hs[..|hs| - 1], dt, t);
      DamageStepKeepsEnemies(before, hs[|hs| - 1], dt, t);
    }
  }

  /** One damage event keeps every enemy in its place and only lowers health
      and speed. */
  lemma DamageStepKeepsEnemies(st: DamageState, h: Entity, dt: real, t: Tuning)
    requires dt >= 0.0 && t.chainsawEnemySlowDownFactor >= 0.0
    ensures var r := DamageStep(st, h, dt, t);
      && |r.enemies| == |st.enemies|
      && forall j :: 0 <= j < |st.enemies| ==>
           && r.enemies[j] == st.enemies[j].(currentHp := r.enemies[j].currentHp, currentSpeed := r.enemies[j].currentSpeed)
           && r.enemies[j].currentHp <= st.enemies[j].currentHp
           && r.enemies[j].currentSpeed <= st.enemies[j].currentSpeed
  {
  }

  /** The counter never rises, drops by at most one per event, and only the
      handles of events are ever queued for despawn. */
  lemma {:induction false} DamageAllCounter(st: DamageState, hs: seq<Entity>, dt: real, t: Tuning)
    decreases |hs|
    ensures var r := DamageAll(st, hs, dt, t);
      && r.enemiesNum <= st.enemiesNum
      && st.enemiesNum <= r.enemiesNum + |hs|
      && st.despawned <= r.despawned
      && forall h :: h in r.despawned - st.despawned ==> h in hs
  {
    if hs != [] {
      DamageAllCounter(st, hs[..|hs| - 1], dt, t);
    }
  }

  /** Events whose handles no longer resolve change nothing at all. */
  lemma {:induction false} StaleHandlesIgnored(st: DamageState, hs: seq<Entity>, dt: real, t: Tuning)
    requires forall k, j :: 0 <= k < |hs| && 0 <= j < |st.enemies| ==> st.enemies[j].entity != hs[k]
    decreases |hs|
    ensures DamageAll(st, hs, dt, t) == st
  {
    if hs != [] {
      StaleHandlesIgnored(st, hs[..|hs| - 1], dt, t);
      assert hs[|hs| - 1] == hs[|hs| - 1];
    }
  }

  /** With pairwise distinct handles, each counter decrement is matched by a
      distinct despawned enemy: no death is counted twice. */
  lemma {:induction false} DeathCountedOnce(st: DamageState, hs: seq<Entity>, dt: real, t: Tuning)
    requires st.despawned == {}
    requires forall i, j :: 0 <= i < j < |hs| ==> hs[i] != hs[j]
    decreases |hs|
    ensures var r := DamageAll(st, hs, dt, t);
      st.enemiesNum <= r.enemiesNum + |r.despawned|
  {
    if hs != [] {
      var init := hs[..|hs| - 1];
      var h := hs[|hs| - 1];
      DeathCountedOnce(st, init, dt, t);
      DamageAllCounter(st, init, dt, t);
      var before := DamageAll(st, init, dt, t);
      assert h !in init by {
        forall i | 0 <= i < |init|
          ensures init[i] != h
        {
          assert init[i] == hs[i];
        }
      }
      assert h !in before.despawned;
    }
  }

  /** One damage event against a lone enemy: a dead one is counted out and
      queued for despawn, a live one is wounded. */
  lemma HitLoneEnemy(e: Enemy, n: nat, dt: real, t: Tuning)
    ensures DamageAll(DamageState([e], n, {}), [e.entity], dt, t) ==
      if e.currentHp <= 0.0 then DamageState([e], if n == 0 then 0 else n - 1, {e.entity})
      else DamageState([Wounded(e, dt, t)], n, {})
  {
    assert [e.entity][..0] == [];
    assert FindEnemy([e], e.entity) == Some(0);
  }

  /** Two damage events for the same dead enemy in one call decrement the
      counter twice while only one enemy is despawned. */
  lemma RepeatedDeathEventsCountTwice(e: Enemy, dt: real, t: Tuning)
    requires e.currentHp <= 0.0
    ensures var r := DamageAll(DamageState([e], 2, {}), [e.entity, e.entity], dt, t);
      r.enemiesNum == 0 && r.despawned == {e.entity} && Despawned(r.enemies, r.despawned) == []
  {
    var h := e.entity;
    var s0 := DamageState([e], 2, {});
    assert FindEnemy([e], h) == Some(0);
    assert [h, h][..1] == [h] && [h][..0] == [];
    assert DamageAll(s0, [h], dt, t) == DamageState([e], 1, {h});
    assert DamageAll(s0, [h, h], dt, t) == DamageState([e], 0, {h});
    assert [e][..0] == [];
  }

  /** Handling one more event of the list is one more damage step. */
  lemma DamageAllStep(st: DamageState, hs: seq<Entity>, i: nat, dt: real, t: Tuning)
    requires i < |hs|
    ensures DamageAll(st, hs[..i + 1], dt, t) == DamageStep(DamageAll(st, hs[..i], dt, t), hs[i], dt, t)
  {
    assert hs[..i + 1][..i] == hs[..i];
  }

  /** The loop body of `handle_enemy_take_damage_event` for one event with
      handle `h`; `despawned` holds the handles whose despawn is queued. */
  method DamageOne(w: World, game: GameInfo, despawned: set<Entity>, h: Entity, dt: real, t: Tuning)
    returns (queued: set<Entity>)
    modifies w`enemies, game`enemiesNum
    ensures DamageState(w.enemies, game.enemiesNum, queued) ==
      DamageStep(DamageState(old(w.enemies), old(game.enemiesNum), despawned), h, dt, t)
  {
    queued := despawned;
    match FindEnemy(w.enemies, h) {
      case None =>
      case Some(k) =>
        var e := w.enemies[k];
        if e.currentHp <= 0.0 {
          var n := game.enemiesNum;
          game.enemiesNum := if n != 0 then n - 1 else 0;
          queued := despawned + {h};
        } else {
          w.enemies := w.enemies[k := e.(currentHp := e.currentHp - (PLAYER_DAMAGE as real) * PLAYER_DAMAGE_SPEED * dt,
                                         currentSpeed := e.currentSpeed - dt * t.chainsawEnemySlowDownFactor)];
          assert w.enemies[k] == Wounded(e, dt, t);
        }
    }
  }

  /** `handle_enemy_take_damage_event`: the despawn commands take effect once
      every event has been handled, so a dead enemy still resolves for later
      events of the same call. */
  method HandleEnemyTakeDamageEvent(w: World, game: GameInfo, hs: seq<Entity>, dt: real, t: Tuning)
    modifies w`enemies, game`enemiesNum
    ensures var r := DamageAll(DamageState(old(w.enemies), old(game.enemiesNum), {}), hs, dt, t);
      w.enemies == Despawned(r.enemies, r.despawned) && game.enemiesNum == r.enemiesNum
  {
    ghost var start := DamageState(w.enemies, game.enemiesNum, {});
    var despawned: set<Entity> := {};
    var i := 0;
    while i < |hs|
      invariant 0 <= i <= |hs|
      invariant DamageState(w.enemies, game.enemiesNum, despawned) == DamageAll(start, hs[..i], dt, t)
    {
      DamageAllStep(start, hs, i, dt, t);
      despawned := DamageOne(w, game, despawned, hs[i], dt, t);
      i := i + 1;
    }
    assert hs[..|hs|] == hs;
    w.enemies := Despawned(w.enemies, despawned);
  }

  // ----- Fire ---------------------------------------------------------------

  /** One enemy hit by a fire wave: only an engaging enemy catches fire,
      speeding up and restarting its fire timer. */
  function Ignited(e: Enemy, t: Tuning): (r: Enemy)
    ensures LifecycleStep(e.state, r.state)
    ensures e.state == Engaging ==>
      r.state == OnFire && r.currentSpeed == e.currentSpeed + t.enemyOnFireSpeedGain && r.fireTimer.elapsed == 0.0
    ensures e.state != Engaging ==> r == e
    ensures r == e.(state := r.state, currentSpeed := r.currentSpeed, fireTimer := r.fireTimer)
    ensures r.fireTimer.duration == e.fireTimer.duration
  {
    if e.state != Engaging then e
    else e.(state := OnFire, currentSpeed := e.currentSpeed + t.enemyOnFireSpeedGain, fireTimer := e.fireTimer.Reset())
  }

  /** One burning enemy whose fire timer has just finished: it goes back to
      engaging, loses the fire speed gain and looks for its destination again. */
  function Extinguished(e: Enemy, finished: bool, t: Tuning): (r: Enemy)
    ensures LifecycleStep(e.state, r.state)
    ensures e.state == OnFire && finished ==>
      r.state == Engaging && r.currentSpeed == e.currentSpeed - t.enemyOnFireSpeedGain && !r.destinationReached
    ensures !(e.state == OnFire && finished) ==> r == e
    ensures r == e.(state := r.state, currentSpeed := r.currentSpeed, destinationReached := r.destinationReached)
  {
    if e.state != OnFire || !finished then e
    else e.(state := Engaging, currentSpeed := e.currentSpeed - t.enemyOnFireSpeedGain, destinationReached := false)
  }

  /** Catching fire and burning out undoes the speed gain exactly: the enemy is
      back to engaging at its old speed, with a restarted fire timer. */
  lemma IgniteThenExtinguish(e: Enemy, t: Tuning)
    requires e.state == Engaging
    ensures Extinguished(Ignited(e, t), true, t) ==
      e.(destinationReached := false, fireTimer := e.fireTimer.Reset())
  {
  }

  /** `handle_fire_wave_event`: only the first pending wave is acted on. */
  method HandleFireWaveEvent(w: World, pending: nat, t: Tuning)
    modifies w`enemies
    ensures pending == 0 ==> w.enemies == old(w.enemies)
    ensures |w.enemies| == |old(w.enemies)|
    ensures pending > 0 ==> forall j :: 0 <= j < |w.enemies| ==> w.enemies[j] == Ignited(old(w.enemies)[j], t)
  {
    if pending == 0 {
      return;
    }
    var i := 0;
    while i < |w.enemies|
      invariant 0 <= i <= |w.enemies| == |old(w.enemies)|
      invariant forall j :: 0 <= j < i ==> w.enemies[j] == Ignited(old(w.enemies)[j], t)
      invariant forall j :: i <= j < |w.enemies| ==> w.enemies[j] == old(w.enemies)[j]
    {
      var e := w.enemies[i];
      if e.state == Engaging {
        w.enemies := w.enemies[i := e.(state := OnFire, currentSpeed := e.currentSpeed + t.enemyOnFireSpeedGain,
                                       fireTimer := e.fireTimer.Reset())];
      }
      i := i + 1;
    }
  }

  /** `handle_on_fire_state` (its state and speed part): `finished` holds the
      enemies whose fire timer has just finished. */
  method HandleOnFireState(w: World, finished: set<Entity>, t: Tuning)
    modifies w`enemies
    ensures |w.enemies| == |old(w.enemies)|
    ensures forall j :: 0 <= j < |w.enemies| ==>
      w.enemies[j] == Extinguished(old(w.enemies)[j], old(w.enemies)[j].entity in finished, t)
  {
    var i := 0;
    while i < |w.enemies|
      invariant 0 <= i <= |w.enemies| == |old(w.enemies)|
      invariant forall j :: 0 <= j < i ==>
        w.enemies[j] == Extinguished(old(w.enemies)[j], old(w.enemies)[j].entity in finished, t)
      invariant forall j :: i <= j < |w.enemies| ==> w.enemies[j] == old(w.enemies)[j]
    {
      var e := w.enemies[i];
      if e.state == OnFire && e.entity in finished {
        w.enemies := w.enemies[i := e.(state := Engaging, currentSpeed := e.currentSpeed - t.enemyOnFireSpeedGain,
                                       destinationReached := false)];
      }
      i := i + 1;
    }
  }

  // ----- Timers -------------------------------------------------------------

  /** `tick_enemy_spawn_timer`. */
  method TickEnemySpawnTimer(timer: TimerResource, dt: real)
    modifies timer`timer
    ensures timer.timer == old(timer.timer).Tick(dt)
  {
    timer.timer := timer.timer.Tick(dt);
  }

  /** The fire timer runs only while the enemy burns. */
  function FireTicked(e: Enemy, dt: real): (r: Enemy)
    ensures e.state == OnFire ==> r.fireTimer.elapsed == e.fireTimer.elapsed + dt
    ensures e.state != OnFire ==> r == e
    ensures r == e.(fireTimer := r.fireTimer) && r.fireTimer.duration == e.fireTimer.duration
  {
    if e.state == OnFire then e.(fireTimer := e.fireTimer.Tick(dt)) else e
  }

  /** `tick_enemy_fire_timer`. */
  method TickEnemyFireTimer(w: World, dt: real)
    modifies w`enemies
    ensures |w.enemies| == |old(w.enemies)|
    ensures forall j :: 0 <= j < |w.enemies| ==> w.enemies[j] == FireTicked(old(w.enemies)[j], dt)
  {
    var i := 0;
    while i < |w.enemies|
      invariant 0 <= i <= |w.enemies| == |old(w.enemies)|
      invariant forall j :: 0 <= j < i ==> w.enemies[j] == FireTicked(old(w.enemies)[j], dt)
      invariant forall j :: i <= j < |w.enemies| ==> w.enemies[j] == old(w.enemies)[j]
    {
      var e := w.enemies[i];
      if e.state == OnFire {
        w.enemies := w.enemies[i := e.(fireTimer := e.fireTimer.Tick(dt))];
      }
      i := i + 1;
    }
  }

  /** The reload timer of a shooter runs only while it engages. */
  function ReloadTicked(e: Enemy, dt: real): (r: Enemy)
    ensures e.ai.ShooterAi? && e.state == Engaging ==>
      r.ai.ShooterAi? && r.ai.reloadTimer.elapsed == e.ai.reloadTimer.elapsed + dt
    ensures !(e.ai.ShooterAi? && e.state == Engaging) ==> r == e
    ensures r.ai.ShooterAi? ==> r.ai == e.ai.(reloadTimer := r.ai.reloadTimer)
    ensures r == e.(ai := r.ai)
  {
    if e.ai.ShooterAi? && e.state == Engaging then e.(ai := e.ai.(reloadTimer := e.ai.reloadTimer.Tick(dt))) else e
  }

  /** `tick_shooter_reloading_timer`. */
  method TickShooterReloadingTimer(w: World, dt: real)
    modifies w`enemies
    ensures |w.enemies| == |old(w.enemies)|
    ensures forall j :: 0 <= j < |w.enemies| ==> w.enemies[j] == ReloadTicked(old(w.enemies)[j], dt)
  {
    var i := 0;
    while i < |w.enemies|
      invariant 0 <= i <= |w.enemies| == |old(w.enemies)|
      invariant forall j :: 0 <= j < i ==> w.enemies[j] == ReloadTicked(old(w.enemies)[j], dt)
      invariant forall j :: i <= j < |w.enemies| ==> w.enemies[j] == old(w.enemies)[j]
    {
      var e := w.enemies[i];
      if e.ai.ShooterAi? && e.state == Engaging {
        w.enemies := w.enemies[i := e.(ai := e.ai.(reloadTimer := e.ai.reloadTimer.Tick(dt)))];
      }
      i := i + 1;
    }
  }
}
