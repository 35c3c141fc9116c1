/** The game plugin's shared definitions: the top-level game state and the
    gameplay constants. The constant values visible in the sources are
    constants here; those the sources import but do not show are fields of
    `Tuning`, supplied once at start-up. */
module Game {
  import opened Engine

  /** The game's top-level state; every combat system runs only while `Running`. */
  datatype GameState = Running | Gameover

  const CHAINSAW_FUEL_DRAIN_SPEED: real := 10.0
  const FUEL_PICKUP_RESTORE: real := 25.0
  const HEALTH_PICKUP_RESTORE: nat := 1

  /** Per-archetype enemy constants (`FOLLOWER_*`, `SHOOTER_*`, `BOSS_*`). */
  datatype Archetype = Archetype(
    health: real,
    movementSpeed: real,
    colliderSize: Vec2,
    reloadSpeed: real,
    distanceFromPlayer: real,
    projectileSpeed: real,
    projectileColliderSize: Vec2,
    counterAttackHeal: real)

  /** The constants whose values the sources do not show. */
  datatype Tuning = Tuning(
    maxEnemiesNum: nat,
    shooterDepthLevel: real,
    bossDepthLevel: real,
    follower: Archetype,
    shooter: Archetype,
    boss: Archetype,
    fireDuration: real,
    enemyOnFireSpeedGain: real,
    chainsawEnemySlowDownFactor: real,
    chainsawHeatLimit: real,
    chainsawHeatSpeed: real,
    passiveFuelGainAmount: real,
    passiveFuelGainSpeed: real,
    playerRegularSpeed: real,
    playerChainsawSpeed: real,
    playerRegularCollider: Vec2,
    playerChainsawCollider: Vec2,
    maxDepth: real,
    playerFallingSpeed: real)
}
