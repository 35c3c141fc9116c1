/** The entities and resources the combat systems read and update: enemy,
    player, projectile and pickup components, and the `GameInfo` and
    `PlayerInfo` resources. */
module Components {
  import opened Engine
  import opened Events
  import opened Game
  import opened PlayerPlugin

  datatype EnemyType = Follower | Shooter | Boss

  /** `Spawned` until the staging destination is reached, then `Engaging`;
      `OnFire` while ignited by a fire wave. */
  datatype EnemyState = Spawned | Engaging | OnFire

  /** The AI component: `FollowAI` (followers) or `ShooterAI` (shooters and the boss). */
  datatype Ai =
    | FollowAi
    | ShooterAi(reloadSpeed: real, maxDistanceFromPlayer: real, reloadTimer: Timer)

  /** An enemy entity: its `Enemy` component, translation, `FireTimer` and AI component. */
  datatype Enemy = Enemy(
    entity: Entity,
    maxHp: real,
    currentHp: real,
    currentSpeed: real,
    defaultSpeed: real,
    enemyType: EnemyType,
    collider: Vec2,
    state: EnemyState,
    translation: Vec2,
    direction: Vec2,
    destination: Vec2,
    destinationReached: bool,
    counterAttackHeal: real,
    fireTimer: Timer,
    ai: Ai)

  datatype Projectile = Projectile(translation: Vec2, direction: Vec2, speed: real, collider: Vec2)

  datatype Pickup = Pickup(translation: Vec2, collider: Vec2)

  /** The player entity: its `Player` component and translation. */
  datatype Player = Player(translation: Vec2, currentSpeed: real, collider: Vec2)

  /** The `PlayerInfo` resource. */
  class PlayerInfo {
    var currentFuel: real
    var currentHp: nat
    var chainsawHeat: real
    var counterAttackFuelLoss: real
    var counterAttackFuelGain: real

    /** `PlayerInfo::default()`: full fuel, full health, no heat. */
    constructor (fuelLoss: real, fuelGain: real)
      ensures currentFuel == PLAYER_FUEL_CAPACITY && currentHp == PLAYER_MAX_HEALTH
      ensures chainsawHeat == 0.0
      ensures counterAttackFuelLoss == fuelLoss && counterAttackFuelGain == fuelGain
    {
      currentFuel := PLAYER_FUEL_CAPACITY;
      currentHp := PLAYER_MAX_HEALTH;
      chainsawHeat := 0.0;
      counterAttackFuelLoss := fuelLoss;
      counterAttackFuelGain := fuelGain;
    }
  }

  /** The `GameInfo` resource. */
  class GameInfo {
    var enemiesNum: nat
    var isBossSpawned: bool
    var enemiesSpawnQueue: seq<EnemyType>
    var playerProgress: real
    var counterAttackEvent: CounterAttackEvent
    var cursorPosition: Vec2

    constructor ()
      ensures enemiesNum == 0 && !isBossSpawned && enemiesSpawnQueue == []
      ensures playerProgress == 0.0 && counterAttackEvent == DEFAULT_COUNTER_ATTACK_EVENT
    {
      enemiesNum := 0;
      isBossSpawned := false;
      enemiesSpawnQueue := [];
      playerProgress := 0.0;
      counterAttackEvent := DEFAULT_COUNTER_ATTACK_EVENT;
      cursorPosition := Vec2(0.0, 0.0);
    }
  }

  /** The entities of the world, in query iteration order. `nextEntity` is the
      next handle the entity allocator hands out. */
  class World {
    var player: Option<Player>
    var enemies: seq<Enemy>
    var projectiles: seq<Projectile>
    var fuelPickups: seq<Pickup>
    var healthPickups: seq<Pickup>
    var nextEntity: Entity

    constructor ()
      ensures player == None && enemies == [] && projectiles == []
      ensures fuelPickups == [] && healthPickups == [] && nextEntity == 0
    {
      player := None;
      enemies := [];
      projectiles := [];
      fuelPickups := [];
      healthPickups := [];
      nextEntity := 0;
    }
  }

  /** The query lookup `enemies_query.get_mut(entity)`: the position of the
      enemy with that handle, or `None` once the handle no longer resolves. */
  function FindEnemy(es: seq<Enemy>, h: Entity): (r: Option<nat>)
    ensures r.Some? ==> r.value < |es| && es[r.value].entity == h
    ensures r.Some? ==> forall j :: 0 <= j < r.value ==> es[j].entity != h
    ensures r.None? ==> forall j :: 0 <= j < |es| ==> es[j].entity != h
  {
    if es == [] then None
    else if es[0].entity == h then Some(0)
    else match FindEnemy(es[1..], h)
      case None => None
      case Some(k) => Some(k + 1)
  }

  /** The enemies left once the deferred despawn commands for the handles in
      `gone` have been applied, in their original order. */
  function Despawned(es: seq<Enemy>, gone: set<Entity>): (r: seq<Enemy>)
    ensures |r| <= |es|
    ensures forall e :: e in r <==> e in es && e.entity !in gone
  {
    if es == [] then []
    else
      var init := es[..|es| - 1];
      assert es == init + [es[|es| - 1]];
      Despawned(init, gone) + (if es[|es| - 1].entity in gone then [] else [es[|es| - 1]])
  }

  /** A lone enemy survives the despawn commands exactly when its handle is
      not among them. */
  lemma DespawnedSingle(e: Enemy, gone: set<Entity>)
    ensures Despawned([e], gone) == if e.entity in gone then [] else [e]
  {
    assert [e][..0] == [];
  }
}
