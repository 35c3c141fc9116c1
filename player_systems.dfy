/** The player systems: fuel, the chainsaw (overdrive) transitions, pickups,
    collisions with enemies and projectiles, chainsaw overheat, movement limits,
    damage and invulnerability. */
module PlayerSystems {
  import opened Engine
  import opened Events
  import opened Game
  import opened PlayerPlugin
  import opened Components

  // ----- Fuel ---------------------------------------------------------------

  /** `change_player_fuel`: fuel after adding `amount`, kept in `[0, PLAYER_FUEL_CAPACITY]`. */
  function ChangedFuel(fuel: real, amount: real): (r: real)
    ensures 0.0 <= r <= PLAYER_FUEL_CAPACITY
    ensures 0.0 <= fuel + amount <= PLAYER_FUEL_CAPACITY ==> r == fuel + amount
    ensures fuel + amount < 0.0 ==> r == 0.0
    ensures PLAYER_FUEL_CAPACITY < fuel + amount ==> r == PLAYER_FUEL_CAPACITY
  {
    if fuel + amount < 0.0 then 0.0
    else if fuel + amount > PLAYER_FUEL_CAPACITY then PLAYER_FUEL_CAPACITY
    else fuel + amount
  }

  /** A larger change never leaves less fuel. */
  lemma ChangedFuelMonotonic(fuel: real, a: real, b: real)
    requires a <= b
    ensures ChangedFuel(fuel, a) <= ChangedFuel(fuel, b)
  {
  }

  method ChangePlayerFuel(info: PlayerInfo, amount: real)
    modifies info`currentFuel
    ensures info.currentFuel == ChangedFuel(old(info.currentFuel), amount)
  {
    info.currentFuel := if info.currentFuel + amount < 0.0 then 0.0
      else if info.currentFuel + amount > PLAYER_FUEL_CAPACITY then PLAYER_FUEL_CAPACITY
      else info.currentFuel + amount;
  }

  /** `gain_fuel_over_time`: meant for the regular state, but the player plugin
      does not register it, so it never runs in the game as written. */
  method GainFuelOverTime(info: PlayerInfo, dt: real, t: Tuning)
    modifies info`currentFuel
    ensures info.currentFuel == ChangedFuel(old(info.currentFuel), t.passiveFuelGainAmount * t.passiveFuelGainSpeed * dt)
    ensures 0.0 <= info.currentFuel <= PLAYER_FUEL_CAPACITY
  {
    var fuelGainAmount := t.passiveFuelGainAmount * t.passiveFuelGainSpeed * dt;
    ChangePlayerFuel(info, fuelGainAmount);
  }

  /** `drain_fuel` (Chainsaw only): no lower clamp; the transition event is sent
      on every call that leaves the fuel below 1. */
  method DrainFuel(info: PlayerInfo, dt: real) returns (sent: seq<Event>)
    modifies info`currentFuel
    ensures info.currentFuel == old(info.currentFuel) - CHAINSAW_FUEL_DRAIN_SPEED * dt
    ensures sent == if info.currentFuel < 1.0 then [PlayerTransitionToRegularForm] else []
  {
    info.currentFuel := info.currentFuel - CHAINSAW_FUEL_DRAIN_SPEED * dt;
    sent := [];
    if info.currentFuel < 1.0 {
      sent := sent + [PlayerTransitionToRegularForm];
    }
  }

  // ----- Player forms -------------------------------------------------------

  /** `spawn_player`: the player starts at the window centre in regular form. */
  method SpawnPlayer(w: World, window: Vec2, t: Tuning)
    modifies w`player
    ensures w.player.Some? && w.player.value.translation == Vec2(window.x / 2.0, window.y / 2.0)
    ensures w.player.value == RegularForm(w.player.value, t)
  {
    w.player := Some(Player(Vec2(window.x / 2.0, window.y / 2.0), t.playerRegularSpeed, t.playerRegularCollider));
  }

  /** The player with the chainsaw speed and collider. */
  function ChainsawForm(p: Player, t: Tuning): Player {
    p.(currentSpeed := t.playerChainsawSpeed, collider := t.playerChainsawCollider)
  }

  /** The player with the regular speed and collider. */
  function RegularForm(p: Player, t: Tuning): Player {
    p.(currentSpeed := t.playerRegularSpeed, collider := t.playerRegularCollider)
  }

  /** Leaving the chainsaw form restores a regular-form player exactly. */
  lemma ChainsawFormRoundTrip(p: Player, t: Tuning)
    requires p == RegularForm(p, t)
    ensures RegularForm(ChainsawForm(p, t), t) == p
    ensures ChainsawForm(p, t).translation == p.translation
  {
  }

  /** `transition_to_player_chainsaw_state` (Regular only): entry needs full fuel
      and a left click pressed this frame. */
  method TransitionToPlayerChainsawState(w: World, next: NextState<PlayerState>, info: PlayerInfo,
                                         leftJustPressed: bool, t: Tuning)
    modifies w`player, next`pending
    ensures var enters := old(w.player).Some? && info.currentFuel == PLAYER_FUEL_CAPACITY && leftJustPressed;
      && (enters ==> next.pending == Some(Chainsaw) && w.player == Some(ChainsawForm(old(w.player).value, t)))
      && (!enters ==> next.pending == old(next.pending) && w.player == old(w.player))
  {
    if w.player.Some? {
      if info.currentFuel == PLAYER_FUEL_CAPACITY && leftJustPressed {
        next.pending := Some(Chainsaw);
        var p := w.player.value;
        w.player := Some(p.(currentSpeed := t.playerChainsawSpeed, collider := t.playerChainsawCollider));
      }
    }
  }

  /** `transition_to_player_regular_state` (Chainsaw only): every pending event
      sends the player to Damaged in regular form with the heat cleared. */
  method TransitionToPlayerRegularState(w: World, next: NextState<PlayerState>, info: PlayerInfo,
                                        pending: nat, t: Tuning)
    modifies w`player, next`pending, info`chainsawHeat
    ensures var leaves := pending > 0 && old(w.player).Some?;
      && (leaves ==> next.pending == Some(Damaged) && info.chainsawHeat == 0.0
                     && w.player == Some(RegularForm(old(w.player).value, t)))
      && (!leaves ==> next.pending == old(next.pending) && info.chainsawHeat == old(info.chainsawHeat)
                      && w.player == old(w.player))
  {
    var k := 0;
    while k < pending
      invariant 0 <= k <= pending
      invariant w.player.Some? <==> old(w.player).Some?
      invariant k == 0 || old(w.player).None? ==>
        next.pending == old(next.pending) && info.chainsawHeat == old(info.chainsawHeat) && w.player == old(w.player)
      invariant k > 0 && old(w.player).Some? ==>
        next.pending == Some(Damaged) && info.chainsawHeat == 0.0 && w.player == Some(RegularForm(old(w.player).value, t))
    {
      if w.player.Some? {
        next.pending := Some(Damaged);
        var p := w.player.value;
        w.player := Some(p.(currentSpeed := t.playerRegularSpeed, collider := t.playerRegularCollider));
        info.chainsawHeat := 0.0;
      }
      k := k + 1;
    }
  }

  // ----- Pickups ------------------------------------------------------------

  predicate TouchesPickup(p: Player, q: Pickup, geo: Geometry) {
    geo.collide(p.translation, p.collider, q.translation, q.collider)
  }

  /** How many of the pickups the player touches. */
  function TouchCount(p: Player, qs: seq<Pickup>, geo: Geometry): (r: nat)
    ensures r <= |qs|
  {
    if qs == [] then 0
    else TouchCount(p, qs[..|qs| - 1], geo) + (if TouchesPickup(p, qs[|qs| - 1], geo) then 1 else 0)
  }

  /** The pickups the player does not touch, in order: those that survive the frame. */
  function Untouched(p: Player, qs: seq<Pickup>, geo: Geometry): (r: seq<Pickup>)
    ensures |r| <= |qs|
  {
    if qs == [] then []
    else Untouched(p, qs[..|qs| - 1], geo) + (if TouchesPickup(p, qs[|qs| - 1], geo) then [] else [qs[|qs| - 1]])
  }

  /** The pickups that survive are exactly those the player does not touch,
      and every other one is counted as collected. */
  lemma {:induction false} UntouchedExactly(p: Player, qs: seq<Pickup>, geo: Geometry)
    decreases |qs|
    ensures |Untouched(p, qs, geo)| + TouchCount(p, qs, geo) == |qs|
    ensures forall q :: q in Untouched(p, qs, geo) <==> q in qs && !TouchesPickup(p, q, geo)
  {
    if qs != [] {
      var init, last := qs[..|qs| - 1], qs[|qs| - 1];
      UntouchedExactly(p, init, geo);
      assert qs == init + [last];
    }
  }

  /** One more pickup in iteration order is either collected or kept. */
  lemma PickupsStep(p: Player, qs: seq<Pickup>, i: nat, geo: Geometry)
    requires i < |qs|
    ensures TouchCount(p, qs[..i + 1], geo) == TouchCount(p, qs[..i], geo) + (if TouchesPickup(p, qs[i], geo) then 1 else 0)
    ensures TouchesPickup(p, qs[i], geo) ==> Untouched(p, qs[..i + 1], geo) == Untouched(p, qs[..i], geo)
    ensures !TouchesPickup(p, qs[i], geo) ==> Untouched(p, qs[..i + 1], geo) == Untouched(p, qs[..i], geo) + [qs[i]]
  {
    assert qs[..i + 1][..i] == qs[..i];
  }

  /** One fuel pickup: capped at capacity, never clamped below. */
  function FuelPickupStep(fuel: real): (r: real)
    ensures r <= PLAYER_FUEL_CAPACITY
    ensures r == fuel + FUEL_PICKUP_RESTORE || r == PLAYER_FUEL_CAPACITY
    ensures fuel <= r || PLAYER_FUEL_CAPACITY < fuel
  {
    if PLAYER_FUEL_CAPACITY < fuel + FUEL_PICKUP_RESTORE then PLAYER_FUEL_CAPACITY else fuel + FUEL_PICKUP_RESTORE
  }

  /** Fuel after `n` fuel pickups in one frame. */
  function RestoredFuel(fuel: real, n: nat): real {
    if n == 0 then fuel else FuelPickupStep(RestoredFuel(fuel, n - 1))
  }

  /** One health pickup: capped at the maximum health. */
  function HealthPickupStep(hp: nat): (r: nat)
    ensures r <= PLAYER_MAX_HEALTH
    ensures r == hp + HEALTH_PICKUP_RESTORE || r == PLAYER_MAX_HEALTH
    ensures hp <= r || PLAYER_MAX_HEALTH < hp
  {
    if PLAYER_MAX_HEALTH < hp + HEALTH_PICKUP_RESTORE then PLAYER_MAX_HEALTH else hp + HEALTH_PICKUP_RESTORE
  }

  /** Health after `n` health pickups in one frame. */
  function RestoredHp(hp: nat, n: nat): nat {
    if n == 0 then hp else HealthPickupStep(RestoredHp(hp, n - 1))
  }

  function MinReal(a: real, b: real): real { if a <= b then a else b }

  /** Collecting `n > 0` fuel pickups adds `n` restores, capped at capacity. */
  lemma {:induction false} RestoredFuelCapped(fuel: real, n: nat)
    requires n > 0
    ensures RestoredFuel(fuel, n) == MinReal(PLAYER_FUEL_CAPACITY, fuel + (n as real) * FUEL_PICKUP_RESTORE)
    ensures RestoredFuel(fuel, n) <= PLAYER_FUEL_CAPACITY
  {
    if n > 1 {
      RestoredFuelCapped(fuel, n - 1);
      assert (n as real) * FUEL_PICKUP_RESTORE == ((n - 1) as real) * FUEL_PICKUP_RESTORE + FUEL_PICKUP_RESTORE;
    }
  }

  /** Collecting `n > 0` health pickups adds `n` health points, capped at the maximum. */
  lemma {:induction false} RestoredHpCapped(hp: nat, n: nat)
    requires n > 0
    ensures RestoredHp(hp, n) == if hp + n <= PLAYER_MAX_HEALTH then hp + n else PLAYER_MAX_HEALTH
  {
    if n > 1 {
      RestoredHpCapped(hp, n - 1);
    }
  }

  /** The fuel loop of `check_player_pickup_collision`: returns the pickups left. */
  method CollectFuelPickups(p: Player, fuels: seq<Pickup>, info: PlayerInfo, geo: Geometry)
    returns (kept: seq<Pickup>)
    modifies info`currentFuel
    ensures info.currentFuel == RestoredFuel(old(info.currentFuel), TouchCount(p, fuels, geo))
    ensures kept == Untouched(p, fuels, geo)
  {
    kept := [];
    var i := 0;
    while i < |fuels|
      invariant 0 <= i <= |fuels|
      invariant kept == Untouched(p, fuels[..i], geo)
      invariant info.currentFuel == RestoredFuel(old(info.currentFuel), TouchCount(p, fuels[..i], geo))
    {
      PickupsStep(p, fuels, i, geo);
      if TouchesPickup(p, fuels[i], geo) {
        info.currentFuel := if PLAYER_FUEL_CAPACITY < info.currentFuel + FUEL_PICKUP_RESTORE
          then PLAYER_FUEL_CAPACITY else info.currentFuel + FUEL_PICKUP_RESTORE;
      } else {
        kept := kept + [fuels[i]];
      }
      i := i + 1;
    }
    assert fuels[..|fuels|] == fuels;
  }

  /** The health loop of `check_player_pickup_collision`: returns the pickups left. */
  method CollectHealthPickups(p: Player, hearts: seq<Pickup>, info: PlayerInfo, geo: Geometry)
    returns (kept: seq<Pickup>)
    modifies info`currentHp
    ensures info.currentHp == RestoredHp(old(info.currentHp), TouchCount(p, hearts, geo))
    ensures kept == Untouched(p, hearts, geo)
  {
    kept := [];
    var i := 0;
    while i < |hearts|
      invariant 0 <= i <= |hearts|
      invariant kept == Untouched(p, hearts[..i], geo)
      invariant info.currentHp == RestoredHp(old(info.currentHp), TouchCount(p, hearts[..i], geo))
    {
      PickupsStep(p, hearts, i, geo);
      if TouchesPickup(p, hearts[i], geo) {
        info.currentHp := if PLAYER_MAX_HEALTH < info.currentHp + HEALTH_PICKUP_RESTORE
          then PLAYER_MAX_HEALTH else info.currentHp + HEALTH_PICKUP_RESTORE;
      } else {
        kept := kept + [hearts[i]];
      }
      i := i + 1;
    }
    assert hearts[..|hearts|] == hearts;
  }

  /** `check_player_pickup_collision`: every touched pickup is collected and
      despawned; fuel pickups first, then health pickups. */
  method CheckPlayerPickupCollision(w: World, info: PlayerInfo, geo: Geometry)
    modifies w`fuelPickups, w`healthPickups, info`currentFuel, info`currentHp
    ensures w.player.None? ==>
      && w.fuelPickups == old(w.fuelPickups) && w.healthPickups == old(w.healthPickups)
      && info.currentFuel == old(info.currentFuel) && info.currentHp == old(info.currentHp)
    ensures w.player.Some? ==>
      && info.currentFuel == RestoredFuel(old(info.currentFuel), TouchCount(w.player.value, old(w.fuelPickups), geo))
      && w.fuelPickups == Untouched(w.player.value, old(w.fuelPickups), geo)
      && info.currentHp == RestoredHp(old(info.currentHp), TouchCount(w.player.value, old(w.healthPickups), geo))
      && w.healthPickups == Untouched(w.player.value, old(w.healthPickups), geo)
  {
    if w.player.None? {
      return;
    }
    var p := w.player.value;
    var keptFuels := CollectFuelPickups(p, w.fuelPickups, info, geo);
    var keptHearts := CollectHealthPickups(p, w.healthPickups, info, geo);
    // Despawn commands take effect after the system has run.
    w.fuelPickups := keptFuels;
    w.healthPickups := keptHearts;
  }

  // ----- Collisions with enemies and projectiles ------------------------------

  predicate TouchesEnemy(p: Player, e: Enemy, geo: Geometry) {
    geo.collide(p.translation, p.collider, e.translation, e.collider)
  }

  /** The handles of the enemies the player touches, in iteration order. */
  function TouchedEnemies(p: Player, es: seq<Enemy>, geo: Geometry): (r: seq<Entity>)
    ensures |r| <= |es|
  {
    if es == [] then []
    else TouchedEnemies(p, es[..|es| - 1], geo)
         + (if TouchesEnemy(p, es[|es| - 1], geo) then [es[|es| - 1].entity] else [])
  }

  /** The handles listed are exactly those of the enemies the player touches;
      in particular the list is empty exactly when no enemy touches the player. */
  lemma {:induction false} TouchedEnemiesExactly(p: Player, es: seq<Enemy>, geo: Geometry)
    decreases |es|
    ensures forall h :: h in TouchedEnemies(p, es, geo) <==>
      exists j :: 0 <= j < |es| && TouchesEnemy(p, es[j], geo) && es[j].entity == h
    ensures TouchedEnemies(p, es, geo) == [] <==> forall j :: 0 <= j < |es| ==> !TouchesEnemy(p, es[j], geo)
  {
    if es != [] {
      var init, last := es[..|es| - 1], es[|es| - 1];
      TouchedEnemiesExactly(p, init, geo);
      assert forall j :: 0 <= j < |init| ==> init[j] == es[j];
      if TouchesEnemy(p, last, geo) {
        assert last.entity in TouchedEnemies(p, es, geo);
      }
    }
  }

  /** One `EnemyTakeDamageEvent` per handle, in order. */
  function EnemyDamageEvents(hs: seq<Entity>): seq<Event>
  {
    if hs == [] then [] else EnemyDamageEvents(hs[..|hs| - 1]) + [EnemyTakeDamage(hs[|hs| - 1])]
  }

  /** Event `j` damages the enemy with handle `j`, and there are no others. */
  lemma {:induction false} EnemyDamageEventsExactly(hs: seq<Entity>)
    decreases |hs|
    ensures |EnemyDamageEvents(hs)| == |hs|
    ensures forall j :: 0 <= j < |hs| ==> EnemyDamageEvents(hs)[j] == EnemyTakeDamage(hs[j])
  {
    if hs != [] {
      EnemyDamageEventsExactly(hs[..|hs| - 1]);
    }
  }

  /** Touching any one enemy makes the list of touched handles non-empty. */
  lemma TouchedEnemiesNonEmpty(p: Player, es: seq<Enemy>, i: nat, geo: Geometry)
    requires i < |es| && TouchesEnemy(p, es[i], geo)
    ensures TouchedEnemies(p, es, geo) != []
  {
    TouchedEnemiesExactly(p, es, geo);
  }

  /** One more enemy in iteration order adds its handle exactly when it is
      touched, and one more handle adds its damage event. */
  lemma TouchedEnemiesStep(p: Player, es: seq<Enemy>, i: nat, geo: Geometry)
    requires i < |es|
    ensures TouchesEnemy(p, es[i], geo) ==> TouchedEnemies(p, es[..i + 1], geo) == TouchedEnemies(p, es[..i], geo) + [es[i].entity]
    ensures !TouchesEnemy(p, es[i], geo) ==> TouchedEnemies(p, es[..i + 1], geo) == TouchedEnemies(p, es[..i], geo)
    ensures EnemyDamageEvents(TouchedEnemies(p, es[..i], geo) + [es[i].entity]) ==
      EnemyDamageEvents(TouchedEnemies(p, es[..i], geo)) + [EnemyTakeDamage(es[i].entity)]
  {
    assert es[..i + 1][..i] == es[..i];
    var hs := TouchedEnemies(p, es[..i], geo);
    assert (hs + [es[i].entity])[..|hs|] == hs;
  }

  /** One more enemy in iteration order adds one damage event exactly when it
      is touched. */
  lemma ChainsawHitStep(p: Player, es: seq<Enemy>, i: nat, geo: Geometry)
    requires i < |es|
    ensures TouchesEnemy(p, es[i], geo) ==>
      EnemyDamageEvents(TouchedEnemies(p, es[..i + 1], geo)) ==
      EnemyDamageEvents(TouchedEnemies(p, es[..i], geo)) + [EnemyTakeDamage(es[i].entity)]
    ensures !TouchesEnemy(p, es[i], geo) ==>
      EnemyDamageEvents(TouchedEnemies(p, es[..i + 1], geo)) ==
      EnemyDamageEvents(TouchedEnemies(p, es[..i], geo))
  {
    TouchedEnemiesStep(p, es, i, geo);
  }

  /** The enemy loop of `check_player_enemy_collision` as it runs in the Regular
      and Damaged states: it walks the enemies and stops at the first one the
      player touches. */
  method FirstEnemyContact(p: Player, es: seq<Enemy>, geo: Geometry) returns (found: bool)
    ensures found <==> TouchedEnemies(p, es, geo) != []
  {
    var i := 0;
    while i < |es|
      invariant 0 <= i <= |es|
      invariant TouchedEnemies(p, es[..i], geo) == []
    {
      TouchedEnemiesStep(p, es, i, geo);
      if TouchesEnemy(p, es[i], geo) {
        TouchedEnemiesNonEmpty(p, es, i, geo);
        return true;
      }
      i := i + 1;
    }
    assert es[..|es|] == es;
    return false;
  }

  /** The enemy loop of `check_player_enemy_collision` as it runs in the
      Chainsaw state: one enemy-damage event per touched enemy, in order. */
  method ChainsawEnemyHits(p: Player, es: seq<Enemy>, geo: Geometry) returns (sent: seq<Event>)
    ensures sent == EnemyDamageEvents(TouchedEnemies(p, es, geo))
  {
    sent := [];
    var i := 0;
    while i < |es|
      invariant 0 <= i <= |es|
      invariant sent == EnemyDamageEvents(TouchedEnemies(p, es[..i], geo))
    {
      ChainsawHitStep(p, es, i, geo);
      if TouchesEnemy(p, es[i], geo) {
        sent := sent + [EnemyTakeDamage(es[i].entity)];
      }
      i := i + 1;
    }
    assert es[..|es|] == es;
  }

  /** `check_player_enemy_collision`: in Regular the first contact sends one
      player-damage event and stops; in Damaged the first contact stops the
      loop and nothing is sent; in Chainsaw every touched enemy receives one
      damage event, in iteration order. The player state does not change
      during the loop, so the match on it is taken once, before the loop. */
  method CheckPlayerEnemyCollision(w: World, state: PlayerState, geo: Geometry) returns (sent: seq<Event>)
    ensures w.player.None? || state == Damaged ==> sent == []
    ensures w.player.Some? && state == Regular ==>
      sent == if TouchedEnemies(w.player.value, w.enemies, geo) != [] then [PlayerTakeDamage] else []
    ensures w.player.Some? && state == Chainsaw ==>
      sent == EnemyDamageEvents(TouchedEnemies(w.player.value, w.enemies, geo))
  {
    if w.player.None? {
      return [];
    }
    var p := w.player.value;
    match state
    case Regular =>
      var found := FirstEnemyContact(p, w.enemies, geo);
      sent := if found then [PlayerTakeDamage] else [];
    case Damaged =>
      var _ := FirstEnemyContact(p, w.enemies, geo);
      sent := [];
    case Chainsaw =>
      sent := ChainsawEnemyHits(p, w.enemies, geo);
  }

  predicate TouchesProjectile(p: Player, q: Projectile, geo: Geometry) {
    geo.collide(p.translation, p.collider, q.translation, q.collider)
  }

  /** The projectiles after the chainsaw sends every touched one backwards. */
  function Reflected(p: Player, qs: seq<Projectile>, geo: Geometry): (r: seq<Projectile>)
    ensures |r| == |qs|
  {
    seq(|qs|, j requires 0 <= j < |qs| =>
      if TouchesProjectile(p, qs[j], geo) then qs[j].(direction := qs[j].direction.Neg()) else qs[j])
  }

  /** Reflecting twice restores every projectile: reflection keeps positions and
      sizes, so the same projectiles are touched again and negated back. */
  lemma ReflectedTwice(p: Player, qs: seq<Projectile>, geo: Geometry)
    ensures Reflected(p, Reflected(p, qs, geo), geo) == qs
  {
    var once := Reflected(p, qs, geo);
    forall j | 0 <= j < |qs|
      ensures Reflected(p, once, geo)[j] == qs[j]
    {
      assert once[j].translation == qs[j].translation && once[j].collider == qs[j].collider;
    }
  }

  /** `check_player_projectile_collision`: in Regular the first contact sends one
      player-damage event and stops; in Damaged contacts are skipped; in Chainsaw
      every touched projectile has its direction negated. */
  method CheckPlayerProjectileCollision(w: World, state: PlayerState, geo: Geometry) returns (sent: seq<Event>)
    modifies w`projectiles
    ensures w.player.None? || state != Chainsaw ==> w.projectiles == old(w.projectiles)
    ensures w.player.None? || state != Regular ==> sent == []
    ensures w.player.Some? && state == Regular ==>
      sent == if exists j :: 0 <= j < |w.projectiles| && TouchesProjectile(w.player.value, w.projectiles[j], geo)
              then [PlayerTakeDamage] else []
    ensures w.player.Some? && state == Chainsaw ==> w.projectiles == Reflected(w.player.value, old(w.projectiles), geo)
  {
    sent := [];
    if w.player.None? {
      return;
    }
    var p := w.player.value;
    var qs := w.projectiles;
    var i := 0;
    while i < |qs|
      invariant 0 <= i <= |qs|
      invariant |w.projectiles| == |qs| && sent == []
      invariant state != Chainsaw ==> w.projectiles == qs
      invariant state == Regular ==> forall j :: 0 <= j < i ==> !TouchesProjectile(p, qs[j], geo)
      invariant state == Chainsaw ==> forall j :: 0 <= j < i ==> w.projectiles[j] == Reflected(p, qs, geo)[j]
      invariant state == Chainsaw ==> forall j :: i <= j < |qs| ==> w.projectiles[j] == qs[j]
    {
      if TouchesProjectile(p, qs[i], geo) {
        match state
        case Regular =>
          sent := sent + [PlayerTakeDamage];
          return;
        case Damaged =>
        case Chainsaw =>
          w.projectiles := w.projectiles[i := w.projectiles[i].(direction := w.projectiles[i].direction.Neg())];
      }
      i := i + 1;
    }
  }

  // ----- Chainsaw overheat --------------------------------------------------

  /** Heat after `n` enemy-damage events, each adding `inc`, and whether a fire
      wave was released: reaching `limit` releases it, resets heat and stops. */
  function Overheat(heat: real, n: nat, inc: real, limit: real): (r: (real, bool))
    decreases n
    ensures r.1 ==> n > 0 && r.0 == 0.0
    ensures n == 0 ==> r == (heat, false)
  {
    if n == 0 then (heat, false)
    else if heat + inc >= limit then (0.0, true)
    else Overheat(heat + inc, n - 1, inc, limit)
  }

  /** With a non-negative increment, a fire wave is released exactly when the
      accumulated heat reaches the limit; otherwise all increments are kept. */
  lemma {:induction false} OverheatFiresIff(heat: real, n: nat, inc: real, limit: real)
    requires inc >= 0.0
    decreases n
    ensures Overheat(heat, n, inc, limit).1 <==> n > 0 && heat + (n as real) * inc >= limit
    ensures Overheat(heat, n, inc, limit).1 ==> Overheat(heat, n, inc, limit).0 == 0.0
    ensures !Overheat(heat, n, inc, limit).1 ==> Overheat(heat, n, inc, limit).0 == heat + (n as real) * inc
  {
    if n > 0 {
      var rest := ((n - 1) as real) * inc;
      assert (n as real) == ((n - 1) as real) + 1.0;
      assert (n as real) * inc == rest + inc;
      assert rest >= 0.0;
      if heat + inc < limit {
        OverheatFiresIff(heat + inc, n - 1, inc, limit);
        assert (heat + inc) + rest == heat + (n as real) * inc;
      } else {
        assert heat + (n as real) * inc >= limit;
      }
    }
  }

  /** `manage_chainsaw_overheat`: each enemy-damage event heats the chainsaw;
      reaching the limit sends exactly one fire wave, resets heat and stops. */
  method ManageChainsawOverheat(w: World, info: PlayerInfo, pending: nat, dt: real, t: Tuning)
    returns (sent: seq<Event>)
    modifies info`chainsawHeat
    ensures w.player.None? ==> info.chainsawHeat == old(info.chainsawHeat) && sent == []
    ensures w.player.Some? ==>
      var r := Overheat(old(info.chainsawHeat), pending, t.chainsawHeatSpeed * dt, t.chainsawHeatLimit);
      info.chainsawHeat == r.0 && sent == if r.1 then [ChainsawFireWave] else []
  {
    sent := [];
    if w.player.None? {
      return;
    }
    ghost var target := Overheat(old(info.chainsawHeat), pending, t.chainsawHeatSpeed * dt, t.chainsawHeatLimit);
    var k := 0;
    while k < pending
      invariant 0 <= k <= pending && sent == []
      invariant Overheat(info.chainsawHeat, pending - k, t.chainsawHeatSpeed * dt, t.chainsawHeatLimit) == target
    {
      info.chainsawHeat := info.chainsawHeat + t.chainsawHeatSpeed * dt;
      if info.chainsawHeat >= t.chainsawHeatLimit {
        sent := sent + [ChainsawFireWave];
        info.chainsawHeat := 0.0;
        return;
      }
      k := k + 1;
    }
  }

  // ----- Movement -----------------------------------------------------------

  /** One step of `move_player` toward `target`: no movement within 10 units. */
  function StepTowards(p: Player, target: Vec2, dt: real, geo: Geometry): (r: Player)
    ensures r.currentSpeed == p.currentSpeed && r.collider == p.collider
    ensures geo.distance(p.translation, target) <= 10.0 ==> r == p
    ensures geo.distance(p.translation, target) > 10.0 ==>
      r.translation == p.translation.Plus(geo.normalize(target.Minus(p.translation)).Scale(p.currentSpeed * dt))
  {
    var direction := geo.normalize(target.Minus(p.translation));
    if geo.distance(p.translation, target) > 10.0
    then p.(translation := p.translation.Plus(direction.Scale(p.currentSpeed * dt)))
    else p
  }

  /** `move_player`: step toward the cursor. */
  method MovePlayer(w: World, game: GameInfo, dt: real, geo: Geometry)
    modifies w`player
    ensures w.player == if old(w.player).None? then None
                        else Some(StepTowards(old(w.player).value, game.cursorPosition, dt, geo))
  {
    if w.player.Some? {
      var p := w.player.value;
      var destination := game.cursorPosition;
      var direction := geo.normalize(destination.Minus(p.translation));
      if geo.distance(p.translation, destination) > 10.0 {
        w.player := Some(p.(translation := p.translation.Plus(direction.Scale(p.currentSpeed * dt))));
        assert w.player.value == StepTowards(p, destination, dt, geo);
      }
    }
  }

  /** `update_player_progress`: the depth grows until it reaches the maximum. */
  method UpdatePlayerProgress(game: GameInfo, dt: real, t: Tuning)
    modifies game`playerProgress
    ensures old(game.playerProgress) >= t.maxDepth ==> game.playerProgress == old(game.playerProgress)
    ensures old(game.playerProgress) < t.maxDepth ==>
      game.playerProgress == old(game.playerProgress) + t.playerFallingSpeed * dt
  {
    if game.playerProgress >= t.maxDepth {
      return;
    }
    game.playerProgress := game.playerProgress + t.playerFallingSpeed * dt;
  }

  /** One axis of `limit_player_movement`: the upper bound is applied first,
      then the lower one. */
  function LimitAxis(v: real, lo: real, hi: real): (r: real)
    ensures lo <= hi ==> lo <= r <= hi
    ensures lo <= v <= hi ==> r == v
    ensures hi < lo ==> r == lo
  {
    var capped := if v > hi then hi else v;
    if capped < lo then lo else capped
  }

  /** The player kept inside the window, inset by its own collider size. */
  function LimitedPlayer(p: Player, window: Vec2): (r: Player)
    ensures r.currentSpeed == p.currentSpeed && r.collider == p.collider
    ensures p.collider.x <= window.x - p.collider.x ==>
      p.collider.x <= r.translation.x <= window.x - p.collider.x
    ensures p.collider.y <= window.y - p.collider.y ==>
      p.collider.y <= r.translation.y <= window.y - p.collider.y
    ensures p.collider.x <= p.translation.x <= window.x - p.collider.x ==> r.translation.x == p.translation.x
    ensures p.collider.y <= p.translation.y <= window.y - p.collider.y ==> r.translation.y == p.translation.y
  {
    p.(translation := Vec2(LimitAxis(p.translation.x, p.collider.x, window.x - p.collider.x),
                           LimitAxis(p.translation.y, p.collider.y, window.y - p.collider.y)))
  }

  /** `limit_player_movement` (after `move_player`). */
  method LimitPlayerMovement(w: World, window: Vec2)
    modifies w`player
    ensures w.player == if old(w.player).None? then None else Some(LimitedPlayer(old(w.player).value, window))
  {
    if w.player.Some? {
      var p := w.player.value;
      var xMax := window.x - p.collider.x;
      var xMin := 0.0 + p.collider.x;
      var yMax := window.y - p.collider.y;
      var yMin := 0.0 + p.collider.y;
      var x, y := p.translation.x, p.translation.y;
      if x > xMax { x := xMax; }
      if x < xMin { x := xMin; }
      if y > yMax { y := yMax; }
      if y < yMin { y := yMin; }
      w.player := Some(p.(translation := Vec2(x, y)));
    }
  }

  // ----- Damage and invulnerability -----------------------------------------

  /** `handle_player_take_damage_event` (Regular only): only the first pending
      event is handled; health 1 or less ends the game, otherwise one point is
      lost and the player becomes Damaged. */
  method HandlePlayerTakeDamageEvent(info: PlayerInfo, next: NextState<PlayerState>, pending: nat)
    returns (sent: seq<Event>)
    modifies info`currentHp, next`pending
    ensures pending == 0 ==>
      sent == [] && info.currentHp == old(info.currentHp) && next.pending == old(next.pending)
    ensures pending > 0 && old(info.currentHp) <= 1 ==>
      sent == [GameOver] && info.currentHp == 0 && next.pending == old(next.pending)
    ensures pending > 0 && old(info.currentHp) > 1 ==>
      sent == [] && info.currentHp == old(info.currentHp) - 1 && next.pending == Some(Damaged)
  {
    sent := [];
    if pending > 0 {
      if info.currentHp <= 1 {
        sent := sent + [GameOver];
        info.currentHp := 0;
      } else {
        next.pending := Some(Damaged);
        info.currentHp := info.currentHp - 1;
      }
    }
  }

  /** `player_take_damage_invulnerability` (Damaged only): when the timer has
      just finished the player returns to Regular and the timer restarts. */
  method PlayerTakeDamageInvulnerability(w: World, next: NextState<PlayerState>, timer: TimerResource,
                                         justFinished: bool)
    modifies next`pending, timer`timer
    ensures w.player.Some? && justFinished ==>
      next.pending == Some(Regular) && timer.timer == old(timer.timer).Reset()
    ensures !(w.player.Some? && justFinished) ==>
      next.pending == old(next.pending) && timer.timer == old(timer.timer)
  {
    if w.player.Some? {
      if justFinished {
        next.pending := Some(Regular);
        timer.timer := timer.timer.Reset();
      }
    }
  }

  /** `tick_damage_invulnerability_timer` (Damaged only). */
  method TickDamageInvulnerabilityTimer(timer: TimerResource, dt: real)
    modifies timer`timer
    ensures timer.timer == old(timer.timer).Tick(dt)
  {
    timer.timer := timer.timer.Tick(dt);
  }
}
