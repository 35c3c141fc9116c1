/** Short frame-by-frame scenarios that chain several systems, with the
    results each one must reach. */
module Scenarios {
  import opened Engine
  import opened Events
  import opened Game
  import PlayerPlugin
  import opened Components
  import opened PlayerSystems
  import opened EnemySystems

  /** A chainsaw player with 1.0 fuel, drained for 0.2 s at 10 per second,
      ends below 1.0 and is told once to return to regular form. */
  method FuelExhaustion() returns (fuel: real, sent: seq<Event>)
    ensures fuel < 1.0 && fuel == -1.0
    ensures sent == [PlayerTransitionToRegularForm]
  {
    var info := new PlayerInfo(0.0, 0.0);
    info.currentFuel := 1.0;
    sent := DrainFuel(info, 0.2);
    fuel := info.currentFuel;
  }

  /** A regular player is hit, becomes Damaged for the 2 s invulnerability
      period, ignores a second hit at 1 s, and is Regular again at 2 s having
      lost a single health point. The state machine applies a queued state at
      the end of each frame; the timer has just finished once its elapsed time
      reaches its duration. */
  method InvulnerabilityWindow(p: Player) returns (hp: nat, states: seq<PlayerPlugin.PlayerState>)
    ensures hp == PlayerPlugin.PLAYER_MAX_HEALTH - 1
    ensures states == [PlayerPlugin.Damaged, PlayerPlugin.Damaged, PlayerPlugin.Regular]
  {
    var info := new PlayerInfo(0.0, 0.0);
    var next := new NextState<PlayerPlugin.PlayerState>();
    var timer := new TimerResource(PlayerPlugin.PLAYER_TAKE_DAMAGE_INVULNERABILITY_PERIOD);
    var w := new World();
    w.player := Some(p);
    var state := PlayerPlugin.DEFAULT_PLAYER_STATE;

    // t = 0 s: one hit while Regular.
    assert PlayerPlugin.RunsIn(PlayerPlugin.PlayerSystem.HandlePlayerTakeDamageEvent, Running, state);
    var sent := HandlePlayerTakeDamageEvent(info, next, 1);
    state := Applied(state, next.pending);
    next.pending := None;
    states := [state];

    // t = 1 s: a second hit arrives, but the damage handler does not run while Damaged.
    assert !PlayerPlugin.RunsIn(PlayerPlugin.PlayerSystem.HandlePlayerTakeDamageEvent, Running, state);
    TickDamageInvulnerabilityTimer(timer, 1.0);
    PlayerTakeDamageInvulnerability(w, next, timer, timer.timer.elapsed >= timer.timer.duration);
    state := Applied(state, next.pending);
    next.pending := None;
    states := states + [state];

    // t = 2 s: the invulnerability timer finishes.
    TickDamageInvulnerabilityTimer(timer, 1.0);
    PlayerTakeDamageInvulnerability(w, next, timer, timer.timer.elapsed >= timer.timer.duration);
    state := Applied(state, next.pending);
    next.pending := None;
    states := states + [state];
    hp := info.currentHp;
  }

  /** One frame of chainsaw contact, 0.2 s long, with a lone enemy `e` in
      the world: a dead enemy is counted out and despawned, a live one is
      wounded. */
  method HitLoneEnemyFrame(w: World, game: GameInfo, e: Enemy, t: Tuning)
    requires w.enemies == [e]
    modifies w`enemies, game`enemiesNum
    ensures e.currentHp <= 0.0 ==>
      w.enemies == [] && game.enemiesNum == if old(game.enemiesNum) == 0 then 0 else old(game.enemiesNum) - 1
    ensures e.currentHp > 0.0 ==> w.enemies == [Wounded(e, 0.2, t)] && game.enemiesNum == old(game.enemiesNum)
  {
    HitLoneEnemy(e, game.enemiesNum, 0.2, t);
    DespawnedSingle(e, {e.entity});
    DespawnedSingle(Wounded(e, 0.2, t), {});
    HandleEnemyTakeDamageEvent(w, game, [e.entity], 0.2, t);
  }

  /** An enemy with 10 health under one hit per 0.2 s frame drops to 4 and
      then -2; the next hit despawns it and the counter drops once; a further
      hit on the stale handle changes nothing. */
  method DamageToDeath(e0: Enemy, t: Tuning) returns (hps: seq<real>, counter: nat, remaining: seq<Enemy>)
    requires e0.currentHp == 10.0
    ensures hps == [4.0, -2.0]
    ensures counter == 0 && remaining == []
  {
    var w := new World();
    var game := new GameInfo();
    w.enemies := [e0];
    game.enemiesNum := 1;
    var e1 := Wounded(e0, 0.2, t);
    var e2 := Wounded(e1, 0.2, t);
    assert e1.entity == e0.entity && e1.currentHp == 4.0;
    assert e2.entity == e0.entity && e2.currentHp == -2.0;

    // Frames 1 and 2: 10 - 30 * 0.2 = 4, then 4 - 6 = -2.
    HitLoneEnemyFrame(w, game, e0, t);
    hps := [w.enemies[0].currentHp];
    HitLoneEnemyFrame(w, game, e1, t);
    hps := hps + [w.enemies[0].currentHp];

    // Frame 3: the enemy is dead, so it is counted out and despawned.
    HitLoneEnemyFrame(w, game, e2, t);

    // Frame 4: the stale handle no longer resolves.
    StaleHandlesIgnored(DamageState([], 0, {}), [e0.entity], 0.2, t);
    assert Despawned([], {}) == [];
    HandleEnemyTakeDamageEvent(w, game, [e0.entity], 0.2, t);
    counter := game.enemiesNum;
    remaining := w.enemies;
  }
}
