# Chainsaw combat core — a Dafny model

This project models the combat core of a small top-down Bevy game. The
player flies a craft that turns into a chainsaw, fights waves of enemies
and picks up fuel and hearts. The modelled core consists of:

- the enemy systems: spawning, movement, limits, following, damage, fire and timers;
- the player systems: spawn, form changes, fuel, pickups, collisions, overheat, movement, limits, damage and invulnerability;
- the game-level event handlers: counter-attack, game over and the counter-attack timer;
- the player plugin's run-condition table.

The modelling conventions:

- Each Bevy system is a Dafny `method`. The method's `modifies` clause names the component or resource fields the system writes.
- Each method is proved against a pure specification function, or a family of them (`ChangedFuel`, `SpawnCycle`, `MovedEnemy`, `DamageAll`, `CounterAttackTick`, …). The lemmas then state what the game promises about those functions.

Modules:

| module | file | contents |
|---|---|---|
| `Engine` | engine.dfy | entity handles, 2-D vectors, mouse buttons, timers, `NextState`, and the abstract geometry (normalise, distance, collide) |
| `Events` | events.dfy | the events the systems exchange, and the default counter-attack event |
| `Game` | game.dfy | the game state (`Running`, `Gameover`), the pickup and drain constants, and the tuning record for constants outside the core |
| `PlayerPlugin` | player_plugin.dfy | the player constants, the player state, and which player system runs in which state |
| `Components` | components.dfy | enemy, projectile, pickup and player records; the `PlayerInfo`, `GameInfo` and `World` classes; handle lookup and deferred despawn |
| `PlayerSystems` | player_systems.dfy | the player systems |
| `EnemySystems` | enemy_systems.dfy | the enemy systems |
| `GameSystems` | game_systems.dfy | the game-level event handlers |
| `Scenarios` | scenarios.dfy | short multi-frame runs with concrete numbers |

How the game's concepts are represented:

- Queries over entities are sequences in `World`, iterated in sequence order.
- Event readers become inputs: either a count of pending events or the list of their payloads. Event writers become a returned `seq<Event>`.
- A timer's `just_finished` flag is an input, because the timer's internals are not modelled. The per-enemy fire timer becomes a set of entities whose timer finished this frame.
- `f32` is modelled as `real` and `usize` as `nat`.
- `NextState::set` stores a pending state. `Engine.Applied` applies it at the end of the frame.
- Despawning through `Commands` is deferred. The model removes the enemies after the loop, with `Despawned`.

## Model

| member | source | states |
|---|---|---|
| PlayerPlugin.Schedule | src/game/player/mod.rs:26-39 | a system is in the schedule for a game state and player state exactly when its run condition holds (game running, plus the player-state condition from the table) |
| PlayerPlugin.RunsIn | src/game/player/mod.rs:26-39 | no player system runs outside the Running game state; movement, limiting and pickup collection run in every player state while the game runs |
| PlayerPlugin.OrderingSatisfiable | src/game/player/mod.rs:28-29 | position limiting is ordered after movement, and whenever limiting is scheduled, movement is scheduled too |
| PlayerPlugin.DamagePathsExclusive | src/game/player/mod.rs:29-37 | damage is handled only in Regular; the invulnerability timer and its expiry run only in Damaged; fuel drains only in Chainsaw; the chainsaw transition fires only from Regular; enemy contact is checked in every state except Damaged |
| Components.PlayerInfo.constructor | src/game/player/resources.rs:17-27 | a new player resource starts with full fuel (100.0), full health (5) and no chainsaw heat, and stores the counter-attack fuel loss and gain |
| Components.GameInfo.constructor | src/game/mod.rs:61-65 | a new game resource has no enemies, no boss, an empty spawn queue, zero progress and the default counter-attack event |
| Components.World.constructor | src/main.rs:15-39 | the world starts with no player, no enemies, no projectiles and no pickups |
| Components.FindEnemy | src/game/enemy/systems.rs:408 | resolves a handle to the first enemy carrying it, or reports that no enemy in the list carries it |
| Components.Despawned | src/game/enemy/systems.rs:433 | keeps exactly the enemies whose handles were not despawned, and never grows the list |
| PlayerSystems.ChangedFuel | src/game/player/systems.rs:364-372 | the new fuel is the old fuel plus the amount, clamped to [0, 100]: it is 0 on underflow and the capacity on overflow |
| PlayerSystems.ChangedFuelMonotonic | src/game/player/systems.rs:364-372 | a larger change never leaves less fuel |
| PlayerSystems.ChangePlayerFuel | src/game/player/systems.rs:364-372 | the resource's fuel becomes the clamped sum |
| PlayerSystems.GainFuelOverTime | src/game/player/systems.rs:117-121 | fuel grows by the passive gain times the frame time, and stays within [0, 100] |
| PlayerSystems.DrainFuel | src/game/player/systems.rs:102-114 | fuel drops by 10 per second without a floor; the regular-form event is sent exactly when fuel falls below 1 |
| PlayerSystems.SpawnPlayer | src/game/player/systems.rs:25-49 | the player appears at the centre of the window, in regular form |
| PlayerSystems.ChainsawFormRoundTrip | src/game/player/systems.rs:63-97 | switching a regular-form player to chainsaw form and back restores it, and the switch keeps the position |
| PlayerSystems.TransitionToPlayerChainsawState | src/game/player/systems.rs:56-74 | with full fuel and a fresh left click, a player switches to chainsaw form and Chainsaw state; otherwise nothing changes |
| PlayerSystems.TransitionToPlayerRegularState | src/game/player/systems.rs:77-99 | on a pending regular-form event, a player goes to regular form and Damaged state and loses all chainsaw heat; otherwise nothing changes |
| PlayerSystems.Untouched | src/game/player/systems.rs:131-166 | collecting pickups never adds one |
| PlayerSystems.UntouchedExactly | src/game/player/systems.rs:131-166 | a pickup survives the frame exactly when it was there and the player does not touch it, and every other pickup is counted as collected |
| PlayerSystems.FuelPickupStep | src/game/player/systems.rs:139-144 | one fuel pickup adds 25 or fills the tank, never passes the capacity of 100, and never lowers fuel that is within the capacity |
| PlayerSystems.HealthPickupStep | src/game/player/systems.rs:158-163 | one heart adds 1 health point or fills health, never passes the maximum of 5, and never lowers health that is within the maximum |
| PlayerSystems.RestoredFuelCapped | src/game/player/systems.rs:139-144 | collecting n ≥ 1 fuel pickups gives min(100, fuel + 25·n) |
| PlayerSystems.RestoredHpCapped | src/game/player/systems.rs:158-163 | collecting n ≥ 1 hearts gives min(5, hp + n) |
| PlayerSystems.CollectFuelPickups | src/game/player/systems.rs:131-147 | fuel is restored once per touched fuel pickup, and the touched pickups are despawned |
| PlayerSystems.CollectHealthPickups | src/game/player/systems.rs:149-166 | health is restored once per touched heart, and the touched hearts are despawned |
| PlayerSystems.CheckPlayerPickupCollision | src/game/player/systems.rs:123-168 | without a player nothing changes; with one, both kinds of pickup are collected as above |
| PlayerSystems.TouchedEnemies | src/game/player/systems.rs:181-204 | never lists more handles than there are enemies |
| PlayerSystems.TouchedEnemiesExactly | src/game/player/systems.rs:181-204 | the handles listed are exactly those of the enemies the player touches, so the list is empty exactly when no enemy touches the player |
| PlayerSystems.EnemyDamageEventsExactly | src/game/player/systems.rs:200-202 | one enemy-damage event per handle, in the same order, and no other event |
| PlayerSystems.FirstEnemyContact | src/game/player/systems.rs:181-198 | the enemy loop in Regular or Damaged stops at a contact exactly when some enemy touches the player |
| PlayerSystems.ChainsawHitStep | src/game/player/systems.rs:181-202 | one more enemy in iteration order adds one enemy-damage event exactly when the player touches it |
| PlayerSystems.ChainsawEnemyHits | src/game/player/systems.rs:181-204 | the enemy loop in Chainsaw sends one damage event per touched enemy, in iteration order |
| PlayerSystems.CheckPlayerEnemyCollision | src/game/player/systems.rs:173-207 | in Regular, enemy contact sends player damage; in Chainsaw, it sends damage to each touched enemy; otherwise nothing is sent |
| PlayerSystems.Reflected | src/game/player/systems.rs:233-238 | reflection keeps the number of projectiles |
| PlayerSystems.ReflectedTwice | src/game/player/systems.rs:233-238 | reflecting the same projectiles twice restores them |
| PlayerSystems.CheckPlayerProjectileCollision | src/game/player/systems.rs:209-243 | in Regular, a projectile hit sends player damage and leaves projectiles alone; in Chainsaw, touching projectiles are reflected; otherwise nothing happens |
| PlayerSystems.Overheat | src/game/player/systems.rs:254-270 | the fire wave fires only after at least one hit, and then leaves no heat; with no hits the heat is unchanged and nothing fires |
| PlayerSystems.OverheatFiresIff | src/game/player/systems.rs:254-270 | over n enemy hits, the fire wave fires exactly when the accumulated heat reaches the limit; heat is then 0, otherwise it is the sum |
| PlayerSystems.ManageChainsawOverheat | src/game/player/systems.rs:246-273 | the heat and the fire-wave events follow the overheat rule, and only when a player exists |
| PlayerSystems.StepTowards | src/game/player/systems.rs:280-288 | within 10 units of the cursor the player stays; further away it moves along the normalised direction at its current speed |
| PlayerSystems.MovePlayer | src/game/player/systems.rs:275-289 | the player, if any, takes one step towards the cursor |
| PlayerSystems.UpdatePlayerProgress | src/game/player/systems.rs:291-298 | progress grows by the falling speed times the frame time until it reaches the maximum depth |
| PlayerSystems.LimitAxis | src/game/player/systems.rs:311-322 | a coordinate inside the bounds is kept and one outside is moved to the nearer bound; inverted bounds give the lower bound, because the upper check runs first |
| PlayerSystems.LimitedPlayer | src/game/player/systems.rs:304-323 | the player is kept inside the window, inset by its collider, and is unchanged when already inside |
| PlayerSystems.LimitPlayerMovement | src/game/player/systems.rs:300-324 | the player, if any, is limited to the window |
| PlayerSystems.HandlePlayerTakeDamageEvent | src/game/player/systems.rs:329-345 | one pending damage event costs one health point and enters Damaged; at 1 health point or fewer it sends game over instead |
| PlayerSystems.PlayerTakeDamageInvulnerability | src/game/player/systems.rs:348-362 | when the invulnerability timer finishes, the player returns to Regular and the timer is reset |
| PlayerSystems.TickDamageInvulnerabilityTimer | src/game/player/systems.rs:374-379 | the invulnerability timer advances by the frame time |
| EnemySystems.ChooseEnemyType | src/game/enemy/systems.rs:43-53 | a boss exactly at boss depth; a shooter exactly below boss depth and at or above shooter depth, with a draw over 0.4; a follower in every other case |
| EnemySystems.NewEnemy | src/game/enemy/systems.rs:59-211 | a new enemy is Spawned, not yet at its destination, at full health and its archetype's speed, just below the window (at y = 0 minus its collider height), heading towards its destination; it follows the player exactly when it is a follower |
| EnemySystems.SpawnCycle | src/game/enemy/systems.rs:29-213 | at the cap or after a boss, nothing is spawned; otherwise the count grows by one, the boss latch is set exactly when a boss was queued, and the queue keeps its length and serves the oldest entry first |
| EnemySystems.SpawnRun | src/game/enemy/systems.rs:29-213 | a blocked spawner stays unchanged through any run of cycles, and a set boss latch stays set |
| EnemySystems.AtMostOneBoss | src/game/enemy/systems.rs:55-57 | over any number of cycles, at most one boss is queued, and none once the latch is set |
| EnemySystems.SpawnRunCapped | src/game/enemy/systems.rs:29-40 | the enemy count never decreases and never passes the maximum |
| EnemySystems.SpawnRunBlocked | src/game/enemy/systems.rs:29-31 | once spawning is blocked, it stays blocked and nothing changes |
| EnemySystems.SpawnRunQueueEmpty | src/game/enemy/systems.rs:41-213 | with an empty queue, every cycle spawns the type it just chose |
| EnemySystems.SpawnEnemiesOverTime | src/game/enemy/systems.rs:21-215 | one spawn-timer tick performs one spawn cycle, and the spawned enemy gets a fresh handle |
| EnemySystems.MovedEnemy | src/game/enemy/systems.rs:226-258 | movement keeps an enemy's handle, type, destination, health and speed |
| EnemySystems.MovedEnemyRule | src/game/enemy/systems.rs:226-258 | an enemy that arrived last frame starts engaging; an enemy on fire keeps its heading and advances along it at its current speed; otherwise an enemy within 1 unit has arrived and stays put, and one further away turns towards its destination and advances along the new heading at its current speed |
| EnemySystems.EngagesOneFrameAfterArrival | src/game/enemy/systems.rs:227-257 | a Spawned enemy that has not arrived stays Spawned this frame, even if it arrives |
| EnemySystems.MoveEnemy | src/game/enemy/systems.rs:226-258 | one enemy's update is the movement rule |
| EnemySystems.MoveEnemiesToDestination | src/game/enemy/systems.rs:221-259 | every enemy is moved by the movement rule |
| EnemySystems.ClampAxis | src/game/enemy/systems.rs:287-298 | a coordinate inside the bounds is kept and one outside is moved to the nearer bound; inverted bounds give the upper bound, because the lower check runs first |
| EnemySystems.LimitedEnemy | src/game/enemy/systems.rs:268-299 | Spawned enemies are untouched; other enemies are kept inside the window, inset by the chainsaw collider; an enemy on fire that is outside the bounds bounces off them |
| EnemySystems.LimitedEnemyIdempotent | src/game/enemy/systems.rs:287-298 | limiting twice gives the same as limiting once, when the window is at least twice the chainsaw collider on each axis |
| EnemySystems.LimitEnemy | src/game/enemy/systems.rs:268-299 | one enemy's update is the limit rule |
| EnemySystems.LimitEnemyMovement | src/game/enemy/systems.rs:262-300 | every enemy is limited |
| EnemySystems.Followed | src/game/enemy/systems.rs:309-320 | an engaging follower's destination becomes the player's position; any other enemy is unchanged |
| EnemySystems.FollowPlayer | src/game/enemy/systems.rs:304-322 | with a player, every enemy follows it by that rule; without one, nothing changes |
| EnemySystems.ChangeEnemyHealth | src/game/enemy/systems.rs:544-551 | health changes by the amount, capped at the maximum; a result below 0 becomes exactly 0 |
| EnemySystems.ChangeEnemyHealthMonotonic | src/game/enemy/systems.rs:544-551 | a larger change never leaves less health |
| EnemySystems.Wounded | src/game/enemy/systems.rs:434-440 | a hit enemy loses 30 health per second and is slowed by the chainsaw factor; nothing else changes |
| EnemySystems.DamageStep | src/game/enemy/systems.rs:405-441 | an event for an unknown handle does nothing; an event for a dead enemy despawns it and decrements the count, which stays at 0 once it reaches 0; any other enemy is wounded |
| EnemySystems.DamageStepKeepsEnemies | src/game/enemy/systems.rs:406-440 | one damage event keeps every enemy in its place and at most lowers its health and speed |
| EnemySystems.DamageAll | src/game/enemy/systems.rs:405-441 | handling damage events keeps the number of enemies, never raises the enemy count, and never cancels a queued despawn |
| EnemySystems.DamageAllKeepsEnemies | src/game/enemy/systems.rs:405-441 | damage events never remove or reorder enemies, change only health and speed, and never raise either |
| EnemySystems.HitLoneEnemy | src/game/enemy/systems.rs:405-441 | one event against a lone enemy counts it out and queues its despawn when it is dead, and wounds it otherwise |
| EnemySystems.DamageAllCounter | src/game/enemy/systems.rs:409-433 | the enemy count falls by at most one per event, and only enemies named by the events are despawned |
| EnemySystems.StaleHandlesIgnored | src/game/enemy/systems.rs:406-408 | events for handles that no enemy carries change nothing |
| EnemySystems.DeathCountedOnce | src/game/enemy/systems.rs:409-433 | with distinct handles, the count falls by at most the number of enemies despawned |
| EnemySystems.RepeatedDeathEventsCountTwice | src/game/enemy/systems.rs:409-433 | two events in one frame for the same dead enemy decrement the count twice but despawn it once |
| EnemySystems.DamageAllStep | src/game/enemy/systems.rs:405-441 | handling one more event of the list is one more damage step on the state reached so far |
| EnemySystems.DamageOne | src/game/enemy/systems.rs:406-440 | the loop body for one event updates the enemies, the count and the queued despawns by the damage step |
| EnemySystems.HandleEnemyTakeDamageEvent | src/game/enemy/systems.rs:396-443 | the enemies and the count follow the damage rule for all events, and the enemies despawned along the way are removed at the end |
| EnemySystems.Ignited | src/game/enemy/systems.rs:451-461 | an engaging enemy catches fire, gains the fire speed bonus and restarts its fire timer; any other enemy is unchanged |
| EnemySystems.Extinguished | src/game/enemy/systems.rs:470-484 | when an enemy's fire timer finishes, it engages again at its speed minus the fire speed gain and must reach its destination again |
| EnemySystems.IgniteThenExtinguish | src/game/enemy/systems.rs:451-484 | setting an engaging enemy on fire and letting the fire finish returns it to engaging at the speed it had before catching fire |
| EnemySystems.HandleFireWaveEvent | src/game/enemy/systems.rs:446-464 | a pending fire-wave event applies the ignition rule to every enemy once (only engaging enemies catch fire), however many events are pending |
| EnemySystems.HandleOnFireState | src/game/enemy/systems.rs:466-484 | each enemy whose fire timer finished is extinguished |
| EnemySystems.TickEnemySpawnTimer | src/game/enemy/systems.rs:517-519 | the spawn timer advances by the frame time |
| EnemySystems.FireTicked | src/game/enemy/systems.rs:522-528 | only an enemy on fire advances its fire timer |
| EnemySystems.TickEnemyFireTimer | src/game/enemy/systems.rs:522-528 | every enemy's fire timer follows that rule |
| EnemySystems.ReloadTicked | src/game/enemy/systems.rs:530-541 | only an engaging shooter advances its reload timer |
| EnemySystems.TickShooterReloadingTimer | src/game/enemy/systems.rs:530-541 | every shooter's reload timer follows that rule |
| GameSystems.HandleCounterAttackEvent | src/game/systems.rs:224-232 | the first incoming counter-attack event becomes the current one |
| GameSystems.WrongPressEvents | src/game/systems.rs:250-258 | a failure is reported exactly when a button other than the expected one was pressed |
| GameSystems.CounterAttackTick | src/game/systems.rs:241-270 | pressing the expected key consumes it; success is sent exactly when the last key is pressed; failure is sent exactly when the timer ran out or a wrong button was pressed; no other event is sent |
| GameSystems.FailuresInFrame | src/game/systems.rs:241-258 | a frame's event list holds one failure for the timeout and one per wrong button pressed, and a success adds none |
| GameSystems.FailuresCounted | src/game/systems.rs:241-258 | one frame sends exactly as many failures as the timeout (one) plus the wrong buttons pressed, so up to two |
| GameSystems.MismatchFails | src/game/systems.rs:250-258 | pressing only a wrong button fails and consumes nothing |
| GameSystems.TimeoutOnLastPress | src/game/systems.rs:241-269 | pressing the last key in the frame the timer runs out sends both failure and success |
| GameSystems.Play | src/game/systems.rs:241-270 | a run of presses keeps the challenge's enemy and never adds keys |
| GameSystems.PlayConsumesFront | src/game/systems.rs:260-262 | keys are consumed from the front only: what remains is always a suffix of the original key list |
| GameSystems.PlayInOrder | src/game/systems.rs:260-269 | pressing the keys one per frame, in order, consumes them all and sends exactly one success |
| GameSystems.HandleCounterAttackState | src/game/systems.rs:234-271 | one frame of the counter-attack follows the counter-attack rule |
| GameSystems.HandleCounterAttackSucceededEvent | src/game/systems.rs:276-301 | on success, the game resumes, the timer resets, the enemy is despawned and fuel is gained; without an event nothing changes |
| GameSystems.HandleCounterAttackFailedEvent | src/game/systems.rs:307-345 | on failure, the game resumes, the timer resets, fuel changes by the loss, the enemy heals, and the player is sent to regular form and damaged |
| GameSystems.HandleGameOverEvent | src/game/systems.rs:190-204 | a pending game-over event despawns the player and enters Gameover; without an event or a player nothing changes |
| GameSystems.TickCounterAttackTimer | src/game/systems.rs:351-356 | the counter-attack timer advances by the frame time |
| Scenarios.FuelExhaustion | src/game/player/systems.rs:102-114 | a chainsaw player with 1.0 fuel, drained for 0.2 s, ends at -1.0 with no floor, and sends the regular-form event |
| Scenarios.InvulnerabilityWindow | src/game/player/mod.rs:31-37 | after a hit, the player stays Damaged for 2 s and takes no further damage, then returns to Regular with one health point lost |
| Scenarios.DamageToDeath | src/game/enemy/systems.rs:405-441 | a 10-health enemy under the chainsaw for 0.2 s per frame goes to 4, then to -2, and is despawned and uncounted on the next event |

## Behaviour as written

In these places the code does something other than what its names and
comments suggest, and the model follows the code:

- `drain_fuel` subtracts without a floor. Fuel can go negative (`Scenarios.FuelExhaustion`); every other fuel change is clamped.
- `is_boss_spawned` is never cleared. Once a boss has been spawned, spawning stops for good (`SpawnRunBlocked`, `AtMostOneBoss`).
- The chainsaw damage in `handle_enemy_take_damage_event` does not go through `change_enemy_health`. Health and speed can therefore become negative.
- Two damage events for the same dead enemy in one frame decrement `enemies_num` twice (`RepeatedDeathEventsCountTwice`). This follows from the deferred despawn.
- A successful counter-attack despawns its enemy but does not decrement `enemies_num`.
- `handle_counter_attack_state` reads `keys_to_press[0]`, so it needs a non-empty key list. That is the `requires` on `CounterAttackTick` and `HandleCounterAttackState`.
- If the last correct key is pressed in the frame the timer runs out, both a failure and a success are sent (`TimeoutOnLastPress`).
- The player limit checks the upper bound first and the enemy limit checks the lower bound first. They differ only when the window is narrower than twice the collider, so the inset bounds cross.
- Several of the modelled systems are not registered in the plugins shown: the counter-attack handlers, the fire-wave and on-fire handlers, the fire and reload timer ticks, and some player systems. This includes `gain_fuel_over_time`, `check_player_projectile_collision`, `manage_chainsaw_overheat` and `update_player_progress`. They are modelled as written.
- No modelled system sends `EnemyCounterAttackEvent`.
- The source's components and resources lack several fields and constants the systems use. Examples are the enemy archetype constants, the chainsaw heat, the spawn queue and the player progress. The model gives these fields to `Enemy`, `PlayerInfo` and `GameInfo`, and takes the missing constants from the `Tuning` record as parameters.

## Left out

- `handle_shooter_ai`: not modelled. It picks random roaming destinations and spawns projectiles through `Commands`. Only its reload-timer tick is modelled (`TickShooterReloadingTimer`).
- Rendering: not modelled. This covers sprites, textures, colour flashes (`is_green_decreasing`), the boss end screen, and logging.
- Geometry: `normalize`, `distance` and the collision test are abstract function parameters. Properties that depend on their arithmetic, such as the player actually reaching the cursor, are not stated.
- The cursor's world position is an input. The camera projection that computes it is not modelled.
- Randomness: the random draws of the spawner (type, speed factor, positions) are inputs.
- Timers: a timer is its duration and elapsed time. `just_finished` is an input, and repeating timers are not modelled. `Timer.Tick` lets the elapsed time grow past the duration, where Bevy's one-shot timer stops at it; no modelled decision reads the elapsed time.
- Events: an event lives for one frame, as a count or a list of payloads. Events that persist across frames are not modelled.
- Query iteration order: the model iterates in sequence order. Bevy leaves the order unspecified.
- Handles: they are assumed to be unique. The model never reuses one, but no invariant states this. `FindEnemy` takes the first match.
- `f32` rounding: not modelled; real arithmetic is exact.
- PlayerSystems.StepTowards: does not state that the step reaches or approaches the cursor, because the geometry is abstract.
- Pickup spawning, pickup movement, the parallax background and the camera: outside the modelled core.
