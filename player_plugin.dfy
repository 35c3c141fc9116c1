/** The player plugin: the player's state machine, its constants, and the table
    that says in which states each player system runs. */
module PlayerPlugin {
  import opened Game

  const PLAYER_MAX_HEALTH: nat := 5
  const PLAYER_FUEL_CAPACITY: real := 100.0
  const PLAYER_TAKE_DAMAGE_INVULNERABILITY_PERIOD: real := 2.0
  const PLAYER_DAMAGE: nat := 1
  const PLAYER_DAMAGE_SPEED: real := 30.0

  /** The player's mode; `Regular` is the default. */
  datatype PlayerState = Regular | Damaged | Chainsaw

  const DEFAULT_PLAYER_STATE: PlayerState := Regular

  /** The systems the player plugin registers. */
  datatype PlayerSystem =
    | MovePlayer
    | LimitPlayerMovement
    | CheckPlayerPickupCollision
    | TransitionToPlayerChainsawState
    | TransitionToPlayerRegularState
    | DrainFuel
    | CheckPlayerEnemyCollision
    | HandlePlayerTakeDamageEvent
    | PlayerTakeDamageInvulnerability
    | TickDamageInvulnerabilityTimer

  /** The `run_if` conditions: whether `sys` runs in a frame with game state `g`
      and player state `s`. */
  predicate RunsIn(sys: PlayerSystem, g: GameState, s: PlayerState): (r: bool)
    ensures r ==> g == Running
    ensures sys == MovePlayer || sys == LimitPlayerMovement || sys == CheckPlayerPickupCollision ==> (r <==> g == Running)
  {
    g == Running &&
    match sys
    case TransitionToPlayerChainsawState => s == Regular
    case TransitionToPlayerRegularState => s == Chainsaw
    case DrainFuel => s == Chainsaw
    case CheckPlayerEnemyCollision => s != Damaged
    case HandlePlayerTakeDamageEvent => s == Regular
    case PlayerTakeDamageInvulnerability => s == Damaged
    case TickDamageInvulnerabilityTimer => s == Damaged
    case _ => true
  }

  /** The only ordering constraint: position limiting runs after movement. */
  predicate RunsAfter(later: PlayerSystem, earlier: PlayerSystem) {
    later == LimitPlayerMovement && earlier == MovePlayer
  }

  /** The systems that run in a frame, listed state by state. */
  function Schedule(g: GameState, s: PlayerState): (r: set<PlayerSystem>)
    ensures forall sys :: sys in r <==> RunsIn(sys, g, s)
  {
    if g != Running then {}
    else
      var always := {MovePlayer, LimitPlayerMovement, CheckPlayerPickupCollision};
      match s
      case Regular =>
        always + {TransitionToPlayerChainsawState, CheckPlayerEnemyCollision, HandlePlayerTakeDamageEvent}
      case Damaged =>
        always + {PlayerTakeDamageInvulnerability, TickDamageInvulnerabilityTimer}
      case Chainsaw =>
        always + {TransitionToPlayerRegularState, DrainFuel, CheckPlayerEnemyCollision}
  }

  /** Exactly one of the three damage-related behaviours is active in each state:
      taking damage (Regular), waiting out invulnerability (Damaged) or the chainsaw (Chainsaw). */
  lemma DamagePathsExclusive(s: PlayerState)
    ensures RunsIn(HandlePlayerTakeDamageEvent, Running, s) <==> s == Regular
    ensures RunsIn(TickDamageInvulnerabilityTimer, Running, s) <==> s == Damaged
    ensures RunsIn(PlayerTakeDamageInvulnerability, Running, s) <==> s == Damaged
    ensures RunsIn(DrainFuel, Running, s) <==> s == Chainsaw
    ensures RunsIn(TransitionToPlayerChainsawState, Running, s) <==> s == Regular
    ensures RunsIn(CheckPlayerEnemyCollision, Running, s) <==> s != Damaged
  {
  }

  /** The one ordering edge is satisfiable in every frame: whenever the later
      system is scheduled, the system it must follow is scheduled too, and no
      system is ordered after itself. */
  lemma OrderingSatisfiable(g: GameState, s: PlayerState)
    ensures RunsAfter(LimitPlayerMovement, MovePlayer)
    ensures forall later, earlier :: RunsAfter(later, earlier) && later in Schedule(g, s) ==> earlier in Schedule(g, s)
    ensures forall sys :: !RunsAfter(sys, sys)
  {
  }
}
