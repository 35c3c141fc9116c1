/** The events the combat systems exchange through Bevy's event channels. */
module Events {
  import opened Engine

  /** The active counter-attack challenge: its target enemy and the buttons still to press. */
  datatype CounterAttackEvent = CounterAttackEvent(enemyEntity: Entity, keysToPress: seq<MouseButton>)

  /** `EnemyCounterAttackEvent::default()`: entity 0 and no keys. */
  const DEFAULT_COUNTER_ATTACK_EVENT := CounterAttackEvent(0, [])

  /** Every event kind that a modelled system sends. */
  datatype Event =
    | PlayerTakeDamage
    | PlayerTransitionToRegularForm
    | GameOver
    | EnemyTakeDamage(enemyEntity: Entity)
    | ChainsawFireWave
    | CounterAttackFailed(enemyEntity: Entity)
    | CounterAttackSucceeded(enemyEntity: Entity)
}
