/** The game-level systems: the counter-attack minigame (starting a challenge,
    reading the mouse against the expected buttons, and the consequences of
    success and failure), game over, and the counter-attack timer. */
module GameSystems {
  import opened Engine
  import opened Events
  import opened Game
  import opened Components
  import opened PlayerSystems
  import opened EnemySystems

  /** `handle_counter_attack_event`: only the first pending challenge is taken. */
  method HandleCounterAttackEvent(game: GameInfo, incoming: seq<CounterAttackEvent>)
    modifies game`counterAttackEvent
    ensures incoming == [] ==> game.counterAttackEvent == old(game.counterAttackEvent)
    ensures incoming != [] ==> game.counterAttackEvent == incoming[0]
  {
    if incoming != [] {
      game.counterAttackEvent := incoming[0];
      return;
    }
  }

  /** One failure for each button of `bs`, in order, that was pressed this
      frame although it is not the expected one. */
  function WrongPressEvents(h: Entity, expected: MouseButton, pressed: set<MouseButton>, bs: seq<MouseButton>)
    : (r: seq<Event>)
    ensures forall ev :: ev in r ==> ev == CounterAttackFailed(h)
    ensures r != [] <==> exists j :: 0 <= j < |bs| && bs[j] in pressed && bs[j] != expected
  {
    if bs == [] then []
    else
      WrongPressEvents(h, expected, pressed, bs[..|bs| - 1])
      + (if bs[|bs| - 1] != expected && bs[|bs| - 1] in pressed then [CounterAttackFailed(h)] else [])
  }

  /** The two buttons in the order the system checks them: at most the one
      that is not expected can fail the challenge. */
  lemma WrongPressesOfBoth(h: Entity, expected: MouseButton, pressed: set<MouseButton>)
    ensures WrongPressEvents(h, expected, pressed, [Left, Right]) ==
      (if Left != expected && Left in pressed then [CounterAttackFailed(h)] else [])
      + (if Right != expected && Right in pressed then [CounterAttackFailed(h)] else [])
  {
    assert [Left, Right][..1] == [Left];
    assert [Left][..0] == [];
  }

  /** One frame of the challenge `c` with the timer state and the buttons
      just pressed: the new challenge and the events sent. */
  function CounterAttackTick(c: CounterAttackEvent, timerFinished: bool, pressed: set<MouseButton>)
    : (r: (CounterAttackEvent, seq<Event>))
    requires |c.keysToPress| > 0
    ensures r.0.enemyEntity == c.enemyEntity
    ensures r.0.keysToPress == if c.keysToPress[0] in pressed then c.keysToPress[1..] else c.keysToPress
    ensures CounterAttackSucceeded(c.enemyEntity) in r.1 <==> c.keysToPress[0] in pressed && |c.keysToPress| == 1
    ensures CounterAttackFailed(c.enemyEntity) in r.1 <==>
      timerFinished || exists b :: b in pressed && b != c.keysToPress[0]
    ensures forall ev :: ev in r.1 ==> ev == CounterAttackFailed(c.enemyEntity) || ev == CounterAttackSucceeded(c.enemyEntity)
  {
    var expected := c.keysToPress[0];
    var timeout := if timerFinished then [CounterAttackFailed(c.enemyEntity)] else [];
    var wrong := WrongPressEvents(c.enemyEntity, expected, pressed, [Left, Right]);
    WrongPressesOfBoth(c.enemyEntity, expected, pressed);
    var rest := if expected in pressed then c.keysToPress[1..] else c.keysToPress;
    var success := if expected in pressed && rest == [] then [CounterAttackSucceeded(c.enemyEntity)] else [];
    (c.(keysToPress := rest), timeout + wrong + success)
  }

  /** How many times `ev` occurs in `evs`. */
  function Occurrences(evs: seq<Event>, ev: Event): (r: nat)
    ensures r <= |evs|
  {
    if evs == [] then 0
    else Occurrences(evs[..|evs| - 1], ev) + (if evs[|evs| - 1] == ev then 1 else 0)
  }

  /** Occurrences in a concatenation add up. */
  lemma {:induction false} OccurrencesAppend(a: seq<Event>, b: seq<Event>, ev: Event)
    decreases |b|
    ensures Occurrences(a + b, ev) == Occurrences(a, ev) + Occurrences(b, ev)
  {
    if b == [] {
      assert a + b == a;
    } else {
      OccurrencesAppend(a, b[..|b| - 1], ev);
      assert (a + b)[..|a + b| - 1] == a + b[..|b| - 1];
    }
  }

  /** An event sent under a condition occurs once when sent and is the one counted. */
  lemma OccurrencesOptional(cond: bool, x: Event, ev: Event)
    ensures Occurrences(if cond then [x] else [], ev) == if cond && x == ev then 1 else 0
  {
    assert [x][..0] == [];
  }

  /** Failures in a frame's event list: the timeout failure, the wrong-press
      failures and a possible success, counted apart. */
  lemma FailuresInFrame(h: Entity, expected: MouseButton, timerFinished: bool, pressed: set<MouseButton>, success: seq<Event>)
    requires success == [] || success == [CounterAttackSucceeded(h)]
    ensures Occurrences((if timerFinished then [CounterAttackFailed(h)] else [])
                        + WrongPressEvents(h, expected, pressed, [Left, Right]) + success, CounterAttackFailed(h)) ==
      (if timerFinished then 1 else 0)
      + (if Left in pressed && Left != expected then 1 else 0)
      + (if Right in pressed && Right != expected then 1 else 0)
  {
    var fail := CounterAttackFailed(h);
    var timeout := if timerFinished then [fail] else [];
    var left := if Left != expected && Left in pressed then [fail] else [];
    var right := if Right != expected && Right in pressed then [fail] else [];
    WrongPressesOfBoth(h, expected, pressed);
    assert timeout + WrongPressEvents(h, expected, pressed, [Left, Right]) + success == timeout + (left + right) + success;
    var nT, nL, nR, nS := Occurrences(timeout, fail), Occurrences(left, fail), Occurrences(right, fail), Occurrences(success, fail);
    OccurrencesOptional(timerFinished, fail, fail);
    OccurrencesOptional(Left != expected && Left in pressed, fail, fail);
    OccurrencesOptional(Right != expected && Right in pressed, fail, fail);
    assert success == if success != [] then [CounterAttackSucceeded(h)] else [];
    OccurrencesOptional(success != [], CounterAttackSucceeded(h), fail);
    assert nS == 0;
    OccurrencesAppend(left, right, fail);
    OccurrencesAppend(timeout, left + right, fail);
    OccurrencesAppend(timeout + (left + right), success, fail);
    assert Occurrences(timeout + (left + right) + success, fail) == nT + nL + nR;
  }

  /** How many failures one frame sends: one for the timeout and one for each
      wrong button pressed, so up to two in a frame. */
  lemma FailuresCounted(c: CounterAttackEvent, timerFinished: bool, pressed: set<MouseButton>)
    requires |c.keysToPress| > 0
    ensures Occurrences(CounterAttackTick(c, timerFinished, pressed).1, CounterAttackFailed(c.enemyEntity)) ==
      (if timerFinished then 1 else 0)
      + (if Left in pressed && Left != c.keysToPress[0] then 1 else 0)
      + (if Right in pressed && Right != c.keysToPress[0] then 1 else 0)
  {
    var h, expected := c.enemyEntity, c.keysToPress[0];
    var rest := if expected in pressed then c.keysToPress[1..] else c.keysToPress;
    var success := if expected in pressed && rest == [] then [CounterAttackSucceeded(h)] else [];
    FailuresInFrame(h, expected, timerFinished, pressed, success);
  }

  /** A wrong button alone fails the challenge once and keeps the keys. */
  lemma MismatchFails(c: CounterAttackEvent, b: MouseButton)
    requires |c.keysToPress| > 0 && b != c.keysToPress[0]
    ensures CounterAttackTick(c, false, {b}) == (c, [CounterAttackFailed(c.enemyEntity)])
  {
    WrongPressesOfBoth(c.enemyEntity, c.keysToPress[0], {b});
    assert c.keysToPress[0] !in {b};
    var r := CounterAttackTick(c, false, {b});
    assert r.0 == c;
    assert WrongPressEvents(c.enemyEntity, c.keysToPress[0], {b}, [Left, Right]) == [CounterAttackFailed(c.enemyEntity)];
    assert r.1 == [CounterAttackFailed(c.enemyEntity)];
  }

  /** A timer that runs out on the frame of the last correct press sends both
      a failure and a success. */
  lemma TimeoutOnLastPress(c: CounterAttackEvent)
    requires |c.keysToPress| == 1
    ensures var r := CounterAttackTick(c, true, {c.keysToPress[0]});
      CounterAttackFailed(c.enemyEntity) in r.1 && CounterAttackSucceeded(c.enemyEntity) in r.1
  {
  }

  /** The challenge after pressing `presses`, one button per frame, with the
      timer never finishing, and all events sent; it ends once no keys remain. */
  function Play(c: CounterAttackEvent, presses: seq<MouseButton>): (r: (CounterAttackEvent, seq<Event>))
    decreases |presses|
    ensures r.0.enemyEntity == c.enemyEntity
    ensures |r.0.keysToPress| <= |c.keysToPress|
  {
    if presses == [] || c.keysToPress == [] then (c, [])
    else
      var r := CounterAttackTick(c, false, {presses[0]});
      var rest := Play(r.0, presses[1..]);
      (rest.0, r.1 + rest.1)
  }

  /** Keys are consumed from the front only: what remains of the challenge is
      always a suffix of the original key list. */
  lemma {:induction false} PlayConsumesFront(c: CounterAttackEvent, presses: seq<MouseButton>)
    decreases |presses|
    ensures var rest := Play(c, presses).0.keysToPress;
      rest == c.keysToPress[|c.keysToPress| - |rest|..]
  {
    if presses != [] && c.keysToPress != [] {
      var r := CounterAttackTick(c, false, {presses[0]});
      PlayConsumesFront(r.0, presses[1..]);
      var rest := Play(c, presses).0.keysToPress;
      assert rest == Play(r.0, presses[1..]).0.keysToPress;
      if c.keysToPress[0] in {presses[0]} {
        assert r.0.keysToPress == c.keysToPress[1..];
        assert c.keysToPress[1..][|r.0.keysToPress| - |rest|..] == c.keysToPress[|c.keysToPress| - |rest|..];
      }
    }
  }

  /** Pressing the expected buttons in order, before the timer finishes,
      empties the challenge and sends exactly one success and no failure. */
  lemma {:induction false} PlayInOrder(c: CounterAttackEvent)
    requires |c.keysToPress| > 0
    decreases |c.keysToPress|
    ensures Play(c, c.keysToPress) == (c.(keysToPress := []), [CounterAttackSucceeded(c.enemyEntity)])
  {
    var k := c.keysToPress[0];
    var r := CounterAttackTick(c, false, {k});
    assert r.0 == c.(keysToPress := c.keysToPress[1..]);
    WrongPressesOfBoth(c.enemyEntity, k, {k});
    if |c.keysToPress| == 1 {
      assert r.1 == [CounterAttackSucceeded(c.enemyEntity)];
      assert Play(r.0, c.keysToPress[1..]) == (r.0, []);
      assert Play(c, c.keysToPress) == (r.0, r.1 + []);
      assert c.keysToPress[1..] == [];
      assert r.0 == c.(keysToPress := []);
      assert r.1 + [] == [CounterAttackSucceeded(c.enemyEntity)];
    } else {
      assert r.1 == [];
      assert c.keysToPress[1..] == r.0.keysToPress;
      PlayInOrder(r.0);
      var rest := Play(r.0, r.0.keysToPress);
      assert Play(c, c.keysToPress) == (rest.0, r.1 + rest.1);
      assert rest.0 == c.(keysToPress := []);
      assert r.1 + rest.1 == [CounterAttackSucceeded(c.enemyEntity)];
    }
  }

  /** `handle_counter_attack_state`: the challenge must still have a key to
      press, since the system reads the first one. */
  method HandleCounterAttackState(game: GameInfo, timerFinished: bool, pressed: set<MouseButton>)
    returns (sent: seq<Event>)
    requires |game.counterAttackEvent.keysToPress| > 0
    modifies game`counterAttackEvent
    ensures (game.counterAttackEvent, sent) == CounterAttackTick(old(game.counterAttackEvent), timerFinished, pressed)
  {
    var h := game.counterAttackEvent.enemyEntity;
    var expected := game.counterAttackEvent.keysToPress[0];
    sent := [];
    if timerFinished {
      sent := sent + [CounterAttackFailed(h)];
    }
    ghost var timeout := sent;
    var buttons := [Left, Right];
    for j := 0 to |buttons|
      invariant sent == timeout + WrongPressEvents(h, expected, pressed, buttons[..j])
    {
      assert buttons[..j + 1][..j] == buttons[..j];
      if buttons[j] != expected && buttons[j] in pressed {
        sent := sent + [CounterAttackFailed(h)];
      }
    }
    assert buttons[..|buttons|] == buttons;
    ghost var c := old(game.counterAttackEvent);
    assert sent == (if timerFinished then [CounterAttackFailed(h)] else [])
                   + WrongPressEvents(h, expected, pressed, [Left, Right]);
    ghost var failures := sent;
    if expected in pressed {
      var keys := game.counterAttackEvent.keysToPress;
      game.counterAttackEvent := game.counterAttackEvent.(keysToPress := keys[1..]);
      if game.counterAttackEvent.keysToPress == [] {
        sent := sent + [CounterAttackSucceeded(h)];
      }
    }
    assert sent == failures + (if expected in pressed && c.keysToPress[1..] == [] then [CounterAttackSucceeded(h)] else []);
  }

  /** `handle_counter_attack_succeeded_event`: the first success resumes the
      game, restarts the timer, despawns the enemy and refuels the player
      through the fuel clamp. */
  method HandleCounterAttackSucceededEvent(w: World, next: NextState<GameState>, timer: TimerResource,
                                           info: PlayerInfo, hs: seq<Entity>)
    modifies w`enemies, next`pending, timer`timer, info`currentFuel
    ensures hs == [] ==>
      && w.enemies == old(w.enemies) && next.pending == old(next.pending)
      && timer.timer == old(timer.timer) && info.currentFuel == old(info.currentFuel)
    ensures hs != [] ==>
      && next.pending == Some(Running)
      && timer.timer == old(timer.timer).Reset()
      && w.enemies == Despawned(old(w.enemies), {hs[0]})
      && info.currentFuel == ChangedFuel(old(info.currentFuel), info.counterAttackFuelGain)
  {
    if hs != [] {
      var h := hs[0];
      next.pending := Some(Running);
      timer.timer := timer.timer.Reset();
      var fuelGainAmount := info.counterAttackFuelGain;
      ChangePlayerFuel(info, fuelGainAmount);
      // The despawn command takes effect after the system has run.
      w.enemies := Despawned(w.enemies, {h});
      return;
    }
  }

  /** `handle_counter_attack_failed_event`: the first failure resumes the
      game, sends the player back to regular form and damages them, restarts
      the timer, costs fuel through the fuel clamp and heals the enemy through
      the health clamp if its handle still resolves. */
  method HandleCounterAttackFailedEvent(w: World, next: NextState<GameState>, timer: TimerResource,
                                        info: PlayerInfo, hs: seq<Entity>)
    returns (sent: seq<Event>)
    modifies w`enemies, next`pending, timer`timer, info`currentFuel
    ensures hs == [] ==>
      && sent == [] && w.enemies == old(w.enemies) && next.pending == old(next.pending)
      && timer.timer == old(timer.timer) && info.currentFuel == old(info.currentFuel)
    ensures hs != [] ==>
      && next.pending == Some(Running)
      && sent == [PlayerTransitionToRegularForm, PlayerTakeDamage]
      && timer.timer == old(timer.timer).Reset()
      && info.currentFuel == ChangedFuel(old(info.currentFuel), info.counterAttackFuelLoss)
    ensures hs != [] ==>
      var found := FindEnemy(old(w.enemies), hs[0]);
      && (found.None? ==> w.enemies == old(w.enemies))
      && (found.Some? ==> w.enemies == old(w.enemies)[found.value :=
            ChangeEnemyHealth(old(w.enemies)[found.value], old(w.enemies)[found.value].counterAttackHeal)])
  {
    sent := [];
    if hs != [] {
      var h := hs[0];
      next.pending := Some(Running);
      sent := sent + [PlayerTransitionToRegularForm];
      sent := sent + [PlayerTakeDamage];
      timer.timer := timer.timer.Reset();
      var fuelLossAmount := info.counterAttackFuelLoss;
      ChangePlayerFuel(info, fuelLossAmount);
      match FindEnemy(w.enemies, h) {
        case None =>
        case Some(k) =>
          var e := w.enemies[k];
          w.enemies := w.enemies[k := ChangeEnemyHealth(e, e.counterAttackHeal)];
      }
      return;
    }
  }

  /** `handle_game_over_event`: with a player, the first event despawns it and
      ends the game; without one, nothing happens. */
  method HandleGameOverEvent(w: World, next: NextState<GameState>, pending: nat)
    modifies w`player, next`pending
    ensures pending > 0 && old(w.player).Some? ==> w.player == None && next.pending == Some(Gameover)
    ensures !(pending > 0 && old(w.player).Some?) ==> w.player == old(w.player) && next.pending == old(next.pending)
  {
    var k := 0;
    while k < pending
      invariant 0 <= k <= pending
      invariant w.player == old(w.player) && next.pending == old(next.pending)
      invariant k > 0 ==> old(w.player).None?
    {
      if w.player.Some? {
        // The despawn command takes effect after the system has run.
        w.player := None;
        next.pending := Some(Gameover);
        return;
      }
      k := k + 1;
    }
  }

  /** `tick_counter_attack_timer`. */
  method TickCounterAttackTimer(timer: TimerResource, dt: real)
    modifies timer`timer
    ensures timer.timer == old(timer.timer).Tick(dt)
  {
    timer.timer := timer.timer.Tick(dt);
  }
}
