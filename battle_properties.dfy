/**
 * Properties of the battle that relate several events: what a whole turn
 * does, that a finished battle stays finished, and that a scene re-entered
 * after a win never accepts input again.
 */
module BattleProperties {
  import opened Common
  import opened BattleRules

  const ConfirmKey := Keys(false, false, true)

  /** Running two sequences of events one after the other. */
  lemma {:induction false} RunAppend(s: Session, a: seq<Event>, b: seq<Event>)
    requires Inv(s) && AllRollsInRange(a) && AllRollsInRange(b)
    ensures AllRollsInRange(a + b)
    ensures Run(s, a + b) == Run(Run(s, a), b)
    decreases |a|
  {
    if a == [] {
      assert a + b == b;
    } else {
      assert (a + b)[1..] == a[1..] + b;
      RunAppend(Step(s, a[0]), a[1..], b);
    }
  }

  /** Up and down undo each other in a menu of any length. */
  lemma UpDownInverse(i: int, len: int)
    requires 0 <= i < len
    ensures SelectDown(SelectUp(i, len), len) == i
    ensures SelectUp(SelectDown(i, len), len) == i
  {
  }

  /** In the two-item menus, down from the last item and up from the first both wrap. */
  lemma MenuWraps()
    ensures SelectDown(1, MainMenuLength) == 0 && SelectUp(0, MainMenuLength) == 1
    ensures SelectDown(1, AttackMenuLength) == 0 && SelectUp(0, AttackMenuLength) == 1
  {
  }

  /** Confirm on Attack in the main menu opens the attack menu at Punch; health is untouched. */
  lemma ConfirmOpensAttackMenu(s: Session, punch: int, roll: int)
    requires Inv(s) && s.canSelect && s.menu == MainMenu && s.index == 0
    requires PunchMin <= punch <= PunchMax && EnemyPunchMin <= roll <= EnemyPunchMax
    ensures Update(s, ConfirmKey, punch, roll) == s.(menu := AttackMenu, index := 0)
  {
  }

  /** Confirm on Back in the attack menu returns to the main menu at Attack; health is untouched. */
  lemma ConfirmBackReturnsToMain(s: Session, punch: int, roll: int)
    requires Inv(s) && s.canSelect && s.menu == AttackMenu && s.index == 1
    requires PunchMin <= punch <= PunchMax && EnemyPunchMin <= roll <= EnemyPunchMax
    ensures Update(s, ConfirmKey, punch, roll) == s.(menu := MainMenu, index := 0)
  {
  }

  /**
   * A Punch resolves through three completions: the enemy loses the damage
   * (never below zero), its readout catches up, and then either the victory
   * delay starts, without any counter-attack, or the enemy's punch does.
   */
  lemma PunchResolves(s: Session, punch: int, roll: int)
    requires Inv(s) && s.canSelect && s.menu == AttackMenu && s.index == 0
    requires PunchMin <= punch <= PunchMax && EnemyPunchMin <= roll <= EnemyPunchMax
    ensures var r := Run(s, [Press(ConfirmKey, punch, roll), Finish(roll), Finish(roll), Finish(roll)]);
            && r.enemyHealth == Hit(s.enemyHealth, punch)
            && r.enemyDisplay == r.enemyHealth
            && r.playerHealth == s.playerHealth
            && r.enemyRotation == s.enemyRotation
            && (r.enemyHealth == 0 ==> r.phase == VictoryDelay)
            && (r.enemyHealth > 0 ==> r.phase == EnemyLunge(roll))
  {
    var s1 := Update(s, ConfirmKey, punch, roll);
    var s2 := Complete(s1, roll);
    var s3 := Complete(s2, roll);
    var s4 := Complete(s3, roll);
    assert Run(s4, []) == s4;
    assert Run(s3, [Finish(roll)]) == s4;
    assert Run(s2, [Finish(roll), Finish(roll)]) == s4;
    assert Run(s1, [Finish(roll), Finish(roll), Finish(roll)]) == s4;
  }

  /**
   * The enemy's turn resolves through three completions: the player loses the
   * damage (never below zero), its readout catches up, and then either the
   * defeat delay starts or the main menu is back with selection enabled.
   */
  lemma EnemyTurnResolves(s: Session, roll: int)
    requires Inv(s) && s.phase.EnemyLunge? && EnemyPunchMin <= roll <= EnemyPunchMax
    ensures var r := Run(s, [Finish(roll), Finish(roll), Finish(roll)]);
            && r.playerHealth == Hit(s.playerHealth, s.phase.damage)
            && r.playerDisplay == r.playerHealth
            && r.enemyHealth == s.enemyHealth
            && r.enemyRotation == s.enemyRotation
            && (r.playerHealth == 0 ==> r.phase == DefeatDelay && !r.canSelect)
            && (r.playerHealth > 0 ==>
                  r.phase == Idle && r.canSelect && r.menu == MainMenu && r.index == 0)
  {
    var s1 := Complete(s, roll);
    var s2 := Complete(s1, roll);
    var s3 := Complete(s2, roll);
    assert Run(s3, []) == s3;
    assert Run(s2, [Finish(roll)]) == s3;
    assert Run(s1, [Finish(roll), Finish(roll)]) == s3;
  }

  /** Defending against a roll of 10 costs 5 health, and the defence is spent at once. */
  lemma DefendScenario(s: Session, punch: int)
    requires Inv(s) && s.canSelect && s.menu == MainMenu && s.index == 1
    requires PunchMin <= punch <= PunchMax
    ensures var r := Update(s, ConfirmKey, punch, 10);
            && !r.isDefending && r.phase == EnemyLunge(5)
            && Complete(r, 10).playerHealth == Hit(s.playerHealth, 5)
  {
  }

  /** At 10 health an undefended roll of 12 ends the battle in a loss. */
  lemma LossScenario(s: Session)
    requires Inv(s) && s.playerHealth == 10 && s.phase == EnemyLunge(12)
    ensures Run(s, [Finish(8), Finish(8), Finish(8), Finish(8)]).phase == Ended(Lost)
  {
    EnemyTurnResolves(s, 8);
    var r := Run(s, [Finish(8), Finish(8), Finish(8)]);
    RunAppend(s, [Finish(8), Finish(8), Finish(8)], [Finish(8)]);
    assert [Finish(8), Finish(8), Finish(8)] + [Finish(8)] == [Finish(8), Finish(8), Finish(8), Finish(8)];
    assert Run(r, [Finish(8)]) == Run(Complete(r, 8), []);
  }

  /** One full turn from the main menu: open the attack menu, Punch, and let every tween and timer finish. */
  function Round(punch: int, roll: int): seq<Event> {
    [Press(ConfirmKey, punch, roll), Press(ConfirmKey, punch, roll),
     Finish(roll), Finish(roll), Finish(roll), Finish(roll), Finish(roll), Finish(roll)]
  }

  /** When both combatants survive, a turn lowers both health values and returns to the main menu. */
  lemma RoundResolves(s: Session, punch: int, roll: int)
    requires Inv(s) && s.canSelect && s.menu == MainMenu && s.index == 0
    requires PunchMin <= punch <= PunchMax && EnemyPunchMin <= roll <= EnemyPunchMax
    requires s.enemyHealth > punch && s.playerHealth > roll
    ensures AllRollsInRange(Round(punch, roll))
    ensures Run(s, Round(punch, roll)) ==
            s.(enemyHealth := s.enemyHealth - punch, enemyDisplay := s.enemyHealth - punch,
               playerHealth := s.playerHealth - roll, playerDisplay := s.playerHealth - roll)
  {
    var s1 := Update(s, ConfirmKey, punch, roll);
    var tail := Round(punch, roll)[1..];
    assert Run(s, Round(punch, roll)) == Run(s1, tail);
    PunchResolves(s1, punch, roll);
    var first := [Press(ConfirmKey, punch, roll), Finish(roll), Finish(roll), Finish(roll)];
    var rest := [Finish(roll), Finish(roll), Finish(roll)];
    assert tail == first + rest;
    RunAppend(s1, first, rest);
    EnemyTurnResolves(Run(s1, first), roll);
  }

  /**
   * Three punches of 25 bring the enemy from 100 to 25, and a fourth ends the
   * battle in a win, whatever the enemy rolls in between.
   */
  lemma WinScenario(data: Option<real>, roll: int)
    requires EnemyPunchMin <= roll <= EnemyPunchMax
    ensures var knockOut := [Press(ConfirmKey, 25, roll), Press(ConfirmKey, 25, roll),
                             Finish(roll), Finish(roll), Finish(roll), Finish(roll)];
            var three := Round(25, roll) + Round(25, roll) + Round(25, roll);
            && AllRollsInRange(three + knockOut)
            && Run(Start(data), three).enemyHealth == 25
            && Run(Start(data), three + knockOut).phase == Ended(Won)
  {
    var s0 := Start(data);
    var round := Round(25, roll);
    RoundResolves(s0, 25, roll);
    var s1 := Run(s0, round);
    RoundResolves(s1, 25, roll);
    var s2 := Run(s1, round);
    RoundResolves(s2, 25, roll);
    var s3 := Run(s2, round);
    RunAppend(s0, round, round);
    RunAppend(s0, round + round, round);
    var knockOut := [Press(ConfirmKey, 25, roll), Press(ConfirmKey, 25, roll),
                     Finish(roll), Finish(roll), Finish(roll), Finish(roll)];
    RunAppend(s0, round + round + round, knockOut);
    assert Run(s0, round + round + round) == s3;
    var s4 := Update(s3, ConfirmKey, 25, roll);
    PunchResolves(s4, 25, roll);
    assert Run(s3, knockOut) == Run(s4, knockOut[1..]);
    assert knockOut[1..5] == [Press(ConfirmKey, 25, roll), Finish(roll), Finish(roll), Finish(roll)];
    var punched := Run(s4, knockOut[1..5]);
    assert knockOut[1..] == knockOut[1..5] + [Finish(roll)];
    RunAppend(s4, knockOut[1..5], [Finish(roll)]);
    assert Run(punched, [Finish(roll)]) == Run(Complete(punched, roll), []);
  }

  /** A finished battle ignores every further event. */
  lemma {:induction false} EndedIsFinal(s: Session, events: seq<Event>)
    requires Inv(s) && s.phase.Ended? && AllRollsInRange(events)
    ensures Run(s, events) == s
    decreases |events|
  {
    if events != [] {
      assert Step(s, events[0]) == s;
      EndedIsFinal(s, events[1..]);
    }
  }

  /** With selection disabled and nothing pending, no event changes anything. */
  lemma {:induction false} LockedIsFrozen(s: Session, events: seq<Event>)
    requires Inv(s) && !s.canSelect && s.phase == Idle && AllRollsInRange(events)
    ensures Run(s, events) == s
    decreases |events|
  {
    if events != [] {
      assert Step(s, events[0]) == s;
      LockedIsFrozen(s, events[1..]);
    }
  }

  /**
   * canSelect is set only by the constructor and by the enemy's turn ending
   * with the player standing. A battle won by the player ends with it false,
   * so when the scene is started again its menu never responds.
   */
  lemma FrozenAfterVictory(s: Session, data: Option<real>, events: seq<Event>)
    requires Inv(s) && s.phase == Ended(Won) && AllRollsInRange(events)
    ensures !Reenter(s, data).canSelect
    ensures Run(Reenter(s, data), events) == Reenter(s, data)
  {
    LockedIsFrozen(Reenter(s, data), events);
  }

  /** By contrast, the first entry starts with the menu responding. */
  lemma FirstEntryResponds(data: Option<real>, punch: int, roll: int)
    requires PunchMin <= punch <= PunchMax && EnemyPunchMin <= roll <= EnemyPunchMax
    ensures Update(Start(data), ConfirmKey, punch, roll).menu == AttackMenu
  {
  }

  /** A battle that has ended was won with the player standing, or lost with the enemy standing. */
  lemma OutcomeIsDecisive(s: Session)
    requires Inv(s) && s.phase.Ended?
    ensures s.phase.outcome == Won <==> s.enemyHealth == 0
    ensures s.phase.outcome == Lost <==> s.playerHealth == 0
  {
  }
}
