/**
 * Properties of the enemy state machine over sequences of engine events: an
 * enemy chases only after its hop has landed and the delay after it has
 * fired, and the battle hand-over ignores the enemy's actual facing.
 */
module OverworldProperties {
  import opened Common
  import opened Sight
  import opened Overworld

  /** An enemy that is not chasing starts to only through the delayed call after its hop. */
  lemma {:induction false} ChaseNeedsDelay(w: World, events: seq<Event>, eng: Engine, i: int)
    requires WorldInv(w) && 0 <= i < |w.enemies| && w.enemies[i].state != Chase
    requires Run(w, events, eng).enemies[i].state == Chase
    ensures exists k :: 0 <= k < |events| && events[k] == ChaseDelay(i)
    decreases |events|
  {
    if events == [] {
      assert false;
    }
    var next := Step(w, events[0], eng);
    assert Run(w, events, eng) == Run(next, events[1..], eng);
    if next.enemies[i].state == Chase {
      assert events[0] == ChaseDelay(i);
    } else {
      ChaseNeedsDelay(next, events[1..], eng, i);
      var k :| 0 <= k < |events[1..]| && events[1..][k] == ChaseDelay(i);
      assert events[k + 1] == ChaseDelay(i);
    }
  }

  /**
   * An enemy whose hop is still in the air chases later only if the hop lands
   * first and the delayed call fires afterwards.
   */
  lemma {:induction false} HopThenDelay(w: World, events: seq<Event>, eng: Engine, i: int)
    requires WorldInv(w) && 0 <= i < |w.enemies|
    requires w.enemies[i].state == Alert && w.enemies[i].alertStage == Hopping
    requires Run(w, events, eng).enemies[i].state == Chase
    ensures exists j, k :: 0 <= j < k < |events| && events[j] == HopDone(i) && events[k] == ChaseDelay(i)
    decreases |events|
  {
    if events == [] {
      assert false;
    }
    var next := Step(w, events[0], eng);
    assert Run(w, events, eng) == Run(next, events[1..], eng);
    if events[0] == HopDone(i) {
      assert next.enemies[i].state == Alert;
      ChaseNeedsDelay(next, events[1..], eng, i);
      var k :| 0 <= k < |events[1..]| && events[1..][k] == ChaseDelay(i);
      assert events[0] == HopDone(i) && events[k + 1] == ChaseDelay(i);
    } else {
      assert next.enemies[i].state == Alert && next.enemies[i].alertStage == Hopping;
      HopThenDelay(next, events[1..], eng, i);
      var j, k :| 0 <= j < k < |events[1..]| && events[1..][j] == HopDone(i) && events[1..][k] == ChaseDelay(i);
      assert events[j + 1] == HopDone(i) && events[k + 1] == ChaseDelay(i);
    }
  }

  /**
   * A patrolling enemy can only come to chase the player through detection,
   * the hop landing, and then the delayed call: no frame moves it from patrol
   * to chase directly.
   */
  lemma {:induction false} PatrolToChase(w: World, events: seq<Event>, eng: Engine, i: int)
    requires WorldInv(w) && 0 <= i < |w.enemies| && w.enemies[i].state == Patrol
    requires Run(w, events, eng).enemies[i].state == Chase
    ensures exists j, k :: 0 <= j < k < |events| && events[j] == HopDone(i) && events[k] == ChaseDelay(i)
    decreases |events|
  {
    if events == [] {
      assert false;
    }
    var next := Step(w, events[0], eng);
    assert Run(w, events, eng) == Run(next, events[1..], eng);
    if next.enemies[i].state == Patrol {
      PatrolToChase(next, events[1..], eng, i);
    } else {
      HopThenDelay(next, events[1..], eng, i);
    }
    var j, k :| 0 <= j < k < |events[1..]| && events[1..][j] == HopDone(i) && events[1..][k] == ChaseDelay(i);
    assert events[j + 1] == HopDone(i) && events[k + 1] == ChaseDelay(i);
  }

  /**
   * Along any run every enemy's patrol direction stays 1 or -1, however many
   * times its patrol tween reverses.
   */
  lemma DirectionStaysSign(w: World, events: seq<Event>, eng: Engine, i: int)
    requires WorldInv(w) && 0 <= i < |w.enemies|
    ensures var d := Run(w, events, eng).enemies[i].patrolDirection; d == 1 || d == -1
  {
  }

  /**
   * Whichever enemy catches the player, and whatever way it has just turned
   * to face it, the rotation handed to BattleScene is TriangleFacingLeft.
   */
  lemma HandOverIgnoresFacing(w: World, player: Point, eng: Engine, i: int)
    requires WorldInv(w) && 0 <= i < |w.enemies| && Catches(w.enemies[i], player)
    ensures Tick(w, player, eng).battleRequest == Some(TriangleFacingLeft)
    ensures BehaviourPass(w, player, eng).enemies[i].rotation == eng.angleBetween(w.enemies[i].pos, player) + HalfPi
  {
  }

  /**
   * startBattle puts the catching enemy back into patrol before the detection
   * loop of the same frame runs, so that loop tests it again and, when its
   * cone meets the player, alerts it and disables the keyboard once more.
   */
  lemma CaughtEnemyIsTestedAgain(w: World, player: Point, eng: Engine, i: int)
    requires WorldInv(w) && 0 <= i < |w.enemies| && Catches(w.enemies[i], player)
    requires Spots(Behave(w.enemies[i], player, eng), player, eng)
    ensures Tick(w, player, eng).enemies[i].state == Alert
    ensures !Tick(w, player, eng).inputEnabled
  {
    var moved := BehaviourPass(w, player, eng);
    assert Spots(moved.enemies[i], player, eng);
  }

  /** Once any enemy is alerted, the keyboard stays disabled for every later frame of the scene. */
  lemma {:induction false} KeyboardStaysDisabled(w: World, events: seq<Event>, eng: Engine)
    requires WorldInv(w) && !w.inputEnabled
    ensures !Run(w, events, eng).inputEnabled
    decreases |events|
  {
    if events != [] {
      var next := Step(w, events[0], eng);
      assert !next.inputEnabled;
      KeyboardStaysDisabled(next, events[1..], eng);
    }
  }
}
