/**
 * The MainScene object: its enemies, keyboard flag and battle hand-over are
 * updated in place by update and by the tween and timer callbacks. Every
 * method is proved to move State() as the functions in Overworld say.
 */
module MainScenes {
  import opened Common
  import opened Sight
  import opened Overworld

  class MainScene {
    var enemies: seq<Enemy>
    var inputEnabled: bool
    var battleRequest: Option<real>

    ghost function State(): World
      reads this
    {
      World(enemies, inputEnabled, battleRequest)
    }

    ghost predicate Valid()
      reads this
    {
      WorldInv(State())
    }

    /** create(): the keyboard is enabled and the three enemies are spawned. */
    constructor (coins: seq<int>)
      requires |coins| == 3 && forall k :: 0 <= k < 3 ==> 0 <= coins[k] <= 1
      ensures State() == Create(coins) && Valid()
    {
      enemies := [];
      inputEnabled := true;
      battleRequest := None;
      new;
      SpawnEnemy(Point(200.0, 150.0), TriangleFacingRight, coins[0]);
      SpawnEnemy(Point(600.0, 450.0), TriangleFacingLeft, coins[1]);
      SpawnEnemy(Point(700.0, 100.0), TriangleFacingDown, coins[2]);
    }

    /** spawnEnemy: a new patrolling enemy joins the group. */
    method SpawnEnemy(pos: Point, rotation: real, coin: int)
      requires 0 <= coin <= 1
      modifies this
      ensures enemies == old(enemies) + [Spawn(pos, rotation, coin)]
      ensures inputEnabled == old(inputEnabled) && battleRequest == old(battleRequest)
    {
      var direction := if coin != 0 then 1 else -1;
      enemies := enemies + [Enemy(pos, rotation, Patrol, direction, None, NotAlerted)];
    }

    /** onPlayerDetected: a patrolling enemy turns alert and the player is frozen. */
    method OnPlayerDetected(i: int)
      requires 0 <= i < |enemies|
      modifies this
      ensures enemies == old(enemies)[i := Overworld.OnPlayerDetected(old(enemies)[i])]
      ensures inputEnabled == (old(inputEnabled) && old(enemies)[i].state != Patrol)
      ensures battleRequest == old(battleRequest)
    {
      var enemy := enemies[i];
      if enemy.state == Patrol {
        enemy := enemy.(state := Alert);
        if enemy.patrolTween.Some? {
          enemy := enemy.(patrolTween := None);
        }
        enemies := enemies[i := enemy];
        inputEnabled := false;
        AlertEnemy(i);
      }
    }

    /** alertEnemy: the hop starts; the chase follows from its callbacks. */
    method AlertEnemy(i: int)
      requires 0 <= i < |enemies|
      modifies this
      ensures enemies == old(enemies)[i := Overworld.AlertEnemy(old(enemies)[i])]
      ensures inputEnabled == old(inputEnabled) && battleRequest == old(battleRequest)
    {
      enemies := enemies[i := enemies[i].(alertStage := Hopping)];
    }

    /** startBattle: the enemy stops, returns to patrol, and BattleScene is requested. */
    method StartBattle(i: int)
      requires 0 <= i < |enemies|
      modifies this
      ensures enemies == old(enemies)[i := Overworld.StartBattle(old(enemies)[i])]
      ensures inputEnabled == old(inputEnabled)
      ensures battleRequest == Some(TriangleFacingLeft)
    {
      var enemy := enemies[i];
      if enemy.patrolTween.Some? {
        enemy := enemy.(patrolTween := None);
      }
      enemies := enemies[i := enemy.(state := Patrol)];
      // The rotation passed on is a constant, not the enemy's own.
      battleRequest := Some(TriangleFacingLeft);
    }

    /** The patrol tween's onYoyo callback for enemy i. */
    method PatrolYoyo(i: int)
      requires 0 <= i < |enemies| && enemies[i].patrolTween.Some?
      requires Valid()
      modifies this
      ensures enemies == old(enemies)[i := ReversePatrol(old(enemies)[i])]
      ensures inputEnabled == old(inputEnabled) && battleRequest == old(battleRequest)
      ensures Valid()
    {
      enemies := enemies[i := enemies[i].(patrolDirection := -enemies[i].patrolDirection)];
    }

    /** The hop tween's onComplete for enemy i: the 500 ms delay is scheduled. */
    method HopDone(i: int)
      requires 0 <= i < |enemies| && enemies[i].alertStage == Hopping
      requires Valid()
      modifies this
      ensures enemies == old(enemies)[i := HopLanded(old(enemies)[i])]
      ensures inputEnabled == old(inputEnabled) && battleRequest == old(battleRequest)
      ensures Valid()
    {
      enemies := enemies[i := enemies[i].(alertStage := Waiting)];
    }

    /** The delayed call after the hop for enemy i: the chase begins. */
    method ChaseDelay(i: int)
      requires 0 <= i < |enemies| && enemies[i].alertStage == Waiting
      requires Valid()
      modifies this
      ensures enemies == old(enemies)[i := ChaseDelayElapsed(old(enemies)[i])]
      ensures inputEnabled == old(inputEnabled) && battleRequest == old(battleRequest)
      ensures Valid()
    {
      enemies := enemies[i := enemies[i].(state := Chase, alertStage := NotAlerted)];
    }

    /**
     * update(): the behaviour loop over every enemy, then the detection loop
     * over every enemy that is patrolling at that point.
     */
    method Update(player: Point, eng: Engine)
      requires Valid()
      modifies this
      ensures State() == Tick(old(State()), player, eng)
      ensures Valid()
    {
      BehaviourLoop(player, eng);
      DetectionLoop(player, eng);
    }

    /** The first forEach of update: dispatch on each enemy's state. */
    method BehaviourLoop(player: Point, eng: Engine)
      modifies this
      ensures State() == BehaviourPass(old(State()), player, eng)
    {
      var i := 0;
      while i < |enemies|
        invariant 0 <= i <= |enemies| == |old(enemies)|
        invariant forall j :: 0 <= j < i ==> enemies[j] == Behave(old(enemies)[j], player, eng)
        invariant forall j :: i <= j < |enemies| ==> enemies[j] == old(enemies)[j]
        invariant inputEnabled == old(inputEnabled)
        invariant battleRequest ==
                    if SomeoneCatches(old(enemies)[..i], player) then Some(TriangleFacingLeft)
                    else old(battleRequest)
      {
        var enemy := enemies[i];
        match enemy.state {
          case Patrol =>
            if enemy.patrolTween.None? {
              var target := enemy.pos.x + PatrolDistance * enemy.patrolDirection as real;
              enemies := enemies[i := enemy.(patrolTween := Some(Oscillation(enemy.pos.x, target)))];
            }
          case Chase =>
            enemies := enemies[i := enemy.(rotation := eng.angleBetween(enemy.pos, player) + HalfPi)];
            if WithinCatchDistance(enemies[i], player) {
              StartBattle(i);
            }
          case Alert =>
        }
        assert old(enemies)[..i + 1] == old(enemies)[..i] + [old(enemies)[i]];
        i := i + 1;
      }
      assert old(enemies)[..i] == old(enemies);
    }

    /** The second forEach of update: the detection test for each patrolling enemy. */
    method DetectionLoop(player: Point, eng: Engine)
      modifies this
      ensures State() == DetectionPass(old(State()), player, eng)
    {
      var i := 0;
      while i < |enemies|
        invariant 0 <= i <= |enemies| == |old(enemies)|
        invariant forall j :: 0 <= j < i ==>
                    enemies[j] == if Spots(old(enemies)[j], player, eng)
                                  then Overworld.OnPlayerDetected(old(enemies)[j])
                                  else old(enemies)[j]
        invariant forall j :: i <= j < |enemies| ==> enemies[j] == old(enemies)[j]
        invariant inputEnabled == (old(inputEnabled) && !SomeoneSpots(old(enemies)[..i], player, eng))
        invariant battleRequest == old(battleRequest)
      {
        var enemy := enemies[i];
        if enemy.state == Patrol {
          var sightPolygon := ConeOf(enemy, eng);
          var detected := DetectPlayer(eng, sightPolygon, Circle(player, PlayerRadius));
          if detected {
            OnPlayerDetected(i);
          }
        }
        assert old(enemies)[..i + 1] == old(enemies)[..i] + [old(enemies)[i]];
        i := i + 1;
      }
      assert old(enemies)[..i] == old(enemies);
    }
  }
}
