/**
 * The enemy behaviour state machine of src/scenes/MainScene.js, stated on
 * values: spawning, the per-frame dispatch on each enemy's state, the
 * detection pass over patrolling enemies, and the tween and timer callbacks
 * (patrol reversal, the alert hop, the delay before the chase). The class in
 * main_scene.dfy is proved against these functions.
 */
module Overworld {
  import opened Common
  import opened Sight

  /** Rotations of the spawned enemies: -PI / 2, PI / 2 and PI, as doubles. */
  const TriangleFacingLeft: real := -1.5707963267948966
  const TriangleFacingRight: real := 1.5707963267948966
  const TriangleFacingDown: real := 3.141592653589793
  /** Math.PI / 2, added to the angle towards the player so the cone faces it. */
  const HalfPi: real := 1.5707963267948966

  const PatrolDistance: real := 100.0
  const ChaseCatchDistance: real := 35.0
  const PlayerRadius: real := 20.0

  /** The value of an enemy's "state" data entry. */
  datatype Behaviour = Patrol | Alert | Chase

  /**
   * The alert sequence's pending callbacks: the hop tween, then the 500 ms
   * delayed call that starts the chase.
   */
  datatype AlertStage = NotAlerted | Hopping | Waiting

  /** A running patrol tween: x oscillates between fromX and toX. */
  datatype Oscillation = Oscillation(fromX: real, toX: real)

  datatype Enemy = Enemy(
    pos: Point,
    rotation: real,
    state: Behaviour,
    patrolDirection: int,
    patrolTween: Option<Oscillation>,
    alertStage: AlertStage)

  /**
   * The part of the scene the behaviour logic writes: the enemies, whether
   * the keyboard is enabled, and the data handed to scene.start("BattleScene")
   * once it has been called.
   */
  datatype World = World(enemies: seq<Enemy>, inputEnabled: bool, battleRequest: Option<real>)

  /**
   * What holds of every enemy between engine events: the direction is a sign,
   * only a patrolling enemy has a patrol tween, and an enemy has an alert
   * sequence pending exactly when it is alert.
   */
  predicate Consistent(e: Enemy) {
    && (e.patrolDirection == 1 || e.patrolDirection == -1)
    && (e.patrolTween.Some? ==> e.state == Patrol)
    && (e.state == Alert <==> e.alertStage != NotAlerted)
  }

  predicate WorldInv(w: World) {
    forall i :: 0 <= i < |w.enemies| ==> Consistent(w.enemies[i])
  }

  /** spawnEnemy: coin is the result of Phaser.Math.Between(0, 1). */
  function Spawn(pos: Point, rotation: real, coin: int): (e: Enemy)
    requires 0 <= coin <= 1
    ensures Consistent(e)
    ensures e.state == Patrol && e.patrolTween == None && e.alertStage == NotAlerted
    ensures e.pos == pos && e.rotation == rotation
    ensures e.patrolDirection == 1 <==> coin == 1
  {
    Enemy(pos, rotation, Patrol, if coin != 0 then 1 else -1, None, NotAlerted)
  }

  /** create(): three enemies at fixed poses, and the keyboard enabled. */
  function Create(coins: seq<int>): (w: World)
    requires |coins| == 3 && forall k :: 0 <= k < 3 ==> 0 <= coins[k] <= 1
    ensures WorldInv(w) && w.inputEnabled && w.battleRequest == None
    ensures |w.enemies| == 3
    ensures forall i :: 0 <= i < 3 ==> w.enemies[i].state == Patrol && w.enemies[i].patrolTween == None
  {
    World([Spawn(Point(200.0, 150.0), TriangleFacingRight, coins[0]),
           Spawn(Point(600.0, 450.0), TriangleFacingLeft, coins[1]),
           Spawn(Point(700.0, 100.0), TriangleFacingDown, coins[2])],
          true, None)
  }

  /**
   * alertEnemy: starts the hop (and the bubble animations, which are drawing
   * only); the behaviour state itself is left to the hop's callbacks.
   */
  function AlertEnemy(e: Enemy): (r: Enemy)
    ensures r.state == e.state && r.alertStage == Hopping
    ensures r.pos == e.pos && r.rotation == e.rotation && r.patrolTween == e.patrolTween
  {
    e.(alertStage := Hopping)
  }

  /**
   * onPlayerDetected for one enemy: only a patrolling enemy reacts, by turning
   * alert, losing its patrol tween and starting the alert sequence.
   */
  function OnPlayerDetected(e: Enemy): (r: Enemy)
    ensures e.state == Patrol ==>
              r.state == Alert && r.patrolTween == None && r.alertStage == Hopping &&
              r.pos == e.pos && r.rotation == e.rotation && r.patrolDirection == e.patrolDirection
    ensures e.state != Patrol ==> r == e
    ensures Consistent(e) ==> Consistent(r)
  {
    if e.state == Patrol then AlertEnemy(e.(state := Alert, patrolTween := None)) else e
  }

  /** The hop tween completes: the 500 ms delay towards the chase begins. */
  function HopLanded(e: Enemy): (r: Enemy)
    requires e.alertStage == Hopping
    ensures r.alertStage == Waiting && r.state == e.state
    ensures Consistent(e) ==> Consistent(r)
  {
    e.(alertStage := Waiting)
  }

  /** The delayed call after the hop: the enemy starts chasing. */
  function ChaseDelayElapsed(e: Enemy): (r: Enemy)
    requires e.alertStage == Waiting
    ensures r.state == Chase && r.alertStage == NotAlerted
    ensures Consistent(e) ==> Consistent(r)
  {
    e.(state := Chase, alertStage := NotAlerted)
  }

  /** The patrol tween's onYoyo: the patrol direction is reversed. */
  function ReversePatrol(e: Enemy): (r: Enemy)
    requires e.patrolTween.Some?
    ensures r.patrolDirection == -e.patrolDirection
    ensures r == e.(patrolDirection := r.patrolDirection)
    ensures Consistent(e) ==> Consistent(r)
  {
    e.(patrolDirection := -e.patrolDirection)
  }

  /**
   * startBattle for one enemy: its movement stops and it is put back into
   * patrol, without a patrol tween.
   */
  function StartBattle(e: Enemy): (r: Enemy)
    ensures r.state == Patrol && r.patrolTween == None
    ensures r.pos == e.pos && r.rotation == e.rotation && r.patrolDirection == e.patrolDirection
    ensures Consistent(e) && e.state != Alert ==> Consistent(r)
  {
    e.(patrolTween := None, state := Patrol)
  }

  /**
   * Phaser.Math.Distance.Between(enemy, player) < 35, compared on squares:
   * the square root is increasing, so the two tests agree.
   */
  predicate WithinCatchDistance(e: Enemy, player: Point) {
    SquaredDistance(e.pos, player) < ChaseCatchDistance * ChaseCatchDistance
  }

  /** A chasing enemy close enough to start the battle this frame. */
  predicate Catches(e: Enemy, player: Point) {
    e.state == Chase && WithinCatchDistance(e, player)
  }

  /**
   * The first loop of update for one enemy. A patroller gets a patrol tween if
   * it has none, towards 100 units along its direction; a chaser turns to face
   * the player and, within the catch distance, is reset by startBattle; an
   * alert enemy is left alone.
   */
  function Behave(e: Enemy, player: Point, eng: Engine): (r: Enemy)
    ensures e.state == Patrol && e.patrolTween.Some? ==> r == e
    ensures e.state == Patrol && e.patrolTween.None? ==>
              r == e.(patrolTween := Some(Oscillation(e.pos.x, e.pos.x + PatrolDistance * e.patrolDirection as real)))
    ensures e.state == Alert ==> r == e
    ensures e.state == Chase ==>
              r.pos == e.pos && r.rotation == eng.angleBetween(e.pos, player) + HalfPi &&
              (r.state == Patrol <==> Catches(e, player)) && (r.state == Chase <==> !Catches(e, player))
    ensures e.state == Chase ==> r.patrolDirection == e.patrolDirection && r.alertStage == e.alertStage
    ensures e.state == Chase && Catches(e, player) ==> r.patrolTween == None
    ensures Consistent(e) ==> Consistent(r)
  {
    match e.state
    case Patrol =>
      if e.patrolTween.None? then
        e.(patrolTween := Some(Oscillation(e.pos.x, e.pos.x + PatrolDistance * e.patrolDirection as real)))
      else e
    case Chase =>
      var facing := e.(rotation := eng.angleBetween(e.pos, player) + HalfPi);
      if WithinCatchDistance(facing, player) then StartBattle(facing) else facing
    case Alert => e
  }

  /** getSightConePolygon for an enemy, with the engine's cosine and sine of its rotation. */
  function ConeOf(e: Enemy, eng: Engine): (poly: seq<Point>)
    ensures |poly| == 3 && poly[0] == e.pos
  {
    SightConePolygon(e.pos, eng.cos(e.rotation), eng.sin(e.rotation))
  }

  /** A patrolling enemy whose cone meets the player's body, a circle of radius 20. */
  predicate Spots(e: Enemy, player: Point, eng: Engine) {
    e.state == Patrol && Detects(eng, ConeOf(e, eng), Circle(player, PlayerRadius))
  }

  predicate SomeoneCatches(es: seq<Enemy>, player: Point) {
    exists i :: 0 <= i < |es| && Catches(es[i], player)
  }

  predicate SomeoneSpots(es: seq<Enemy>, player: Point, eng: Engine) {
    exists i :: 0 <= i < |es| && Spots(es[i], player, eng)
  }

  /**
   * The first loop of update over all enemies. Every enemy that catches the
   * player calls startBattle, which always hands over TriangleFacingLeft.
   */
  function BehaviourPass(w: World, player: Point, eng: Engine): (r: World)
    ensures |r.enemies| == |w.enemies|
    ensures forall i :: 0 <= i < |w.enemies| ==> r.enemies[i] == Behave(w.enemies[i], player, eng)
    ensures r.inputEnabled == w.inputEnabled
    ensures r.battleRequest ==
              if SomeoneCatches(w.enemies, player) then Some(TriangleFacingLeft) else w.battleRequest
    ensures WorldInv(w) ==> WorldInv(r)
  {
    World(seq(|w.enemies|, i requires 0 <= i < |w.enemies| => Behave(w.enemies[i], player, eng)),
          w.inputEnabled,
          if SomeoneCatches(w.enemies, player) then Some(TriangleFacingLeft) else w.battleRequest)
  }

  /**
   * The second loop of update: each patrolling enemy whose cone meets the
   * player is alerted and the keyboard is disabled; no other enemy changes.
   */
  function DetectionPass(w: World, player: Point, eng: Engine): (r: World)
    ensures |r.enemies| == |w.enemies|
    ensures forall i :: 0 <= i < |w.enemies| && !Spots(w.enemies[i], player, eng) ==>
              r.enemies[i] == w.enemies[i]
    ensures forall i :: 0 <= i < |w.enemies| && Spots(w.enemies[i], player, eng) ==>
              r.enemies[i] == OnPlayerDetected(w.enemies[i])
    ensures r.inputEnabled == (w.inputEnabled && !SomeoneSpots(w.enemies, player, eng))
    ensures r.battleRequest == w.battleRequest
    ensures WorldInv(w) ==> WorldInv(r)
  {
    World(seq(|w.enemies|, i requires 0 <= i < |w.enemies| =>
                if Spots(w.enemies[i], player, eng) then OnPlayerDetected(w.enemies[i])
                else w.enemies[i]),
          w.inputEnabled && !SomeoneSpots(w.enemies, player, eng),
          w.battleRequest)
  }

  /**
   * One call of update, given where the player is. An alert enemy is left
   * untouched, no enemy starts chasing, a patroller turns alert exactly when
   * it spots the player, and a battle is requested exactly when a chaser
   * catches the player.
   */
  function Tick(w: World, player: Point, eng: Engine): (r: World)
    requires WorldInv(w)
    ensures WorldInv(r)
    ensures |r.enemies| == |w.enemies|
    ensures forall i :: 0 <= i < |w.enemies| && w.enemies[i].state == Alert ==>
              r.enemies[i] == w.enemies[i]
    ensures forall i :: 0 <= i < |w.enemies| && r.enemies[i].state == Chase ==>
              w.enemies[i].state == Chase
    ensures forall i :: 0 <= i < |w.enemies| && w.enemies[i].state == Patrol ==>
              (r.enemies[i].state == Alert <==> Spots(w.enemies[i], player, eng)) &&
              (r.enemies[i].state == Alert ==> r.enemies[i].alertStage == Hopping)
    ensures r.battleRequest ==
              if SomeoneCatches(w.enemies, player) then Some(TriangleFacingLeft) else w.battleRequest
    ensures r.inputEnabled ==> w.inputEnabled
  {
    var moved := BehaviourPass(w, player, eng);
    var r := DetectionPass(moved, player, eng);
    assert forall i :: 0 <= i < |w.enemies| && w.enemies[i].state == Patrol ==>
             Spots(moved.enemies[i], player, eng) == Spots(w.enemies[i], player, eng);
    r
  }

  /** One engine event in the overworld. */
  datatype Event =
    | Frame(player: Point)          // update() runs with the player at this position
    | PatrolYoyo(index: int)        // a patrol tween reaches an end of its oscillation
    | HopDone(index: int)           // an alert hop tween completes
    | ChaseDelay(index: int)        // the 500 ms delayed call after a hop fires
    | Moved(index: int, pos: Point) // tweens or physics moved an enemy

  /** The effect of an event; a callback that is not pending cannot fire and changes nothing. */
  function Step(w: World, ev: Event, eng: Engine): (r: World)
    requires WorldInv(w)
    ensures WorldInv(r)
    ensures |r.enemies| == |w.enemies|
    ensures forall i :: 0 <= i < |w.enemies| && w.enemies[i].state != Chase && r.enemies[i].state == Chase ==>
              ev == ChaseDelay(i)
    ensures forall i :: 0 <= i < |w.enemies| && w.enemies[i].state == Alert && ev != HopDone(i) && ev != ChaseDelay(i) ==>
              r.enemies[i].state == Alert && r.enemies[i].alertStage == w.enemies[i].alertStage
    ensures forall i :: 0 <= i < |w.enemies| && w.enemies[i].state == Patrol && r.enemies[i].state != Patrol ==>
              r.enemies[i].state == Alert && r.enemies[i].alertStage == Hopping
  {
    var es := w.enemies;
    match ev
    case Frame(player) => Tick(w, player, eng)
    case PatrolYoyo(i) =>
      if 0 <= i < |es| && es[i].patrolTween.Some? then w.(enemies := es[i := ReversePatrol(es[i])]) else w
    case HopDone(i) =>
      if 0 <= i < |es| && es[i].alertStage == Hopping then w.(enemies := es[i := HopLanded(es[i])]) else w
    case ChaseDelay(i) =>
      if 0 <= i < |es| && es[i].alertStage == Waiting then w.(enemies := es[i := ChaseDelayElapsed(es[i])]) else w
    case Moved(i, pos) =>
      if 0 <= i < |es| then w.(enemies := es[i := es[i].(pos := pos)]) else w
  }

  /** The world after a sequence of events. */
  function Run(w: World, events: seq<Event>, eng: Engine): (r: World)
    requires WorldInv(w)
    ensures WorldInv(r)
    ensures |r.enemies| == |w.enemies|
    decreases |events|
  {
    if events == [] then w else Run(Step(w, events[0], eng), events[1..], eng)
  }
}
