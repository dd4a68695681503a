/**
 * The rules of the turn-based battle in src/scenes/BattleScene.js, stated on
 * values: the two-level menu, the integer health bookkeeping, and the chain of
 * tween and timer callbacks that resolves one turn, made explicit as a Phase.
 * The class in battle_scene.dfy is proved against these functions.
 */
module BattleRules {
  import opened Common

  const StartingHealth := 100
  const MainMenuLength := 2    // Attack, Defend
  const AttackMenuLength := 2  // Punch, Back
  const PunchMin := 15
  const PunchMax := 25
  const EnemyPunchMin := 8
  const EnemyPunchMax := 12

  /** The scene's menuState: "main" or "attack". */
  datatype Menu = MainMenu | AttackMenu

  /** Where a finished battle hands control: MainScene on a win, GameOverScene on a loss. */
  datatype Outcome = Won | Lost

  /**
   * What the scene is waiting for. Every constructor other than Idle and Ended
   * stands for one pending tween or delayed call; its completion is Complete.
   */
  datatype Phase =
    | Idle                       // nothing pending
    | PlayerLunge(damage: int)   // the player's punch tween, damage already rolled
    | EnemyFlash                 // the enemy's hit flash
    | EnemyCountdown             // the enemy health readout counter
    | VictoryDelay               // the 1000 ms delay before MainScene starts
    | EnemyLunge(damage: int)    // the enemy's punch tween, damage already rolled
    | PlayerFlash                // the player's hit flash
    | PlayerCountdown            // the player health readout counter
    | DefeatDelay                // the 1000 ms delay before GameOverScene starts
    | Ended(outcome: Outcome)    // scene.start has been called

  /**
   * The keys whose JustDown is reported this frame; confirm is space or enter.
   * JustDown stays set until read, so a key held while input is gated fires
   * on the first frame it is read.
   */
  datatype Keys = Keys(up: bool, down: bool, confirm: bool)

  /** The scene fields the battle logic reads and writes. */
  datatype Session = Session(
    canSelect: bool,
    menu: Menu,
    index: int,
    playerHealth: int,
    enemyHealth: int,
    playerDisplay: int,
    enemyDisplay: int,
    isDefending: bool,
    enemyRotation: real,
    phase: Phase)

  /** The health readouts are only behind the true values while their flash or counter runs. */
  predicate EnemyReadoutPending(p: Phase) {
    p == EnemyFlash || p == EnemyCountdown
  }

  predicate PlayerReadoutPending(p: Phase) {
    p == PlayerFlash || p == PlayerCountdown
  }

  /** Phases in which the player is certainly still standing. */
  predicate PlayerStanding(p: Phase) {
    p.Idle? || p.PlayerLunge? || p == EnemyFlash || p == EnemyCountdown || p == VictoryDelay
    || p == Ended(Won) || p.EnemyLunge?
  }

  /** Phases in which the enemy is certainly still standing. */
  predicate EnemyStanding(p: Phase) {
    p.Idle? || p.PlayerLunge? || p.EnemyLunge? || p == PlayerFlash || p == PlayerCountdown
    || p == DefeatDelay || p == Ended(Lost)
  }

  /** What holds of the scene between any two engine events. */
  predicate Inv(s: Session) {
    && 0 <= s.playerHealth <= StartingHealth
    && 0 <= s.enemyHealth <= StartingHealth
    && 0 <= s.index < MenuLength(s.menu)
    && !s.isDefending
    && (s.canSelect ==> s.phase == Idle)
    && (!EnemyReadoutPending(s.phase) ==> s.enemyDisplay == s.enemyHealth)
    && (!PlayerReadoutPending(s.phase) ==> s.playerDisplay == s.playerHealth)
    && (s.phase.PlayerLunge? ==> PunchMin <= s.phase.damage <= PunchMax)
    && (s.phase.EnemyLunge? ==> EnemyPunchMin / 2 <= s.phase.damage <= EnemyPunchMax)
    && (s.phase == VictoryDelay || s.phase == Ended(Won) ==> s.enemyHealth == 0)
    && (s.phase == DefeatDelay || s.phase == Ended(Lost) ==> s.playerHealth == 0)
    && (PlayerStanding(s.phase) ==> s.playerHealth > 0)
    && (EnemyStanding(s.phase) ==> s.enemyHealth > 0)
  }

  /** `data.enemyRotation || 0`: the rotation handed over by MainScene, or 0 without one. */
  function RotationOf(data: Option<real>): (r: real)
    ensures data.None? ==> r == 0.0
    ensures data.Some? ==> r == data.value
  {
    match data
    case None => 0.0
    case Some(rotation) => if rotation != 0.0 then rotation else 0.0
  }

  /**
   * The state after the scene's constructor and its first create: both
   * combatants at full health, the main menu open and selection enabled.
   */
  function Start(data: Option<real>): (s: Session)
    ensures Inv(s) && s.canSelect && s.menu == MainMenu && s.index == 0
    ensures s.playerHealth == StartingHealth && s.enemyHealth == StartingHealth
  {
    Session(true, MainMenu, 0, StartingHealth, StartingHealth, StartingHealth, StartingHealth,
            false, RotationOf(data), Idle)
  }

  /**
   * A later create on the same scene object. Health, readouts, menu and index
   * are reset and the old scene's tweens are gone, but canSelect and
   * isDefending keep whatever value the previous battle left them with.
   */
  function Reenter(s: Session, data: Option<real>): (r: Session)
    ensures Inv(s) ==> Inv(r)
    ensures r.canSelect == s.canSelect && r.phase == Idle
    ensures r.playerHealth == StartingHealth && r.enemyHealth == StartingHealth
    ensures r.menu == MainMenu && r.index == 0
  {
    s.(menu := MainMenu, playerHealth := StartingHealth, enemyHealth := StartingHealth,
       playerDisplay := StartingHealth, enemyDisplay := StartingHealth, index := 0,
       enemyRotation := RotationOf(data), phase := Idle)
  }

  /** Number of items in the open menu. */
  function MenuLength(m: Menu): (n: int)
    ensures n == 2
  {
    match m
    case MainMenu => MainMenuLength
    case AttackMenu => AttackMenuLength
  }

  /** Selection moved up one item, wrapping from the first item to the last. */
  function SelectUp(i: int, len: int): (r: int)
    requires 0 <= i < len
    ensures 0 <= r < len
    ensures r == if i == 0 then len - 1 else i - 1
  {
    (i - 1 + len) % len
  }

  /** Selection moved down one item, wrapping from the last item to the first. */
  function SelectDown(i: int, len: int): (r: int)
    requires 0 <= i < len
    ensures 0 <= r < len
    ensures r == if i == len - 1 then 0 else i + 1
  {
    (i + 1) % len
  }

  /** Health after a hit: the damage is subtracted and a negative result raised to zero. */
  function Hit(health: int, damage: int): (r: int)
    requires 0 <= health && 0 <= damage
    ensures 0 <= r <= health
    ensures r == 0 <==> health <= damage
    ensures r != 0 ==> r == health - damage
  {
    var h := health - damage;
    if h < 0 then 0 else h
  }

  /** The damage an enemy roll deals: halved with floor when the player defends. */
  function EnemyDamage(roll: int, defending: bool): (d: int)
    requires EnemyPunchMin <= roll <= EnemyPunchMax
    ensures !defending ==> d == roll
    ensures defending ==> 2 * d <= roll < 2 * d + 2
    ensures EnemyPunchMin / 2 <= d <= EnemyPunchMax
  {
    if defending then roll / 2 else roll
  }

  /** attack(): selection is disabled and the player's punch starts with its rolled damage. */
  function Attack(s: Session, damage: int): (r: Session)
    requires PunchMin <= damage <= PunchMax
    ensures !r.canSelect && r.phase == PlayerLunge(damage)
    ensures r.playerHealth == s.playerHealth && r.enemyHealth == s.enemyHealth
    ensures r.isDefending == s.isDefending && r.menu == s.menu && r.index == s.index
  {
    s.(canSelect := false, phase := PlayerLunge(damage))
  }

  /**
   * enemyAttack(): the roll is halved when the player defends, and defending
   * is consumed; the enemy's punch starts with that damage.
   */
  function EnemyAttack(s: Session, roll: int): (r: Session)
    requires EnemyPunchMin <= roll <= EnemyPunchMax
    ensures !r.isDefending
    ensures r.phase == EnemyLunge(EnemyDamage(roll, s.isDefending))
    ensures r == s.(isDefending := false, phase := r.phase)
  {
    if s.isDefending then
      s.(isDefending := false, phase := EnemyLunge(roll / 2))
    else
      s.(phase := EnemyLunge(roll))
  }

  /**
   * defend(): selection is disabled, the player defends, and the enemy's turn
   * runs at once, so its damage is halved and defending is over afterwards.
   */
  function Defend(s: Session, roll: int): (r: Session)
    requires EnemyPunchMin <= roll <= EnemyPunchMax
    ensures !r.canSelect && !r.isDefending
    ensures r.phase == EnemyLunge(roll / 2)
    ensures r.playerHealth == s.playerHealth && r.enemyHealth == s.enemyHealth
  {
    EnemyAttack(s.(canSelect := false, isDefending := true), roll)
  }

  /**
   * update(): one frame of menu input. Up has priority over down, down over
   * confirm. punch and roll are the values the random rolls of attack and
   * enemyAttack would produce, should this frame start one.
   */
  function Update(s: Session, keys: Keys, punch: int, roll: int): (r: Session)
    requires Inv(s)
    requires PunchMin <= punch <= PunchMax && EnemyPunchMin <= roll <= EnemyPunchMax
    ensures Inv(r)
    ensures !s.canSelect ==> r == s
    ensures r.playerHealth == s.playerHealth && r.enemyHealth == s.enemyHealth
    ensures r.phase != s.phase ==>
              s.canSelect && keys.confirm && !keys.up && !keys.down && !r.canSelect &&
              ((s.menu == AttackMenu && s.index == 0 && r.phase == PlayerLunge(punch)) ||
               (s.menu == MainMenu && s.index == 1 && r.phase == EnemyLunge(roll / 2)))
    ensures r.phase == s.phase ==> r.canSelect == s.canSelect
    ensures s.canSelect && keys.up ==> r == s.(index := SelectUp(s.index, MenuLength(s.menu)))
    ensures s.canSelect && !keys.up && keys.down ==>
              r == s.(index := SelectDown(s.index, MenuLength(s.menu)))
    ensures s.canSelect && !keys.up && !keys.down && keys.confirm && s.menu == MainMenu &&
              s.index == 1 ==>
              r == Defend(s, roll)
  {
    if !s.canSelect then s
    else if keys.up then
      s.(index := SelectUp(s.index, MenuLength(s.menu)))
    else if keys.down then
      s.(index := SelectDown(s.index, MenuLength(s.menu)))
    else if keys.confirm then
      match s.menu
      case MainMenu =>
        if s.index == 0 then s.(menu := AttackMenu, index := 0)
        else if s.index == 1 then Defend(s, roll)
        else s
      case AttackMenu =>
        if s.index == 0 then Attack(s, punch)
        else if s.index == 1 then s.(menu := MainMenu, index := 0)
        else s
    else s
  }

  /**
   * The completion callback of whatever tween or delayed call is pending.
   * roll is the value enemyAttack would roll, should this completion start it.
   */
  function Complete(s: Session, roll: int): (r: Session)
    requires Inv(s)
    requires EnemyPunchMin <= roll <= EnemyPunchMax
    ensures Inv(r)
    ensures r.playerHealth <= s.playerHealth && r.enemyHealth <= s.enemyHealth
    ensures s.phase.PlayerLunge? ==>
              r.enemyHealth == Hit(s.enemyHealth, s.phase.damage) && r.playerHealth == s.playerHealth
    ensures s.phase.EnemyLunge? ==>
              r.playerHealth == Hit(s.playerHealth, s.phase.damage) && r.enemyHealth == s.enemyHealth
    ensures s.phase == EnemyCountdown ==>
              r.enemyDisplay == r.enemyHealth &&
              (r.phase == VictoryDelay <==> s.enemyHealth == 0) &&
              (s.enemyHealth > 0 ==> r.phase == EnemyLunge(roll))
    ensures s.phase == PlayerCountdown ==>
              r.playerDisplay == r.playerHealth &&
              (r.phase == DefeatDelay <==> s.playerHealth == 0) &&
              (s.playerHealth > 0 ==> r.canSelect && r.menu == MainMenu && r.index == 0)
    ensures r.canSelect ==> s.canSelect || s.phase == PlayerCountdown
    ensures r.phase.Ended? ==> s.phase.Ended? || s.phase == VictoryDelay || s.phase == DefeatDelay
    ensures s.phase == VictoryDelay ==> r.phase == Ended(Won)
    ensures s.phase == DefeatDelay ==> r.phase == Ended(Lost)
  {
    match s.phase
    case Idle => s
    case PlayerLunge(damage) =>
      s.(enemyHealth := Hit(s.enemyHealth, damage), phase := EnemyFlash)
    case EnemyFlash => s.(phase := EnemyCountdown)
    case EnemyCountdown =>
      var t := s.(enemyDisplay := s.enemyHealth);
      if t.enemyHealth <= 0 then t.(phase := VictoryDelay) else EnemyAttack(t, roll)
    case VictoryDelay => s.(phase := Ended(Won))
    case EnemyLunge(damage) =>
      s.(playerHealth := Hit(s.playerHealth, damage), phase := PlayerFlash)
    case PlayerFlash => s.(phase := PlayerCountdown)
    case PlayerCountdown =>
      var t := s.(playerDisplay := s.playerHealth);
      if t.playerHealth <= 0 then t.(phase := DefeatDelay)
      else t.(canSelect := true, menu := MainMenu, index := 0, phase := Idle)
    case DefeatDelay => s.(phase := Ended(Lost))
    case Ended(_) => s
  }

  /** One engine event: a frame of key input, or the completion of what is pending. */
  datatype Event =
    | Press(keys: Keys, punch: int, roll: int)
    | Finish(roll: int)

  /** The rolls an event carries are ones Phaser.Math.Between could return. */
  predicate RollsInRange(e: Event) {
    match e
    case Press(_, punch, roll) =>
      PunchMin <= punch <= PunchMax && EnemyPunchMin <= roll <= EnemyPunchMax
    case Finish(roll) => EnemyPunchMin <= roll <= EnemyPunchMax
  }

  predicate AllRollsInRange(events: seq<Event>) {
    forall k :: 0 <= k < |events| ==> RollsInRange(events[k])
  }

  function Step(s: Session, e: Event): (r: Session)
    requires Inv(s) && RollsInRange(e)
    ensures Inv(r)
    ensures r.playerHealth <= s.playerHealth && r.enemyHealth <= s.enemyHealth
  {
    match e
    case Press(keys, punch, roll) => Update(s, keys, punch, roll)
    case Finish(roll) => Complete(s, roll)
  }

  /** The session after a sequence of events. */
  function Run(s: Session, events: seq<Event>): (r: Session)
    requires Inv(s) && AllRollsInRange(events)
    ensures Inv(r)
    ensures r.playerHealth <= s.playerHealth && r.enemyHealth <= s.enemyHealth
    decreases |events|
  {
    if events == [] then s else Run(Step(s, events[0]), events[1..])
  }
}
