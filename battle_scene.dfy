/**
 * The BattleScene object itself: its fields are updated in place by update,
 * by the menu helpers and by the tween and timer completions. Every method is
 * proved to move State() exactly as its function in BattleRules does: the
 * constructor as Start, Create as Reenter, and the others as the function of
 * the same name. ShowAttackMenu and ShowMainMenu have no such function; their
 * contracts give the new fields directly.
 */
module BattleScenes {
  import opened Common
  import opened BattleRules

  class BattleScene {
    var canSelect: bool
    var menuState: Menu
    var selectionIndex: int
    var playerHealth: int
    var enemyHealth: int
    var playerHealthDisplay: int
    var enemyHealthDisplay: int
    var isDefending: bool
    var enemyRotation: real
    var phase: Phase

    /** The fields as a value. */
    ghost function State(): Session
      reads this
    {
      Session(canSelect, menuState, selectionIndex, playerHealth, enemyHealth,
              playerHealthDisplay, enemyHealthDisplay, isDefending, enemyRotation, phase)
    }

    ghost predicate Valid()
      reads this
    {
      Inv(State())
    }

    /**
     * The scene's constructor, which alone sets canSelect, followed by the
     * create that runs when the scene is first started.
     */
    constructor (data: Option<real>)
      ensures State() == Start(data) && Valid()
    {
      canSelect := true;
      isDefending := false;
      new;
      Create(data);
    }

    /** create(data): every battle field but canSelect and isDefending is reset. */
    method Create(data: Option<real>)
      modifies this
      ensures State() == Reenter(old(State()), data)
      ensures old(Valid()) ==> Valid()
    {
      menuState := MainMenu;
      playerHealth := StartingHealth;
      enemyHealth := StartingHealth;
      playerHealthDisplay := playerHealth;
      enemyHealthDisplay := enemyHealth;
      enemyRotation := RotationOf(data);
      selectionIndex := 0;
      // A newly started scene has no tween or timer of the previous one.
      phase := Idle;
    }

    /** update(): menu navigation and the confirm dispatch, gated by canSelect. */
    method Update(keys: Keys, punch: int, roll: int)
      requires Valid()
      requires PunchMin <= punch <= PunchMax && EnemyPunchMin <= roll <= EnemyPunchMax
      modifies this
      ensures State() == BattleRules.Update(old(State()), keys, punch, roll)
      ensures Valid()
    {
      if !canSelect {
        return;
      }
      if keys.up {
        selectionIndex := SelectUp(selectionIndex, MenuLength(menuState));
      } else if keys.down {
        selectionIndex := SelectDown(selectionIndex, MenuLength(menuState));
      } else if keys.confirm {
        match menuState {
          case MainMenu =>
            if selectionIndex == 0 {
              menuState := AttackMenu;
              ShowAttackMenu();
            } else if selectionIndex == 1 {
              Defend(roll);
            }
          case AttackMenu =>
            if selectionIndex == 0 {
              Attack(punch);
            } else if selectionIndex == 1 {
              menuState := MainMenu;
              ShowMainMenu();
            }
        }
      }
    }

    /** showAttackMenu(): the selection restarts at the first item (Punch). */
    method ShowAttackMenu()
      modifies this
      ensures State() == old(State()).(index := 0)
    {
      selectionIndex := 0;
    }

    /** showMainMenu(): the selection restarts at the first item (Attack). */
    method ShowMainMenu()
      modifies this
      ensures State() == old(State()).(index := 0)
    {
      selectionIndex := 0;
    }

    /** attack(): disable selection and start the player's punch with the rolled damage. */
    method Attack(damage: int)
      requires PunchMin <= damage <= PunchMax
      modifies this
      ensures State() == BattleRules.Attack(old(State()), damage)
    {
      canSelect := false;
      phase := PlayerLunge(damage);
    }

    /** defend(): disable selection, defend, and let the enemy attack at once. */
    method Defend(roll: int)
      requires EnemyPunchMin <= roll <= EnemyPunchMax
      modifies this
      ensures State() == BattleRules.Defend(old(State()), roll)
    {
      canSelect := false;
      isDefending := true;
      EnemyAttack(roll);
    }

    /** enemyAttack(): halve the roll when defending, consume defending, start the enemy's punch. */
    method EnemyAttack(roll: int)
      requires EnemyPunchMin <= roll <= EnemyPunchMax
      modifies this
      ensures State() == BattleRules.EnemyAttack(old(State()), roll)
    {
      var damage := roll;
      if isDefending {
        damage := damage / 2;
        isDefending := false;
      }
      phase := EnemyLunge(damage);
    }

    /** The onComplete callback of the pending tween or delayed call. */
    method Complete(roll: int)
      requires Valid()
      requires EnemyPunchMin <= roll <= EnemyPunchMax
      modifies this
      ensures State() == BattleRules.Complete(old(State()), roll)
      ensures Valid()
    {
      match phase {
        case Idle =>
        case PlayerLunge(damage) =>
          enemyHealth := enemyHealth - damage;
          if enemyHealth < 0 {
            enemyHealth := 0;
          }
          phase := EnemyFlash;
        case EnemyFlash =>
          phase := EnemyCountdown;
        case EnemyCountdown =>
          enemyHealthDisplay := enemyHealth;
          if enemyHealth <= 0 {
            phase := VictoryDelay;
          } else {
            EnemyAttack(roll);
          }
        case VictoryDelay =>
          phase := Ended(Won);
        case EnemyLunge(damage) =>
          playerHealth := playerHealth - damage;
          if playerHealth < 0 {
            playerHealth := 0;
          }
          phase := PlayerFlash;
        case PlayerFlash =>
          phase := PlayerCountdown;
        case PlayerCountdown =>
          playerHealthDisplay := playerHealth;
          if playerHealth <= 0 {
            phase := DefeatDelay;
          } else {
            canSelect := true;
            menuState := MainMenu;
            ShowMainMenu();
            phase := Idle;
          }
        case DefeatDelay =>
          phase := Ended(Lost);
        case Ended(_) =>
      }
    }
  }
}
