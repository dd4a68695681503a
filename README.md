# rpg-demo: enemy perception and turn-based battle, modelled in Dafny

This project models the two state machines of the rpg-demo game (Phaser, JavaScript).

**The overworld (`src/scenes/MainScene.js`).** Every enemy is in one of three states: patrol, alert or chase. A patrolling enemy gets a back-and-forth patrol tween towards x + 100 × its patrol direction. The tween's `onYoyo` callback negates the patrol direction (MainScene.js:219-225); Phaser fires it once per cycle, when the tween turns back at its far end, and the return to the start fires `onRepeat`, which the code does not handle. The flip never changes the running tween: its target x is fixed when the tween is created (MainScene.js:215), so the new direction only matters for the next tween that enemy gets. Each frame, every patrolling enemy tests its sight-cone triangle against the player's body. On a hit the enemy turns alert, loses its patrol tween and freezes the keyboard. It hops, waits 500 ms and then chases. A chaser within 35 units of the player calls `startBattle`. That puts the enemy back into patrol and asks for BattleScene.

**The battle (`src/scenes/BattleScene.js`).** There is a main menu (Attack, Defend) and an attack menu (Punch, Back), and the selection wraps around. A `canSelect` flag gates all input. Health values are integers: the player hits for 15–25, and the enemy hits for 8–12, halved with floor when the player defends. Health never goes below 0. A chain of tween and timer callbacks resolves each turn. It ends in a win, a loss or a return to the main menu.

## How the model is built

- **Pure rules.** `BattleRules` and `Overworld` state the rules as functions on values (`Session`, `World`). The properties the source promises are proved about these functions, as `ensures` clauses and as lemmas in `BattleProperties` and `OverworldProperties`.
- **The scene objects.** The classes `BattleScenes.BattleScene` and `MainScenes.MainScene` keep the source's fields and update them in place. Each method is proved to change `State()` exactly as its rule function says. Some pairs share a name; the others are the `BattleScene` constructor/`Start`, `BattleScene.Create`/`Reenter`, the `MainScene` constructor/`Create`, `SpawnEnemy`/`Spawn`, `PatrolYoyo`/`ReversePatrol`, `HopDone`/`HopLanded`, `ChaseDelay`/`ChaseDelayElapsed`, `MainScene.Update`/`Tick`, `BehaviourLoop`/`BehaviourPass` and `DetectionLoop`/`DetectionPass`. `ShowAttackMenu` and `ShowMainMenu` have no rule function: their contracts give the new fields directly (only the index is reset to 0). `MainScene.Update` keeps the source's two `forEach` loops as `while` loops with invariants.
- **Callbacks.** Phaser tweens and delayed calls become explicit state. `Phase` records what the battle is waiting for, and `Complete` is the completion callback of whatever is pending. For an enemy, `patrolTween` and `AlertStage` record its pending callbacks. Each callback is its own method (`PatrolYoyo`, `HopDone`, `ChaseDelay`).
- **Random rolls** (`Phaser.Math.Between`) are parameters, with preconditions that keep them in their range.
- **Engine functions.** The engine's geometry and trigonometry are fields of `Sight.Engine`, as function values: `ContainsPoint`, `LineToCircle`, `Math.cos`, `Math.sin` and `Angle.Between`.
- **Numbers.** Numbers are `real`. The angle constants are the shortest decimal forms JavaScript prints for `±Math.PI / 2` and `Math.PI` (1.5707963267948966 and 3.141592653589793), not the exact binary doubles. The test `Distance.Between(...) < 35` is stated on squared distances. The two tests agree because the square root is increasing. The selection arithmetic only meets non-negative operands, so JavaScript's `%` and Dafny's `%` agree there.

## Behaviour of the code that the model keeps

- **Frozen menu after a win.** `canSelect` is set to true only by the scene's constructor (BattleScene.js:6) and by the end of an enemy turn that the player survives; `attack()` (BattleScene.js:346) and `defend()` (BattleScene.js:408) set it to false. `create` does not reset it. A battle the player wins ends with it `false`, so a second battle's menu never responds. This is proved in `BattleProperties.FrozenAfterVictory`.
- **Facing passed to the battle.** The comment at MainScene.js:176 speaks of passing the enemy's rotation, but `startBattle` always passes the constant `TRIANGLE_FACING_LEFT` (MainScene.js:177). This is proved in `OverworldProperties.HandOverIgnoresFacing`.
- **Caught enemy tested again.** The catching enemy is reset to patrol before the detection loop of the same frame runs. That loop can therefore alert it again. This is proved in `OverworldProperties.CaughtEnemyIsTestedAgain`.

## Model

| member | source | states |
|---|---|---|
| BattleRules.RotationOf | src/scenes/BattleScene.js:29 | the battle's enemy rotation is the one handed over, or 0 without one |
| BattleRules.Start | src/scenes/BattleScene.js:4-122 | first entry: both at 100 health, main menu at index 0, selection enabled, invariant holds |
| BattleRules.Reenter | src/scenes/BattleScene.js:9-122 | a later create resets health, readouts, menu and index, but keeps canSelect; preserves the invariant |
| BattleRules.MenuLength | src/scenes/BattleScene.js:110-111 | both menus have two items |
| BattleRules.SelectUp | src/scenes/BattleScene.js:126-135 | up moves to the previous item and wraps from the first to the last; the index stays in [0, len) |
| BattleRules.SelectDown | src/scenes/BattleScene.js:136-142 | down moves to the next item and wraps from the last to the first; the index stays in [0, len) |
| BattleRules.Hit | src/scenes/BattleScene.js:363-367 | health after a hit is in [0, health], is 0 exactly when damage ≥ health, and otherwise is health − damage |
| BattleRules.EnemyDamage | src/scenes/BattleScene.js:423-429 | the enemy's damage is the roll, or the floor of half the roll when defending: in [4, 12] |
| BattleRules.Attack | src/scenes/BattleScene.js:344-361 | attack disables selection and starts the punch with its roll; health and isDefending are unchanged |
| BattleRules.EnemyAttack | src/scenes/BattleScene.js:421-441 | the enemy's punch carries the (possibly halved) damage; isDefending is false afterwards; nothing else changes |
| BattleRules.Defend | src/scenes/BattleScene.js:406-419 | defend disables selection and the enemy attacks at once with half its roll; isDefending is false after it; health unchanged |
| BattleRules.Update | src/scenes/BattleScene.js:124-166 | no change when canSelect is false; up moves the selection with SelectUp and takes priority, down otherwise moves it with SelectDown; confirm at Main/Defend gives Defend with the roll; input never changes health; an action starts only on confirm, at Attack/Punch or Main/Defend; invariant preserved |
| BattleRules.Complete | src/scenes/BattleScene.js:355-486 | health never rises; a punch lowers health by Hit; readouts catch up at counter completion; an enemy at 0 gets no counter-turn; the player at 0 loses, otherwise the main menu returns at index 0 with selection enabled; the victory and defeat delays end in Won and Lost, and only they end the battle |
| BattleRules.Run | src/scenes/BattleScene.js:124-486 | along any sequence of inputs and completions the invariant holds and neither health ever rises |
| BattleScenes.BattleScene.constructor | src/scenes/BattleScene.js:4-122 | the new scene is in the state Start describes |
| BattleScenes.BattleScene.Create | src/scenes/BattleScene.js:9-122 | the fields become Reenter of the old fields |
| BattleScenes.BattleScene.Update | src/scenes/BattleScene.js:124-166 | the fields change exactly as BattleRules.Update says, and the invariant is kept |
| BattleScenes.BattleScene.ShowAttackMenu | src/scenes/BattleScene.js:187-246 | the selection restarts at index 0; nothing else changes |
| BattleScenes.BattleScene.ShowMainMenu | src/scenes/BattleScene.js:248-276 | the selection restarts at index 0; nothing else changes |
| BattleScenes.BattleScene.Attack | src/scenes/BattleScene.js:344-404 | the fields change as BattleRules.Attack says |
| BattleScenes.BattleScene.Defend | src/scenes/BattleScene.js:406-419 | the fields change as BattleRules.Defend says |
| BattleScenes.BattleScene.EnemyAttack | src/scenes/BattleScene.js:421-487 | the fields change as BattleRules.EnemyAttack says |
| BattleScenes.BattleScene.Complete | src/scenes/BattleScene.js:355-486 | the fields change as BattleRules.Complete says, and the invariant is kept |
| BattleProperties.UpDownInverse | src/scenes/BattleScene.js:126-142 | up then down, and down then up, return to the same item |
| BattleProperties.MenuWraps | src/scenes/BattleScene.js:126-142 | in both two-item menus down from 1 gives 0 and up from 0 gives 1 |
| BattleProperties.ConfirmOpensAttackMenu | src/scenes/BattleScene.js:147-151 | confirm on Attack opens the attack menu at index 0 and changes nothing else |
| BattleProperties.ConfirmBackReturnsToMain | src/scenes/BattleScene.js:159-163 | confirm on Back opens the main menu at index 0 and changes nothing else |
| BattleProperties.PunchResolves | src/scenes/BattleScene.js:344-398 | after Punch and three completions the enemy has Hit(health, roll), its readout matches, the player is untouched, and a knocked-out enemy gets no counter-turn |
| BattleProperties.EnemyTurnResolves | src/scenes/BattleScene.js:434-481 | after three completions the player has Hit(health, damage); at 0 the defeat delay runs, otherwise the main menu is back with selection enabled |
| BattleProperties.RoundResolves | src/scenes/BattleScene.js:124-487 | a full surviving turn lowers both health values by their rolls and returns to the main menu |
| BattleProperties.DefendScenario | src/scenes/BattleScene.js:406-447 | defending against a roll of 10 costs 5 health and isDefending is false at once |
| BattleProperties.LossScenario | src/scenes/BattleScene.js:443-473 | at 10 health an undefended 12 ends the battle lost |
| BattleProperties.WinScenario | src/scenes/BattleScene.js:344-393 | three punches of 25 leave the enemy at 25 and a fourth wins the battle |
| BattleProperties.EndedIsFinal | src/scenes/BattleScene.js:388-393 | a finished battle ignores every later event |
| BattleProperties.LockedIsFrozen | src/scenes/BattleScene.js:125 | with selection disabled and nothing pending, no sequence of events changes anything |
| BattleProperties.FrozenAfterVictory | src/scenes/BattleScene.js:6 | after a won battle a re-entered scene has canSelect false and ignores every input |
| BattleProperties.FirstEntryResponds | src/scenes/BattleScene.js:6 | on first entry confirm opens the attack menu |
| BattleProperties.OutcomeIsDecisive | src/scenes/BattleScene.js:386-398 | a battle ends won exactly when the enemy is at 0, and lost exactly when the player is at 0 |
| Sight.SightConePolygon | src/scenes/MainScene.js:312-349 | the cone has three points and its tip is exactly the enemy's position |
| Sight.DetectPlayer | src/scenes/MainScene.js:283-303 | the containment test followed by the edge loop with break detects exactly when the centre is inside or some edge (points[i], points[(i+1) % n]) meets the body |
| Sight.ConeIsIsosceles | src/scenes/MainScene.js:313-338 | for a true rotation both cone sides are sqrt(30² + 200²) long and the base is 60 wide |
| Sight.AxisPointInsideCone | src/scenes/MainScene.js:313-338 | the point half the cone length ahead is the weighted average ½ tip + ¼ + ¼ base corners, so it is inside the cone |
| Sight.FacingUpCone | src/scenes/MainScene.js:313-338 | facing up, the base corners are (x ∓ 30, y − 200) |
| Overworld.Spawn | src/scenes/MainScene.js:60-83 | a spawned enemy patrols, has no tween or alert pending, and its direction is 1 or −1 |
| Overworld.Create | src/scenes/MainScene.js:20-52 | three patrolling enemies, keyboard enabled, no battle requested |
| Overworld.AlertEnemy | src/scenes/MainScene.js:112-159 | alertEnemy starts the hop and does not itself change the behaviour state |
| Overworld.OnPlayerDetected | src/scenes/MainScene.js:89-106 | a patroller turns alert with no patrol tween and its hop pending; an alert or chasing enemy is unchanged |
| Overworld.HopLanded | src/scenes/MainScene.js:133-145 | the hop completing starts the delay and leaves the state alert |
| Overworld.ChaseDelayElapsed | src/scenes/MainScene.js:138-143 | the delayed call makes the enemy chase |
| Overworld.ReversePatrol | src/scenes/MainScene.js:219-225 | each reversal negates the direction and changes nothing else |
| Overworld.StartBattle | src/scenes/MainScene.js:165-178 | the enemy returns to patrol with no patrol tween, keeping its pose |
| Overworld.Behave | src/scenes/MainScene.js:206-265 | a patroller gets a tween only if it has none; alert is untouched; a chaser faces the player and returns to patrol, with its tween cleared, exactly when it is within 35, keeping its patrol direction and alert stage |
| Overworld.ConeOf | src/scenes/MainScene.js:312-349 | the cone of an enemy starts at its position |
| Overworld.BehaviourPass | src/scenes/MainScene.js:206-265 | every enemy behaves independently; a battle is requested with TriangleFacingLeft exactly when some chaser is within 35 |
| Overworld.DetectionPass | src/scenes/MainScene.js:270-305 | only patrollers that spot the player change, each through onPlayerDetected; the keyboard is disabled exactly when one does |
| Overworld.Tick | src/scenes/MainScene.js:180-306 | a frame leaves alert enemies alone, never starts a chase, alerts a patroller exactly when it spots the player, and keeps every enemy consistent |
| Overworld.Step | src/scenes/MainScene.js:89-306 | no event but the chase delay of enemy i makes it chase; an alert enemy stays alert and in the same stage unless its own hop or delay completes |
| Overworld.Run | src/scenes/MainScene.js:60-306 | along any run every enemy stays consistent (direction ±1, tween only in patrol, alert stage exactly when alert) |
| MainScenes.MainScene.constructor | src/scenes/MainScene.js:20-52 | the new scene is in the state Create describes |
| MainScenes.MainScene.SpawnEnemy | src/scenes/MainScene.js:60-83 | the enemy list grows by Spawn of the arguments |
| MainScenes.MainScene.OnPlayerDetected | src/scenes/MainScene.js:89-106 | enemy i becomes OnPlayerDetected of itself; the keyboard is disabled exactly when it was patrolling |
| MainScenes.MainScene.AlertEnemy | src/scenes/MainScene.js:112-159 | enemy i's hop is pending; nothing else changes |
| MainScenes.MainScene.StartBattle | src/scenes/MainScene.js:165-178 | enemy i is reset to patrol and the battle is requested with TriangleFacingLeft |
| MainScenes.MainScene.PatrolYoyo | src/scenes/MainScene.js:219-225 | enemy i's direction is negated; the scene invariant is kept |
| MainScenes.MainScene.HopDone | src/scenes/MainScene.js:138-145 | enemy i waits for the chase delay; the scene invariant is kept |
| MainScenes.MainScene.ChaseDelay | src/scenes/MainScene.js:140-143 | enemy i chases; the scene invariant is kept |
| MainScenes.MainScene.Update | src/scenes/MainScene.js:180-306 | the fields change exactly as Tick says, and every enemy stays consistent |
| MainScenes.MainScene.BehaviourLoop | src/scenes/MainScene.js:206-265 | the first loop leaves the fields as BehaviourPass says |
| MainScenes.MainScene.DetectionLoop | src/scenes/MainScene.js:270-305 | the second loop leaves the fields as DetectionPass says |
| OverworldProperties.ChaseNeedsDelay | src/scenes/MainScene.js:138-143 | an enemy that comes to chase did so through its own delayed call |
| OverworldProperties.HopThenDelay | src/scenes/MainScene.js:133-145 | from a pending hop, chasing needs the hop to land and then the delay to fire |
| OverworldProperties.PatrolToChase | src/scenes/MainScene.js:89-145 | a patroller reaches chase only through the hop landing and then the delay, never in one frame |
| OverworldProperties.DirectionStaysSign | src/scenes/MainScene.js:211-225 | along any run every patrol direction stays 1 or −1 |
| OverworldProperties.HandOverIgnoresFacing | src/scenes/MainScene.js:165-178 | whichever way the catching enemy faces, the battle receives TriangleFacingLeft |
| OverworldProperties.CaughtEnemyIsTestedAgain | src/scenes/MainScene.js:251-305 | the enemy reset by startBattle is tested by the same frame's detection loop and can be alerted again |
| OverworldProperties.KeyboardStaysDisabled | src/scenes/MainScene.js:100-102 | once the keyboard is disabled no later event of the scene enables it |

## Left out

- Drawing is left out, because it does not affect game state. This covers health bars (`updateHealthBars`), the selection indicator and menu layout, status texts, the exclamation bubble (with its 400 ms fade timer) and the sight-cone graphic (`SightCone.updatePosition`, `updateSightCone`).
- Health readouts are not interpolated. The counter tween's intermediate values come from the engine, so the model only sets each readout equal to the true health when its counter completes.
- Durations are not modelled: tween lengths, the 500 ms and 1000 ms delays, and the random 2–4 s patrol cycle. Only the order in which callbacks complete is modelled.
- Player movement is left out: keyboard polling, velocities, collision with world bounds. It is engine physics; the player's position is an input to each frame.
- Enemy motion is not computed. The patrol tween's x interpolation and `physics.moveToObject` are engine work, so they appear only as `Moved` events that set an enemy's position. The float `patrolSpeed` is left out because nothing reads it.
- `Phaser.Geom.Polygon.ContainsPoint`, `Phaser.Geom.Intersects.LineToCircle`, `Math.cos`, `Math.sin` and `Phaser.Math.Angle.Between` are engine functions and are taken as given. Because these functions are taken as given, the model does not prove that an enemy facing up at the origin misses a point at (210, 0), to the side of its 200-unit cone, nor that it detects the point 100 units straight ahead. `Sight.AxisPointInsideCone` only shows that this point lies inside the triangle.
- Floating-point rounding is left out: positions and angles are exact reals.
- Scene lifecycle is left out. `scene.start` appears only as `battleRequest` in the overworld and as the `Ended` outcome in the battle. `GameOverScene` is not registered in src/game.js:15, so a lost battle only stops the scene. That detail is outside the model.
- `Overworld.Step` keeps accepting `Frame`, `HopDone` and `ChaseDelay` events after `battleRequest` is set, so in the model a pending delayed call can still turn an enemy to chase. In the code `scene.start` (MainScene.js:177) stops MainScene at the next engine step and destroys its tweens and timers. The safety lemmas proved here hold either way.
- Phaser's `rotation` setter wraps angles into [-π, π). The model stores rotations unwrapped: the enemy spawned facing down holds π rather than -π, and a chaser's `Angle.Between(...) + Math.PI / 2` (MainScene.js:245) is kept as the plain sum. Both are passed as they are to the engine's `cos` and `sin`, which are periodic, and no property proved here depends on the wrapping.
- `BattleRules.RotationOf` treats a missing rotation as 0 but does not model JavaScript's `NaN || 0`.
- The engine configuration (src/game.js) and the unused `patrolBounds` are left out.
