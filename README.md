# Ninja Contra game core in Dafny

This project models the game logic of the side-scrolling shooter in `main.py`
and proves properties of it. It covers:

- the camera that follows the player;
- the player's movement, jumping, shooting, timers and damage/lives protocol;
- the zombie enemies: their kind table, patrol/chase walk, hits and death animation;
- the projectiles and explosions and when they disappear;
- the random generation of a level's platforms, enemies and power-ups;
- the game controller (`Game.handle_events`, `Game.update`, `Game.next_level`);
- the title menu, and the loop in `main` that switches between menu and game.

Conventions:

- **Units.** Every length and velocity is in tenths of a pixel (`Px(n) == 10 * n`).
  Gravity (0.8 px per tick) and the heavy zombie's speed (1.2 px per tick) are then exact integers.
- **Randomness.** Python's global generator is an oracle, the `Random` class: a
  caller-chosen sequence of integers and a cursor. Each `randint(lo, hi)`
  reads the next entry and clamps it into `[lo, hi]`. `random.random() < p` is
  a draw in `[0, 9]` compared with `10 * p`. `random.choice` draws an index.
  Any sequence is allowed, so every outcome of a real generator is reachable
  (`EveryValueReachable`). Nothing depends on the distribution.
- **Input.** Each frame's queued events and held arrow keys are parameters.
- **Shape.** Each entity has a value datatype (`PlayerData`, `EnemyData`,
  `LevelData`, `GameData`, `MenuData`) and pure functions that give one step of
  its rules (`Updated`, `Stepped`, `Generated`, `Tick`, `MenuKey`...).
  Entities the source updates in place are classes (`Player`, `Enemy`,
  `Level`, `Game`, `MainMenu`, `Camera`, `Random`). Each method of a class
  ensures `Data() == Spec(old(Data()))`. The lemmas prove what the source
  promises about the spec functions.
- **Values.** Bullets, enemy bullets, explosions, power-ups and platforms
  are values held in `seq` fields. The sprite-group loops that update or
  remove them are `while`/`for` loops proved against the matching functions.

Behaviour kept exactly as the source has it:

- Health can go negative when the last life is lost (`Damaged`).
- Player bullets are culled at the constant 2400 px, not at the level's own
  width (`BulletCulledInsideWiderLevel`).
- Life pickups are uncapped (`Boosted`).
- Jump and shoot are processed while the game is paused or over (`PlayStep`; `KeyStepOutcome` states it).
- An enemy lands on any platform it overlaps while falling, without the
  player's "bottom not below the platform's bottom" guard
  (`EnemySnapsUpThroughPlatform`).
- Enemies never fire, so the enemy-bullet list stays empty (`Enemies.Enemy.Update`).
- In a frame where the window is closed, the game still updates once before the loop stops (`GameLooped`).

## Model

| member | source | states |
|---|---|---|
| Viewport.ScrollFor | main.py:267-270 | the scroll offset is never negative and never past `width - 800`; it is `centerx - 400` when that is in range, 0 near the left edge, and `width - 800` near the right edge |
| Viewport.TargetOnScreen | main.py:267-270 | a target inside a level at least one screen wide is always within the visible window |
| Viewport.ScrollMonotone | main.py:267-270 | moving the target right never scrolls the camera left |
| Viewport.Camera.constructor | main.py:259-262 | a new camera has the level's width and offset 0 |
| Viewport.Camera.Update | main.py:267-270 | the offset becomes the clamped scroll for the target's centre, within `[0, width - 800]` |
| Geometry.Rect.WithBottom | main.py:390 | setting `bottom` moves only `y`, so that the bottom edge is the given line |
| Geometry.CenteredAt | main.py:510 | a rectangle built around a centre has that centre |
| Physics.MakePlatform | main.py:785-792 | a platform keeps its position and theme and is at least 64 x 32 px; a size already at or above the minimum is kept |
| Physics.LandOn | main.py:387-392 | one platform of the landing pass: a body overlapping the platform while moving down (and, for the player, not below the platform's bottom) is put on its top, stopped and marked landed; otherwise nothing changes. Its consequences for the whole pass are `FirstLandingWins` and `SettleOutcome` |
| Physics.Settle | main.py:387-392 | the landing pass over the platforms in group order (the enemies' copy at main.py:642-646 drops the from-above guard); `RisingPassesThrough`, `FirstLandingWins` and `SettleOutcome` state what it does |
| Physics.RisingPassesThrough | main.py:387-392 | a body that is not falling passes through every platform unchanged |
| Physics.FirstLandingWins | main.py:387-392 | once a body lands on a platform, no later platform of the pass changes it |
| Physics.SettleCaught | main.py:387-392 | if any platform would catch the body as it enters the pass, it ends up standing on a platform; if none would, the pass leaves it unchanged |
| Physics.SettleOutcome | main.py:387-392 | the platform pass never moves a body sideways or resizes it; it either changes nothing, or leaves the body standing still on the top edge of one of the platforms |
| Physics.EnemySnapsUpThroughPlatform | main.py:642-646 | a concrete fall where an enemy whose bottom is below a platform's bottom is snapped up onto it, while the player's rule (main.py:389) lets the same body fall on |
| Randomness.Draw | main.py:979 | a draw lies in the range asked for, and is the oracle's value when that value is in range |
| Randomness.EveryValueReachable | main.py:979 | every value of a range is produced by some generator |
| Randomness.Random.constructor | main.py:979 | the generator starts at the beginning of its stream |
| Players.NewPlayer | main.py:293-318 | a new player is 80 x 80 px at the given corner, with 100 of 100 health, 3 lives, the normal gun, no cooldown, no invincibility, facing right |
| Players.CooldownFor | main.py:441 | every weapon has a positive cooldown |
| Players.CooldownOrder | main.py:441 | rapid fire (5) is faster than the normal gun (15), which is faster than the spread gun (20) |
| Players.UpdateBounds | main.py:364-412 | after a tick the player is inside the level horizontally and not below the floor line at 550 px; `on_ground` is set whenever the floor clamp fired; standing means zero vertical speed, otherwise gravity was added; each of the three timers drops by exactly 1 while positive and never below 0; health, lives and weapon are unchanged |
| Players.Updated | main.py:364-412 | one tick of `Player.update`: the held keys and the level clamp, then gravity, the platform pass and the floor, then the timers; `UpdateMotion` states where the player ends up and `UpdateBounds` its bounds and timers |
| Players.UpdateMotion | main.py:364-398 | the held keys move the player 5 px left and/or right, then x is clamped to `[0, width - w]`; Right sets the facing, otherwise Left clears it; `moving` is set iff a key is held. The player then falls by `velY + gravity`. If no platform catches the moved box and its bottom is above 550 px, the player is there in the air with that speed. Otherwise it stands (`velY` 0, `on_ground`) with its bottom on the floor line or on some platform's top |
| Players.Steered | main.py:366-379 | the held keys and the level clamp; `UpdateMotion` states it |
| Players.Fallen | main.py:381-398 | gravity, the guarded platform pass, then the floor; `UpdateMotion` states it |
| Players.TimersRun | main.py:400-412 | the three countdowns; `UpdateBounds` states them |
| Players.Volley | main.py:450-456 | the bullets a ready weapon fires; `Shot` states them |
| Players.Jumped | main.py:433-437 | a jump sets the vertical speed to -15 px and leaves the ground only when standing; in the air it changes nothing |
| Players.Shot | main.py:439-458 | with the cooldown running nothing changes and no bullet is fired; otherwise the cooldown becomes the weapon's, the attack animation starts for 20 ticks, and 3 bullets at -15, 0, 15 degrees (spread gun) or 1 at 0 degrees leave the facing edge at mid-height, travelling the way the player faces |
| Players.Damaged | main.py:460-472 | while invincible nothing changes and the result is False; otherwise, as a whole new record: health drops by the amount and invincibility is 60 ticks; when health reaches 0 a life is lost, and with lives left health is restored and the player is put back at (100, 450); nothing else about the player changes; the result is True exactly when the hit used up the last life |
| Players.DamagePreservesVitality | main.py:460-472 | a hit keeps a player who has lives left within `0 < health <= max_health`, unless it reports the game lost, in which case no life is left |
| Players.HeavyHitScenario | main.py:460-472 | a 120-point hit on a new player leaves 2 lives, 100 health, the spawn position and 60 ticks of invincibility, and does not end the game |
| Players.BlinkAlternates | main.py:477 | while invincible the player is drawn and hidden in alternating 5-tick phases |
| Players.Visible | main.py:477 | the blink test: drawn when not invincible, or on the first five ticks of every ten; `BlinkAlternates` states the alternation |
| Players.Player.constructor | main.py:293-318 | the object's state is `NewPlayer` |
| Players.Player.Update | main.py:364-412 | one tick: the held keys move the player and clamp it to the level, then gravity and the platform and floor collisions, then the timers |
| Players.Player.Steer | main.py:369-379 | the horizontal part of a tick |
| Players.Player.ApplyGravity | main.py:381-398 | gravity, then the loop over the platforms, then the floor |
| Players.Player.RunTimers | main.py:400-412 | the attack timer, shot cooldown and invincibility count down |
| Players.Player.Respawn | main.py:1034-1036 | the player is put at (100, 450) with the normal gun and nothing else changes |
| Players.Player.Jump | main.py:433-437 | the object's state follows `Jumped` |
| Players.Player.Shoot | main.py:439-458 | the new state and the bullets returned follow `Shot` |
| Players.Player.TakeDamage | main.py:460-472 | the new state and the result follow `Damaged` |
| Projectiles.Velocity | main.py:512-514 | a bullet always moves forward in the direction it was fired; straight shots move exactly 12 px horizontally; a +15 degree shot climbs when fired to the right and dips when fired to the left, and a -15 degree shot does the reverse |
| Projectiles.Fire | main.py:495-516 | a bullet starts at the given point, with the given direction and angle, moving forward |
| Projectiles.BulletStep | main.py:518-524 | a bullet moves by its velocity and is removed exactly when its box leaves the play area: left of 0, right of 2400 px, above the top, below the bottom |
| Projectiles.BulletsStepped | main.py:1073-1074 | the pass keeps at most the bullets it had, every survivor is in the play area, and every bullet still in play after its move is kept |
| Projectiles.BulletsSteppedExactly | main.py:1073-1074 | the bullets after the pass are exactly the moved bullets still in play: nothing is added and nothing in play is lost |
| Projectiles.StepBullets | main.py:1073-1074 | the loop over the bullet group computes `BulletsStepped` |
| Projectiles.BulletLifetime | main.py:518-524 | every moving bullet is removed within a bounded number of ticks |
| Projectiles.BulletCulledInsideWiderLevel | main.py:523 | a bullet at 2500 px is culled even though a level 2 is 2800 px wide |
| Projectiles.Fly | main.py:518-524 | after `n` updates a bullet not yet destroyed has moved by `n` times its velocity and, if it moved at all, is in the play area |
| Projectiles.EnemyBulletStep | main.py:703-706 | an enemy bullet moves 8 px in its direction and is removed exactly when it is entirely left of 0 or starts right of 2400 px |
| Projectiles.EnemyBulletsStepped | main.py:1083-1084 | the pass keeps at most the bullets it had, all still inside the horizontal bounds, and every enemy bullet still inside the bounds after its move is kept |
| Projectiles.EnemyBulletsSteppedExactly | main.py:1083-1084 | the enemy bullets after the pass are exactly the moved ones still inside the horizontal bounds |
| Projectiles.StepEnemyBullets | main.py:1083-1084 | the loop over the enemy-bullet group computes `EnemyBulletsStepped` |
| Projectiles.ExplosionStep | main.py:834-837 | an explosion advances one frame and is removed exactly when it reaches frame 15 |
| Projectiles.ExplosionsStepped | main.py:1091-1092 | the pass keeps at most the explosions it had, each strictly between frame 0 and 15, and every explosion below its last frame is kept, one frame on |
| Projectiles.ExplosionsSteppedExactly | main.py:1091-1092 | the explosions after the pass are exactly those that were below their last frame, each advanced one frame |
| Projectiles.StepExplosions | main.py:1091-1092 | the loop over the explosion group computes `ExplosionsStepped` |
| Projectiles.ExplosionLifetime | main.py:826-837 | an explosion is alive for exactly 15 frames counted from frame 0 |
| Projectiles.Fade | main.py:834-837 | after `n` updates an explosion still shown is `n` frames further on and, if it was updated at all, below frame 15 |
| Enemies.Stats | main.py:540-551 | every kind starts with positive health and a valid shoot interval; only turrets have speed 0 |
| Enemies.KindTable | main.py:540-551 | soldier, heavy and turret have health 2, 4 and 5, and speeds 2 px, 0.6 of that, and 0 |
| Enemies.NewEnemy | main.py:553-563 | a new enemy is 70 x 70 px at the given corner with its kind's health and speed, facing left, alive, patrolling 100 px either side of x |
| Enemies.Spawned | main.py:535-563 | creating an enemy makes two draws (its sprite set, then its shoot timer within the kind's interval) |
| Enemies.NewEnemyWellformed | main.py:553-563 | a new enemy is well formed: it faces left or right, is 70 x 70 px, has its kind's speed and no more than its kind's health, is dying exactly when its health is at most 0, and its death timer is 0 while alive and below 60 |
| Enemies.Stepped | main.py:616-662 | a dying enemy only counts its death timer and asks to be removed when the timer reaches 60; a living enemy stays alive with its health and kind, and never asks to be removed |
| Enemies.SteppedWellformed | main.py:616-662 | an update keeps an enemy well formed |
| Enemies.TurretStationary | main.py:626-635 | a turret never moves sideways or turns |
| Enemies.WalkRule | main.py:626-635 | a walking enemy turns to face a player closer than 300 px and otherwise keeps its direction; it moves by its speed that way and turns round once it is past a patrol bound |
| Enemies.Walked | main.py:626-635 | the chase/patrol step; `WalkRule` and `TurretStationary` state it |
| Enemies.Dropped | main.py:637-651 | gravity, the platform pass without the player's from-above guard, then the floor; `DropRule` states it |
| Enemies.DropRule | main.py:637-651 | the vertical step never moves an enemy sideways or resizes it, and leaves it no lower than the floor line; nothing else about it changes. If no platform catches the box moved down by `velY + gravity` (without the player's from-above guard) and its bottom is above 550 px, the enemy is there with that speed; otherwise it stands still with its bottom on the floor line or on some platform's top |
| Enemies.DeathSequence | main.py:618-624 | a dying enemy with death timer t is still present, with timer 59, after 59 - t more updates, and is gone after 60 - t (12 frames x 5 ticks) |
| Enemies.Hurt | main.py:679-686 | a hit lowers health by exactly 1 and the enemy is dying exactly when health is at most 0 (or it already was); nothing else changes |
| Enemies.HurtWellformed | main.py:679-686 | a hit keeps an enemy well formed |
| Enemies.SoldierTwoHits | main.py:679-686 | a soldier survives one hit and is dying after the second |
| Enemies.Enemy.constructor | main.py:535-563 | the object's state is the enemy `Spawned` gives |
| Enemies.Enemy.Update | main.py:616-662 | the new state and the removal flag follow `Stepped`, and no bullet is ever returned |
| Enemies.Enemy.Walk | main.py:626-635 | the chase/patrol step |
| Enemies.Enemy.Drop | main.py:637-651 | gravity, the loop over the platforms, then the floor |
| Enemies.Enemy.TakeDamage | main.py:679-686 | the state follows `Hurt` and the result is always False |
| Levels.BaseLayout | main.py:959-971 | there are eleven base platforms |
| Levels.PowerUp.Box | main.py:723 | a power-up's box is 25 x 25 px centred on its position |
| Levels.WidthGrows | main.py:950 | every level is at least 2400 px wide, wider than the screen, and each is 400 px wider than the one before |
| Levels.LevelWidth | main.py:950 | `2400 + (n - 1) * 400` px; `WidthGrows` states its bounds and growth |
| Levels.ThemeOf | main.py:951 | graveyard on level 1 and sci-fi after; `GeneratedShape` states it for every generated level |
| Levels.BaseFrom | main.py:973-975 | the filter keeps at most the base platforms it is given |
| Levels.BaseFromAppend | main.py:973-975 | the filter works platform by platform |
| Levels.AllBaseKept | main.py:973-975 | base platforms that start inside the level are all kept |
| Levels.BasePlatformsSized | main.py:973-975 | every base platform kept is at least 64 x 32 px |
| Levels.ExtraPlatform | main.py:979-981 | an extra platform lies between 200 px and `width - 200` across and 200 to 450 px down, is 100 to 180 px wide and clamped to 32 px tall |
| Levels.ExtraPlatforms | main.py:978-981 | the loop makes exactly `count` extra platforms, all placed by that rule, using three draws each |
| Levels.PickKind | main.py:990-995 | turrets only appear from level 3 and heavies from level 2; level 1 draws nothing and always gives a soldier |
| Levels.KindsReachable | main.py:990-995 | every kind a level allows does occur for some draws |
| Levels.PlaceEnemy | main.py:986-995 | an enemy is placed between 400 px and `width - 100` across, on one of the four rows, with a kind its level allows |
| Levels.Placements | main.py:984-997 | the loop places exactly `count` enemies, each by that rule |
| Levels.Spawns | main.py:997 | an enemy is created at each placement, in order |
| Levels.SpawnPlaced | main.py:997 | an enemy created at a placement is where the placement says, alive, well formed, and has its kind's full health |
| Levels.SpawnPowerUp | main.py:1002-1004 | a power-up lies between 300 px and `width - 100` across and 200 to 400 px down |
| Levels.SpawnPowerUps | main.py:1001-1004 | the loop makes exactly `count` power-ups by that rule, using three draws each |
| Levels.GeneratedShape | main.py:948-1004 | level n has its width and theme (graveyard only on level 1), 11 + 2n platforms of at least 64 x 32 px, 5 + 3n enemies all placed by the rule (all soldiers on level 1), and 2 + n power-ups |
| Levels.Generated | main.py:948-1004 | `Level(n)` as a value: the platforms, then the enemies and power-ups, and the generator position after all the draws; `GeneratedShape` states its shape |
| Levels.Level.constructor | main.py:948-955 | `Level(n)` builds the level `Generated` describes, with fresh enemy objects, and moves the generator past all its draws |
| Levels.Generate | main.py:957-1004 | the whole generation, with the enemy objects distinct and fresh |
| Levels.Draws | main.py:957-1004 | all the draws of a level, made in the source's order |
| Levels.Populate | main.py:983-1004 | the enemy placements, then the power-ups |
| Levels.GeneratePlatforms | main.py:959-981 | the base platforms kept, then the extra ones |
| Levels.KeepBase | main.py:973-975 | the loop over the base layout computes `BaseFrom` |
| Levels.GrowPlatforms | main.py:978-981 | the loop computes `ExtraPlatforms` |
| Levels.PlanEnemies | main.py:984-995 | the loop computes `Placements` |
| Levels.PlaceOne | main.py:986-995 | one iteration computes `PlaceEnemy` |
| Levels.MakeEnemies | main.py:997 | the loop creates distinct, fresh enemy objects whose states are `Spawns` |
| Levels.PickKindFrom | main.py:990-995 | the kind choice computes `PickKind` |
| Levels.GrowPowerUps | main.py:1001-1004 | the loop computes `SpawnPowerUps` |
| Enemies.Datas | main.py:1096 | the states of a group, one per enemy, in group order |
| Enemies.DatasAppend | main.py:997 | adding an enemy to a group adds its state at the end |
| Games.NewGame | main.py:1008-1026 | a new game is on level 1 with score 0, a new player at (100, 450) with the chosen character, nothing in flight, the camera at 0, and no flag set |
| Games.EnemiesStepped | main.py:1077-1080 | the enemy pass never adds enemies; `EnemiesSteppedExactly` states which ones it keeps |
| Games.EnemiesSteppedExactly | main.py:1077-1080 | an enemy is in the new group exactly when it is the update of some enemy whose death animation has not ended, so a dying enemy stays until its timer reaches 60 (main.py:618-624) |
| Games.EnemiesSteppedKeepLiving | main.py:1077-1080 | the enemy pass keeps every enemy well formed and removes none of the living: the number of living enemies is unchanged |
| Games.LivingAppend | main.py:1132 | the living count and well-formedness extend over one more enemy |
| Games.Moved | main.py:1069-1092 | the movement half of a tick leaves the level number, score and every flag unchanged |
| Games.Target | main.py:1096-1097 | the enemy a bullet hits is the first living enemy it overlaps, in group order; none when it overlaps no living enemy |
| Games.Strike | main.py:1096-1103 | a bullet that hits nothing keeps flying; one that hits is removed, damages exactly that enemy once and no other; when the hit kills, an explosion appears at the enemy's centre and the score rises by 100 times the level number, otherwise neither |
| Games.StrikesTally | main.py:1095-1103 | the bullet pass removes no enemy and adds no bullet, and scores exactly 100 times the level number per explosion, that is per enemy put into its death animation |
| Games.StrikesWellformed | main.py:1095-1103 | the bullet pass keeps every enemy well formed |
| Games.StrikesOf | main.py:1095-1103 | the bullet pass, one `Strike` per bullet in group order; `StrikesTally` and `StrikesWellformed` state it |
| Games.Shelled | main.py:1106-1110 | the enemy-bullet pass keeps at most the bullets it had |
| Games.FirstTouch | main.py:1106-1107 | the index found is the first enemy bullet touching the box; none is found only when no bullet touches it |
| Games.UntouchedMembers | main.py:1106-1107 | the bullets `Untouched` keeps are exactly those not touching the box |
| Games.DamagedThenIgnored | main.py:460-463 | a second hit right after a first one changes nothing, because the first starts the invincibility |
| Games.ShelledAfterHit | main.py:1106-1110 | once a hit has made the player invincible, a further bullet is removed exactly when it touches the player and changes nothing else |
| Games.ShelledOutcome | main.py:1106-1110 | with no bullet touching the player nothing changes; otherwise the first touching bullet deals 20 damage (its result decides game over) and later hits are harmless, and the bullets kept are those before it and, after it, exactly those not touching the player where the hit left them |
| Games.ShelledVital | main.py:1106-1110 | after the enemy-bullet pass the player is still vital unless a hit used up the last life |
| Games.MauledVital | main.py:1113-1116 | after the melee pass the player is still vital unless a hit used up the last life |
| Games.Mauled | main.py:1113-1116 | the melee pass over the enemy group; `MauledOutcome` and `MauledVital` state it |
| Games.FirstContact | main.py:1113-1114 | the index found is a living enemy touching the box; none is found only when every enemy touching it is dying |
| Games.MauledOutcome | main.py:1113-1116 | the melee pass deals exactly one 15-point hit, with its game-over result, when some living enemy touches the player, and changes nothing otherwise |
| Games.Boosted | main.py:1122-1127 | the spread and rapid pickups set the weapon; health becomes `min(max_health, health + 30)`; a life pickup adds one life; nothing else changes |
| Games.Collected | main.py:1119-1129 | picking up never moves the player |
| Games.CollectedTally | main.py:1119-1129 | every power-up collected is removed and adds 50 points, and pickups keep a vital player vital |
| Games.Boosts | main.py:1122-1128 | applying power-ups one after another never moves the player |
| Games.PickupSplit | main.py:1119-1120 | `Taken` holds exactly the power-ups touching the box and `Untaken` exactly the others, and together they account for every power-up |
| Games.CollectedOutcome | main.py:1119-1129 | the power-ups touching the player take effect in their order, each scores 50, and exactly the power-ups not touching the player are left, in their order |
| Games.Completed | main.py:1132-1134 | `level_complete` is set exactly when it was set or no living enemy remains, and nothing else changes |
| Games.TickGated | main.py:1066-1067 | a game that is over, paused or has finished its level does not change |
| Games.TickOutcome | main.py:1065-1134 | after a running tick the level is complete exactly when every remaining enemy is dying; the score never falls; the level number is kept |
| Games.TickKeepsLevel | main.py:1065-1134 | a tick never changes the level number |
| Games.TickVital | main.py:1065-1134 | a tick keeps the player vital unless the game is over |
| Games.Tick | main.py:1065-1134 | `Game.update` as a value: gated by the flags, then the movement half (`Moved`) and the collision half (`Fought`); `TickGated`, `TickOutcome`, `TickKeepsLevel` and `TickVital` state it |
| Games.AdvancedKeeps | main.py:1028-1039 | the next level has number one higher; health, lives and score are kept; the player is at (100, 450) with the normal gun; no bullet, enemy bullet or explosion remains; the level is not complete |
| Games.Advanced | main.py:1028-1039 | `next_level` as a value: the next level is generated from the session's generator and entered; `AdvancedKeeps` states it |
| Games.Entered | main.py:1029-1039 | entering a generated level: the level number goes up by one, the player is respawned with the normal gun and everything in flight is cleared; `AdvancedKeeps` states it |
| Games.KeyStepLevel | main.py:1041-1063 | no key makes the level number drop below 1 |
| Games.ReturnToMenuOnlyByEscape | main.py:1058-1062 | a key asks for the menu exactly when it is Escape while paused or over |
| Games.PauseToggles | main.py:1056-1057 | pressing P twice gives back the same game |
| Games.KeyStep | main.py:1045-1062 | one `KEYDOWN`: R restarts only after game over, Return advances only once the level is complete, the other keys follow `PlayStep`; `KeyStepOutcome` states each case and `KeyStepLevel` the level bound |
| Games.KeyStepOutcome | main.py:1046-1062 | Space jumps and Z shoots even while paused or over; P flips the pause flag and nothing else; Escape pauses a running game and only asks for the menu when paused or over; R leaves a live game unchanged and turns a lost one into a new game on level 1 with score 0 and the same character; Return leaves an unfinished level unchanged and moves a completed one to the next level, score kept |
| Games.PlayStep | main.py:1046-1062 | Space jumps and Z shoots, paused or not; P toggles the pause, Escape asks for the menu while paused or over and pauses otherwise; `KeyStepOutcome`, `ReturnToMenuOnlyByEscape` and `PauseToggles` state it |
| Games.Handled | main.py:1041-1063 | event handling keeps the level number at least 1 |
| Games.HandledRunning | main.py:1041-1063 | the loop keeps running exactly when no window-close event was queued |
| Games.NoneLiving | main.py:1132-1133 | no living enemy is counted exactly when every enemy is dying |
| Games.StepAll | main.py:1077-1080 | the loop over the enemy group updates every enemy once and keeps those not removed, in order; the result is `EnemiesStepped` |
| Games.FindTarget | main.py:1096-1097 | the inner loop finds `Target` |
| Games.StrikeFrom | main.py:1095-1103 | one bullet's effect does not depend on what earlier bullets did |
| Games.StrikeOne | main.py:1096-1103 | one bullet's pass over the enemies computes `Strike` |
| Games.StrikeAll | main.py:1095-1103 | the loop over the bullets computes `StrikesOf` |
| Games.FireAt | main.py:1106-1110 | the loop over the enemy bullets computes `Shelled` |
| Games.Maul | main.py:1113-1116 | the loop over the enemies computes `Mauled` |
| Games.Collect | main.py:1119-1129 | the loop over the power-ups computes `Collected` |
| Games.AliveOf | main.py:1132 | the list of living enemies has the living count and holds only living enemies of the group |
| Games.Start | main.py:1259 | `Game(character)` builds `NewGame` with fresh objects, drawing level 1 from the generator |
| Games.Game.constructor | main.py:1008-1026 | the game starts on the given first level with a new player and camera |
| Games.Game.Reset | main.py:1008-1026 | the fields of a new game are set |
| Games.Game.Restart | main.py:1052-1053 | restarting gives a new game with the same character on a freshly generated level 1 |
| Games.Game.Begin | main.py:1008-1026 | the new game's player and camera are created on the given level |
| Games.Game.NextLevel | main.py:1028-1039 | `next_level` produces `Advanced`, whose properties `AdvancedKeeps` states |
| Games.Game.Enter | main.py:1029-1039 | the new level and camera are in place, nothing is in flight, and the level is not complete |
| Games.Game.Press | main.py:1045-1062 | one key's handling follows `KeyStep` |
| Games.Game.Retry | main.py:1052-1053 | R restarts only after game over |
| Games.Game.Proceed | main.py:1054-1055 | Return goes to the next level only once the level is complete |
| Games.Game.Play | main.py:1046-1062 | Space, Z, P and Escape follow `PlayStep` |
| Games.Game.HandleEvents | main.py:1041-1063 | the event loop follows `Handled` |
| Games.Game.Update | main.py:1065-1134 | one update follows `Tick`; enemies are only ever removed |
| Games.PlayerMoved | main.py:1069-1070 | the player's update, then the camera follows it |
| Games.Struck | main.py:1094-1103 | the bullet pass on the game: `StrikesOf`, its explosions and points added |
| Games.FiredUpon | main.py:1105-1110 | the enemy-bullet pass on the game; game over if it used the last life |
| Games.Meleed | main.py:1112-1116 | the melee pass on the game; game over if it used the last life |
| Games.PickedUp | main.py:1118-1129 | the pickup pass on the game, with its points added |
| Games.Fought | main.py:1094-1134 | the bullet, enemy-bullet, melee and pickup passes, then the completion test, in source order |
| Games.Game.Fight | main.py:1094-1134 | the collision passes, pickups and completion test follow `Fought` |
| Games.Game.Move | main.py:1069-1092 | the movement half follows `Moved` |
| Games.Game.MovePlayer | main.py:1069-1070 | the player moves and the camera follows |
| Games.Game.MoveBullets | main.py:1073-1074 | the bullet group updates |
| Games.Game.MoveEffects | main.py:1083-1092 | the enemy bullets and explosions update |
| Games.Game.StepEnemies | main.py:1077-1080 | the enemy group updates |
| Games.Game.ResolveHits | main.py:1095-1103 | the bullet pass follows `Struck` |
| Games.Game.ResolveFire | main.py:1106-1110 | the enemy-bullet pass follows `FiredUpon` |
| Games.Game.ResolveMelee | main.py:1113-1116 | the melee pass follows `Meleed` |
| Games.Game.CollectPowerUps | main.py:1119-1129 | the pickup pass follows `PickedUp` |
| Games.Game.CheckCompletion | main.py:1132-1134 | the completion test follows `Completed` |
| Menus.NewMenu | main.py:112-121 | the menu starts on 'Start Game', not on the character screen, with character 1 |
| Menus.MenuKeyOk | main.py:143-170 | the highlight stays on one of the three items, and the character stays 1 or 2 |
| Menus.MenuHandledOk | main.py:139-171 | the same holds over a whole event queue |
| Menus.UpDownInverse | main.py:157-161 | Down undoes Up, and Up undoes Down |
| Menus.DownCycles | main.py:160-161 | three Downs come back to the same item |
| Menus.MenuKeyOutcome | main.py:163-170 | a key starts the game exactly when it is Return on 'Start Game', and quits exactly when it is Return on 'Quit'; either leaves the menu as it was |
| Menus.MenuKey | main.py:143-170 | one `KEYDOWN` on the menu; `MenuNavigation`, `MenuKeyOk`, `UpDownInverse`, `DownCycles`, `MenuKeyOutcome` and `CharacterChoice` state it |
| Menus.MenuNavigation | main.py:143-168 | Down moves to the next item and wraps from 'Quit' to 'Start Game', Up moves back and wraps the other way, Return on 'Select Character' opens the character screen, and there Return and Escape close it with the character kept |
| Menus.MenuHandled | main.py:139-171 | the menu's event loop, which stops at a window-close event or at the first key that starts or quits; `MenuHandledOk`, `StartFromFirstItem` and `QuitFromMenu` state it |
| Menus.CharacterChoice | main.py:144-150 | the character only changes on the character screen, to 1 with Left and to 2 with Right |
| Menus.StartFromFirstItem | main.py:139-171 | a queue only starts a game from 'Start Game' on the item list |
| Menus.QuitFromMenu | main.py:139-171 | the menu answers 'quit' only when the window was closed or Return was pressed on 'Quit' |
| Menus.MainMenu.constructor | main.py:112-121 | the object's state is `NewMenu` |
| Menus.MainMenu.Press | main.py:143-170 | one key's handling follows `MenuKey` |
| Menus.MainMenu.HandleEvents | main.py:139-171 | the event loop follows `MenuHandled` |
| Session.Looped | main.py:1253-1272 | one pass keeps the menu well formed and a game on a level drawing from the session's generator |
| Session.GameLooped | main.py:1263-1270 | a pass in game mode keeps the level number at least 1 |
| Session.Played | main.py:1253-1272 | the loop keeps those invariants and stops on its first pass when not running |
| Session.GameStart | main.py:1258-1260 | a game is only created by 'start', from 'Start Game', as a new level-1 game with the menu's chosen character |
| Session.MenuWaitsForGame | main.py:1263-1267 | while a game runs the menu is untouched, and the game is dropped exactly when it asked for the menu |
| Session.Stopping | main.py:1253-1264 | the loop stops exactly when the window is closed in a game or the menu answers 'quit'; without a window-close event that means 'Quit' was chosen |
| Session.Run | main.py:1247-1275 | `main`, over a finite sequence of frames, computes `Played` |
| Session.MenuFrame | main.py:1254-1261 | a menu pass follows `Looped` |
| Session.GameFrame | main.py:1263-1270 | a game pass follows `GameLooped` |

## Left out

- Rendering: every `draw*` method, `draw_hud`, `draw_overlay`, `draw_ground`, `Background`, and the tile building of `Platform`.
- Assets and sound: image, sound and tile loading, `SoundManager`, and the animation caches.
- Projectiles.Bullet.Box: the bullet's hit and culling box is the 12 x 6 px surface `Bullet.__init__` falls back to when `Kunai.png` cannot be loaded (main.py:507). With the image the box is the 30 x 10 px kunai, and larger once rotated for a +-15 degree shot, so the source culls bullets at the edges and hits enemies slightly sooner than the model does. Image loading is not modelled.
  Sound cues are ignored. The enemy's sprite-set choice is kept only as a draw from the generator, with the value it picks recorded.
- `AnimatedSprite` frame timing and the choice of sprite image, because they depend on the wall clock and only affect drawing.
  The `moving` flag is kept. The death animation's length (12 frames of 5 ticks) is a constant.
- `clock.tick`, `pygame.event.get` and `key.get_pressed`: the events and held keys of each frame are parameters.
- Session.Run: models `main` over a finite sequence of frames, since the real loop runs until the window is closed.
- Floating point:
  - Positions and speeds are exact integers in tenths of a pixel.
  - pygame's `Rect` truncation of fractional values is not reproduced.
  - The spread gun's cos/sin velocities for +-15 degrees are rounded to the nearest tenth of a pixel (11.6 and 3.1 px).
  - A bullet's box is centred on its exact position.
- The power-up bob: the integer part of `sin(t) * 0.5` is always 0, so power-ups never move.
- Background decoration draws from the generator: they belong to rendering, so the generator positions in the model skip them.
- Levels.Generate: the enemy objects are created after all of the level's draws rather than one by one inside the loop. The draws, and their order and values, are the source's; only the allocation order differs.
- Enemy shooting: `Enemy.update` never returns a bullet, so no enemy bullet is ever created. The enemy-bullet rules are modelled for the bullets themselves. The shoot timer is drawn and kept but never used.
- `Level.theme` only selects tiles and decorations; it is kept as a value.
- Concurrency and the process exit at the end of `main` are not modelled.
