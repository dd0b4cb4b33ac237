# Tank Battle game rules in Dafny

This project models the rules layer of *Tank Battle*, a two-player tank game
written in Rust on the Bevy engine, together with the Python script that packs
the enemy-birth animation frames into a sprite sheet. Rendering, physics,
audio and the ECS plumbing are left aside. What remains is a set of small
sequential rules over integers, booleans, sets and maps, which the model
states and proves. Those rules cover:

- the three-entry menus and the game-state machine with its enter/exit hooks;
- frame stepping of the sprite animations;
- "one live bullet per tank" bookkeeping (`CanFire`, `BulletOwners`);
- the bullet/tank and bullet/terrain outcome tables;
- enemy-wave counting and stage completion;
- the laser charge state machine;
- the terrain codec and the level grid;
- the defaults and text formatters of the resources.

Each source file becomes one module. `src/main.rs` is split into four by
concern.

| module | file | models |
|---|---|---|
| `Wrappers` | wrappers.dfy | `Option` |
| `Keys` | keys.dfy | the keyboard keys the rules read |
| `Resources` | resources.dfy | `src/resources.rs`: counters, player statistics, defaults |
| `Constants` | constants.dfy | `src/constants.rs`: geometry, `DIRECTIONS`, `GameState`, text formatters, UI tables |
| `TerrainMap` | map.dfy | `src/map.rs`: `TerrainType` codec, grid ↔ world mapping |
| `Levels` | levels.dfy | `src/levels.rs`: `LEVEL_1`, `get_level` |
| `SpriteSheet` | sprite_sheet.dfy | `process_enemy_born.py`: frame selection, layout, a `Canvas` class over an `array2` |
| `Animation` | animation.dfy | looping, one-shot and birth animation steps of `src/main.rs` |
| `Steering` | steering.dfy | `get_blocked_direction` / `choose_available_direction` of `src/main.rs` |
| `Bullets` | bullet.dfy | `src/bullet.rs` and the bullet systems of `src/main.rs`: `BulletBook` and `Battle` classes |
| `Laser` | laser.dfy | `src/laser.rs`: the `LaserSystem` class |
| `Session` | session.dfy | menus, state hooks, enemy wave, power-ups and game-over delay of `src/main.rs`: the `Game` class |

The engine runs each system once per frame, and three engine behaviours shape
the model:

- Commands (spawn, despawn, insert) are deferred, so queries see the world as
  it was at the start of the frame. Snapshots such as `Bullets.World` and
  `soundsAtStart` are parameters of the methods.
- `NextState::set` is last-wins. It is applied at the start of the next frame,
  after the old state's `OnExit` hook and before the new state's `OnEnter`
  hook.
- `std::process::exit` becomes an `exited` flag.

The following become parameters:

- timers become "just finished" booleans, or millisecond ticks for the laser
  charge;
- random draws become booleans or indices;
- collision contacts and "near" tests become input events and predicates;
- image decoding and resizing become functions.

Where the source panics, the model returns `None` or sets `crashed`. That
covers an `unreachable!` and an unsigned subtraction below zero; the latter
panics only in a build with overflow checks (the default debug profile), and a
release build wraps instead (see "## Left out").

The Rust files are at different refactor stages. Where they disagree, each
file's rules are modelled as that file writes them. Two examples:

- `src/laser.rs` looks players up by `TankType`, so `Laser.LaserSystem.players`
  is a map.
- `src/main.rs` looks them up by index, so the other modules use a sequence.

## Model

| member | source | states |
|---|---|---|
| Resources.InitialStats | src/main.rs:718-733 | a freshly pushed player has speed, fire speed and protection 40, one shell, no effects, life 3, energy 100, score 0 |
| Resources.DefaultsConsistent | src/resources.rs:30-66 | `EnemyCount` defaults to 0 spawned, 20 maximum, 0 live; menu index 0 lies in the three-entry menu; stage level 1 |
| Constants.DerivedGeometry | src/constants.rs:12-36 | window 2060×1300, vertical offset −50, map extents equal the map width and height, map inside the window |
| Constants.BornPlacesInsideMap | src/constants.rs:39-43 | each enemy birth place keeps a tank inside the map, touching the top edge |
| Constants.DirectionsAreTheFourAxes | src/constants.rs:51-56 | `DIRECTIONS` holds four distinct axis unit vectors, and every axis unit vector is among them |
| Constants.PowerUpTexturePath | src/constants.rs:599-606 | each power-up texture lives under `power_up/` |
| Constants.PowerUpTexturePathInjective | src/constants.rs:599-606 | distinct power-ups have distinct texture paths |
| Constants.NatToString | src/constants.rs:112-118 | the decimal rendering of a number is a non-empty digit string without leading zero |
| Constants.ParseNatToString | src/constants.rs:112-118 | reading the rendered digits back gives the number |
| Constants.NatToStringInjective | src/constants.rs:112-118 | distinct numbers render differently |
| Constants.PercentText | src/constants.rs:112-146 | a percentage stat renders as `<Name>:MAX` exactly when it is at least 100, else `<Name>:<v>%` |
| Constants.OnOff | src/constants.rs:158-179 | an effect flag renders `On` exactly when set and `Off` exactly when clear |
| Constants.SpeedTextShowsValue | src/constants.rs:106-118 | the speed line reads `Speed:MAX` iff speed ≥ 100, and otherwise its digits parse back to the speed |
| Constants.PlayerColumn | src/constants.rs:102-226 | a player's UI column has 14 entries, all at the column's x position |
| Constants.UiColumnsOnTheirSides | src/constants.rs:102-341 | every player-1 UI entry is left of centre and every player-2 entry right of it |
| TerrainMap.Discriminant | src/map.rs:7-20 | discriminants run from 0 to 5 |
| TerrainMap.FromU8 | src/map.rs:24-34 | codes 0..5 decode to the variant with that discriminant; every larger code decodes to `Empty` |
| TerrainMap.FromU8Discriminant | src/map.rs:24-34 | decoding a variant's own discriminant gives the variant back |
| TerrainMap.FromU8Injective | src/map.rs:24-34 | distinct codes up to 5 decode to distinct variants |
| TerrainMap.TexturePath | src/map.rs:37-46 | the path is empty exactly for `Empty` |
| TerrainMap.TexturePathInjective | src/map.rs:37-46 | distinct variants have distinct texture paths |
| TerrainMap.GridToWorld | src/map.rs:55-59 | cell (r, c) maps to its centre: 100c + 50 right of the map's left edge and 100r + 50 below its top |
| TerrainMap.CastToUsize | src/map.rs:62-65 | the float-to-usize cast truncates non-negative values and saturates negative ones at 0 |
| TerrainMap.WorldToGridInsideCell | src/map.rs:62-65 | every point strictly inside a cell maps to that cell |
| TerrainMap.GridRoundTrip | src/map.rs:55-65 | `world_to_grid(grid_to_world(r, c)) == (r, c)` on the 12×16 grid |
| TerrainMap.GridSpansMap | src/map.rs:50-52 | 16 columns and 12 rows of 100 units span exactly the map width and height |
| Levels.DecodeGrid | src/levels.rs:6-89 | the decoded table has the code table's shape, cell by cell `from_u8` of the code |
| Levels.GetLevel | src/levels.rs:92-97 | every level number, 1 and all others, yields `LEVEL_1` |
| Levels.Level1HasNoBarrier | src/levels.rs:16-89 | every `LEVEL_1` code is at most 4, so the level has no barrier |
| Levels.Level1TopRowEmpty | src/levels.rs:17-22 | the top row of `LEVEL_1` is empty, so the enemy birth cells are free |
| SpriteSheet.PngNames | process_enemy_born.py:17 | exactly the listed names ending in `.png` are kept, with no new names |
| SpriteSheet.Insert | process_enemy_born.py:17 | insertion adds exactly one element to the multiset |
| SpriteSheet.InsertSorted | process_enemy_born.py:17 | inserting into a sorted list keeps it sorted |
| SpriteSheet.SortNames | process_enemy_born.py:17 | sorting permutes its input |
| SpriteSheet.SortNamesSorted | process_enemy_born.py:17 | the result is in lexicographic order |
| SpriteSheet.SortedUnique | process_enemy_born.py:17 | two sorted permutations of the same names are equal, so the frame order is determined |
| SpriteSheet.LexLeTotal | process_enemy_born.py:17 | any two names are comparable |
| SpriteSheet.SelectFramesSpec | process_enemy_born.py:17-21 | the frames are the `.png` names in sorted order, and there are none exactly when no listed name ends in `.png` |
| SpriteSheet.Rows | process_enemy_born.py:37-39 | `rows = ceil(n / 4)`: `(rows − 1)·4 < n ≤ rows·4` for n ≥ 1, and 0 rows for 0 frames |
| SpriteSheet.RowsIsCeiling | process_enemy_born.py:37-39 | no smaller row count holds n frames |
| SpriteSheet.CellAtIff | process_enemy_born.py:45-48 | a sheet pixel lies in tile i's rectangle exactly when its cell index is i |
| SpriteSheet.CellInsideSheet | process_enemy_born.py:42-48 | tile i's 87×87 rectangle at `((i mod 4)·87, (i div 4)·87)` lies inside the `4·87 × rows·87` sheet |
| SpriteSheet.CellsDisjoint | process_enemy_born.py:45-48 | rectangles of distinct tiles share no pixel |
| SpriteSheet.CellsCoverSheet | process_enemy_born.py:42-48 | every sheet pixel belongs to some cell below `rows·4` |
| SpriteSheet.TileAppearsInItsCell | process_enemy_born.py:45-48 | after all pastes, tile i's pixel (dy, dx) sits at its cell offset |
| SpriteSheet.UnusedCellsTransparent | process_enemy_born.py:42-45 | cells with index ≥ n keep the transparent fill |
| SpriteSheet.LayoutFor | process_enemy_born.py:37-42 | the sheet is exactly `cols·87 × rows·87`, and the rows hold all frames with less than one row spare |
| SpriteSheet.TenFrameLayout | process_enemy_born.py:37-48 | ten frames give a 348×261 sheet in 3 rows, with frames 8 and 9 on the third row |
| SpriteSheet.AtlasFramesInFourRows | process_enemy_born.py:38-39 | frames 0..15 fall inside the four rows the game's 4×4 atlas reads |
| SpriteSheet.Canvas.constructor | process_enemy_born.py:42 | a new canvas of the given size is transparent everywhere |
| SpriteSheet.Canvas.Paste | process_enemy_born.py:48 | pasting writes the image's pixels inside its clipped rectangle and leaves every other pixel unchanged |
| SpriteSheet.Resized | process_enemy_born.py:26-33 | one resized frame per file |
| SpriteSheet.ResizeFrames | process_enemy_born.py:26-33 | the frames are the resized images in file order; otherwise the file reported is the first one in order that fails to decode |
| SpriteSheet.PasteAll | process_enemy_born.py:45-48 | after the paste loop every sheet pixel is the pixel of the tile whose cell holds it, or transparent |
| SpriteSheet.ProcessImages | process_enemy_born.py:15-52 | no `.png` file: nothing is created or saved; a decode failure names the first sorted `.png` file that fails; otherwise the saved sheet has the computed layout and holds frame i in cell i |
| Animation.LoopFrameInRange | src/main.rs:892-897 | a looping step keeps the frame within `[first, last]` |
| Animation.LoopAfterIsModular | src/main.rs:1461-1465 | n looping steps advance the frame by n modulo the animation's length |
| Animation.LoopPeriod | src/main.rs:1685-1689 | a looping animation returns to a frame exactly after a multiple of its length |
| Animation.PlayerTankFrame | src/main.rs:1479-1500 | a standing player tank shows its last frame; a moving one takes a looping step when its timer just finished and keeps its frame otherwise, staying in range |
| Animation.OneShotStep | src/main.rs:1696-1715 | an explosion despawns exactly at or past its last frame, and otherwise shows the next frame |
| Animation.OneShotShowsEveryFrame | src/main.rs:1696-1715 | started on a frame, an explosion shows each remaining frame once before it despawns |
| Animation.SpawnFrame | src/main.rs:1535-1536 | the spawn frame `first + (last − first + 1)/2` lies after the first frame and not past the last |
| Animation.BornStep | src/main.rs:1534-1548 | a birth animation despawns exactly at or past its last frame; a tank spawns exactly when the next frame is the spawn frame |
| Animation.BornSpawnsExactlyOnce | src/main.rs:1534-1594 | a birth animation before its spawn frame spawns exactly one tank before it goes, none after |
| Animation.EnemyBornSpawnsOnFrameSix | src/main.rs:455-459 | the game's 0..12 birth animation spawns its tank on frame 6, exactly once |
| Steering.BlockedDirection | src/main.rs:934-951 | the blocked direction is one of `DIRECTIONS`: along the dominant axis of the normal (ties vertical), pointing the normal's way |
| Steering.BlockedDirectionFacesNormal | src/main.rs:934-951 | no direction has a larger dot product with the normal than the blocked one |
| Steering.Available | src/main.rs:954-958 | the free directions are exactly the table's directions other than the blocked one |
| Steering.AvailableSize | src/main.rs:954-962 | three directions stay free, so the empty fallback never runs |
| Steering.ChooseAvailable | src/main.rs:953-967 | the chosen heading is a table direction other than the blocked one |
| Steering.TurnAvoidsObstacle | src/main.rs:953-967 | after a bump the enemy never heads into the obstacle, and each other direction can be drawn |
| Bullets.FindBulletAndTank | src/bullet.rs:207-222 | returns (bullet, tank) in whichever order the pair arrived, and `None` exactly when neither order is a bullet and a tank |
| Bullets.FindBulletAndTankSymmetric | src/main.rs:1170-1184 | swapping the colliding entities does not change the answer |
| Bullets.ShouldBulletDestroyIffOpposing | src/bullet.rs:225-242 | a bullet destroys iff a player bullet meets an enemy tank or an enemy bullet meets a player tank |
| Bullets.ShootKey | src/bullet.rs:121-134 | only player indices 0 and 1 have a shoot key |
| Bullets.MainShootTriggered | src/main.rs:1856-1861 | index 0 fires exactly on J; every other index fires exactly on Digit 1 or Numpad 1; it agrees with `ShootKey` for both players |
| Bullets.BulletBook.constructor | src/resources.rs:6-12 | `CanFire` and `BulletOwners` start empty |
| Bullets.BulletBook.AddTank | src/main.rs:1591 | a newly spawned tank joins `CanFire` |
| Bullets.BulletBook.GatedShoot | src/bullet.rs:67-110 | a gated shot fires iff the tank is in `CanFire` and the draw (or key) says so; then it leaves `CanFire` and owns the new bullet; the one-bullet invariant is kept |
| Bullets.BulletBook.EnemyShootAll | src/main.rs:1087-1139 | after a frame of enemy shots, exactly the firing tanks have left `CanFire` and own their new bullets; old entries are kept |
| Bullets.BulletBook.PlayerShoot | src/bullet.rs:112-176 | a player fires iff not rotating, index 0 or 1 with its key held, no live bullet of its own, and a statistics entry; `CanFire` untouched |
| Bullets.BulletBook.Cleanup | src/bullet.rs:193-204 | removed bullets lose their entries and exactly their owners rejoin `CanFire`; unknown bullets change nothing |
| Bullets.TerrainRemoval | src/bullet.rs:263-365 | brick and bullet both go; steel falls only to a penetrating player bullet; a forest burns only under a fire-shell player bullet, which flies on |
| Bullets.ScanTerrain | src/bullet.rs:257-365 | the nested scan collects exactly the pieces some bullet destroys and the bullets some piece stops |
| Bullets.TerrainCollisions | src/bullet.rs:245-365 | forest, brick and steel results and the stopped bullets, each exactly as the outcome table says |
| Bullets.PlainHit | src/main.rs:1337-1348 | a hit takes one life, saturating at 0, and destroys the tank exactly at 0; nothing else changes |
| Bullets.ShieldedHit | src/bullet.rs:462-517 | with effects, a hit removes one flag in the order fire shell, track chain, penetrate and keeps the life; without, it is a plain hit |
| Bullets.PlainHitsLife | src/main.rs:1337-1348 | n plain hits leave `max(life − n, 0)` |
| Bullets.ShieldedHitsLife | src/bullet.rs:462-517 | the effects absorb the first hits; the rest cost life, saturating at 0 |
| Bullets.FreshPlayerDiesOnThirdHit | src/bullet.rs:462-517 | a fresh player survives two hits and is destroyed by the third |
| Bullets.KillEnemy | src/bullet.rs:415-447 | a kill takes one live enemy and starts a birth while fewer than the maximum were started; `None` when the live count is already 0 |
| Bullets.KillKeepsCountValid | src/main.rs:1313-1321 | a kill never lets more than the maximum be started |
| Bullets.HitRule | src/bullet.rs:462-517 | without shields, or with no effect left, a hit is `PlainHit`; with an effect it never destroys and keeps the life; the score is untouched |
| Bullets.CollideRule | src/main.rs:1276-1368 | no pair or a same-side contact changes nothing; a player bullet on an enemy aborts iff no enemy is on the books, and otherwise takes one live enemy, starts a birth iff fewer than the maximum were started, gives the shooter 100 points and despawns tank and bullet; an enemy bullet on a player applies `HitRule` to that player and, when destroyed, despawns the tank, marks the avatar dead and (src/main.rs only) starts a game-over timer; the bullet always goes; at most `maxCount` enemies are ever started |
| Bullets.CollideAllTally | src/bullet.rs:384-523 | over a frame's events: the live count drops by exactly the kills unless the game aborted, every birth counts as spawned, the spawn bound holds, scores never drop and nothing despawned comes back |
| Bullets.Battle.constructor | src/main.rs:1260-1275 | a collision handler starts from the given counters and players, with nothing despawned |
| Bullets.Battle.Collide | src/main.rs:1260-1370 | the handler's new state is `CollideRule` of its old state, and it reports a kill exactly for a player bullet meeting an enemy tank |
| Bullets.Battle.CollideAll | src/bullet.rs:369-525 | the new state is `CollideRule` folded over the frame's events up to the first abort, and the kills returned are those of the fold |
| Laser.LaserTexture | src/laser.rs:27-31 | player 1 fires blue, player 2 red; the enemy owner is the unreachable arm |
| Laser.LaserKey | src/laser.rs:96-100 | L for player 1, Numpad 3 for player 2, none for an enemy |
| Laser.InterruptKeys | src/laser.rs:106-120 | each player's movement and shoot keys interrupt, and the laser key does not |
| Laser.TickCharge | src/laser.rs:152-192 | the once-timer grows by the delta up to 4 s, and the tick that reaches 4 s is the one that just finished |
| Laser.ChargedAfter | src/laser.rs:179 | the charged time never exceeds 4 s |
| Laser.ChargeProgress | src/laser.rs:179-192 | after n ticks of `delta` the charge holds `min(n·delta, 4000)` ms, and the n-th tick finishes iff `(n−1)·delta < 4000 ≤ n·delta` |
| Laser.EndChargeRule | src/laser.rs:122-136 | ending a charge removes the component, exactly the progress bars of this tank and every charge sound of the frame; players, lasers and entity numbers are kept |
| Laser.StepRule | src/laser.rs:89-269 | skipped exactly for a turning tank, an enemy, or a player neither charging nor able to start; an interrupt key ends a running charge; a charge starts iff the key is held, none runs and energy ≥ 3, spawning a sound and a bar; a held charge ticks and fires exactly on the tick that finishes the 4 s timer, emptying the energy bar and ending the charge; releasing cancels; the state invariant is kept |
| Laser.FrameRule | src/laser.rs:89 | a frame keeps the state invariant: no charge or laser belongs to an enemy |
| Laser.FrameAppendsLasers | src/laser.rs:77-271 | over a frame lasers are only appended, each owned by a tank of the frame, the players stay the same and no energy bar grows |
| Laser.HoldFrames | src/laser.rs:138-234 | repeated turns of one tank keep the state invariant |
| Laser.HeldChargeFires | src/laser.rs:175-234 | holding the key from a fresh charge: before 4 s the charge holds n·delta ms and nothing else changes; on the frame that reaches 4 s the laser fires, the energy bar empties and the charge is gone |
| Laser.LaserSystem.constructor | src/laser.rs:77-89 | no charge, bar, sound or laser at the start |
| Laser.LaserSystem.EndCharge | src/laser.rs:122-136 | the new state is `EndChargeRule` of the old one |
| Laser.LaserSystem.Step | src/laser.rs:89-269 | result and new state are `StepRule` of the old state |
| Laser.LaserSystem.Frame | src/laser.rs:77-271 | for a query that yields each tank once, the new state is `FrameRule` of the old one with the frame's starting sounds |
| Session.StartMenuUp | src/main.rs:854-860 | W keeps the index in 0..2 and wraps 0 to 2 |
| Session.GameOverMenuUp | src/main.rs:2407-2413 | the game-over screen's W is the start screen's W |
| Session.MenuDown | src/main.rs:862-864 | S keeps the index in 0..2 and wraps 2 to 0 |
| Session.MenuMovesInverse | src/main.rs:854-864 | on the three entries W and S undo each other |
| Session.MenuAfterKeys | src/main.rs:2407-2417 | one frame's W and S keep the index in range, and cancel out when pressed together |
| Session.StartConfirm | src/main.rs:866-878 | entries 0 and 1 fade out to the first stage, 2 quits, anything else is ignored |
| Session.StartMode | src/main.rs:868-875 | entry 1 picks two players, the others one |
| Session.GameOverConfirm | src/main.rs:2419-2435 | 0 restarts play, 1 returns to the start screen, 2 quits, anything else is ignored |
| Session.EmptyWave | src/main.rs:2457-2458 | cleared counters are consistent with an empty field |
| Session.SpawnWave | src/main.rs:834-836 | entering play adds three births and sets 3 spawned, 0 live; consistent from an empty field, inconsistent if enemies remain |
| Session.HatchWave | src/main.rs:1546-1594 | a birth reaching its spawn frame turns one pending enemy into a live one and keeps the counters consistent |
| Session.KillWave | src/main.rs:1300-1321 | a kill aborts iff `current_enemies` is 0; from consistent counters it never aborts and adds one kill |
| Session.StageCompleteIffAllKilled | src/main.rs:2467-2478 | the corrected completion test holds exactly when the stage's 20 enemies are all killed |
| Session.StageEndsBeforeLastEnemy | src/main.rs:2473 | the completion test as written fires with the 20th enemy still in its birth animation, after 19 kills |
| Session.RemainingShown | src/main.rs:1439-1450 | the enemy counter shows `max − spawned + enemy tanks`, and underflows only if more than the maximum were started |
| Session.RemainingShownCountsDown | src/main.rs:1445 | the counter shows the enemies still to kill minus those pending in a birth animation |
| Session.NewPlayers | src/main.rs:714-790 | one player pushes player 1's initial statistics; two players push both |
| Session.SpeedBoost | src/main.rs:1398-1401 | a power-up adds 20 while the speed is below 100 and does nothing after |
| Session.BoostedSpeed | src/main.rs:1398-1401 | from 40, n power-ups give `min(40 + 20n, 100)`: three reach the cap |
| Session.NewPlayersSpeedsValid | src/main.rs:714-790 | players pushed on entering play start at a valid speed |
| Session.CleanupPlaying | src/main.rs:2444-2465 | full cleanup: stage back to 1, player list cleared, counters zeroed with an empty field |
| Session.ResetForNextStage | src/main.rs:2480-2493 | next-stage reset zeroes the counters with an empty field and keeps the stage and the players |
| Session.SpawnGameEntities | src/main.rs:679-840 | entering play appends the mode's new players to the list, which it never clears, and restarts the wave |
| Session.TransitionKeepsSettled | src/main.rs:83-98 | every state change some system requests, with the corrected resume, keeps the wave consistent and the field empty outside play |
| Session.ResumeThenKillAborts | src/main.rs:89 | as registered, resuming from pause resets `current_enemies` under two live enemies, so the next kill underflows |
| Session.ResumeKeepsGame | src/main.rs:2304-2305 | with the corrected hook, resuming leaves the game as it was, and a kill can never underflow |
| Session.CountTrue | src/main.rs:1736-1750 | the number of finished timers is zero exactly when none finished |
| Session.Game.constructor | src/resources.rs:30-66 | the session starts on the start screen with the resources' defaults |
| Session.Game.StartScreenInput | src/main.rs:842-880 | Escape quits at once; otherwise W then S move the selection, and Space applies `StartConfirm`, setting the mode and requesting the fade-out |
| Session.Game.GameOverInput | src/main.rs:2401-2436 | W then S move the selection, and Space applies `GameOverConfirm` |
| Session.Game.GameInput | src/main.rs:2284-2296 | Space requests the pause menu, Escape quits |
| Session.Game.PauseInput | src/main.rs:2298-2314 | Space requests play, B the start screen (last request wins), Escape quits |
| Session.Game.FadeOutFinished | src/main.rs:2058-2061 | a finished fade requests the stage intro; the selection, mode and exit flag are unchanged |
| Session.Game.StageIntroFinished | src/main.rs:2018-2021 | a finished intro requests play; the selection, mode and exit flag are unchanged |
| Session.Game.ApplyTransition | src/main.rs:83-98 | a pending request is entered after the exit and enter hooks have run on the progress; the session invariant is kept. This is the corrected program of the src/main.rs:89 finding: resuming from Paused does not re-run `spawn_game_entities` (see "## Findings") |
| Session.Game.Hatch | src/main.rs:1546-1594 | a hatch keeps the kill count and the invariant; the selection, mode and exit flag are unchanged |
| Session.Game.EnemyKilled | src/main.rs:1300-1321 | a kill adds exactly one to the kill count, without underflow; the selection, mode and exit flag are unchanged |
| Session.Game.CheckStageComplete | src/main.rs:2467-2478 | the stage completes exactly when all 20 enemies are killed; it then goes up by one and the stage intro is requested. This is the corrected test of the src/main.rs:2473 finding, which also waits for pending births (see "## Findings"); the selection, mode and exit flag are unchanged |
| Session.Game.PowerUp | src/main.rs:1372-1412 | a tank that touched a power-up gets `SpeedBoost` on its statistics entry, if any; speeds stay multiples of 20 up to 100; the selection, mode and exit flag are unchanged |
| Session.Game.GameOverDelay | src/main.rs:1731-1752 | every finished game-over timer goes; with no player tank left, one requests the game-over screen; the selection, mode and exit flag are unchanged |

## Left out

- Engine plumbing: window and asset setup, system registration (modelled only as the hook table in `Session.OnEnterAsWritten` and `Session.OnExit`), `main`, and every `spawn_*` function that only builds sprites, text or audio.
- Physics: contact extraction, colliders, movement, rotation easing, dashing and recoil. Contacts are input events; distance tests are the `near` predicate.
- Floating point: fade and blink alphas, health-bar and progress-bar widths, bullet and laser directions. The geometry constants are exact decimals and are modelled as `real`.
- TerrainMap.WorldToGridInsideCell: holds over the reals; the source computes in `f32`, whose rounding can put a point just inside a cell edge into the next cell (x = 799.99994 rounds to column 16), and that rounding is not modelled.
- Bullets.KillEnemy: the `current_enemies -= 1` below zero is modelled as an abort (`None`), as a build with overflow checks behaves; a release build wraps to `usize::MAX` instead, and that wrap is not modelled. The same holds for `Session.KillWave`, `Session.RemainingShown`, `Bullets.CollideRule` and `Session.ResumeThenKillAborts`.
- Randomness: the enemy shot chance, random turns, the respawn place and stage quotes are parameters.
- Timers: modelled as just-finished booleans, except the laser charge, which counts milliseconds.
- I/O of the packer script: directory listing, PIL decode, Lanczos resampling and PNG save. Resize is an abstract function returning an 87×87 tile; progress printing is not modelled.
- `check_bullet_commander_collision`, which is never registered.
- The enemy tank texture's double timer tick (`animate_enemy_tank_texture`) and the avatar and commander animations beyond their looping step.
- Score and stage overflow: `score` and the stage level are unbounded here; the source's `u32`/`usize` would wrap or abort only after billions of kills or stages.
- Session.Game.PowerUp: the power-up's despawn, its sound and the speed text's blink are not modelled; only the statistics change is.
- Session.Game.EnemyKilled: covers the wave counters only; the score and despawns of the same collision are stated by `Bullets.Battle.Collide`.
- Bullets.Battle.Collide: two bullets hitting the same enemy in one frame are both counted as kills, because despawns are deferred; the model processes the events as given and does not deduplicate them.
- Session.Game.ApplyTransition: the duplicate sprites, walls and UI that re-entering play spawns are not modelled; only the players list and counters are.
- Laser.LaserSystem.Step: progress-bar width, sounds' audio and the laser's flight are not modelled; the laser is recorded by owner only.
- Animation.PlayerTankFrame: a sprite without a texture atlas is skipped by the source and not modelled.

## Findings

| source | as written | input that shows it | evidently intended | confidence | as-written member | corrected member |
|---|---|---|---|---|---|---|
| src/main.rs:2473 | the stage completes when `total_spawned >= max_count && current_enemies == 0`, ignoring births still in their animation | 19 spawned, 1 live, none pending: killing it starts the 20th birth (20 spawned, 0 live, 1 pending) and the test passes after 19 kills | the stage completes only when all 20 enemies are killed | medium, not executed | Session.StageEndsBeforeLastEnemy | Session.StageCompleteIffAllKilled |
| src/main.rs:89 | `spawn_game_entities` runs on every entry to Playing, including resuming from Paused (src/main.rs:2304), and sets `current_enemies = 0` while enemies are alive | pause with 5 spawned and 2 live, resume: the counters read 3 spawned, 0 live; the next kill underflows `current_enemies -= 1` (src/main.rs:1304) | resuming leaves the game as it was | high, not executed | Session.ResumeThenKillAborts | Session.ResumeKeepsGame |
