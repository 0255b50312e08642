# Frogger game logic in Dafny

This project models the game logic of a browser Frogger clone: the
enemies that cross the road and wrap around, the player who hops on a
5-column board, scores at the far side and loses a life on each hit, the
five collectibles whose shared counter triggers a board-wide reset, the
engine's tick with its `gameOver` flag, and the two string helpers that
edit a CSS class list. Drawing, sound and the DOM are not part of it.

The project has four modules:

- `Utils` (`utils.dfy`) covers js/utils.js. `GetRandNums` is the
  insertion-sort loop that picks distinct indices. `WithClassAdded` and
  `WithClassRemoved` are the class-string edits of `addClass` and
  `removeClass`. They use JavaScript's `indexOf` and first-occurrence
  `replace`. `AddClass` and `RemoveClass` write the result back to an
  `Element`.
- `Rules` (`rules.dfy`) states the rules of js/app.js as functions on
  values: the inset hit-box test, the player's clamp / goal step, resets and
  hops, enemy motion and collisions, and collectible updates. It also has
  the folds `EnemiesTick` and `CollectiblesTick`. They update a list of
  entities one after the other, in list order.
- `App` (`app.dfy`) holds the classes `Enemy`, `Player` and `Collectible`
  with the fields the source updates in place. `CollectibleRegistry` holds
  the statics `Collectible.allCollectibles` and `Collectible.numCollected`.
  `World` holds the start-up code that creates the globals. Each method
  that has a matching `Rules` function is proved to move its objects exactly
  as that function says; `CheckCollected` and `SetRandomPos` state their
  effect in their own contracts.
- `Engine` (`engine.dfy`) covers js/engine.js. `GameEngine` holds the
  closure variables `gameOver` and `lastTime` and has the methods
  `update`, `updateEntities`, `endGame`, `reset`, `playGame` and one frame
  of `main`. The same tick is also a function on values, `Tick`, and the
  lemmas about a playable world are proved over it.

Random draws (`Math.floor(Math.random() * m)`) are parameters.
`IsFloorDraw(d, m)` constrains each one to the values it can take. So are
the timestamps of `Date.now()`. Coordinates are `real`.

## Model

| member | source | states |
|---|---|---|
| Utils.GetRandNums | js/utils.js:2-18 | returns exactly k pairwise distinct values for every k, which lie in [0, n) when k <= n and draw i lies in [0, n-i); the loop keeps `sorted` strictly ascending and a permutation of `selection` |
| Utils.InsertKeepsAscending | js/utils.js:8-15 | inserting the stepped-over draw where the smaller picks end keeps `sorted` strictly ascending, and the draw was not picked before |
| Utils.InsertKeepsElements | js/utils.js:15 | the splice into `sorted` adds exactly the new value to its multiset |
| Utils.IndexOf | js/utils.js:28 | `indexOf` gives -1 exactly when the pattern does not occur, and otherwise its first position |
| Utils.ReplaceFirst | js/utils.js:48 | string `replace` leaves a string without the pattern unchanged, and otherwise replaces only the first occurrence |
| Utils.WithClassAdded | js/utils.js:25-35 | a class string that already contains the class is unchanged; an empty one becomes the class; any other gets a space and the class appended |
| Utils.WithClassRemoved | js/utils.js:42-65 | the first of `" "+c`, `c+" "`, `c` that occurs is cut out at its first occurrence |
| Utils.AddedClassIsPresent | js/utils.js:25-35 | after `addClass` the class string contains the class |
| Utils.AddClassIdempotent | js/utils.js:25-35 | adding the same class twice gives the same string as adding it once |
| Utils.RemoveAbsentClass | js/utils.js:42-65 | removing a class that does not occur leaves the string unchanged |
| Utils.RemoveClassLength | js/utils.js:47-63 | a removal shortens the string by the length of the class plus one in the first two cases, and by the length of the class in the third |
| Utils.RemoveUndoesAdd | js/utils.js:25-65 | for a space-free class not yet in the string, `removeClass` undoes `addClass` |
| Utils.AddClass | js/utils.js:25-35 | the element's `className` becomes `WithClassAdded` of the old one |
| Utils.RemoveClass | js/utils.js:42-65 | the element's `className` becomes `WithClassRemoved` of the old one |
| Rules.Overlaps | js/app.js:54-57 | the player's inset box and the other sprite's inset box overlap strictly on both axes |
| Rules.PlayerBox | js/app.js:100-109 | the player's box is 101 by 171 at the player's position, with margins 17 left, 17 right, 64 top and 32 bottom |
| Rules.EnemyBox | js/app.js:10-19 | an enemy's box is 101 by 171 at the enemy's position, with margins 2 left, 3 right, 78 top and 28 bottom |
| Rules.ItemBox | js/app.js:277-287 | a collectible's box is 101 by 171 at the item's position, with margins 17 left, 17 right, 64 top and 32 bottom |
| Rules.SpriteBoxesMeet | js/app.js:54-57 | each box sits at its sprite's position with a visible part of positive size, so the player meets an enemy or a collectible exactly when their visible parts share a point |
| Rules.OverlapsIffSharedPoint | js/app.js:54-57 | the inset-box test holds exactly when the two non-empty inset boxes share a point |
| Rules.ResetPlayer | js/app.js:223-236 | the player goes to (202, 415); lives become 3 and score 0 only on a hard reset with no lives left, otherwise both are kept |
| Rules.HardResetOnlyWhenOut | js/app.js:232-235 | `reset(true)` differs from `reset(false)` only when lives are 0, and then only in lives 3 and score 0 |
| Rules.PlayerStep | js/app.js:186-203 | the first matching branch applies: x < 0 gives x = 0; otherwise x past 404 gives x = 404; otherwise y >= 435 gives y = 415; otherwise y <= 0 adds 100 to the score and sends the player to the start cell; otherwise nothing changes. Hence x ends in [0, 404] and lives never change |
| Rules.AllowedKey | js/app.js:424-433 | key codes 37 to 40 and only those map to a direction |
| Rules.MovePlayer | js/app.js:238-260 | left/right move x by 101, up/down move y by 85.5, no key changes nothing; lives and score are kept |
| Rules.HopUndone | js/app.js:238-260 | a hop followed by the opposite hop returns the player to where it was |
| Rules.EnemyMove | js/app.js:36-41 | x becomes x + speed*dt when that is at most 505 and -101 otherwise, so it is never past 505 |
| Rules.RandomSpeed | js/app.js:47-49 | the speed lies in [min, max] when min <= max, and in (max, min] otherwise |
| Rules.SetupSpeedRange | js/app.js:411 | with the start-up arguments (400, 100) the speed lies in [101, 400] |
| Rules.Collide | js/app.js:51-65 | a hit costs exactly one life and 25 points and puts the player on the start cell; a miss changes nothing |
| Rules.EnemyTick | js/app.js:31-45 | the enemy moves as `EnemyMove` says, then the player is tested against the moved enemy |
| Rules.EnemyTickEffect | js/app.js:31-45 | the moved enemy is never past 505, and the player loses a life, exactly one, precisely when the moved enemy's box overlaps the player's |
| Rules.EnemiesTick | js/engine.js:146-148 | every enemy moves as `EnemyMove` says, independently of the player |
| Rules.EnemiesTickPenalty | js/engine.js:146-148 | over the enemies' turn each life lost costs 25 points, at most one life per enemy is lost, an unhit player is unchanged and a hit one ends on the start cell |
| Rules.StartCellClear | js/app.js:54-57 | no enemy in one of the lanes at y = 62, 145, 228 touches a player on the start cell |
| Rules.AtMostOneHit | js/engine.js:146-148 | with every enemy in its lane, one round of enemy updates costs at most one life |
| Rules.CellX | js/app.js:312-314 | a collectible's x is one of 0, 101, 202, 303, 404 |
| Rules.CellY | js/app.js:311-315 | a collectible's y is one of 73, 244, 415 |
| Rules.ResetItems | js/app.js:299-306 | after `Collectible.reset` no item is collected, points are kept, every item is on the 5x3 grid and the count of collected items is 0 |
| Rules.CollectibleStep | js/app.js:332-368 | with the counter at 5 every item is put back on the grid by `ResetItems` (points kept, none collected), the counter is 0 and the player is untouched; otherwise only item i can change: a collected one is parked at (-101, -171), an uncollected one becomes collected exactly when it overlaps the player, which adds its points to the score and 1 to the counter, and without overlap nothing changes; only the player's score can ever change |
| Rules.CollectibleStepKeepsCounter | js/app.js:332-368 | one collectible update keeps `numCollected` equal to the number of collected flags |
| Rules.CollectiblesTick | js/engine.js:160-162 | a round of collectible updates changes only the player's score and keeps the number of items |
| Rules.CollectiblesTickKeepsCounter | js/engine.js:160-162 | over a round the counter matches the flags, so it never exceeds the number of items |
| App.Enemy.constructor | js/app.js:3-27 | a new enemy stands at the given position with speed 0 |
| App.Enemy.Update | js/app.js:31-45 | the enemy and the player end as `EnemyTick` says: move, wrap, then the collision test |
| App.Enemy.SetRandomSpeed | js/app.js:47-49 | only the speed changes, to `RandomSpeed` of the draw |
| App.Enemy.CheckCollisions | js/app.js:51-65 | the player ends as `Collide` says |
| App.Player.constructor | js/app.js:95-116 | a new player has 3 lives and score 0 |
| App.Player.Update | js/app.js:186-203 | the player ends as `PlayerStep` says |
| App.Player.Reset | js/app.js:223-236 | the player ends as `ResetPlayer` says |
| App.Player.HandleInput | js/app.js:238-260 | the player ends as `MovePlayer` says |
| App.Collectible.constructor | js/app.js:271-290 | a new item has its id and points and is not collected |
| App.Collectible.SetRandomPos | js/app.js:309-318 | only x and y change, to the grid cell of the draws |
| App.Collectible.Update | js/app.js:332-354 | items, counter and player end as `CollectibleStep` says, and the counter still matches the flags |
| App.Collectible.CheckCollected | js/app.js:356-369 | on overlap the score rises by the item's points, the item is collected and the counter rises by exactly 1; otherwise nothing changes |
| App.CollectibleRegistry.constructor | js/app.js:294-296 | the list starts empty and the counter at 0 |
| App.CollectibleRegistry.Reset | js/app.js:299-306 | the items end as `ResetItems` says, the counter is 0 and matches the flags |
| App.World.Setup | js/app.js:383-419 | five collectibles from the catalogue, uncollected, on the grid cells of the last reset; three enemies in lanes 62, 145, 228 at x = -50 with their drawn speeds; the player at the start cell with 3 lives and score 0; the world is valid |
| App.CatalogShape | js/app.js:383-389 | the catalogue `CatalogIds` / `CatalogPoints` has five entries, no id twice, and every item is worth at least 25 points |
| App.CreateCollectibles | js/app.js:383-404 | the five items are created in catalogue order, none collected, counter 0, placed by the draws of the last reset |
| App.AddCollectible | js/app.js:394-402 | one push of a fresh item followed by a reset that places every item and zeroes the counter |
| App.CreateEnemies | js/app.js:408-413 | three distinct fresh enemies, the i-th at (-50, 83i + 62) with speed `RandomSpeed(400, 100, draw)` |
| Engine.Round | js/engine.js:144-162 | every enemy moves exactly as `EnemyMove` says and the numbers of enemies and collectibles are kept |
| Engine.EntitiesStep | js/engine.js:140-167 | the game ends exactly when the player has no lives left, and then no entity changes |
| Engine.Tick | js/engine.js:127-131 | a game that is over stays over and unchanged; the game ends exactly when it was over or no lives are left, and then no entity changes |
| Engine.ResetGame | js/engine.js:250-264 | the game is not over, the player is on the start cell, lives are 3 and score 0 if lives were 0 and kept otherwise, the counter is 0 and the enemies are untouched |
| Engine.RoundKeepsPlayable | js/engine.js:144-162 | a round keeps enemies in their lanes, five items and a matching counter of at most 5, and costs at most one life, so lives stay >= 0 |
| Engine.TickKeepsPlayable | js/engine.js:127-131 | a tick keeps the world playable |
| Engine.ResetGameResumes | js/engine.js:250-264 | after `reset` a playable world is still playable, the game is running and the player has at least one life |
| Engine.Run | js/engine.js:55-80 | a run of frames keeps the number of collectibles |
| Engine.RunKeepsPlayable | js/engine.js:55-80 | over any run the world stays playable, lives drop by at most the number of frames, and a finished game never changes |
| Engine.GameEngine.constructor | js/engine.js:29-30 | the engine starts with `gameOver` false |
| Engine.GameEngine.EndGame | js/engine.js:294-302 | `gameOver` becomes true |
| Engine.GameEngine.UpdateEntities | js/engine.js:140-167 | the globals end as `EntitiesStep` says and stay valid |
| Engine.GameEngine.Update | js/engine.js:127-131 | the globals end as `Tick` says and stay valid |
| Engine.GameEngine.Reset | js/engine.js:250-264 | the globals end as `ResetGame` says and stay valid |
| Engine.GameEngine.Frame | js/engine.js:55-80 | dt is (now - lastTime) / 1000, `lastTime` becomes now, and the globals end as `Tick` with that dt says |
| Engine.GameEngine.PlayGame | js/engine.js:276-289 | the reset comes first, then `lastTime` is set to the first clock reading, then a frame runs at the second reading with dt = (second - first) / 1000, leaving `lastTime` at the second reading |
| Engine.GameEngine.StartClock | js/engine.js:287-288 | `lastTime` takes the first clock reading, then one frame runs at the second reading with dt = (second - first) / 1000, leaving the globals as `Tick` with that dt says |
| Engine.UpdateEnemies | js/engine.js:146-148 | enemies and player end as `EnemiesTick` says |
| Engine.UpdateCollectibles | js/engine.js:160-162 | items, counter and player end as `CollectiblesTick` says, and the counter still matches the flags |
| Engine.PlayRound | js/engine.js:144-162 | enemies, then the player, then the collectibles are updated, and the world ends as `Round` says |

## Left out

- Rendering is not modelled. This covers every `render` method, the tile loop of js/engine.js and the score and lives text. It is canvas and DOM output only.
- Audio is not modelled: the `loadAudio` functions, sound playback, background music and the mute button.
- The model assumes the three sounds (`Enemy.blipSound`, `Player.hopSound`, `Collectible.blipSound`) have loaded. Before their `canplaythrough` callbacks run, the `play()` calls in js/app.js:60, js/app.js:263 and js/app.js:366 throw. A hit then stops the frame before the life is taken, a pick-up stops it after the score and counter change, and a hop's key handler throws after the move. That is not modelled.
- The DOM glue is not modelled: `show`/`hide`, the button listeners in `init`, `startMenu`, `initalizeCharacters` and `selectCharacter`. The keyup listener is reduced to its key map, `AllowedKey`.
- `console.log` calls and the sprite source offsets (`srcX`, `srcY`) are not modelled. They have no effect on game state.
- `Math.random()`, `Date.now()` and `requestAnimationFrame` are not called. Their results are parameters: draws constrained by `IsFloorDraw`, and timestamps.
- `allWaterObs`, `allPredators` and `allRocks` are not modelled. They are used in js/engine.js but not defined in js/app.js, js/engine.js or js/utils.js. The model treats their updates as leaving the enemies, the player and the collectibles untouched. If they were undefined at run time, js/engine.js:150 would throw after the enemies moved and the rest of the frame would not run; that is not modelled.
- Coordinates are exact reals. IEEE rounding of `speed * dt` and `height / 2` is not modelled.
- Engine.GameEngine.Frame: models one frame. The self-rescheduling through `requestAnimationFrame` is a further call, and `Engine.Run` describes a sequence of frames on values.
- Engine.GameEngine.constructor: `lastTime` is undefined until `playGame` sets it. The model starts it at 0.
- App.Player.constructor: the source leaves `x` and `y` undefined until the first `reset`. The model starts them at 0.
- App.Collectible.constructor: the source leaves `x` and `y` undefined until the first `Collectible.reset`. The model starts them at 0.
- Utils.GetRandNums: for k > n some values fall outside [0, n) (the range check at the top is commented out); the model promises the length and distinctness for every k, and the range only for k <= n.
- Utils.WithClassAdded: a `null` class string is not modelled. Strings are never null here, so only the empty-string test remains.
- App.Collectible.Update: takes the item's index in `Collectible.allCollectibles` as a ghost parameter. It also takes the draws that a reset during the update would use.
- App.World.Setup: each of the five resets during start-up takes its own draws. Only the last reset's draws decide the final positions.
- Sprite widths, heights and hit-box offsets of the player, the enemies and the collectibles are constants (`PlayerBox`, `EnemyBox`, `ItemBox`). The source sets them once per object and never changes them; character selection does not change the player's either.
