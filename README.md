# Platformer simulation core, modelled in Dafny

This project models the simulation at the heart of a small tile-based
platformer. It has three parts:

- **Level loading.** A grid of characters, one string per row, is read row by row. `#` places a solid tile, `P` the player's spawn point, `E` a patrolling enemy, `C` a one-point pickup and `G` the goal. The last `P` and the last `G` in row-major order win. The level's pixel size comes from the longest row and the row count. A level text with no rows has no longest row and is an error.
- **Kinematic bodies.** The player and the enemies fall under gravity. They move on one axis at a time against the solid tiles, and each overlapping tile pushes the box back out, in list order. The player also runs a coyote-time jump. A jump request is an edge-triggered flag that every update clears. An enemy reverses its patrol direction whenever its horizontal move ran into something.
- **The frame rules of the game loop.** Bodies advance only while the level is not complete. A pickup scores once. The first enemy the player touches costs a life and respawns the player. Touching the goal completes the level, and only a reset clears that. The camera is centred on the player and clamped to the level.

Modules:

- `Geometry`: pygame's integer `Rect` with its edge setters and `colliderect`, and `Vector2` as a pair of reals. It also has truncation toward zero (Python's `int()` on a float).
- `Config`: the tuning constants (gravity, speeds, coyote time, tile size, screen size). They are a record the simulation takes as a parameter, with positivity assumed.
- `Motion`: the collision resolution and the per-step behaviour of both kinds of body, as pure functions over state snapshots, with lemmas.
- `Entities`: classes `Player` and `Enemy`, whose methods update their fields in place, each proved to follow `Motion`; `Collectible` and `Goal` are records.
- `Level`:
  - `ParseLevel` is the row-major scan written as a fold.
  - `Scanned` describes declaratively what the grid yields, and lemmas prove the two agree.
  - `LoadLevel` is the nested-loop loader, proved to give `ParseLevel`'s result.
- `GameLoop`: `FrameStep` is one frame on value snapshots, with lemmas about it. Class `Game` holds the loop's mutable state; `Step` is proved to perform `FrameStep`, and `ResetLevel` to reload a fresh level.

## Model

| member | source | states |
|---|---|---|
| Geometry.Rect.WithRight | game/entities.py:62 | setting `right` puts the right edge at the value and keeps `y`, width and height |
| Geometry.Rect.WithLeft | game/entities.py:64 | setting `left` puts the left edge at the value and keeps `y`, width and height |
| Geometry.Rect.WithBottom | game/entities.py:71 | setting `bottom` puts the bottom edge at the value and keeps `x`, width and height |
| Geometry.Rect.WithTop | game/entities.py:75 | setting `top` puts the top edge at the value and keeps `x`, width and height |
| Geometry.Trunc | game/entities.py:37 | `int()` truncates toward zero: the result lies within 1 of its argument, on the zero side |
| Geometry.CollideSymmetric | game/entities.py:60 | `colliderect` does not depend on the order of its arguments |
| Geometry.TouchingDoesNotCollide | game/entities.py:60 | boxes that share only an edge do not collide |
| Motion.ResolveX | game/entities.py:58-64 | horizontal resolution never changes `y`, width or height |
| Motion.ResolveXNoHit | game/entities.py:58-64 | a moved box that overlaps no solid is left where it is |
| Motion.ResolveXStill | game/entities.py:58-64 | with `velocity.x == 0` the player's box does not move sideways, whatever it overlaps |
| Motion.ResolveXDirection | game/entities.py:58-64 | resolution only pushes back against the direction of travel, and moves the box exactly when the box overlapped some solid |
| Motion.ResolveXFlush | game/entities.py:58-64 | after a hit, the box ends flush against a solid: its right edge on a block's left edge when moving right, its left edge on a block's right edge when moving left |
| Motion.ResolveY | game/entities.py:66-76 | vertical resolution keeps `x`, width and height, leaves `velocity.y` unchanged or zero, and sets `on_ground` only when it zeroes `velocity.y` |
| Motion.FirstHit | game/entities.py:66-76 | the result is a solid the box overlaps, every solid listed before it misses the box, and there is none exactly when the box overlaps nothing |
| Motion.FirstAfterMiss | game/entities.py:68-69 | when the head of the list misses the box, the first hit among the rest is the first hit of the whole list |
| Motion.ResolveYAtRest | game/entities.py:66-76 | once `velocity.y` is zero, later blocks change nothing |
| Motion.ResolveYFirstHit | game/entities.py:66-76 | only the first overlapping block acts: falling lands on it (`bottom = top`, `velocity.y = 0`, `on_ground`), rising bumps under it (`top = bottom`, `velocity.y = 0`), and no overlap changes nothing |
| Motion.JumpStep | game/entities.py:52-56 | the jump fires iff on the ground or `coyote_timer <= COYOTE_TIME`; firing sets `velocity.y = -JUMP_SPEED`, clears `on_ground` and closes the window, so a second attempt does nothing; otherwise nothing changes |
| Motion.PlayerStep | game/entities.py:33-50 | `velocity.x` becomes `input_axis * MOVE_SPEED`; the box keeps its size; `jump_requested` ends false; without a jump the coyote timer is 0 on the ground and grows by `dt` in the air; a fired jump sets the jump velocity |
| Motion.PlayerLands | game/entities.py:40-46 | a player falling into a solid with no jump pending lands on the first solid it overlaps, on the ground, with `velocity.y` and the coyote timer zero |
| Motion.PlayerFallsFreely | game/entities.py:40-46 | with nothing in the way of the vertical move, the player stays airborne, keeps its gravity-updated `velocity.y`, and its coyote timer grows by `dt` |
| Motion.EnemyStep | game/entities.py:84-107 | the box keeps its size; `velocity.x` is negated exactly when the moved box overlapped a solid, and is otherwise unchanged |
| Motion.EnemyRunKeepsPatrol | game/entities.py:82-97 | over any number of updates the enemy keeps its patrol speed magnitude (140 from spawn) and its box size |
| Motion.EnemyTurnsAtWall | game/entities.py:88-97 | an enemy that runs into a solid ends flush against some solid; one not moving right is clamped to a block's right edge |
| Entities.Player.constructor | game/entities.py:23-28 | a new player has a tile-by-two-tiles box at the position, zero velocity, `on_ground` false, coyote timer 0, no jump pending |
| Entities.Player.RequestJump | game/entities.py:30-31 | only the pending-jump flag is set |
| Entities.Player.Update | game/entities.py:33-50 | the new state is `PlayerStep` of the old one |
| Entities.Player.TryJump | game/entities.py:52-56 | the new state is `JumpStep` of the old one |
| Entities.Player.ResolveHorizontal | game/entities.py:58-64 | the box becomes `ResolveX` of the old box for the direction of `velocity.x`; nothing else changes |
| Entities.Player.ResolveVertical | game/entities.py:66-76 | `on_ground` is cleared, then box, `velocity.y` and `on_ground` become `ResolveY`'s; `velocity.x`, timer and flag are kept |
| Entities.Enemy.constructor | game/entities.py:80-82 | a new enemy is one tile square at the position, moving right at 140 |
| Entities.Enemy.Update | game/entities.py:84-107 | the new state is `EnemyStep` of the old one |
| Entities.Enemy.ResolveHorizontal | game/entities.py:88-95 | the box becomes `ResolveX` with the enemy's clamp, and `collided` is true exactly when some solid overlapped the moved box; the velocity is kept |
| Entities.Enemy.ResolveVertical | game/entities.py:99-107 | box and `velocity.y` become `ResolveY`'s; `velocity.x` is kept |
| Level.TileRects | game/level.py:39-40 | one tile-sized solid per `#` cell, in the cells' order |
| Level.TileCorners | game/level.py:43-44 | one enemy spawn per `E` cell, at the cell's corner, in order |
| Level.Coins | game/level.py:45-46 | one pickup per `C` cell, inset 8 pixels, in order |
| Level.MaxWidth | game/level.py:26 | the width is at least every row's length and equal to some row's length |
| Level.ParseLevel | game/level.py:24-51 | loading fails exactly when the text has no rows |
| Level.LineMarksExactly | game/level.py:36-38 | the cells of a row holding a character are exactly its positions in the row, left to right, as many as it occurs |
| Level.MarksExactly | game/level.py:35-38 | the grid's cells holding a character are exactly those positions (nothing past the end of a short row), in strict row-major order, as many as it occurs |
| Level.AgreesStep | game/level.py:39-48 | scanning one more character changes the layout only as that character's branch says; any other character adds nothing |
| Level.ScanUpToScanned | game/level.py:35-48 | the character-by-character scan, after any prefix of the grid, has built what `Scanned` describes for that prefix |
| Level.ParsedIsScanned | game/level.py:24-51 | the loaded level is `Scanned` of the whole grid with size (longest row · tile, rows · tile) |
| Level.ParsedUncollected | game/level.py:45-46 | a freshly loaded level has no collected pickup |
| Level.ScannedSolids | game/level.py:39-40 | one solid per `#`, so as many solids as `#`s; each solid is the tile of some `#` cell, and each `#` cell's tile is a solid |
| Level.ScannedEnemySpawns | game/level.py:43-44 | one enemy spawn per `E`, at its tile's corner, in both directions, counted |
| Level.ScannedPickups | game/level.py:45-46 | one pickup per `C`, a 16 by 16 box at (x+8, y+8), worth 1 and uncollected, in both directions, counted |
| Level.SpawnIsLastP | game/level.py:33 | no `P` leaves the spawn at (tile, tile); otherwise the spawn is one tile above the last `P` in row-major order |
| Level.GoalIsLastG | game/level.py:32 | no `G` leaves the goal at (0, 0, tile, 2·tile); otherwise the goal stands on the last `G` in row-major order |
| Level.LastMark | game/level.py:41-48 | the last listed cell holding a character comes after every other such cell in row-major order |
| Level.TileInside | game/level.py:37-40 | the tile of a cell inside the grid lies inside the grid's pixel extent |
| Level.SolidsInsideLevel | game/level.py:50 | every solid lies inside `size_px` |
| Level.LoadLevel | game/level.py:24-51 | the nested-loop loader fails exactly on an empty text; otherwise it returns `ParseLevel`'s solids, pickups, goal, spawn and size, and one distinct new enemy per spawn, freshly spawned there |
| GameLoop.CameraAxis | game/main.py:83-84 | the camera offset is never negative, and at most level size minus screen size when the level is at least one screen; it is the centred offset when that fits, 0 when the centred offset is negative or the level is smaller than the screen, and level size minus screen size when the centred offset passes that bound |
| GameLoop.GainCounted | game/main.py:69-72 | the points a frame adds are exactly the value that newly became collected |
| GameLoop.GainOneMore | game/main.py:71-72 | one more pickup in the loop adds its value only when grabbed |
| GameLoop.ScoreMatchesCollected | game/main.py:69-72 | every frame keeps the score equal to the total value of the collected pickups |
| GameLoop.PickupsOnce | game/main.py:69-72 | pickups keep place and worth and never become uncollected; an uncollected one becomes collected exactly when the player overlaps it, so it scores once |
| GameLoop.OneDeathPerFrame | game/main.py:74-78 | deaths grow by at most one per frame, exactly when the player touches some enemy, and then the player is a fresh player at spawn |
| GameLoop.GoalSticks | game/main.py:80-81 | a frame never clears `level_complete`; it is set exactly when it was set or the player ends the frame on the goal |
| GameLoop.CompleteFreezes | game/main.py:64-67 | while the level is complete no enemy moves and the player either stays or is respawned |
| GameLoop.SettledIsFixpoint | game/main.py:64-81 | a complete level whose player touches no enemy and no uncollected pickup is unchanged by any frame |
| GameLoop.NothingGrabbed | game/main.py:69-72 | when nothing is grabbed the pickups are unchanged and the score gains nothing |
| GameLoop.LoadedWorld | game/main.py:36-41 | a loaded level with a new player at its spawn is the fresh world of the parsed level, scoring zero |
| GameLoop.NothingCollectedYet | game/main.py:40 | a level with nothing collected has collected value 0, matching the reset score |
| GameLoop.PickUp | game/main.py:69-72 | the pickup loop returns `Pickups` and the points `Gain` adds |
| GameLoop.Game.constructor | game/main.py:30-34 | the session starts with the fresh world of the parsed level: every body at its spawn, nothing collected, score 0, no deaths, not complete; its solids, goal, spawn point and pixel size are the parsed level's |
| GameLoop.Game.ResetLevel | game/main.py:36-41 | the whole level is reloaded: a fresh player and fresh enemies at their spawns, the parsed pickups uncollected, score 0, not complete, deaths kept; its solids, goal, spawn point and pixel size are the parsed level's |
| GameLoop.Game.Step | game/main.py:64-84 | the new session state is `FrameStep` of the old one; solids, goal, spawn and size are unchanged; the camera pair is the clamped offset |
| GameLoop.Game.AdvanceBodies | game/main.py:64-67 | the player, then every enemy, takes one step |
| GameLoop.Game.CollectPickups | game/main.py:69-72 | the state becomes `Collect` of the old one, and the score still matches the collected value |
| GameLoop.Game.CheckEnemies | game/main.py:74-78 | the state becomes `Die` of the old one: the first touching enemy stops the loop after one death and a respawn |
| GameLoop.Game.CheckGoal | game/main.py:80-81 | the state becomes `Finish` of the old one |

## Left out

- The pygame loop around the frame rules is not modelled: display and font setup, clock ticking, event and key polling, drawing and `sys.exit` (game/main.py:24-28, 43-62, 86-118). `dt` and the input axis are parameters of `Game.Step`.
- Pressing space calls `request_jump` on the current player from the event loop. That is `Entities.Player.RequestJump` on `Game.player`; `Game` has no separate method for it.
- Pressing R calls `reset_level`; that is `Game.ResetLevel`.
- Reading the level file and splitting it into lines (game/level.py:11, 25) are left out; the loader takes the lines.
- The constants module is not part of this model. Its values are the `Constants` record, assumed positive.
- Floats are modelled as exact reals. Velocities, `dt` and the coyote timer have no IEEE rounding here; `int()` of a product is `Trunc` of the exact product.
- The 32-bit coordinate range of pygame's `Rect` is not modelled; coordinates are unbounded integers. pygame's handling of negative widths and heights is also left out; every box here has a positive size.
- The top-level `main.py`, a CSV report tool unrelated to the game, is not part of this model.
- `max` over no rows raises `ValueError` in the program; here it is the `EmptyLevel` failure of `ParseLevel` and `LoadLevel`.
- GameLoop.Game.constructor: requires a non-empty level text, since the program fails before any session state exists when the level has no rows.
- Entities.Enemy.Update: the program writes the two resolution loops inline; here they are the two methods `Enemy.ResolveHorizontal` and `Enemy.ResolveVertical`, with the same statements.
- GameLoop.Game.Step: the program writes the frame phases inline in its loop; here they are the methods `AdvanceBodies`, `CollectPickups`, `CheckEnemies` and `CheckGoal`, with the same statements in the same order.
- GameLoop.Game.CollectPickups: the pickup loop flips `collected` on the pickup records in place. Here the same loop runs over a sequence value (`PickUp`), which is then stored back into the level. No pickup record is shared with anything else, so no aliasing is lost.
- A completed level is not entirely frozen. Pickup, enemy and goal checks still run. A player who touches an enemy while the level is complete is respawned, the death counts, and a pickup at the spawn point can still score. `CompleteFreezes` and `SettledIsFixpoint` state exactly what does stay fixed.
