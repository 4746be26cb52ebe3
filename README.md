# Pactopus in Dafny

This project models the simulation rules of Pactopus, a browser maze-chase game. The
rendering, the DOM and the frame scheduling are not modelled. There is one Dafny
module per source file:

- `Constants` (`constants.dfy`, from `js/constants.js`): the board size, the four
  direction vectors, the key bindings and the game states.
- `Geometry` (`geometry.dfy`): rectangles, `Math.round` and the nearest grid line.
  The page-global rectangle test `checkCollision(a, b)` is the function type `Overlap`,
  which every maze and game receives as a value.
- `MazeModel` (`maze.dfy`, from `js/maze.js`) has two parts:
  - The three hand-written layouts, each written row by row (`Layout1Row` gives row r
    of level 1's layout), and the parser that `generateMaze` runs over them (`Parse`,
    cell by cell).
  - The blocking query (`Board.Blocks`, `Maze.CheckCollision`), the key pick-up
    (`LastHit`, `Maze.CollectKey`) and `Maze.IsComplete`.
  - `Maze` is a class whose lists are `seq` fields that the methods reassign.
    `GenerateMaze` keeps the nested loops and pushes one object per cell.
- `PlayerModel` (`player.dfy`, from `js/player.js`): a frame is three functions,
  `Turn`, `Advance` and `Wrap`, composed as `Step`.
  - The `Player` class performs those phases on its fields, and its `Update` is proved
    equal to `Step`.
- `GhostModel` (`ghost.dfy`, from `js/ghost.js`): a ghost's frame is the function
  `GhostStep`.
  - Movement: keep going while the way ahead is free. When it is blocked, take the
    open direction the random roll picks, without moving on that tick. Then wrap on
    both axes.
  - The `Ghost` class performs the frame step by step. `PossibleDirections` keeps the
    source's loop.
- `GameModel` (`game.dfy`, from `js/game.js`) covers:
  - the level configuration and the spawn cells;
  - the pellet pass as written, where `forEach` splices the list it walks;
  - the scoring: 10 per pellet and 50 per key;
  - ghost contact;
  - level completion;
  - the READY / PLAYING / GAME_OVER state machine and the `keydown` handler.

`Game.Valid` is the invariant every game operation keeps:
- a maze, a player and four distinct ghosts exist;
- the level is 1 or 2, and the maze is built from that level's layout;
- every ghost has its creation colour and the level's speed;
- the score is a non-negative multiple of 10.

`Game.Spawned` describes the state `initGame` leaves:
- the maze is freshly built from its layout;
- the player and ghosts are on the level's spawn cells.

The pellet pass is modelled as the code runs it. `forEach` visits the indices of the
original list while `splice` removes hit pellets. The pellet right after a removed one
slides into the index just visited, so that pass does not visit it:
- `SweepIsPass` proves the index-based pass equal to a pass told in list order.
- `SpliceSkipsNext` shows the skip on two touching pellets.
- Every removed pellet still scores exactly 10.

Modelling assumptions:
- Times (`performance.now()`) are parameters named `now`.
- The values of `Math.random()` are parameters named `roll` and `rolls`, each in `[0, 1)`.
- The page global `window.currentLevel` is an `Option<int>` parameter. `None` means
  undefined.
- `gridToPixel` is not part of this model. It is assumed to scale a cell coordinate by
  `CELL_SIZE`.
- Positions and speeds are `real` numbers.

## Model

| member | source | states |
|---|---|---|
| Constants.BoardPixels | js/constants.js:2-4 | the board is 28 × 16 = 448 pixels wide and 31 × 16 = 496 high |
| Constants.UnitVector | js/constants.js:16-21 | every direction vector has exactly one non-zero component, and it is 1 or -1 |
| Constants.OppositeNegates | js/constants.js:16-21 | UP and DOWN negate each other, and so do LEFT and RIGHT |
| Constants.VectorsDistinguish | js/constants.js:16-21 | two directions are equal exactly when their vectors are equal |
| Constants.KeyAction | js/constants.js:24-30 | codes 37, 38, 39 and 40 map to LEFT, UP, RIGHT and DOWN, and 82 maps to RESTART, each as an if-and-only-if; every other code maps to nothing |
| Constants.StateNamesDistinct | js/constants.js:33-38 | the four GAME_STATES strings are pairwise distinct |
| Geometry.Round | js/player.js:32-33 | `Math.round` returns the integer n with n - 1/2 <= v < n + 1/2 |
| Geometry.NearestGridLine | js/player.js:32-33 | the rounded cell coordinate lies on a grid line no more than half a cell from the input |
| MazeModel.MazeLayout | js/maze.js:107-203 | the definition of `getMazeLayout`: the layout of the level, or level 1's for any other level; its meaning is stated by `LayoutsRectangular`, `UnknownLevelFallsBack`, `CornerPellet`, `OnlyLevelTwoHasLocks` and `LevelTwoLocksParsed` |
| MazeModel.LayoutsRectangular | js/maze.js:107-202 | every layout has at most GRID_HEIGHT rows, and every row is GRID_WIDTH cells wide |
| MazeModel.UnknownLevelFallsBack | js/maze.js:202 | a level other than 1, 2 or 3 gets the layout of level 1 |
| MazeModel.CellItemInjective | js/maze.js:31-102 | two cells, or two symbols, never produce the same object |
| MazeModel.ParsedObjects | js/maze.js:26-104 | the parsed maze holds an object exactly when some cell of the layout produces it |
| MazeModel.CellObjectParsed | js/maze.js:26-104 | a cell's object is in the parsed maze exactly when the cell holds that object's symbol |
| MazeModel.WallPerHash | js/maze.js:32-39 | a CELL_SIZE square wall at a cell's pixel origin exists exactly when that cell is '#' |
| MazeModel.PelletPerDot | js/maze.js:40-47 | a 4×4 pellet half a cell into a cell exists exactly when that cell is '.' |
| MazeModel.DoorPerSymbol | js/maze.js:48-74 | a full-cell door of colour c exists exactly when the cell holds c's door symbol (R, G or B) |
| MazeModel.KeyPerSymbol | js/maze.js:75-101 | a half-cell key of colour c exists exactly when the cell holds c's key symbol (r, g or b) |
| MazeModel.WallsOnHashes | js/maze.js:32-39 | every wall in the parsed maze comes from a '#' cell |
| MazeModel.ParsedCounts | js/maze.js:26-104 | each list's length (per colour for doors and keys) equals the number of its symbol in the layout, so spaces and '-' produce nothing |
| MazeModel.LevelTwoLocks | js/maze.js:141-170 | layout 2 is 28 rectangular rows with red doors at (6,16) and (21,20), green at (6,10) and (21,13), blue at (21,3) and (21,6), a red key at (26,21), green at (13,15) and blue at (1,21), and no other door or key symbol in any cell |
| MazeModel.LevelTwoLocksParsed | js/maze.js:26-104 | the maze of level 2 has exactly those six doors and three keys: a door or key is in the parse exactly when it is in the list, the lengths agree, and each colour has two doors and one key |
| MazeModel.LevelsOneThreeLockFree | js/maze.js:107-203 | every cell of layouts 1 and 3 holds a wall, a pellet, a blank or '-', never a door or key symbol |
| MazeModel.OnlyLevelTwoHasLocks | js/maze.js:107-203 | the maze of every level other than 2 (including the fallback to level 1) has no doors and no keys |
| MazeModel.CornerPellet | js/maze.js:107-202 | every layout has a pellet symbol at cell (1,1) |
| MazeModel.FreshMazeHasPellets | js/maze.js:40-47 | a freshly built maze of any level has a pellet, so it is never complete |
| MazeModel.Board.Blocks | js/maze.js:205-220 | the definition of `checkCollision(x, y, w, h)`: a wall, or a door whose colour is not collected, meets the probe; its meaning is stated by `WallsAlwaysBlock`, `CollectingOnlyOpens` and `KeyOpensItsDoors` |
| MazeModel.Maze.CheckCollision | js/maze.js:205-220 | the class's query is `Board.Blocks` on its current walls, doors and collected keys; its meaning is stated by the `Board.Blocks` lemmas |
| MazeModel.WallsAlwaysBlock | js/maze.js:205-212 | a probe that meets a wall is blocked whatever keys have been collected |
| MazeModel.CollectingOnlyOpens | js/maze.js:213-219 | collecting more colours never blocks a probe that was free |
| MazeModel.KeyOpensItsDoors | js/maze.js:205-220 | a probe held back only by doors of colour c is blocked before c is collected and free afterwards |
| MazeModel.LastHit | js/maze.js:230-236 | the chosen key meets the probe and no later key does; with no choice, no key meets it |
| MazeModel.LastHitIsLast | js/maze.js:230-236 | the hit at index i with no hit after it is exactly what the backward scan returns |
| MazeModel.Maze.constructor | js/maze.js:2-12 | a new maze keeps its level, takes that level's layout and is freshly generated |
| MazeModel.Maze.GenerateMaze | js/maze.js:14-105 | after generation the lists are exactly the parse of the layout and no key is collected, whatever they held before |
| MazeModel.Maze.Scan | js/maze.js:26-104 | the nested loops over empty lists leave exactly the parse of the layout |
| MazeModel.Maze.PushCell | js/maze.js:28-102 | one switch step pushes the cell's object onto its list, and nothing for other symbols |
| MazeModel.Maze.CollectKey | js/maze.js:222-239 | removes only the last key that meets the player, adds its colour and returns it; with no hit returns nothing and changes nothing; walls, pellets and doors never change |
| MazeModel.Maze.IsComplete | js/maze.js:344-346 | the definition: no pellets are left; `FreshMazeHasPellets` states a fresh maze is never complete |
| PlayerModel.BaseSpeedValues | js/player.js:10 | the base speed is 2.5 when `window.currentLevel` is 1 and 3 otherwise |
| PlayerModel.FrameDelta | js/player.js:20 | the frame delta is elapsed/16.67 clamped to at most 1, and it is non-negative for a non-negative elapsed time |
| PlayerModel.TurnSnapsToGrid | js/player.js:30-51 | a committed turn snaps to a grid point within `speed` on both axes, takes the queued direction, clears the queue and has a free cell ahead; otherwise nothing changes |
| PlayerModel.BlockedTurnKeepsQueue | js/player.js:44-50 | with nothing queued, or the target cell blocked, direction, queue and position are kept |
| PlayerModel.AdvanceAllOrNothing | js/player.js:55-62 | the forward step moves the whole amount along the direction to a free rectangle or not at all, and never moves across the direction |
| PlayerModel.MoveAmountBounded | js/player.js:20-27 | the move amount lies between 0 and `speed` |
| PlayerModel.Turn | js/player.js:30-52 | the definition of the turn phase; its meaning is stated by `TurnSnapsToGrid` and `BlockedTurnKeepsQueue` |
| PlayerModel.Advance | js/player.js:55-62 | the definition of the forward phase; its meaning is stated by `AdvanceAllOrNothing` and `StepDistanceBounded` |
| PlayerModel.WrapX | js/player.js:65-66 | the definition of the horizontal wrap; its meaning is stated by `WrapXRange` |
| PlayerModel.Step | js/player.js:18-67 | the definition of one `update`: turn, forward step, wrap; its meaning is stated by `FrameDisplacementBounded` and `StepStaysOnBoardHorizontally`, and `Player.Update` is proved equal to it |
| PlayerModel.StepDistanceBounded | js/player.js:55-62 | the forward step of at most `speed` moves the player at most `speed` pixels, both axes counted together |
| PlayerModel.FrameDisplacementBounded | js/player.js:27-62 | a whole frame, snap and step together, moves the player at most twice `speed` on each axis before wrapping |
| PlayerModel.FrameDisplacementReachesTwiceSpeed | js/player.js:30-62 | the bound is reached: a player 2.5 pixels short of a grid line with a RIGHT turn queued moves 5 pixels in one frame at speed 2.5 |
| PlayerModel.WrapXRange | js/player.js:65-66 | below -width wraps to the board width, above the board width wraps to -width, anything else is kept |
| PlayerModel.StepStaysOnBoardHorizontally | js/player.js:18-67 | after a frame x lies in [-width, board width], and y, direction and queue are not touched by the wrap |
| PlayerModel.Player.constructor | js/player.js:2-16 | a new player faces RIGHT with nothing queued, at the base speed |
| PlayerModel.Player.Update | js/player.js:18-67 | the new pose is `Step` of the old one, with the clamped frame delta, against the maze's walls, doors and collected keys |
| PlayerModel.Player.TryTurn | js/player.js:30-52 | the turn phase equals `Turn` |
| PlayerModel.Player.MoveForward | js/player.js:55-62 | the forward phase equals `Advance` |
| PlayerModel.Player.Reset | js/player.js:69-79 | restores base speed, RIGHT and an empty queue, leaving x and y untouched |
| PlayerModel.Player.SetDirection | js/player.js:153-155 | only the queued direction changes |
| GhostModel.OpenPrefix | js/ghost.js:28-35 | the first n directions that are open, and no others |
| GhostModel.OpenDirections | js/ghost.js:28-35 | `possibleDirections` holds exactly the directions whose one-step probe is free |
| GhostModel.PickIndex | js/ghost.js:39 | floor(roll × n) is a valid index |
| GhostModel.EveryIndexReachable | js/ghost.js:39 | every index is picked by some roll |
| GhostModel.WrapAxisRange | js/ghost.js:50-53 | after the else-if wrap a coordinate lies in [-size, bound], and one already there is kept |
| GhostModel.FreeStepMoves | js/ghost.js:22-47 | with the way ahead free the ghost keeps its direction and moves exactly `speed` along it, whatever the roll |
| GhostModel.BlockedGhostTurnsInPlace | js/ghost.js:27-47 | with the way ahead blocked the ghost does not move, and faces an open direction, or keeps its direction when none is open |
| GhostModel.EveryOpenDirectionPossible | js/ghost.js:37-40 | any open direction can be the one a blocked ghost turns to |
| GhostModel.ChooseDirection | js/ghost.js:21-41 | the definition of the steering: keep the direction while the way ahead is free, else the rolled open direction, else keep it; its meaning is stated by `FreeStepMoves`, `BlockedGhostTurnsInPlace` and `EveryOpenDirectionPossible` |
| GhostModel.Settle | js/ghost.js:43-54 | the definition of the move and wrap after steering: `speed` along the direction only when the way was free, then the else-if wrap on both axes; its meaning is stated by `FreeStepMoves`, `BlockedGhostTurnsInPlace` and `WrapAxisRange` |
| GhostModel.GhostStep | js/ghost.js:15-54 | the definition of an unfrozen ghost's frame, `ChooseDirection` then `Settle`; `Ghost.Update` is proved equal to it |
| GhostModel.Ghost.constructor | js/ghost.js:2-13 | a new ghost faces LEFT, unfrozen, with the given colour and speed |
| GhostModel.Ghost.PossibleDirections | js/ghost.js:28-35 | the loop builds the open directions in the order UP, DOWN, LEFT, RIGHT |
| GhostModel.Ghost.Update | js/ghost.js:15-54 | a frozen ghost does not move; any other takes `GhostStep` |
| GhostModel.Ghost.Steer | js/ghost.js:21-41 | reports whether the way ahead was blocked and faces the direction `ChooseDirection` gives, without moving |
| GhostModel.Ghost.Reset | js/ghost.js:114-126 | sets the given position, LEFT, unfrozen and no pending timer |
| GameModel.GetLevelConfig | js/game.js:46-68 | a configuration exists exactly for levels 1 and 2, with a positive ghost speed and three description lines |
| GameModel.LevelTwoGhostsFaster | js/game.js:46-68 | level 2's ghosts are 1.5 times as fast as level 1's |
| GameModel.SpawnCellsClear | js/game.js:88-122 | the spawn cells of levels 1 and 2 hold a pellet (player) or a blank or pellet (ghosts) |
| GameModel.NoWallOnSpawn | js/game.js:88-122 | no wall and no door stands on any spawn cell of levels 1 and 2 |
| GameModel.Game.SpawnCellsOpen | js/game.js:88-122 | in a freshly spawned game no wall and no door of the game's own maze stands on a spawn cell |
| GameModel.ClearCellsOpen | js/game.js:88-122 | spawn cells holding blanks or pellets are free of walls and doors once the layout is parsed |
| GameModel.SweepFrom | js/game.js:163-169 | the definition of the splicing `forEach` from index k; its meaning is stated by `SweepIsPass` and `SpliceSkipsNext` |
| GameModel.Pass | js/game.js:163-169 | the in-order pass: a hit pellet is removed and the next one is skipped; its meaning is stated by `PassDropsOnlyHits`, `PassWithoutHits`, `PassProgress` and `PassShrinks` |
| GameModel.SweepIsPass | js/game.js:163-169 | the splicing `forEach` from index k equals the first k pellets plus the in-order pass over the rest |
| GameModel.PelletPass | js/game.js:163-169 | the pellets left by the pass equal the in-order pass: a hit pellet is removed and the next one is not visited |
| GameModel.PassDropsOnlyHits | js/game.js:163-169 | the pass never adds a copy of a pellet, and keeps every copy of a pellet the player does not touch |
| GameModel.PassWithoutHits | js/game.js:163-169 | a pass that touches nothing leaves the pellets as they were |
| GameModel.PassProgress | js/game.js:163-169 | a pass that touches some pellet removes at least one |
| GameModel.PassShrinks | js/game.js:163-169 | the pass never lengthens the list |
| GameModel.SpliceSkipsNext | js/game.js:163-169 | of two touching pellets in a row, one pass removes only the first |
| GameModel.FrameGain | js/game.js:163-177 | a frame scores a multiple of 10, at most 10 per pellet plus 50, and nothing exactly when no pellet and no key is touched |
| GameModel.NextState | js/game.js:142-155 | the definition of the handler's state transition; its meaning is stated by `OnlyRestartLeavesGameOver` and `PlayingStartsFromReady` |
| GameModel.OnlyRestartLeavesGameOver | js/game.js:142-155 | from GAME_OVER only R changes the state, to READY |
| GameModel.PlayingStartsFromReady | js/game.js:142-155 | PLAYING is entered only from READY on an arrow key, and no key enters PAUSED |
| GameModel.GameDelta | js/game.js:408-409 | the game's frame delta is elapsed/1000 clamped to at most 0.1 |
| GameModel.Game.constructor | js/game.js:2-18 | a new game is at level 1 with score 0, READY, with everything spawned |
| GameModel.Game.Cleanup | js/game.js:70-78 | drops maze, player and ghosts and sets READY, leaving score and level |
| GameModel.Game.InitGame | js/game.js:80-126 | builds a fresh maze from the level's layout, a player and four ghosts, all at their spawn cells, in READY, keeping score and level |
| GameModel.Game.SpawnEntities | js/game.js:87-122 | the player on its spawn cell and four distinct new ghosts with their colours and the level's speed |
| GameModel.Game.StartPositions | js/game.js:88-98 | player at cell (14,23) on level 1 and (14,26) otherwise; ghosts on row 11 or row 1 |
| GameModel.Game.NewGhosts | js/game.js:106-122 | four distinct new ghosts at columns 13-16 on level 1 and 3, 10, 18, 24 otherwise, with their colours |
| GameModel.Game.EndGame | js/game.js:303-305 | sets GAME_OVER and nothing else |
| GameModel.Game.RestartGame | js/game.js:276-301 | score 0, level 1, READY, with everything spawned afresh |
| GameModel.Game.SwitchLevel | js/game.js:37-44 | the chosen level with score 0, READY, with everything spawned afresh |
| GameModel.Game.SetState | js/game.js:239-274 | sets the state and the frame time; on READY puts the player and ghosts back on their spawn cells, keeping maze and score; any other state leaves the player and every ghost entirely unchanged |
| GameModel.Game.ResetGhosts | js/game.js:262-272 | each ghost goes back to its spawn column of the level on the given row |
| GameModel.Game.CheckCollisions | js/game.js:161-198 | scores the pellet pass and the key; ghost contact gives GAME_OVER; otherwise a cleared level 1 moves to level 2 in READY keeping the score, a cleared level 2 restarts with the frame time `now`, and any other frame changes nothing else, the frame time included |
| GameModel.Game.CollectItems | js/game.js:162-178 | the pellets left are the pass's, the score grows by 10 per removed pellet plus 50 for a key, and the key pick-up is `LastHit`'s |
| GameModel.Game.TouchesGhost | js/game.js:180-186 | the loop reports contact exactly when some ghost touches the player |
| GameModel.Game.AdvanceLevel | js/game.js:188-197 | level 1 goes to level 2 with the score and the frame time kept; level 2 goes to level 1 with score 0 and the frame time `now`; both end READY and spawned |
| GameModel.Game.Update | js/game.js:407-420 | outside PLAYING only the frame time changes; in PLAYING the frame ends in GAME_OVER, still PLAYING with pellets left, or READY on the next level or after a restart |
| GameModel.Game.MoveGhosts | js/game.js:415 | every ghost takes its own frame, frozen ones stay; no ghost's `frozen`, `frozenTimer` or `nextDirectionChange` changes |
| GameModel.Game.KeyDown | js/game.js:134-156 | the new state is `NextState`; R restarts; an arrow key queues its direction and changes nothing else of the player (position, direction, speeds, score, clock) and takes the frame time when it starts a READY game; other keys change nothing |
| GameModel.Game.EatPellets | js/game.js:163-169 | the splicing loop leaves the pass's pellets and adds 10 per removed pellet |

## Left out

- Rendering: every `draw` method, `drawKeyIndicator`, `drawRoundedRect` and the player's
  animation angles. They only paint the canvas.
- DOM code: `showKeyCollectedMessage`, `updateScore`, `setupLevelSelector`, the
  element text in `switchLevel` and `restartGame`, `console.log` and `preventDefault`.
  None of them affects the game state.
- Event wiring: `setupControls` registers and unregisters the listener. Only the
  handler's decision logic is modelled, as `Game.KeyDown`.
- Frame scheduling: `gameLoop`, `requestAnimationFrame`, `cancelAnimationFrame` and
  `animationFrameId`. The model is driven by calls to `Game.Update`.
- `performance.now()` becomes the `now` parameter. The player reads the clock again
  inside `update`; the model passes that call the same `now`.
- Timers: `frozenTimer` is an optional handle and `setTimeout`/`clearTimeout` are not
  modelled. Nothing in these files sets `frozen` to true.
- Not part of this model: `checkCollision(a, b)` and `gridToPixel`.
  - The rectangle test is the abstract `Overlap` value. No property depends on how it
    treats touching edges.
  - `gridToPixel` is assumed to scale by `CELL_SIZE`.
- Floating point: positions, speeds and times are exact reals. Rounding error in
  16.67 and 1.2 is not modelled.
- GameModel.Game.SwitchLevel: requires level 1 or 2. `getLevelConfig` has no entry for
  other levels, so `initGame` fails there in the source; layout 3 is modelled in the
  maze only.
- GameModel.Game.Update: for a PLAYING frame it states the possible outcomes, not the
  new positions.
  - `Game.MoveGhosts` and `Player.Update` state those.
  - The maze the entities moved against changes again during the contact phase.
- `Player.score` is carried but never changed, as in the source.
- PAUSED is declared but never entered. The slow, predator and multiplier items,
  respawn timers and ghost eating do not appear in these files.
