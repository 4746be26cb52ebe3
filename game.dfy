/** The game (js/game.js): level configuration and spawn points, the pellet, key and
    ghost contacts of each frame with their scoring, level completion, the READY /
    PLAYING / GAME_OVER state machine and the keyboard handler. */
module GameModel {
  import opened Options
  import opened Constants
  import opened Geometry
  import opened MazeModel
  import opened PlayerModel
  import opened GhostModel

  // ---------------------------------------------------------------------------
  // Levels and spawn points

  datatype LevelConfig = LevelConfig(name: string, description: seq<string>, ghostSpeed: real)

  /** The text shown on the READY screen of each level. */
  const StorageText: seq<string> :=
    ["Welcome to Storage.",
     "It's all nice and easy here",
     "and noone is actually chasing you."]
  const CatalogText: seq<string> :=
    ["Good job, welcome to data sharing.",
     "The data and enemies starts flowing",
     "but more faster here and things gets bit messier."]

  /** `getLevelConfig`: only levels 1 and 2 have a configuration. */
  function GetLevelConfig(level: int): (c: Option<LevelConfig>)
    ensures c.Some? <==> level in {1, 2}
    ensures c.Some? ==> c.value.ghostSpeed > 0.0 && |c.value.description| == 3
  {
    if level == 1 then
      Some(LevelConfig("Storage", StorageText, 1.0))
    else if level == 2 then
      Some(LevelConfig("Data catalog", CatalogText, 1.5))
    else None
  }

  /** The ghosts of level 2 are one and a half times as fast as those of level 1. */
  lemma LevelTwoGhostsFaster()
    ensures GetLevelConfig(2).value.ghostSpeed == 1.5 * GetLevelConfig(1).value.ghostSpeed
  {
  }

  function GhostSpeed(level: int): real
    requires level in {1, 2}
  {
    GetLevelConfig(level).value.ghostSpeed
  }

  /** The player's spawn cell: (14, 23) on level 1, (14, 26) on any other level. */
  function PlayerCell(level: int): (int, int) {
    if level == 1 then (14, 23) else (14, 26)
  }

  /** The ghosts' spawn row: 11 on level 1, 1 on any other level. */
  function GhostRow(level: int): int {
    if level == 1 then 11 else 1
  }

  /** The ghosts' spawn columns, in creation order. */
  function GhostColumns(level: int): seq<int> {
    if level == 1 then [13, 14, 15, 16] else [3, 10, 18, 24]
  }

  /** The colours of the four ghosts, in creation order. */
  const GhostColors: seq<string> := ["#FF0000", "#FFB8FF", "#00FFFF", "#FFB852"]

  /** The layout holds the player's spawn cell as a pellet and every ghost's as a
      blank or a pellet. */
  predicate SpawnsClear(L: seq<string>, level: int) {
    var p := PlayerCell(level);
    && InGrid(L, p.0, p.1) && L[p.1][p.0] == '.'
    && forall i :: 0 <= i < 4 ==>
         InGrid(L, GhostColumns(level)[i], GhostRow(level)) &&
         L[GhostRow(level)][GhostColumns(level)[i]] in {' ', '.'}
  }

  /** No spawn cell of levels 1 and 2 holds a wall or a door. */
  lemma SpawnCellsClear(level: int)
    requires level in {1, 2}
    ensures SpawnsClear(MazeLayout(level), level)
  {
    if level == 1 {
      SpawnCellsOne();
    } else {
      SpawnCellsTwo();
    }
  }

  lemma SpawnCellsOne()
    ensures SpawnsClear(Layout1(), 1)
  {
    var spawnRow, ghostRow := Layout1Row(23), Layout1Row(11);
    assert spawnRow[14] == '.';
    assert ghostRow[13] == ' ' && ghostRow[14] == ' ' && ghostRow[15] == ' ' && ghostRow[16] == ' ';
  }

  lemma SpawnCellsTwo()
    ensures SpawnsClear(Layout2(), 2)
  {
    var spawnRow, ghostRow := Layout2Row(26), Layout2Row(1);
    assert spawnRow[14] == '.';
    assert ghostRow[3] == '.' && ghostRow[10] == '.' && ghostRow[18] == '.' && ghostRow[24] == '.';
  }

  /** Neither a wall nor a door stands on a spawn cell of the level. */
  predicate SpawnsOpen(o: Objects, level: int) {
    var p := PlayerCell(level);
    && WallAt(p.0, p.1) !in o.walls
    && (forall c :: DoorAt(p.0, p.1, c) !in o.doors)
    && forall i :: 0 <= i < 4 ==>
         WallAt(GhostColumns(level)[i], GhostRow(level)) !in o.walls &&
         forall c :: DoorAt(GhostColumns(level)[i], GhostRow(level), c) !in o.doors
  }

  /** So the built maze has no wall and no door on any spawn cell. */
  lemma NoWallOnSpawn(level: int)
    requires level in {1, 2}
    ensures SpawnsOpen(Parse(MazeLayout(level)), level)
  {
    SpawnCellsClear(level);
    ClearCellsOpen(MazeLayout(level), level);
  }

  /** A layout whose spawn cells hold blanks or pellets parses to a maze with no wall
      and no door on them. */
  lemma ClearCellsOpen(L: seq<string>, level: int)
    requires SpawnsClear(L, level)
    ensures SpawnsOpen(Parse(L), level)
  {
    var p := PlayerCell(level);
    WallPerHash(L, p.0, p.1);
    forall c ensures DoorAt(p.0, p.1, c) !in Parse(L).doors {
      DoorPerSymbol(L, p.0, p.1, c);
    }
    forall i | 0 <= i < 4
      ensures WallAt(GhostColumns(level)[i], GhostRow(level)) !in Parse(L).walls
      ensures forall c :: DoorAt(GhostColumns(level)[i], GhostRow(level), c) !in Parse(L).doors
    {
      WallPerHash(L, GhostColumns(level)[i], GhostRow(level));
      forall c ensures DoorAt(GhostColumns(level)[i], GhostRow(level), c) !in Parse(L).doors {
        DoorPerSymbol(L, GhostColumns(level)[i], GhostRow(level), c);
      }
    }
  }

  // ---------------------------------------------------------------------------
  // The pellet pass

  /** The pellet pass as written: `forEach` over the indices of the original list,
      stopping at the current length, with `splice(index, 1)` on every hit. After a
      splice the next pellet slides into the index just visited. */
  function SweepFrom(ps: seq<Rect>, k: nat, player: Rect, overlaps: Overlap): seq<Rect>
    decreases |ps| - k
  {
    if k >= |ps| then ps
    else if overlaps(player, ps[k]) then SweepFrom(ps[..k] + ps[k + 1..], k + 1, player, overlaps)
    else SweepFrom(ps, k + 1, player, overlaps)
  }

  /** The same pass told in the list's original order: a hit pellet is removed and the
      one after it survives unvisited. */
  function Pass(ps: seq<Rect>, player: Rect, overlaps: Overlap): seq<Rect>
    decreases |ps|
  {
    if ps == [] then []
    else if overlaps(player, ps[0]) then
      (if |ps| == 1 then [] else [ps[1]] + Pass(ps[2..], player, overlaps))
    else [ps[0]] + Pass(ps[1..], player, overlaps)
  }

  /** The splicing pass is the original-order pass from index k on. */
  lemma {:induction false} SweepIsPass(ps: seq<Rect>, k: nat, player: Rect, overlaps: Overlap)
    requires k <= |ps|
    ensures SweepFrom(ps, k, player, overlaps) == ps[..k] + Pass(ps[k..], player, overlaps)
    decreases |ps| - k
  {
    if k == |ps| {
      assert ps[..k] == ps;
    } else if overlaps(player, ps[k]) {
      var rest := ps[..k] + ps[k + 1..];
      if k + 1 == |ps| {
        assert rest == ps[..k];
        assert ps[k..] == [ps[k]];
      } else {
        SweepIsPass(rest, k + 1, player, overlaps);
        assert rest[..k + 1] == ps[..k] + [ps[k + 1]];
        assert rest[k + 1..] == ps[k + 2..];
        assert ps[k..][2..] == ps[k + 2..];
        assert ps[k..][1] == ps[k + 1];
      }
    } else {
      SweepIsPass(ps, k + 1, player, overlaps);
      assert ps[..k + 1] == ps[..k] + [ps[k]];
      assert ps[k..][1..] == ps[k + 1..];
    }
  }

  /** What one `checkCollisions` leaves of the pellets. */
  function PelletPass(ps: seq<Rect>, player: Rect, overlaps: Overlap): (rest: seq<Rect>)
    ensures rest == Pass(ps, player, overlaps)
  {
    SweepIsPass(ps, 0, player, overlaps);
    assert ps[0..] == ps;
    SweepFrom(ps, 0, player, overlaps)
  }

  /** How many copies of p the list holds. */
  function Count(ps: seq<Rect>, p: Rect): nat {
    if ps == [] then 0 else (if ps[0] == p then 1 else 0) + Count(ps[1..], p)
  }

  /** The pass drops only pellets the player touches: it never holds more copies of a
      pellet than the list did, and it keeps every copy of an untouched one. */
  lemma {:induction false} PassDropsOnlyHits(ps: seq<Rect>, player: Rect, overlaps: Overlap, p: Rect)
    ensures Count(Pass(ps, player, overlaps), p) <= Count(ps, p)
    ensures !overlaps(player, p) ==> Count(Pass(ps, player, overlaps), p) == Count(ps, p)
    decreases |ps|
  {
    if ps == [] {
    } else if overlaps(player, ps[0]) {
      if |ps| > 1 {
        var tail := ps[2..];
        PassDropsOnlyHits(tail, player, overlaps, p);
        var rest := Pass(tail, player, overlaps);
        assert ([ps[1]] + rest)[0] == ps[1] && ([ps[1]] + rest)[1..] == rest;
        assert ps[1..][0] == ps[1] && ps[1..][1..] == tail;
      }
    } else {
      var tail := ps[1..];
      PassDropsOnlyHits(tail, player, overlaps, p);
      var rest := Pass(tail, player, overlaps);
      assert ([ps[0]] + rest)[0] == ps[0] && ([ps[0]] + rest)[1..] == rest;
    }
  }

  /** A pass in which no pellet is hit changes nothing. */
  lemma {:induction false} PassWithoutHits(ps: seq<Rect>, player: Rect, overlaps: Overlap)
    requires forall i :: 0 <= i < |ps| ==> !overlaps(player, ps[i])
    ensures Pass(ps, player, overlaps) == ps
    decreases |ps|
  {
    if ps != [] {
      PassWithoutHits(ps[1..], player, overlaps);
    }
  }

  /** A pass in which some pellet is hit removes at least one. */
  lemma {:induction false} PassProgress(ps: seq<Rect>, player: Rect, overlaps: Overlap, i: nat)
    requires i < |ps| && overlaps(player, ps[i])
    ensures |Pass(ps, player, overlaps)| < |ps|
    decreases |ps|
  {
    if !overlaps(player, ps[0]) {
      PassProgress(ps[1..], player, overlaps, i - 1);
    } else if |ps| > 1 {
      PassShrinks(ps[2..], player, overlaps);
    }
  }

  /** The pass never adds pellets. */
  lemma {:induction false} PassShrinks(ps: seq<Rect>, player: Rect, overlaps: Overlap)
    ensures |Pass(ps, player, overlaps)| <= |ps|
    decreases |ps|
  {
    if ps == [] {
    } else if overlaps(player, ps[0]) {
      if |ps| > 1 {
        PassShrinks(ps[2..], player, overlaps);
      }
    } else {
      PassShrinks(ps[1..], player, overlaps);
    }
  }

  /** Two touching pellets in a row: the splice slides the second into the visited
      index, so one pass collects only the first. */
  lemma SpliceSkipsNext(a: Rect, b: Rect, player: Rect, overlaps: Overlap)
    requires overlaps(player, a) && overlaps(player, b)
    ensures SweepFrom([a, b], 0, player, overlaps) == [b]
  {
    assert [a, b][..0] + [a, b][1..] == [b];
  }

  /** Where a ghost stands after one frame: a frozen ghost stays, any other takes
      its step. */
  function GhostFrame(g: GhostPose, frozen: bool, speed: real, roll: real, board: Board): GhostPose
    requires 0.0 <= roll < 1.0
  {
    if frozen then g else GhostStep(g, speed, roll, board)
  }

  /** Every ghost's frame, in order. */
  function GhostFrames(poses: seq<GhostPose>, frozen: seq<bool>, speed: real, rolls: seq<real>, board: Board): (next: seq<GhostPose>)
    requires |frozen| == |rolls| == |poses|
    requires forall i :: 0 <= i < |rolls| ==> 0.0 <= rolls[i] < 1.0
    ensures |next| == |poses|
  {
    seq(|poses|, i requires 0 <= i < |poses| => GhostFrame(poses[i], frozen[i], speed, rolls[i], board))
  }

  /** Whether the player's rectangle touches any ghost's. */
  predicate Touches(box: Rect, ghostBoxes: seq<Rect>, overlaps: Overlap) {
    exists i :: 0 <= i < |ghostBoxes| && overlaps(box, ghostBoxes[i])
  }

  /** The points of one frame: 10 per pellet the pass removed, 50 for a key. */
  function Gain(before: seq<Rect>, after: seq<Rect>, key: Option<nat>): int {
    10 * (|before| - |after|) + (if key.Some? then 50 else 0)
  }

  /** A frame's points are a multiple of 10, at most 10 per pellet plus 50, and
      nothing is scored exactly when the player touches no pellet and no key. */
  lemma FrameGain(ps: seq<Rect>, player: Rect, overlaps: Overlap, key: Option<nat>)
    ensures var g := Gain(ps, PelletPass(ps, player, overlaps), key);
      && 0 <= g <= 10 * |ps| + 50 && g % 10 == 0
      && (g == 0 <==> key.None? && forall i :: 0 <= i < |ps| ==> !overlaps(player, ps[i]))
  {
    PassShrinks(ps, player, overlaps);
    if forall i :: 0 <= i < |ps| ==> !overlaps(player, ps[i]) {
      PassWithoutHits(ps, player, overlaps);
    } else {
      var i :| 0 <= i < |ps| && overlaps(player, ps[i]);
      PassProgress(ps, player, overlaps, i);
    }
  }

  // ---------------------------------------------------------------------------
  // The keyboard

  /** The state after a key press: RESTART always leads to READY, a direction key
      starts a READY game, and every other key leaves the state alone. */
  function NextState(s: GameState, keyCode: int): GameState {
    match KeyAction(keyCode)
    case Some(Restart) => Ready
    case Some(Move(_)) => if s == Ready then Playing else s
    case None => s
  }

  /** Only the R key leaves GAME_OVER, and it leads to READY. */
  lemma OnlyRestartLeavesGameOver(keyCode: int)
    ensures NextState(GameOver, keyCode) != GameOver <==> keyCode == 82
    ensures keyCode == 82 ==> NextState(GameOver, keyCode) == Ready
  {
  }

  /** A game starts PLAYING only from READY and only on an arrow key; no key ever
      enters PAUSED. */
  lemma PlayingStartsFromReady(s: GameState, keyCode: int)
    ensures NextState(s, keyCode) == Playing && s != Playing ==> s == Ready && 37 <= keyCode <= 40
    ensures NextState(s, keyCode) == Paused ==> s == Paused
  {
  }

  /** The game frame: `delta` is `Math.min(elapsed / 1000, 0.1)`, in seconds. */
  function GameDelta(elapsed: real): (dt: real)
    ensures dt <= 0.1 && dt <= elapsed / 1000.0
    ensures dt == 0.1 || dt == elapsed / 1000.0
  {
    if elapsed / 1000.0 < 0.1 then elapsed / 1000.0 else 0.1
  }

  // ---------------------------------------------------------------------------
  // The game object

  class Game {
    var score: int
    var level: int
    var state: GameState
    var maze: Maze?
    var player: Player?
    var ghosts: seq<Ghost>
    /** The clock reading of the previous frame, in milliseconds. */
    var lastFrameTime: real
    /** The page-global intersection test. */
    const overlaps: Overlap
    /** The page global `window.currentLevel` that sets the player's base speed. */
    const currentLevel: Option<int>

    /** What holds between operations: the level has a configuration, the maze,
        player and four distinct ghosts exist and belong to it, the maze is built from
        the level's layout, and the score is a sum of 10s and 50s. */
    ghost predicate Valid()
      reads this
    {
      && maze != null && player != null && |ghosts| == 4
      && level in {1, 2} && maze.level == level && maze.layout == MazeLayout(level)
      && maze.overlaps == overlaps
      && (forall i, j :: 0 <= i < j < |ghosts| ==> ghosts[i] != ghosts[j])
      && (forall i :: 0 <= i < |ghosts| ==> ghosts[i].color == GhostColors[i] && ghosts[i].speed == GhostSpeed(level))
      && score >= 0 && score % 10 == 0
    }

    /** The player stands on the level's spawn cell, facing RIGHT, nothing queued. */
    predicate PlayerAtSpawn()
      reads this, player
    {
      && player != null
      && player.x == PlayerCell(level).0 as real * CellSize
      && player.y == PlayerCell(level).1 as real * CellSize
      && player.direction == Right && player.nextDirection == None
      && player.speed == BaseSpeed(currentLevel)
    }

    /** Every ghost stands on its spawn cell, facing LEFT, unfrozen. */
    predicate GhostsAtSpawn()
      reads this, set g | g in ghosts
    {
      && |ghosts| == 4
      && forall i :: 0 <= i < 4 ==>
           && ghosts[i].x == GhostColumns(level)[i] as real * CellSize
           && ghosts[i].y == GhostRow(level) as real * CellSize
           && ghosts[i].direction == Left
           && !ghosts[i].frozen && ghosts[i].frozenTimer == None
    }

    /** What `initGame` leaves: the level's maze built afresh with no key collected,
        and every entity on its spawn cell. */
    predicate Spawned()
      reads this, maze, player, set g | g in ghosts
    {
      && maze != null && maze.Pristine()
      && PlayerAtSpawn() && GhostsAtSpawn()
    }

    /** A freshly spawned game has no wall and no door on any spawn cell of its own
        maze. */
    lemma SpawnCellsOpen()
      requires Valid() && Spawned()
      ensures SpawnsOpen(maze.Contents(), level)
    {
      NoWallOnSpawn(level);
    }

    /** `new Game(canvas)`: level 1, score 0, READY, with everything built.
        `now` is the clock reading. */
    constructor (overlaps: Overlap, currentLevel: Option<int>, now: real)
      ensures Valid() && Spawned()
      ensures score == 0 && level == 1 && state == Ready && lastFrameTime == now
      ensures this.overlaps == overlaps && this.currentLevel == currentLevel
    {
      score := 0;
      level := 1;
      state := Ready;
      player := null;
      ghosts := [];
      maze := null;
      lastFrameTime := now;
      this.overlaps := overlaps;
      this.currentLevel := currentLevel;
      new;
      InitGame(now);
    }

    /** Drops every game object and returns to READY. */
    method Cleanup()
      modifies this
      ensures player == null && ghosts == [] && maze == null && state == Ready
      ensures score == old(score) && level == old(level) && lastFrameTime == old(lastFrameTime)
    {
      player := null;
      ghosts := [];
      maze := null;
      state := Ready;
    }

    /** Builds the level's maze, player and ghosts afresh, in READY. */
    method InitGame(now: real)
      requires level in {1, 2} && score >= 0 && score % 10 == 0
      modifies this
      ensures Valid() && Spawned() && state == Ready
      ensures fresh(maze) && fresh(player) && forall g :: g in ghosts ==> fresh(g)
      ensures score == old(score) && level == old(level) && lastFrameTime == old(lastFrameTime)
    {
      Cleanup();
      maze := new Maze(level, overlaps);
      SpawnEntities(now);
    }

    /** The second half of `initGame`: a new player and four new ghosts on the level's
        spawn cells, the ghosts at the level's configured speed. */
    method SpawnEntities(now: real)
      requires maze != null && level in {1, 2}
      modifies this
      ensures maze == old(maze) && state == old(state) && score == old(score) && level == old(level)
      ensures lastFrameTime == old(lastFrameTime)
      ensures PlayerAtSpawn() && GhostsAtSpawn() && fresh(player) && forall g :: g in ghosts ==> fresh(g)
      ensures forall i, j :: 0 <= i < j < 4 ==> ghosts[i] != ghosts[j]
      ensures forall i :: 0 <= i < 4 ==> ghosts[i].color == GhostColors[i] && ghosts[i].speed == GhostSpeed(level)
    {
      var startX, startY, ghostY := StartPositions(level);
      player := new Player(startX, startY, currentLevel, now);

      var config := GetLevelConfig(level);
      var ghostSpeed := config.value.ghostSpeed;
      ghosts := NewGhosts(level, ghostY, ghostSpeed);
    }

    /** The starting pixel positions of `initGame` and `setState`: the player's, and
        the row of the ghosts. */
    static method StartPositions(level: int) returns (startX: real, startY: real, ghostY: real)
      ensures startX == PlayerCell(level).0 as real * CellSize
      ensures startY == PlayerCell(level).1 as real * CellSize
      ensures ghostY == GhostRow(level) as real * CellSize
    {
      if level == 1 {
        startX := 14.0 * CellSize;
        startY := 23.0 * CellSize;
        ghostY := 11.0 * CellSize;
      } else {
        startX := 14.0 * CellSize;
        startY := 26.0 * CellSize;
        ghostY := 1.0 * CellSize;
      }
    }

    /** The four ghosts of `initGame`, at the level's spawn columns on row `ghostY`. */
    static method NewGhosts(level: int, ghostY: real, ghostSpeed: real) returns (gs: seq<Ghost>)
      ensures |gs| == 4 && forall g :: g in gs ==> fresh(g)
      ensures forall i, j :: 0 <= i < j < 4 ==> gs[i] != gs[j]
      ensures forall i :: 0 <= i < 4 ==>
        && gs[i].x == GhostColumns(level)[i] as real * CellSize && gs[i].y == ghostY
        && gs[i].color == GhostColors[i] && gs[i].speed == ghostSpeed
        && gs[i].direction == Left && !gs[i].frozen && gs[i].frozenTimer == None
    {
      var g0, g1, g2, g3;
      if level == 1 {
        g0 := new Ghost(13.0 * CellSize, ghostY, "#FF0000", ghostSpeed);
        g1 := new Ghost(14.0 * CellSize, ghostY, "#FFB8FF", ghostSpeed);
        g2 := new Ghost(15.0 * CellSize, ghostY, "#00FFFF", ghostSpeed);
        g3 := new Ghost(16.0 * CellSize, ghostY, "#FFB852", ghostSpeed);
      } else {
        g0 := new Ghost(3.0 * CellSize, ghostY, "#FF0000", ghostSpeed);
        g1 := new Ghost(10.0 * CellSize, ghostY, "#FFB8FF", ghostSpeed);
        g2 := new Ghost(18.0 * CellSize, ghostY, "#00FFFF", ghostSpeed);
        g3 := new Ghost(24.0 * CellSize, ghostY, "#FFB852", ghostSpeed);
      }
      gs := [g0, g1, g2, g3];
    }
  
    /** `gameOver`: only the state changes. */
    method EndGame()
      modifies this
      ensures state == GameOver
      ensures score == old(score) && level == old(level) && lastFrameTime == old(lastFrameTime)
      ensures maze == old(maze) && player == old(player) && ghosts == old(ghosts)
    {
      state := GameOver;
    }

    /** `restartGame`: score 0, level 1, everything rebuilt, READY. */
    method RestartGame(now: real)
      modifies this
      ensures Valid() && Spawned() && state == Ready
      ensures score == 0 && level == 1 && lastFrameTime == now
      ensures fresh(maze) && fresh(player) && forall g :: g in ghosts ==> fresh(g)
    {
      score := 0;
      level := 1;
      Cleanup();
      InitGame(now);
      lastFrameTime := now;
    }

    /** `switchLevel`: the chosen level from scratch, with score 0, in READY. Only
        levels 1 and 2 have a configuration; any other level fails in `initGame`. */
    method SwitchLevel(newLevel: int, now: real)
      requires newLevel in {1, 2}
      modifies this
      ensures Valid() && Spawned() && state == Ready
      ensures score == 0 && level == newLevel && lastFrameTime == old(lastFrameTime)
      ensures fresh(maze) && fresh(player) && forall g :: g in ghosts ==> fresh(g)
    {
      level := newLevel;
      score := 0;
      InitGame(now);
      state := Ready;
    }

    /** `setState`: records the state; entering READY also puts the player and the
        ghosts back on their spawn cells, keeping the maze as it is. */
    method SetState(newState: GameState, now: real)
      requires Valid()
      modifies this, player, set g | g in ghosts
      ensures Valid() && state == newState && lastFrameTime == now
      ensures score == old(score) && level == old(level)
      ensures maze == old(maze) && player == old(player) && ghosts == old(ghosts)
      ensures newState == Ready ==> PlayerAtSpawn() && GhostsAtSpawn()
      ensures newState != Ready ==> unchanged(player) && forall g :: g in ghosts ==> unchanged(g)
    {
      state := newState;
      lastFrameTime := now;
      if newState == Ready {
        var startX, startY, ghostY := StartPositions(level);
        player.x := startX;
        player.y := startY;
        player.direction := Right;
        player.nextDirection := None;
        player.Reset(currentLevel, now);
        ResetGhosts(ghostY);
      }
    }

    /** The `forEach` of `setState` that sends every ghost back to its spawn column. */
    method ResetGhosts(ghostY: real)
      requires Valid()
      modifies set g | g in ghosts
      ensures |ghosts| == 4
      ensures forall i :: 0 <= i < 4 ==>
        && ghosts[i].x == GhostColumns(level)[i] as real * CellSize && ghosts[i].y == ghostY
        && ghosts[i].direction == Left && !ghosts[i].frozen && ghosts[i].frozenTimer == None
    {
      var ghostXPositions := [3, 10, 18, 24];
      for index := 0 to |ghosts|
        invariant forall i :: 0 <= i < index ==>
          && ghosts[i].x == GhostColumns(level)[i] as real * CellSize && ghosts[i].y == ghostY
          && ghosts[i].direction == Left && !ghosts[i].frozen && ghosts[i].frozenTimer == None
      {
        if level == 1 {
          ghosts[index].Reset((13 + index) as real * CellSize, ghostY);
        } else {
          ghosts[index].Reset(ghostXPositions[index] as real * CellSize, ghostY);
        }
      }
    }
  
    /** The rectangles of the ghosts, in order. */
    function GhostBoxes(): (boxes: seq<Rect>)
      reads this, set g | g in ghosts
      ensures |boxes| == |ghosts| && forall i :: 0 <= i < |ghosts| ==> boxes[i] == ghosts[i].Box()
    {
      seq(|ghosts|, i reads this, set g | g in ghosts requires 0 <= i < |ghosts| => ghosts[i].Box())
    }

    /** The contacts of one frame, in the source's order: the pellet pass (10 points per
        pellet), the key pick-up (50 points), then the ghosts: a touching ghost ends
        the game at once. Otherwise a cleared maze on level 1 moves to level 2 in
        READY with the score kept, and a cleared level 2 restarts the game. */
    method CheckCollisions(now: real)
      requires Valid()
      modifies this, maze
      ensures Valid()
      ensures var box := old(player.Box());
        var left := PelletPass(old(maze.pellets), box, overlaps);
        var gained := Gain(old(maze.pellets), left, LastHit(old(maze.keys), box, overlaps));
        if Touches(box, old(GhostBoxes()), overlaps) then
          && state == GameOver && score == old(score) + gained && level == old(level)
          && lastFrameTime == old(lastFrameTime) && maze == old(maze) && player == old(player) && ghosts == old(ghosts)
          && maze.pellets == left
        else if left != [] then
          && state == old(state) && score == old(score) + gained && level == old(level)
          && lastFrameTime == old(lastFrameTime) && maze == old(maze) && player == old(player) && ghosts == old(ghosts)
          && maze.pellets == left
        else if old(level) == 1 then
          && state == Ready && score == old(score) + gained && level == 2
          && lastFrameTime == old(lastFrameTime) && Spawned() && fresh(maze)
        else
          && state == Ready && score == 0 && level == 1
          && lastFrameTime == now && Spawned() && fresh(maze)
      ensures !fresh(maze) ==> maze.walls == old(maze.walls) && maze.doors == old(maze.doors)
      ensures !fresh(maze) ==> match LastHit(old(maze.keys), old(player.Box()), overlaps)
        case None => maze.keys == old(maze.keys) && maze.collectedKeys == old(maze.collectedKeys)
        case Some(i) =>
          && maze.keys == old(maze.keys)[..i] + old(maze.keys)[i + 1..]
          && maze.collectedKeys == old(maze.collectedKeys) + {old(maze.keys)[i].color}
    {
      CollectItems();
      var touched := TouchesGhost();
      if touched {
        EndGame();
        return;
      }
      if maze.IsComplete() {
        AdvanceLevel(now);
      }
    }

    /** The pellet pass and the key pick-up of `checkCollisions`, with their points. */
    method CollectItems()
      requires Valid()
      modifies this, maze
      ensures Valid()
      ensures maze.pellets == PelletPass(old(maze.pellets), player.Box(), overlaps)
      ensures score == old(score) + Gain(old(maze.pellets), maze.pellets, LastHit(old(maze.keys), player.Box(), overlaps))
      ensures maze.walls == old(maze.walls) && maze.doors == old(maze.doors)
      ensures match LastHit(old(maze.keys), player.Box(), overlaps)
        case None => maze.keys == old(maze.keys) && maze.collectedKeys == old(maze.collectedKeys)
        case Some(i) =>
          && maze.keys == old(maze.keys)[..i] + old(maze.keys)[i + 1..]
          && maze.collectedKeys == old(maze.collectedKeys) + {old(maze.keys)[i].color}
      ensures state == old(state) && level == old(level) && lastFrameTime == old(lastFrameTime)
      ensures maze == old(maze) && player == old(player) && ghosts == old(ghosts)
    {
      EatPellets();
      var collectedKeyColor := maze.CollectKey(player.Box());
      if collectedKeyColor.Some? {
        score := score + 50;
      }
    }

    /** The loop over the ghosts of `checkCollisions`: whether any touches the player. */
    method TouchesGhost() returns (touched: bool)
      requires Valid()
      ensures touched == Touches(player.Box(), GhostBoxes(), overlaps)
    {
      ghost var boxes := GhostBoxes();
      for i := 0 to |ghosts|
        invariant forall j :: 0 <= j < i ==> !overlaps(player.Box(), boxes[j])
      {
        if overlaps(player.Box(), ghosts[i].Box()) {
          return true;
        }
      }
      return false;
    }

    /** A cleared maze: level 1 goes on to level 2 in READY with the score kept; level 2,
        the last, restarts the game. */
    method AdvanceLevel(now: real)
      requires Valid()
      modifies this
      ensures Valid() && Spawned() && state == Ready && fresh(maze)
      ensures old(level) == 1 ==> level == 2 && score == old(score) && lastFrameTime == old(lastFrameTime)
      ensures old(level) == 2 ==> level == 1 && score == 0 && lastFrameTime == now
    {
      if level < 2 {
        level := level + 1;
        InitGame(now);
        state := Ready;
      } else {
        RestartGame(now);
      }
    }

    /** One frame of `update`: the frame time is always taken; only a PLAYING game
        moves its ghosts (each with its own random roll), then the player, and then
        checks the contacts. `now` is the clock reading, `rolls` the values of
        `Math.random()` the four ghosts draw. */
    method Update(now: real, rolls: seq<real>)
      requires Valid()
      requires |rolls| == 4 && forall i :: 0 <= i < 4 ==> 0.0 <= rolls[i] < 1.0
      modifies this, maze, player, set g | g in ghosts
      ensures Valid()
      ensures old(state) != Playing ==>
        && state == old(state) && score == old(score) && level == old(level)
        && maze == old(maze) && player == old(player) && ghosts == old(ghosts)
        && lastFrameTime == now
        && unchanged(maze, player) && forall g :: g in ghosts ==> unchanged(g)
      ensures old(state) == Playing ==>
        || (state == GameOver && score >= old(score) && level == old(level))
        || (state == Playing && score >= old(score) && level == old(level) && maze.pellets != [])
        || (state == Ready && score >= old(score) && level == 2 && old(level) == 1 && Spawned())
        || (state == Ready && score == 0 && level == 1 && old(level) == 2 && Spawned())
    {
      var deltaTime := GameDelta(now - lastFrameTime);
      lastFrameTime := now;
      if state == Playing {
        MoveGhosts(deltaTime, rolls);
        player.Update(maze, now);
        PassShrinks(maze.pellets, player.Box(), overlaps);
        CheckCollisions(now);
      }
    }

    /** The ghosts' positions and headings, in order. */
    function GhostPoses(): (poses: seq<GhostPose>)
      reads this, set g | g in ghosts
      ensures |poses| == |ghosts| && forall i :: 0 <= i < |ghosts| ==> poses[i] == ghosts[i].AsPose()
    {
      seq(|ghosts|, i reads this, set g | g in ghosts requires 0 <= i < |ghosts| => ghosts[i].AsPose())
    }

    /** Which ghosts are frozen, in order. */
    function GhostsFrozen(): (frozen: seq<bool>)
      reads this, set g | g in ghosts
      ensures |frozen| == |ghosts| && forall i :: 0 <= i < |ghosts| ==> frozen[i] == ghosts[i].frozen
    {
      seq(|ghosts|, i reads this, set g | g in ghosts requires 0 <= i < |ghosts| => ghosts[i].frozen)
    }

    /** The `forEach` over the ghosts: each takes its own step, the others wait. */
    method MoveGhosts(deltaTime: real, rolls: seq<real>)
      requires Valid()
      requires |rolls| == 4 && forall i :: 0 <= i < 4 ==> 0.0 <= rolls[i] < 1.0
      modifies set g | g in ghosts
      ensures GhostPoses() == GhostFrames(old(GhostPoses()), old(GhostsFrozen()), GhostSpeed(level), rolls, maze.AsBoard())
      ensures forall i :: 0 <= i < 4 ==>
        && ghosts[i].frozen == old(ghosts[i].frozen) && ghosts[i].frozenTimer == old(ghosts[i].frozenTimer)
        && ghosts[i].nextDirectionChange == old(ghosts[i].nextDirectionChange)
    {
      ghost var poses := GhostPoses();
      ghost var frozen := GhostsFrozen();
      for i := 0 to 4
        invariant forall j :: 0 <= j < i ==>
          && ghosts[j].AsPose() == GhostFrame(poses[j], frozen[j], GhostSpeed(level), rolls[j], maze.AsBoard())
          && ghosts[j].frozen == old(ghosts[j].frozen) && ghosts[j].frozenTimer == old(ghosts[j].frozenTimer)
          && ghosts[j].nextDirectionChange == old(ghosts[j].nextDirectionChange)
        invariant forall j :: i <= j < 4 ==> unchanged(ghosts[j])
      {
        ghosts[i].Update(maze, deltaTime, rolls[i]);
      }
    }

    /** The `keydown` handler: R restarts the game; an arrow key queues its direction
        for the player and starts a READY game; every other key is ignored. */
    method KeyDown(keyCode: int, now: real)
      requires Valid()
      modifies this, player
      ensures Valid()
      ensures state == NextState(old(state), keyCode)
      ensures keyCode == 82 ==> score == 0 && level == 1 && Spawned() && lastFrameTime == now
      ensures keyCode != 82 ==>
        && score == old(score) && level == old(level)
        && maze == old(maze) && player == old(player) && ghosts == old(ghosts)
      ensures 37 <= keyCode <= 40 ==>
        && player.nextDirection == Some(KeyAction(keyCode).value.direction)
        && player.x == old(player.x) && player.y == old(player.y) && player.direction == old(player.direction)
        && player.speed == old(player.speed) && player.baseSpeed == old(player.baseSpeed)
        && player.score == old(player.score) && player.lastUpdate == old(player.lastUpdate)
        && lastFrameTime == (if old(state) == Ready then now else old(lastFrameTime))
      ensures KeyAction(keyCode) == None ==> unchanged(this, player)
    {
      var action := KeyAction(keyCode);
      match action {
        case Some(Restart) =>
          RestartGame(now);
        case Some(Move(d)) =>
          player.SetDirection(d);
          if state == Ready {
            lastFrameTime := now;
            state := Playing;
          }
        case None =>
      }
    }

    /** The `forEach` over the pellets with its `splice`: the pass as written. */
    method EatPellets()
      requires Valid()
      modifies this, maze
      ensures Valid()
      ensures maze.pellets == PelletPass(old(maze.pellets), player.Box(), overlaps)
      ensures score == old(score) + 10 * (|old(maze.pellets)| - |maze.pellets|)
      ensures maze.walls == old(maze.walls) && maze.doors == old(maze.doors)
      ensures maze.keys == old(maze.keys) && maze.collectedKeys == old(maze.collectedKeys)
      ensures state == old(state) && level == old(level) && lastFrameTime == old(lastFrameTime)
      ensures maze == old(maze) && player == old(player) && ghosts == old(ghosts)
    {
      var box := player.Box();
      var length := |maze.pellets|;
      for index := 0 to length
        invariant maze == old(maze) && player == old(player) && ghosts == old(ghosts)
        invariant SweepFrom(maze.pellets, index, box, overlaps) == SweepFrom(old(maze.pellets), 0, box, overlaps)
        invariant |maze.pellets| <= |old(maze.pellets)|
        invariant score == old(score) + 10 * (|old(maze.pellets)| - |maze.pellets|)
        invariant maze.walls == old(maze.walls) && maze.doors == old(maze.doors)
        invariant maze.keys == old(maze.keys) && maze.collectedKeys == old(maze.collectedKeys)
        invariant state == old(state) && level == old(level) && lastFrameTime == old(lastFrameTime)
      {
        if index < |maze.pellets| {
          var pellet := maze.pellets[index];
          if overlaps(box, pellet) {
            maze.pellets := maze.pellets[..index] + maze.pellets[index + 1..];
            score := score + 10;
          }
        }
      }
    }
  }
}
