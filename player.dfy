/** The player (js/player.js): a queued turn that commits only near a grid point,
    an all-or-nothing forward step against the maze, and horizontal wrapping. */
module PlayerModel {
  import opened Options
  import opened Constants
  import opened Geometry
  import opened MazeModel

  /** Player width and height: two pixels under a cell. */
  const PlayerSize: real := CellSize - 2.0

  /** Milliseconds in the nominal frame that one unit of `deltaTime` stands for. */
  const FrameMillis: real := 16.67

  /** The base speed: 2.5 when `window.currentLevel` is exactly 1, otherwise 1.2 times
      that. `currentLevel` is a page global that this model receives as a value
      (`None` for undefined). */
  function BaseSpeed(currentLevel: Option<int>): real {
    if currentLevel == Some(1) then 2.5 else 2.5 * 1.2
  }

  /** Level 1 is the slow one; every other value of the global gives 3 pixels a frame. */
  lemma BaseSpeedValues(currentLevel: Option<int>)
    ensures currentLevel == Some(1) ==> BaseSpeed(currentLevel) == 2.5
    ensures currentLevel != Some(1) ==> BaseSpeed(currentLevel) == 3.0
    ensures BaseSpeed(currentLevel) > 0.0
  {
  }

  /** `Math.min(elapsed / 16.67, 1)`: the frame delta, never more than one nominal frame. */
  function FrameDelta(elapsed: real): (dt: real)
    ensures dt <= 1.0 && dt <= elapsed / FrameMillis
    ensures dt == 1.0 || dt == elapsed / FrameMillis
    ensures elapsed >= 0.0 ==> dt >= 0.0
  {
    if elapsed / FrameMillis < 1.0 then elapsed / FrameMillis else 1.0
  }

  /** The part of the player that `update` changes. */
  datatype Pose = Pose(x: real, y: real, direction: Direction, next: Option<Direction>)

  /** The rectangle the player asks the maze about when standing at (x, y). */
  function Probe(x: real, y: real): Rect {
    Rect(x, y, PlayerSize, PlayerSize)
  }

  /** The cell one step away from the grid point (cx, cy) in direction d. */
  function CellAhead(cx: real, cy: real, d: Direction): Rect {
    Probe(cx + d.Dx() as real * CellSize, cy + d.Dy() as real * CellSize)
  }

  /** A queued turn commits when the player is within `speed` of the nearest grid point
      on both axes and the cell one step from that point in the queued direction is free. */
  predicate CanTurn(p: Pose, speed: real, board: Board) {
    && p.next.Some?
    && var cx := NearestGridLine(p.x);
    var cy := NearestGridLine(p.y);
    && Abs(p.x - cx) <= speed && Abs(p.y - cy) <= speed
    && !board.Blocks(CellAhead(cx, cy, p.next.value))
  }

  /** The turn phase of `update`. */
  function Turn(p: Pose, speed: real, board: Board): Pose {
    if CanTurn(p, speed, board) then
      Pose(NearestGridLine(p.x), NearestGridLine(p.y), p.next.value, None)
    else p
  }

  /** The forward phase of `update`: all of `amount` along the direction, or nothing. */
  function Advance(p: Pose, amount: real, board: Board): Pose {
    var nx := p.x + p.direction.Dx() as real * amount;
    var ny := p.y + p.direction.Dy() as real * amount;
    if !board.Blocks(Probe(nx, ny)) then p.(x := nx, y := ny) else p
  }

  /** The wrap phase of `update`: two independent tests on x, in this order. */
  function WrapX(x: real): real {
    var x1 := if x < -PlayerSize then BoardWidth else x;
    if x1 > BoardWidth then -PlayerSize else x1
  }

  /** One call of `update`, moving `amount` (speed times the frame delta) forward. */
  function Step(p: Pose, speed: real, amount: real, board: Board): Pose {
    Wrap(Advance(Turn(p, speed, board), amount, board))
  }

  function Wrap(p: Pose): Pose {
    p.(x := WrapX(p.x))
  }

  /** A committed turn lands exactly on a grid point no further than `speed` away on
      either axis, faces the queued direction with an empty queue, and the cell ahead is
      free; a turn that does not commit changes nothing. */
  lemma TurnSnapsToGrid(p: Pose, speed: real, board: Board)
    ensures var q := Turn(p, speed, board);
      if CanTurn(p, speed, board) then
        && OnGrid(q.x) && OnGrid(q.y)
        && Abs(q.x - p.x) <= speed && Abs(q.y - p.y) <= speed
        && q.direction == p.next.value && q.next == None
        && !board.Blocks(CellAhead(q.x, q.y, q.direction))
      else q == p
  {
  }

  /** With nothing queued, or with the cell past the grid point blocked, the turn keeps
      the direction, the queue and the position. */
  lemma BlockedTurnKeepsQueue(p: Pose, speed: real, board: Board)
    requires p.next.None? || board.Blocks(CellAhead(NearestGridLine(p.x), NearestGridLine(p.y), p.next.value))
    ensures Turn(p, speed, board) == p
  {
  }

  /** The forward step either moves the full amount along the direction to a free
      rectangle, or leaves the player where it was; direction and queue never change,
      and the axis across the direction never moves. */
  lemma AdvanceAllOrNothing(p: Pose, amount: real, board: Board)
    ensures var q := Advance(p, amount, board);
      && q.direction == p.direction && q.next == p.next
      && ((q.x == p.x && q.y == p.y) ||
          (q.x == p.x + p.direction.Dx() as real * amount &&
           q.y == p.y + p.direction.Dy() as real * amount &&
           !board.Blocks(Probe(q.x, q.y))))
      && (p.direction.Dx() == 0 ==> q.x == p.x)
      && (p.direction.Dy() == 0 ==> q.y == p.y)
  {
  }

  /** With the frame delta clamped to at most 1, the forward amount never exceeds the
      speed. */
  lemma MoveAmountBounded(speed: real, elapsed: real)
    requires speed >= 0.0 && elapsed >= 0.0
    ensures 0.0 <= speed * FrameDelta(elapsed) <= speed
  {
    var dt := FrameDelta(elapsed);
    assert speed * (1.0 - dt) >= 0.0;
  }

  /** The forward step alone, when `amount` is at most `speed`, moves the player at most
      `speed` pixels, counting both axes together. */
  lemma StepDistanceBounded(p: Pose, speed: real, amount: real, board: Board)
    requires 0.0 <= amount <= speed
    ensures var t := Turn(p, speed, board);
      var q := Advance(t, amount, board);
      Abs(q.x - t.x) + Abs(q.y - t.y) <= speed
  {
    var t := Turn(p, speed, board);
    var q := Advance(t, amount, board);
    if q != t {
      match t.direction
      case Up => assert q.x == t.x && q.y == t.y - amount;
      case Down => assert q.x == t.x && q.y == t.y + amount;
      case Left => assert q.x == t.x - amount && q.y == t.y;
      case Right => assert q.x == t.x + amount && q.y == t.y;
    }
  }

  /** A whole frame (turn, then forward step, before wrapping) moves the player at most
      twice `speed` on each axis: the snap to the grid point and the step both count. */
  lemma FrameDisplacementBounded(p: Pose, speed: real, amount: real, board: Board)
    requires 0.0 <= amount <= speed
    ensures var q := Advance(Turn(p, speed, board), amount, board);
      Abs(q.x - p.x) <= 2.0 * speed && Abs(q.y - p.y) <= 2.0 * speed
  {
    TurnSnapsToGrid(p, speed, board);
    StepDistanceBounded(p, speed, amount, board);
  }

  /** The bound of twice `speed` is reached: 2.5 pixels short of the grid line at 16,
      a queued RIGHT snaps forward 2.5 and then steps 2.5, moving x by 5 in one frame. */
  lemma FrameDisplacementReachesTwiceSpeed(overlaps: Overlap)
    ensures Step(Pose(13.5, 32.0, Up, Some(Right)), 2.5, 2.5, Board([], [], {}, overlaps)).x - 13.5 == 5.0
  {
    assert Round(13.5 / CellSize) == 1;
    assert Round(32.0 / CellSize) == 2;
  }

  /** After wrapping, x lies in [-PlayerSize, BoardWidth], and an x already in that
      range is left alone. */
  lemma WrapXRange(x: real)
    ensures -PlayerSize <= WrapX(x) <= BoardWidth
    ensures -PlayerSize <= x <= BoardWidth ==> WrapX(x) == x
    ensures x < -PlayerSize ==> WrapX(x) == BoardWidth
    ensures x > BoardWidth ==> WrapX(x) == -PlayerSize
  {
  }

  /** After a whole update x lies in [-PlayerSize, BoardWidth]; y is never wrapped,
      and the wrap touches neither direction nor queue. */
  lemma StepStaysOnBoardHorizontally(p: Pose, speed: real, amount: real, board: Board)
    ensures var q := Advance(Turn(p, speed, board), amount, board);
      var r := Step(p, speed, amount, board);
      && -PlayerSize <= r.x <= BoardWidth
      && r.y == q.y && r.direction == q.direction && r.next == q.next
  {
    WrapXRange(Advance(Turn(p, speed, board), amount, board).x);
  }

  class Player {
    var x: real
    var y: real
    const width: real := PlayerSize
    const height: real := PlayerSize
    var direction: Direction
    var nextDirection: Option<Direction>
    var baseSpeed: real
    var speed: real
    var score: int
    /** The clock reading of the previous update, in milliseconds. */
    var lastUpdate: real

    function AsPose(): Pose
      reads this
    {
      Pose(x, y, direction, nextDirection)
    }

    function Box(): Rect
      reads this
    {
      Rect(x, y, width, height)
    }

    /** A new player faces RIGHT with nothing queued, at its level's base speed.
        `now` is the clock reading. */
    constructor (x: real, y: real, currentLevel: Option<int>, now: real)
      ensures this.x == x && this.y == y
      ensures direction == Right && nextDirection == None
      ensures baseSpeed == BaseSpeed(currentLevel) && speed == baseSpeed
      ensures score == 0 && lastUpdate == now
    {
      this.x := x;
      this.y := y;
      direction := Right;
      nextDirection := None;
      baseSpeed := BaseSpeed(currentLevel);
      speed := BaseSpeed(currentLevel);
      score := 0;
      lastUpdate := now;
    }

    /** One frame: turn if a queued turn can commit, step forward if the way is free,
        then wrap horizontally. `now` is the clock reading. */
    method Update(maze: Maze, now: real)
      modifies this
      ensures AsPose() == Step(old(AsPose()), speed, speed * FrameDelta(now - old(lastUpdate)), maze.AsBoard())
      ensures speed == old(speed) && baseSpeed == old(baseSpeed) && score == old(score)
      ensures lastUpdate == now
    {
      var deltaTime := FrameDelta(now - lastUpdate);
      lastUpdate := now;
      var moveAmount := speed * deltaTime;
      ghost var start := AsPose();
      TryTurn(maze);
      ghost var turned := AsPose();
      MoveForward(maze, moveAmount);
      ghost var moved := AsPose();
      if x < -width {
        x := BoardWidth;
      }
      if x > BoardWidth {
        x := -width;
      }
      assert AsPose() == Wrap(moved);
      assert maze.AsBoard() == old(maze.AsBoard());
      assert turned == Turn(start, speed, maze.AsBoard());
      assert moved == Advance(turned, moveAmount, maze.AsBoard());
      assert moveAmount == speed * FrameDelta(now - old(lastUpdate));
    }

    /** The turn phase of `update`: commit the queued direction at a grid point. */
    method TryTurn(maze: Maze)
      modifies this
      ensures AsPose() == Turn(old(AsPose()), speed, maze.AsBoard())
      ensures speed == old(speed) && baseSpeed == old(baseSpeed) && score == old(score)
      ensures lastUpdate == old(lastUpdate)
    {
      if nextDirection.Some? {
        var cellX := Round(x / CellSize) as real * CellSize;
        var cellY := Round(y / CellSize) as real * CellSize;
        var distanceX := Abs(x - cellX);
        var distanceY := Abs(y - cellY);
        if distanceX <= speed && distanceY <= speed {
          var nextX := cellX + nextDirection.value.Dx() as real * CellSize;
          var nextY := cellY + nextDirection.value.Dy() as real * CellSize;
          if !maze.CheckCollision(nextX, nextY, width, height) {
            x := cellX;
            y := cellY;
            direction := nextDirection.value;
            nextDirection := None;
          }
        }
      }
    }

    /** The forward phase of `update`: the whole step, or none of it. */
    method MoveForward(maze: Maze, moveAmount: real)
      modifies this
      ensures AsPose() == Advance(old(AsPose()), moveAmount, maze.AsBoard())
      ensures speed == old(speed) && baseSpeed == old(baseSpeed) && score == old(score)
      ensures lastUpdate == old(lastUpdate)
    {
      var newX := x + direction.Dx() as real * moveAmount;
      var newY := y + direction.Dy() as real * moveAmount;
      if !maze.CheckCollision(newX, newY, width, height) {
        x := newX;
        y := newY;
      }
    }

    /** Restores the level's base speed, faces RIGHT and clears the queue; the
        position is left where it is. */
    method Reset(currentLevel: Option<int>, now: real)
      modifies this
      ensures x == old(x) && y == old(y) && score == old(score)
      ensures baseSpeed == BaseSpeed(currentLevel) && speed == baseSpeed
      ensures direction == Right && nextDirection == None && lastUpdate == now
    {
      baseSpeed := BaseSpeed(currentLevel);
      speed := baseSpeed;
      lastUpdate := now;
      direction := Right;
      nextDirection := None;
    }

    /** Only queues the direction: position and current direction are unchanged. */
    method SetDirection(newDirection: Direction)
      modifies this
      ensures nextDirection == Some(newDirection)
      ensures x == old(x) && y == old(y) && direction == old(direction)
      ensures speed == old(speed) && baseSpeed == old(baseSpeed) && score == old(score)
      ensures lastUpdate == old(lastUpdate)
    {
      nextDirection := Some(newDirection);
    }
  }
}
