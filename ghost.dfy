/** A ghost (js/ghost.js): it walks straight on until its next step is blocked, then
    picks one of the open directions at random without moving that tick, and wraps
    around both edges of the board. */
module GhostModel {
  import opened Options
  import opened Constants
  import opened Geometry
  import opened MazeModel

  /** Ghost width and height: two pixels under a cell. */
  const GhostSize: real := CellSize - 2.0

  /** The part of a ghost that `update` changes. */
  datatype GhostPose = GhostPose(x: real, y: real, direction: Direction)

  /** The rectangle one `speed` step from (x, y) in direction d. */
  function StepProbe(x: real, y: real, speed: real, d: Direction): Rect {
    Rect(x + d.Dx() as real * speed, y + d.Dy() as real * speed, GhostSize, GhostSize)
  }

  predicate Open(x: real, y: real, speed: real, d: Direction, board: Board) {
    !board.Blocks(StepProbe(x, y, speed, d))
  }

  /** The open directions among the first n of UP, DOWN, LEFT, RIGHT, in that order. */
  function OpenPrefix(x: real, y: real, speed: real, board: Board, n: nat): (ds: seq<Direction>)
    requires n <= |Directions|
    ensures |ds| <= n
    ensures forall d :: d in ds <==> d in Directions[..n] && Open(x, y, speed, d, board)
  {
    if n == 0 then []
    else
      var d := Directions[n - 1];
      assert Directions[..n] == Directions[..n - 1] + [d];
      OpenPrefix(x, y, speed, board, n - 1) + (if Open(x, y, speed, d, board) then [d] else [])
  }

  /** `possibleDirections`: every direction whose one-step probe is free, and no other. */
  function OpenDirections(x: real, y: real, speed: real, board: Board): (ds: seq<Direction>)
    ensures |ds| <= 4
    ensures forall d :: d in ds <==> Open(x, y, speed, d, board)
  {
    assert Directions[..4] == Directions;
    OpenPrefix(x, y, speed, board, 4)
  }

  /** `Math.floor(roll * n)` for a `Math.random()` value `roll`: always a valid index. */
  function PickIndex(roll: real, n: nat): (i: nat)
    requires 0.0 <= roll < 1.0 && n > 0
    ensures i < n
  {
    assert 0.0 <= roll * n as real < n as real by {
      assert (1.0 - roll) * n as real > 0.0;
    }
    (roll * n as real).Floor
  }

  /** Every index can come up: the roll i/n picks index i. */
  lemma EveryIndexReachable(n: nat, i: nat)
    requires i < n
    ensures 0.0 <= i as real / n as real < 1.0
    ensures PickIndex(i as real / n as real, n) == i
  {
    assert (i as real / n as real) * n as real == i as real;
  }

  /** One axis of the wrap: below -size jumps to `bound`, else above `bound` jumps to -size. */
  function WrapAxis(v: real, size: real, bound: real): real {
    if v < -size then bound
    else if v > bound then -size
    else v
  }

  /** After wrapping, a coordinate lies in [-size, bound], and one already there stays put. */
  lemma WrapAxisRange(v: real, size: real, bound: real)
    requires -size <= bound
    ensures -size <= WrapAxis(v, size, bound) <= bound
    ensures -size <= v <= bound ==> WrapAxis(v, size, bound) == v
  {
  }

  /** The direction after the turn phase: unchanged when the way ahead is free or no
      direction is open, otherwise the open direction the roll picks. */
  function ChooseDirection(g: GhostPose, speed: real, roll: real, board: Board): Direction
    requires 0.0 <= roll < 1.0
  {
    if Open(g.x, g.y, speed, g.direction, board) then g.direction
    else
      var open := OpenDirections(g.x, g.y, speed, board);
      if |open| > 0 then open[PickIndex(roll, |open|)] else g.direction
  }

  /** One call of `update` on a ghost that is not frozen. */
  function GhostStep(g: GhostPose, speed: real, roll: real, board: Board): GhostPose
    requires 0.0 <= roll < 1.0
  {
    Settle(g, ChooseDirection(g, speed, roll, board), Open(g.x, g.y, speed, g.direction, board), speed)
  }

  /** The move and wrap phases: one `speed` step along d when the way was free, then
      the wrap on each axis. */
  function Settle(g: GhostPose, d: Direction, free: bool, speed: real): GhostPose {
    var nx := if free then g.x + d.Dx() as real * speed else g.x;
    var ny := if free then g.y + d.Dy() as real * speed else g.y;
    GhostPose(WrapAxis(nx, GhostSize, BoardWidth), WrapAxis(ny, GhostSize, BoardHeight), d)
  }

  /** With the way ahead free the ghost keeps its direction and moves exactly `speed`
      along it, up to the wrap; the roll plays no part. */
  lemma FreeStepMoves(g: GhostPose, speed: real, roll: real, roll2: real, board: Board)
    requires 0.0 <= roll < 1.0 && 0.0 <= roll2 < 1.0
    requires Open(g.x, g.y, speed, g.direction, board)
    ensures var r := GhostStep(g, speed, roll, board);
      var nx := g.x + g.direction.Dx() as real * speed;
      var ny := g.y + g.direction.Dy() as real * speed;
      && r.direction == g.direction
      && (-GhostSize <= nx <= BoardWidth ==> r.x == nx)
      && (-GhostSize <= ny <= BoardHeight ==> r.y == ny)
      && r == GhostStep(g, speed, roll2, board)
  {
  }

  /** When the way ahead is blocked the ghost does not move (up to the wrap), and it
      faces an open direction, or keeps its direction when none is open. */
  lemma BlockedGhostTurnsInPlace(g: GhostPose, speed: real, roll: real, board: Board)
    requires 0.0 <= roll < 1.0
    requires !Open(g.x, g.y, speed, g.direction, board)
    ensures var r := GhostStep(g, speed, roll, board);
      && r.x == WrapAxis(g.x, GhostSize, BoardWidth)
      && r.y == WrapAxis(g.y, GhostSize, BoardHeight)
      && (Open(g.x, g.y, speed, r.direction, board) ||
          (r.direction == g.direction && forall d :: !Open(g.x, g.y, speed, d, board)))
  {
    var open := OpenDirections(g.x, g.y, speed, board);
    if |open| > 0 {
      assert open[PickIndex(roll, |open|)] in open;
    }
  }

  /** Any open direction can be the one a blocked ghost turns to. */
  lemma EveryOpenDirectionPossible(g: GhostPose, speed: real, board: Board, d: Direction)
    requires !Open(g.x, g.y, speed, g.direction, board) && Open(g.x, g.y, speed, d, board)
    ensures exists roll :: 0.0 <= roll < 1.0 && GhostStep(g, speed, roll, board).direction == d
  {
    var open := OpenDirections(g.x, g.y, speed, board);
    assert d in open;
    var i :| 0 <= i < |open| && open[i] == d;
    EveryIndexReachable(|open|, i);
    var roll := i as real / |open| as real;
    assert GhostStep(g, speed, roll, board).direction == d;
  }

  class Ghost {
    var x: real
    var y: real
    const width: real := GhostSize
    const height: real := GhostSize
    const color: string
    var direction: Direction
    const speed: real
    var nextDirectionChange: int
    var frozen: bool
    /** A pending timer handle, if any. */
    var frozenTimer: Option<nat>

    function AsPose(): GhostPose
      reads this
    {
      GhostPose(x, y, direction)
    }

    function Box(): Rect
      reads this
    {
      Rect(x, y, width, height)
    }

    /** A new ghost faces LEFT, unfrozen, with the given speed (1 when not given). */
    constructor (x: real, y: real, color: string, speed: real := 1.0)
      ensures this.x == x && this.y == y && this.color == color && this.speed == speed
      ensures direction == Left && nextDirectionChange == 0
      ensures !frozen && frozenTimer == None
    {
      this.x := x;
      this.y := y;
      this.color := color;
      direction := Left;
      this.speed := speed;
      nextDirectionChange := 0;
      frozen := false;
      frozenTimer := None;
    }

    /** The loop that gathers `possibleDirections`, in the order of `DIRECTIONS`. */
    method PossibleDirections(maze: Maze) returns (possible: seq<Direction>)
      ensures possible == OpenDirections(x, y, speed, maze.AsBoard())
    {
      possible := [];
      for i := 0 to |Directions|
        invariant possible == OpenPrefix(x, y, speed, maze.AsBoard(), i)
      {
        var dir := Directions[i];
        var testX := x + dir.Dx() as real * speed;
        var testY := y + dir.Dy() as real * speed;
        if !maze.CheckCollision(testX, testY, width, height) {
          possible := possible + [dir];
        }
      }
    }

    /** One frame. `roll` is the value `Math.random()` would return; `deltaTime` is
        accepted and ignored, as in the source. A frozen ghost does nothing. */
    method Update(maze: Maze, deltaTime: real, roll: real)
      requires 0.0 <= roll < 1.0
      modifies this
      ensures old(frozen) ==> AsPose() == old(AsPose())
      ensures !old(frozen) ==> AsPose() == GhostStep(old(AsPose()), speed, roll, maze.AsBoard())
      ensures frozen == old(frozen) && frozenTimer == old(frozenTimer)
      ensures nextDirectionChange == old(nextDirectionChange)
    {
      if frozen {
        return;
      }
      ghost var start := AsPose();
      var willHitWall := Steer(maze, roll);
      ghost var d := direction;
      assert d == ChooseDirection(start, speed, roll, maze.AsBoard());
      assert willHitWall == !Open(start.x, start.y, speed, start.direction, maze.AsBoard());

      if !willHitWall {
        x := x + direction.Dx() as real * speed;
        y := y + direction.Dy() as real * speed;
      }

      if x < -width {
        x := BoardWidth;
      } else if x > BoardWidth {
        x := -width;
      }
      if y < -height {
        y := BoardHeight;
      } else if y > BoardHeight {
        y := -height;
      }
      assert AsPose() == Settle(start, d, !willHitWall, speed);
    }

    /** The turn phase of `update`: probe the way ahead and, when it is blocked, face
        the open direction the roll picks. Reports whether the way ahead was blocked. */
    method Steer(maze: Maze, roll: real) returns (willHitWall: bool)
      requires 0.0 <= roll < 1.0
      modifies this
      ensures willHitWall == !Open(x, y, speed, old(direction), maze.AsBoard())
      ensures direction == ChooseDirection(old(AsPose()), speed, roll, maze.AsBoard())
      ensures x == old(x) && y == old(y)
      ensures frozen == old(frozen) && frozenTimer == old(frozenTimer)
      ensures nextDirectionChange == old(nextDirectionChange)
    {
      var nextX := x + direction.Dx() as real * speed;
      var nextY := y + direction.Dy() as real * speed;
      willHitWall := maze.CheckCollision(nextX, nextY, width, height);
      if willHitWall {
        var possibleDirections := PossibleDirections(maze);
        if |possibleDirections| > 0 {
          direction := possibleDirections[PickIndex(roll, |possibleDirections|)];
        }
      }
    }

    /** Back to (x, y) facing LEFT, unfrozen, with any pending timer dropped. */
    method Reset(x: real, y: real)
      modifies this
      ensures this.x == x && this.y == y && direction == Left && nextDirectionChange == 0
      ensures !frozen && frozenTimer == None
    {
      this.x := x;
      this.y := y;
      direction := Left;
      nextDirectionChange := 0;
      frozen := false;
      if frozenTimer.Some? {
        frozenTimer := None;
      }
    }
  }
}
