/** Board size, direction vectors, key bindings and game states shared by the
    maze, the player, the ghosts and the game (js/constants.js). */
module Constants {
  import opened Options

  /** Edge of one grid cell, in pixels. */
  const CellSize: real := 16.0
  /** Board size, in cells. */
  const GridWidth: nat := 28
  const GridHeight: nat := 31
  /** Board size, in pixels: the bounds that moving entities wrap around. */
  const BoardWidth: real := GridWidth as real * CellSize
  const BoardHeight: real := GridHeight as real * CellSize

  lemma BoardPixels()
    ensures BoardWidth == 448.0 && BoardHeight == 496.0
  {
  }

  /** The four unit vectors of `DIRECTIONS`; screen y grows downwards. */
  datatype Direction = Up | Down | Left | Right {

    function Dx(): int {
      match this
      case Left => -1
      case Right => 1
      case _ => 0
    }

    function Dy(): int {
      match this
      case Up => -1
      case Down => 1
      case _ => 0
    }

    function Opposite(): Direction {
      match this
      case Up => Down
      case Down => Up
      case Left => Right
      case Right => Left
    }
  }

  /** `Object.values(DIRECTIONS)`: the declaration order UP, DOWN, LEFT, RIGHT. */
  const Directions: seq<Direction> := [Up, Down, Left, Right]

  /** Every direction has exactly one non-zero component, and it is 1 or -1. */
  lemma UnitVector(d: Direction)
    ensures (d.Dx() == 0) != (d.Dy() == 0)
    ensures d.Dx() in {-1, 0, 1} && d.Dy() in {-1, 0, 1}
  {
  }

  /** UP and DOWN are negations of each other, and so are LEFT and RIGHT. */
  lemma OppositeNegates(d: Direction)
    ensures d.Opposite().Dx() == -d.Dx() && d.Opposite().Dy() == -d.Dy()
    ensures d.Opposite().Opposite() == d
    ensures Up.Opposite() == Down && Left.Opposite() == Right
  {
  }

  /** Two directions are the same object exactly when their vectors agree,
      so comparing `Direction` values stands for the source's identity tests. */
  lemma VectorsDistinguish(d: Direction, e: Direction)
    ensures d == e <==> (d.Dx() == e.Dx() && d.Dy() == e.Dy())
  {
  }

  /** What a key press asks for: a direction, or a restart. */
  datatype Action = Move(direction: Direction) | Restart

  /** `KEY_CODES`: the arrow keys 37..40 and R (82); every other code maps to nothing. */
  function KeyAction(keyCode: int): (a: Option<Action>)
    ensures a.Some? <==> keyCode in {37, 38, 39, 40, 82}
    ensures a == Some(Restart) <==> keyCode == 82
    ensures a == Some(Move(Left)) <==> keyCode == 37
    ensures a == Some(Move(Up)) <==> keyCode == 38
    ensures a == Some(Move(Right)) <==> keyCode == 39
    ensures a == Some(Move(Down)) <==> keyCode == 40
  {
    if keyCode == 37 then Some(Move(Left))
    else if keyCode == 38 then Some(Move(Up))
    else if keyCode == 39 then Some(Move(Right))
    else if keyCode == 40 then Some(Move(Down))
    else if keyCode == 82 then Some(Restart)
    else None
  }

  /** `GAME_STATES`. PAUSED is declared but nothing in the game enters it. */
  datatype GameState = Ready | Playing | Paused | GameOver {

    /** The string value the source stores for each state. */
    function Name(): string {
      match this
      case Ready => "READY"
      case Playing => "PLAYING"
      case Paused => "PAUSED"
      case GameOver => "GAME_OVER"
    }
  }

  /** The GAME_STATES values are pairwise distinct. */
  lemma StateNamesDistinct(s: GameState, t: GameState)
    ensures s.Name() == t.Name() <==> s == t
  {
  }
}
