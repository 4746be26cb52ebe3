/** The maze of one level (js/maze.js): a hand-written grid of symbols parsed into
    walls, pellets, coloured doors and coloured keys; the blocking query used by
    every moving entity; key pick-up; and level completion. */
module MazeModel {
  import opened Options
  import opened Constants
  import opened Geometry

  /** The three door and key colours, stored in the source as colour strings. */
  datatype Color = Red | Green | Blue

  /** A door or a key: a rectangle tagged with its colour. */
  datatype Piece = Piece(box: Rect, color: Color)

  function DoorSymbol(c: Color): char {
    match c
    case Red => 'R'
    case Green => 'G'
    case Blue => 'B'
  }

  function KeySymbol(c: Color): char {
    match c
    case Red => 'r'
    case Green => 'g'
    case Blue => 'b'
  }

  // ---------------------------------------------------------------------------
  // Layouts

  /** A layout is a grid of GridWidth-wide rows, at most GridHeight of them. */
  predicate Rectangular(rows: seq<string>) {
    0 < |rows| <= GridHeight && forall r :: 0 <= r < |rows| ==> |rows[r]| == GridWidth
  }

  /** Row `r` of level 1's layout (js/maze.js:109-140); rows outside the grid are empty. */
  function Layout1Row(r: int): string {
    match r
    case 0 => "############################"
    case 1 => "#............##............#"
    case 2 => "#.####.#####.##.#####.####.#"
    case 3 => "#.####.#####.##.#####.####.#"
    case 4 => "#.####.#####.##.#####.####.#"
    case 5 => "#..........................#"
    case 6 => "#.####.##.########.##.####.#"
    case 7 => "#.####.##.########.##.####.#"
    case 8 => "#......##....##....##......#"
    case 9 => "######.##### ## #####.######"
    case 10 => "     #.##### ## #####.#     "
    case 11 => "     #.##          ##.#     "
    case 12 => "     #.## ###--### ##.#     "
    case 13 => "######.## #      # ##.######"
    case 14 => "      .   #      #   .      "
    case 15 => "######.## #      # ##.######"
    case 16 => "     #.## ######## ##.#     "
    case 17 => "     #.##          ##.#     "
    case 18 => "     #.## ######## ##.#     "
    case 19 => "######.## ######## ##.######"
    case 20 => "#............##............#"
    case 21 => "#.####.#####.##.#####.####.#"
    case 22 => "#.####.#####.##.#####.####.#"
    case 23 => "#...##................##...#"
    case 24 => "###.##.##.########.##.##.###"
    case 25 => "#......##....##....##......#"
    case 26 => "#.##########.##.##########.#"
    case 27 => "#.##########.##.##########.#"
    case 28 => "#..........................#"
    case 29 => "############################"
    case _ => ""
  }

  /** The layout of level 1: its 30 rows, top to bottom. */
  function Layout1(): seq<string> {
    seq(30, Layout1Row)
  }

  /** Row `r` of level 2's layout (js/maze.js:141-170); rows outside the grid are empty. */
  function Layout2Row(r: int): string {
    match r
    case 0 => "############################"
    case 1 => "#............##............#"
    case 2 => "#.####.#####.##.#####.####.#"
    case 3 => "#.####.#####.##.#####B####.#"
    case 4 => "#..........................#"
    case 5 => "#.####.##.########.##.####.#"
    case 6 => "#.####.##.########.##B####.#"
    case 7 => "#......##....##....##......#"
    case 8 => "######.##### ## #####.######"
    case 9 => "     #.##### ## #####.#     "
    case 10 => "     #G##    --    ##.#     "
    case 11 => "######.## ###--### ##.######"
    case 12 => "      .   #      #   .      "
    case 13 => "######.## #      # ##G######"
    case 14 => "     #.## ######## ##.#     "
    case 15 => "     #.##    g     ##.#     "
    case 16 => "     #R## ######## ##.#     "
    case 17 => "######.## ######## ##.######"
    case 18 => "#............##............#"
    case 19 => "#.####.#####.##.#####.####.#"
    case 20 => "#.####.#####.##.#####R####.#"
    case 21 => "#b..##.......##.......##..r#"
    case 22 => "###.##.##.########.##.##.###"
    case 23 => "#......##....##....##......#"
    case 24 => "#.##########.##.##########.#"
    case 25 => "#.##########.##.##########.#"
    case 26 => "#..........................#"
    case 27 => "############################"
    case _ => ""
  }

  /** The layout of level 2: its 28 rows, top to bottom. */
  function Layout2(): seq<string> {
    seq(28, Layout2Row)
  }

  /** Row `r` of level 3's layout (js/maze.js:171-200); rows outside the grid are empty. */
  function Layout3Row(r: int): string {
    match r
    case 0 => "############################"
    case 1 => "#..........................#"
    case 2 => "#.####.#####.##.#####.####.#"
    case 3 => "#.####.#####.##.#####.####.#"
    case 4 => "#..........................#"
    case 5 => "#.####.##.########.##.####.#"
    case 6 => "#.####.##.########.##.####.#"
    case 7 => "#......##....##....##......#"
    case 8 => "######.##### ## #####.######"
    case 9 => "     #.##### ## #####.#     "
    case 10 => "     #.##          ##.#     "
    case 11 => "######.## ###--### ##.######"
    case 12 => "      .   #      #   .      "
    case 13 => "######.## #      # ##.######"
    case 14 => "     #.## ######## ##.#     "
    case 15 => "     #.##          ##.#     "
    case 16 => "     #.## ######## ##.#     "
    case 17 => "######.## ######## ##.######"
    case 18 => "#..........................#"
    case 19 => "#.####.#####.##.#####.####.#"
    case 20 => "#.####.#####.##.#####.####.#"
    case 21 => "#...##................##...#"
    case 22 => "###.##.##.########.##.##.###"
    case 23 => "#......##....##....##......#"
    case 24 => "#.##########.##.##########.#"
    case 25 => "#.##########.##.##########.#"
    case 26 => "#..........................#"
    case 27 => "############################"
    case _ => ""
  }

  /** The layout of level 3: its 28 rows, top to bottom. */
  function Layout3(): seq<string> {
    seq(28, Layout3Row)
  }

  /** `getMazeLayout`: the layout of the level, or level 1's when there is none. */
  function MazeLayout(level: int): seq<string> {
    if level == 2 then Layout2()
    else if level == 3 then Layout3()
    else Layout1()
  }

  /** Every layout is a grid of GridWidth-wide rows that fits the board. */
  lemma LayoutsRectangular(level: int)
    ensures Rectangular(MazeLayout(level))
  {
    if level == 2 {
      Layout2Rectangular();
    } else if level == 3 {
      Layout3Rectangular();
    } else {
      Layout1Rectangular();
    }
  }

  lemma Layout1Rectangular()
    ensures Rectangular(Layout1())
  {
    Layout1LockFree();
  }

  lemma Layout2Rectangular()
    ensures Rectangular(Layout2())
  {
    Layout2RowsA();
    Layout2RowsB();
    Layout2RowsC();
    Layout2RowsD();
  }

  lemma Layout3Rectangular()
    ensures Rectangular(Layout3())
  {
    Layout3LockFree();
  }

  /** A level without a layout of its own gets level 1's. */
  lemma UnknownLevelFallsBack(level: int)
    requires level !in {1, 2, 3}
    ensures MazeLayout(level) == MazeLayout(1)
  {
  }

  // ---------------------------------------------------------------------------
  // What each cell becomes

  /** A wall or a door fills its cell, from the cell's pixel origin. */
  function WallAt(col: int, row: int): Rect {
    var p := GridToPixel(col, row);
    Rect(p.0, p.1, CellSize, CellSize)
  }

  /** A pellet is 4 by 4, offset by half a cell. */
  function PelletAt(col: int, row: int): Rect {
    var p := GridToPixel(col, row);
    Rect(p.0 + CellSize / 2.0, p.1 + CellSize / 2.0, 4.0, 4.0)
  }

  function DoorAt(col: int, row: int, c: Color): Piece {
    Piece(WallAt(col, row), c)
  }

  /** A key is half a cell square, offset by half a cell. */
  function KeyAt(col: int, row: int, c: Color): Piece {
    var p := GridToPixel(col, row);
    Piece(Rect(p.0 + CellSize / 2.0, p.1 + CellSize / 2.0, CellSize / 2.0, CellSize / 2.0), c)
  }

  /** One object produced by the parser. */
  datatype Item = WallItem(wall: Rect) | PelletItem(pellet: Rect) | DoorItem(door: Piece) | KeyItem(key: Piece)

  /** The object a layout symbol at (col, row) produces; space, '-' and any other
      symbol produce none. */
  function CellItem(symbol: char, col: int, row: int): Option<Item> {
    match symbol
    case '#' => Some(WallItem(WallAt(col, row)))
    case '.' => Some(PelletItem(PelletAt(col, row)))
    case 'R' => Some(DoorItem(DoorAt(col, row, Red)))
    case 'G' => Some(DoorItem(DoorAt(col, row, Green)))
    case 'B' => Some(DoorItem(DoorAt(col, row, Blue)))
    case 'r' => Some(KeyItem(KeyAt(col, row, Red)))
    case 'g' => Some(KeyItem(KeyAt(col, row, Green)))
    case 'b' => Some(KeyItem(KeyAt(col, row, Blue)))
    case _ => None
  }

  /** The symbols that produce an object. */
  const Symbols: set<char> := {'#', '.', 'R', 'G', 'B', 'r', 'g', 'b'}

  /** The four object lists of a maze, in insertion order. */
  datatype Objects = Objects(walls: seq<Rect>, pellets: seq<Rect>, doors: seq<Piece>, keys: seq<Piece>) {

    /** `push` onto the list the item belongs to. */
    function Add(it: Item): Objects {
      match it
      case WallItem(w) => this.(walls := walls + [w])
      case PelletItem(p) => this.(pellets := pellets + [p])
      case DoorItem(d) => this.(doors := doors + [d])
      case KeyItem(k) => this.(keys := keys + [k])
    }

    predicate Holds(it: Item) {
      match it
      case WallItem(w) => w in walls
      case PelletItem(p) => p in pellets
      case DoorItem(d) => d in doors
      case KeyItem(k) => k in keys
    }

    /** How many objects the symbol `s` has produced. */
    function CountOfSymbol(s: char): nat {
      match s
      case '#' => |walls|
      case '.' => |pellets|
      case 'R' => CountOfColor(doors, Red)
      case 'G' => CountOfColor(doors, Green)
      case 'B' => CountOfColor(doors, Blue)
      case 'r' => CountOfColor(keys, Red)
      case 'g' => CountOfColor(keys, Green)
      case 'b' => CountOfColor(keys, Blue)
      case _ => 0
    }
  }

  const NoObjects := Objects([], [], [], [])

  /** The number of pieces of colour `c`. */
  function CountOfColor(ps: seq<Piece>, c: Color): nat {
    if ps == [] then 0
    else CountOfColor(ps[..|ps| - 1], c) + (if ps[|ps| - 1].color == c then 1 else 0)
  }

  function AddCell(acc: Objects, symbol: char, col: int, row: int): Objects {
    match CellItem(symbol, col, row)
    case None => acc
    case Some(it) => acc.Add(it)
  }

  /** The first `n` cells of row `row`, scanned left to right. */
  function ParseRow(acc: Objects, line: string, row: int, n: nat): Objects
    requires n <= |line|
  {
    if n == 0 then acc
    else AddCell(ParseRow(acc, line, row, n - 1), line[n - 1], n - 1, row)
  }

  /** The first `m` rows, scanned top to bottom. */
  function ParseRows(layout: seq<string>, m: nat): Objects
    requires m <= |layout|
  {
    if m == 0 then NoObjects
    else ParseRow(ParseRows(layout, m - 1), layout[m - 1], m - 1, |layout[m - 1]|)
  }

  /** What `generateMaze` builds from a layout. */
  function Parse(layout: seq<string>): Objects {
    ParseRows(layout, |layout|)
  }

  /** The number of occurrences of `s` in the first `m` rows. */
  function SymbolCount(layout: seq<string>, m: nat, s: char): nat
    requires m <= |layout|
  {
    if m == 0 then 0 else SymbolCount(layout, m - 1, s) + multiset(layout[m - 1])[s]
  }

  predicate InGrid(layout: seq<string>, col: int, row: int) {
    0 <= row < |layout| && 0 <= col < |layout[row]|
  }

  // ---------------------------------------------------------------------------
  // Parsing: every symbol yields exactly its one object, and nothing else appears

  lemma AddHolds(acc: Objects, it: Item, x: Item)
    ensures acc.Add(it).Holds(x) <==> acc.Holds(x) || x == it
  {
  }

  /** Different cells, or different symbols, never produce the same object. */
  lemma CellItemInjective(s1: char, c1: int, r1: int, s2: char, c2: int, r2: int)
    requires CellItem(s1, c1, r1).Some? && CellItem(s1, c1, r1) == CellItem(s2, c2, r2)
    ensures s1 == s2 && c1 == c2 && r1 == r2
  {
  }

  lemma {:induction false} ParseRowHolds(acc: Objects, line: string, row: int, n: nat, x: Item)
    requires n <= |line|
    ensures ParseRow(acc, line, row, n).Holds(x) <==>
              acc.Holds(x) || exists c :: 0 <= c < n && CellItem(line[c], c, row) == Some(x)
  {
    if n > 0 {
      ParseRowHolds(acc, line, row, n - 1, x);
      var before := ParseRow(acc, line, row, n - 1);
      match CellItem(line[n - 1], n - 1, row)
      case None =>
      case Some(it) => AddHolds(before, it, x);
    }
  }

  lemma {:induction false} ParseRowsHolds(layout: seq<string>, m: nat, x: Item)
    requires m <= |layout|
    ensures ParseRows(layout, m).Holds(x) <==>
              exists r, c :: 0 <= r < m && 0 <= c < |layout[r]| && CellItem(layout[r][c], c, r) == Some(x)
  {
    if m > 0 {
      ParseRowsHolds(layout, m - 1, x);
      ParseRowHolds(ParseRows(layout, m - 1), layout[m - 1], m - 1, |layout[m - 1]|, x);
    }
  }

  /** The parsed objects are exactly the objects of the layout's cells. */
  lemma ParsedObjects(layout: seq<string>, x: Item)
    ensures Parse(layout).Holds(x) <==>
              exists r, c :: InGrid(layout, c, r) && CellItem(layout[r][c], c, r) == Some(x)
  {
    ParseRowsHolds(layout, |layout|, x);
  }

  /** A cell's object is in the parse exactly when the cell holds its symbol. */
  lemma CellObjectParsed(layout: seq<string>, col: int, row: int, symbol: char)
    requires InGrid(layout, col, row) && symbol in Symbols
    ensures Parse(layout).Holds(CellItem(symbol, col, row).value) <==> layout[row][col] == symbol
  {
    var x := CellItem(symbol, col, row).value;
    ParsedObjects(layout, x);
    if Parse(layout).Holds(x) {
      var r, c :| InGrid(layout, c, r) && CellItem(layout[r][c], c, r) == Some(x);
      CellItemInjective(symbol, col, row, layout[r][c], c, r);
    }
  }

  /** Each '#' cell yields a wall at its pixel origin, and no other cell does. */
  lemma WallPerHash(layout: seq<string>, col: int, row: int)
    requires InGrid(layout, col, row)
    ensures WallAt(col, row) in Parse(layout).walls <==> layout[row][col] == '#'
  {
    CellObjectParsed(layout, col, row, '#');
  }

  /** Each '.' cell yields a pellet offset by half a cell, and no other cell does. */
  lemma PelletPerDot(layout: seq<string>, col: int, row: int)
    requires InGrid(layout, col, row)
    ensures PelletAt(col, row) in Parse(layout).pellets <==> layout[row][col] == '.'
  {
    CellObjectParsed(layout, col, row, '.');
  }

  /** 'R', 'G' and 'B' cells yield full-cell doors of their colour, and no other cell does. */
  lemma DoorPerSymbol(layout: seq<string>, col: int, row: int, c: Color)
    requires InGrid(layout, col, row)
    ensures DoorAt(col, row, c) in Parse(layout).doors <==> layout[row][col] == DoorSymbol(c)
  {
    CellObjectParsed(layout, col, row, DoorSymbol(c));
  }

  /** 'r', 'g' and 'b' cells yield half-cell keys of their colour, and no other cell does. */
  lemma KeyPerSymbol(layout: seq<string>, col: int, row: int, c: Color)
    requires InGrid(layout, col, row)
    ensures KeyAt(col, row, c) in Parse(layout).keys <==> layout[row][col] == KeySymbol(c)
  {
    CellObjectParsed(layout, col, row, KeySymbol(c));
  }

  /** Every parsed wall sits on a '#' cell. */
  lemma WallsOnHashes(layout: seq<string>, w: Rect)
    requires w in Parse(layout).walls
    ensures exists r, c :: InGrid(layout, c, r) && layout[r][c] == '#' && w == WallAt(c, r)
  {
    ParsedObjects(layout, WallItem(w));
    var r, c :| InGrid(layout, c, r) && CellItem(layout[r][c], c, r) == Some(WallItem(w));
    assert layout[r][c] == '#';
  }

  lemma CountOfColorAppend(ps: seq<Piece>, p: Piece, c: Color)
    ensures CountOfColor(ps + [p], c) == CountOfColor(ps, c) + (if p.color == c then 1 else 0)
  {
    assert (ps + [p])[..|ps|] == ps;
  }

  /** The symbol whose cells produce the item. */
  function ItemSymbol(it: Item): char {
    match it
    case WallItem(_) => '#'
    case PelletItem(_) => '.'
    case DoorItem(d) => DoorSymbol(d.color)
    case KeyItem(k) => KeySymbol(k.color)
  }

  lemma CountOfSymbolAdd(acc: Objects, it: Item, s: char)
    requires s in Symbols
    ensures acc.Add(it).CountOfSymbol(s) == acc.CountOfSymbol(s) + (if ItemSymbol(it) == s then 1 else 0)
  {
    match it
    case WallItem(_) =>
    case PelletItem(_) =>
    case DoorItem(d) => CountOfColorAppend(acc.doors, d, Red); CountOfColorAppend(acc.doors, d, Green); CountOfColorAppend(acc.doors, d, Blue);
    case KeyItem(k) => CountOfColorAppend(acc.keys, k, Red); CountOfColorAppend(acc.keys, k, Green); CountOfColorAppend(acc.keys, k, Blue);
  }

  lemma CountOfSymbolAddCell(acc: Objects, symbol: char, col: int, row: int, s: char)
    requires s in Symbols
    ensures AddCell(acc, symbol, col, row).CountOfSymbol(s) == acc.CountOfSymbol(s) + (if symbol == s then 1 else 0)
  {
    match CellItem(symbol, col, row)
    case None =>
      assert symbol !in Symbols;
    case Some(it) =>
      assert ItemSymbol(it) == symbol;
      CountOfSymbolAdd(acc, it, s);
  }

  lemma {:induction false} CountOfSymbolParseRow(acc: Objects, line: string, row: int, n: nat, s: char)
    requires n <= |line| && s in Symbols
    ensures ParseRow(acc, line, row, n).CountOfSymbol(s) == acc.CountOfSymbol(s) + multiset(line[..n])[s]
  {
    if n > 0 {
      CountOfSymbolParseRow(acc, line, row, n - 1, s);
      CountOfSymbolAddCell(ParseRow(acc, line, row, n - 1), line[n - 1], n - 1, row, s);
      assert line[..n] == line[..n - 1] + [line[n - 1]];
    }
  }

  lemma {:induction false} CountOfSymbolParseRows(layout: seq<string>, m: nat, s: char)
    requires m <= |layout| && s in Symbols
    ensures ParseRows(layout, m).CountOfSymbol(s) == SymbolCount(layout, m, s)
  {
    if m > 0 {
      CountOfSymbolParseRows(layout, m - 1, s);
      var line := layout[m - 1];
      CountOfSymbolParseRow(ParseRows(layout, m - 1), line, m - 1, |line|, s);
      assert line[..|line|] == line;
    }
  }

  /** There are exactly as many walls as '#' cells, pellets as '.' cells, and doors
      and keys of each colour as cells holding that colour's symbol. */
  lemma ParsedCounts(layout: seq<string>)
    ensures |Parse(layout).walls| == SymbolCount(layout, |layout|, '#')
    ensures |Parse(layout).pellets| == SymbolCount(layout, |layout|, '.')
    ensures forall c: Color :: CountOfColor(Parse(layout).doors, c) == SymbolCount(layout, |layout|, DoorSymbol(c))
    ensures forall c: Color :: CountOfColor(Parse(layout).keys, c) == SymbolCount(layout, |layout|, KeySymbol(c))
  {
    forall s | s in Symbols
      ensures Parse(layout).CountOfSymbol(s) == SymbolCount(layout, |layout|, s)
    {
      CountOfSymbolParseRows(layout, |layout|, s);
    }
  }

  /** The door and key symbols. */
  const LockSymbols: set<char> := {'R', 'G', 'B', 'r', 'g', 'b'}

  /** The symbols of walls, pellets, blanks and the ghost-house gate. */
  predicate PlainSymbol(ch: char) {
    ch in {'#', '.', ' ', '-'}
  }

  /** Every cell of the row outside the columns `cols` holds a plain symbol. */
  predicate PlainExcept(line: string, cols: set<int>) {
    forall c :: 0 <= c < |line| && c !in cols ==> PlainSymbol(line[c])
  }

  /** Every cell holds a plain symbol, so none holds a door or a key. */
  predicate LockFree(layout: seq<string>) {
    forall r :: 0 <= r < |layout| ==> PlainExcept(layout[r], {})
  }

  /** The nine cells of layout 2 that hold a door or a key. */
  predicate LevelTwoLockCell(col: int, row: int) {
    || (col == 6 && row == 16) || (col == 21 && row == 20)
    || (col == 6 && row == 10) || (col == 21 && row == 13)
    || (col == 21 && row == 3) || (col == 21 && row == 6)
    || (col == 26 && row == 21) || (col == 13 && row == 15) || (col == 1 && row == 21)
  }

  /** A 28-row layout with red doors at cells (6,16) and (21,20), green at (6,10) and
      (21,13), blue at (21,3) and (21,6), a red key at (26,21), a green one at (13,15)
      and a blue one at (1,21), and no other door or key symbol. */
  predicate LevelTwoPattern(L: seq<string>) {
    && |L| == 28 && Rectangular(L)
    && L[16][6] == 'R' && L[20][21] == 'R' && L[10][6] == 'G' && L[13][21] == 'G'
    && L[3][21] == 'B' && L[6][21] == 'B'
    && L[21][26] == 'r' && L[15][13] == 'g' && L[21][1] == 'b'
    && forall r, c :: 0 <= r < |L| && 0 <= c < |L[r]| && L[r][c] in LockSymbols ==> LevelTwoLockCell(c, r)
  }

  // The distinct rows of the three layouts, two to a lemma: each is GridWidth cells
  // wide, and every cell outside the listed columns holds a plain symbol.

  lemma LayoutRows1()
    ensures |"############################"| == GridWidth && PlainExcept("############################", {})
    ensures |"#............##............#"| == GridWidth && PlainExcept("#............##............#", {})
  {
  }

  lemma LayoutRows2()
    ensures |"#.####.#####.##.#####.####.#"| == GridWidth && PlainExcept("#.####.#####.##.#####.####.#", {})
    ensures |"#..........................#"| == GridWidth && PlainExcept("#..........................#", {})
  {
  }

  lemma LayoutRows3()
    ensures |"#.####.##.########.##.####.#"| == GridWidth && PlainExcept("#.####.##.########.##.####.#", {})
    ensures |"#......##....##....##......#"| == GridWidth && PlainExcept("#......##....##....##......#", {})
  {
  }

  lemma LayoutRows4()
    ensures |"######.##### ## #####.######"| == GridWidth && PlainExcept("######.##### ## #####.######", {})
    ensures |"     #.##### ## #####.#     "| == GridWidth && PlainExcept("     #.##### ## #####.#     ", {})
  {
  }

  lemma LayoutRows5()
    ensures |"     #.##          ##.#     "| == GridWidth && PlainExcept("     #.##          ##.#     ", {})
    ensures |"     #.## ###--### ##.#     "| == GridWidth && PlainExcept("     #.## ###--### ##.#     ", {})
  {
  }

  lemma LayoutRows6()
    ensures |"######.## #      # ##.######"| == GridWidth && PlainExcept("######.## #      # ##.######", {})
    ensures |"      .   #      #   .      "| == GridWidth && PlainExcept("      .   #      #   .      ", {})
  {
  }

  lemma LayoutRows7()
    ensures |"     #.## ######## ##.#     "| == GridWidth && PlainExcept("     #.## ######## ##.#     ", {})
    ensures |"######.## ######## ##.######"| == GridWidth && PlainExcept("######.## ######## ##.######", {})
  {
  }

  lemma LayoutRows8()
    ensures |"#...##................##...#"| == GridWidth && PlainExcept("#...##................##...#", {})
    ensures |"###.##.##.########.##.##.###"| == GridWidth && PlainExcept("###.##.##.########.##.##.###", {})
  {
  }

  lemma LayoutRows9()
    ensures |"#.##########.##.##########.#"| == GridWidth && PlainExcept("#.##########.##.##########.#", {})
    ensures |"#.####.#####.##.#####B####.#"| == GridWidth && PlainExcept("#.####.#####.##.#####B####.#", {21})
  {
  }

  lemma LayoutRows10()
    ensures |"#.####.##.########.##B####.#"| == GridWidth && PlainExcept("#.####.##.########.##B####.#", {21})
    ensures |"     #G##    --    ##.#     "| == GridWidth && PlainExcept("     #G##    --    ##.#     ", {6})
  {
  }

  lemma LayoutRows11()
    ensures |"######.## ###--### ##.######"| == GridWidth && PlainExcept("######.## ###--### ##.######", {})
    ensures |"######.## #      # ##G######"| == GridWidth && PlainExcept("######.## #      # ##G######", {21})
  {
  }

  lemma LayoutRows12()
    ensures |"     #.##    g     ##.#     "| == GridWidth && PlainExcept("     #.##    g     ##.#     ", {13})
    ensures |"     #R## ######## ##.#     "| == GridWidth && PlainExcept("     #R## ######## ##.#     ", {6})
  {
  }

  lemma LayoutRows13()
    ensures |"#.####.#####.##.#####R####.#"| == GridWidth && PlainExcept("#.####.#####.##.#####R####.#", {21})
    ensures |"#b..##.......##.......##..r#"| == GridWidth && PlainExcept("#b..##.......##.......##..r#", {1, 26})
  {
  }

  /** The columns of row `row` of layout 2 that hold a door or a key symbol. */
  function LevelTwoLockColumns(row: int): set<int> {
    if row in {3, 6, 13, 20} then {21}
    else if row in {10, 16} then {6}
    else if row == 15 then {13}
    else if row == 21 then {1, 26}
    else {}
  }

  /** Layout 2 holds its doors and keys at the nine cells, and nowhere else. */
  lemma LevelTwoLocks()
    ensures LevelTwoPattern(Layout2())
  {
    Layout2Rectangular();
    Layout2Rows();
    Layout2LockCells();
    LockCellsFromRows(Layout2());
  }

  lemma Layout2Rows()
    ensures forall r :: 0 <= r < |Layout2()| ==> PlainExcept(Layout2()[r], LevelTwoLockColumns(r))
  {
    Layout2RowsA();
    Layout2RowsB();
    Layout2RowsC();
    Layout2RowsD();
  }

  lemma Layout2RowsA()
    ensures forall r :: 0 <= r < 7 ==> |Layout2()[r]| == GridWidth && PlainExcept(Layout2()[r], LevelTwoLockColumns(r))
  {
    LayoutRows1();
    LayoutRows2();
    LayoutRows3();
    LayoutRows9();
    LayoutRows10();
  }

  lemma Layout2RowsB()
    ensures forall r :: 7 <= r < 14 ==> |Layout2()[r]| == GridWidth && PlainExcept(Layout2()[r], LevelTwoLockColumns(r))
  {
    LayoutRows3();
    LayoutRows4();
    LayoutRows6();
    LayoutRows10();
    LayoutRows11();
  }

  lemma Layout2RowsC()
    ensures forall r :: 14 <= r < 21 ==> |Layout2()[r]| == GridWidth && PlainExcept(Layout2()[r], LevelTwoLockColumns(r))
  {
    LayoutRows1();
    LayoutRows2();
    LayoutRows7();
    LayoutRows12();
    LayoutRows13();
  }

  lemma Layout2RowsD()
    ensures forall r :: 21 <= r < 28 ==> |Layout2()[r]| == GridWidth && PlainExcept(Layout2()[r], LevelTwoLockColumns(r))
  {
    LayoutRows1();
    LayoutRows2();
    LayoutRows3();
    LayoutRows8();
    LayoutRows9();
    LayoutRows13();
  }

  lemma Layout2LockCells()
    ensures var L := Layout2();
      && L[16][6] == 'R' && L[20][21] == 'R' && L[10][6] == 'G' && L[13][21] == 'G'
      && L[3][21] == 'B' && L[6][21] == 'B'
      && L[21][26] == 'r' && L[15][13] == 'g' && L[21][1] == 'b'
  {
    Layout2DoorCells();
    Layout2KeyCells();
  }

  lemma Layout2DoorCells()
    ensures var L := Layout2();
      && L[16][6] == 'R' && L[20][21] == 'R' && L[10][6] == 'G' && L[13][21] == 'G'
      && L[3][21] == 'B' && L[6][21] == 'B'
  {
  }

  lemma Layout2KeyCells()
    ensures var L := Layout2();
      L[21][26] == 'r' && L[15][13] == 'g' && L[21][1] == 'b'
  {
  }

  /** Rows plain outside the lock columns of layout 2 hold door and key symbols only
      at its nine lock cells. */
  lemma LockCellsFromRows(L: seq<string>)
    requires forall r :: 0 <= r < |L| ==> PlainExcept(L[r], LevelTwoLockColumns(r))
    ensures forall r, c :: 0 <= r < |L| && 0 <= c < |L[r]| && L[r][c] in LockSymbols ==> LevelTwoLockCell(c, r)
  {
    forall r, c | 0 <= r < |L| && 0 <= c < |L[r]| && L[r][c] in LockSymbols
      ensures LevelTwoLockCell(c, r)
    {
      assert !PlainSymbol(L[r][c]);
    }
  }

  /** Layouts 1 and 3 hold no door and no key symbol. */
  lemma LevelsOneThreeLockFree()
    ensures LockFree(Layout1()) && LockFree(Layout3())
  {
    Layout1LockFree();
    Layout3LockFree();
  }

  lemma Layout1LockFree()
    ensures LockFree(Layout1()) && forall r :: 0 <= r < |Layout1()| ==> |Layout1()[r]| == GridWidth
  {
    LayoutRows1();
    LayoutRows2();
    LayoutRows3();
    LayoutRows4();
    LayoutRows5();
    LayoutRows6();
    LayoutRows7();
    LayoutRows8();
    LayoutRows9();
  }

  lemma Layout3LockFree()
    ensures LockFree(Layout3()) && forall r :: 0 <= r < |Layout3()| ==> |Layout3()[r]| == GridWidth
  {
    LayoutRows1();
    LayoutRows2();
    LayoutRows3();
    LayoutRows4();
    LayoutRows5();
    LayoutRows6();
    LayoutRows7();
    LayoutRows8();
    LayoutRows9();
    LayoutRows11();
  }

  /** A layout without door and key symbols parses to a maze without doors and keys. */
  lemma LockFreeParsed(layout: seq<string>)
    requires LockFree(layout)
    ensures Parse(layout).doors == [] && Parse(layout).keys == []
  {
    var o := Parse(layout);
    if o.doors != [] {
      ParsedObjects(layout, DoorItem(o.doors[0]));
    }
    if o.keys != [] {
      ParsedObjects(layout, KeyItem(o.keys[0]));
    }
  }

  /** The mazes of levels 1 and 3 (and of every level without a layout) have no doors
      and no keys. */
  lemma OnlyLevelTwoHasLocks(level: int)
    requires level != 2
    ensures Parse(MazeLayout(level)).doors == [] && Parse(MazeLayout(level)).keys == []
  {
    LevelsOneThreeLockFree();
    LockFreeParsed(MazeLayout(level));
  }

  /** The doors of level 2, in the order the scan meets them. */
  function LevelTwoDoors(): seq<Piece> {
    [DoorAt(21, 3, Blue), DoorAt(21, 6, Blue), DoorAt(6, 10, Green),
     DoorAt(21, 13, Green), DoorAt(6, 16, Red), DoorAt(21, 20, Red)]
  }

  /** The keys of level 2, in the order the scan meets them. */
  function LevelTwoKeys(): seq<Piece> {
    [KeyAt(13, 15, Green), KeyAt(1, 21, Blue), KeyAt(26, 21, Red)]
  }

  /** The maze of level 2 holds exactly those six doors and three keys, each once:
      two doors and one key of every colour. */
  lemma LevelTwoLocksParsed()
    ensures var o := Parse(MazeLayout(2));
      && (forall d :: d in o.doors <==> d in LevelTwoDoors())
      && (forall k :: k in o.keys <==> k in LevelTwoKeys())
      && |o.doors| == |LevelTwoDoors()| && |o.keys| == |LevelTwoKeys()|
      && forall c: Color :: CountOfColor(o.doors, c) == 2 && CountOfColor(o.keys, c) == 1
  {
    LevelTwoLocks();
    PatternParsed(MazeLayout(2));
  }

  /** What the parse of any layout with level 2's door and key cells holds. */
  lemma PatternParsed(L: seq<string>)
    requires LevelTwoPattern(L)
    ensures var o := Parse(L);
      && (forall d :: d in o.doors <==> d in LevelTwoDoors())
      && (forall k :: k in o.keys <==> k in LevelTwoKeys())
      && |o.doors| == |LevelTwoDoors()| && |o.keys| == |LevelTwoKeys()|
      && forall c: Color :: CountOfColor(o.doors, c) == 2 && CountOfColor(o.keys, c) == 1
  {
    var o := Parse(L);
    forall d ensures d in o.doors <==> d in LevelTwoDoors() {
      ParsedObjects(L, DoorItem(d));
    }
    forall k ensures k in o.keys <==> k in LevelTwoKeys() {
      ParsedObjects(L, KeyItem(k));
    }
    ParsedCounts(L);
    CountTwoCells(L, 'R', 6, 16, 21, 20);
    CountTwoCells(L, 'G', 6, 10, 21, 13);
    CountTwoCells(L, 'B', 21, 3, 21, 6);
    CountOneCell(L, 'r', 26, 21);
    CountOneCell(L, 'g', 13, 15);
    CountOneCell(L, 'b', 1, 21);
    CountOfColorTotal(o.doors);
    CountOfColorTotal(o.keys);
  }

  /** Every piece has one of the three colours. */
  lemma {:induction false} CountOfColorTotal(ps: seq<Piece>)
    ensures CountOfColor(ps, Red) + CountOfColor(ps, Green) + CountOfColor(ps, Blue) == |ps|
  {
    if ps != [] {
      CountOfColorTotal(ps[..|ps| - 1]);
    }
  }

  /** Rows without `s` add nothing to its count. */
  lemma {:induction false} SymbolCountSkip(layout: seq<string>, k: nat, m: nat, s: char)
    requires k <= m <= |layout|
    requires forall r :: k <= r < m ==> s !in layout[r]
    ensures SymbolCount(layout, m, s) == SymbolCount(layout, k, s)
  {
    if k < m {
      SymbolCountSkip(layout, k, m - 1, s);
    }
  }

  /** A row that holds `s` only at column `col` holds it once. */
  lemma {:induction false} SingleOccurrence(line: string, s: char, col: nat)
    requires col < |line| && line[col] == s
    requires forall c :: 0 <= c < |line| && line[c] == s ==> c == col
    ensures multiset(line)[s] == 1
  {
    assert line == line[..col] + [s] + line[col + 1..];
    assert s !in line[..col];
    assert s !in line[col + 1..];
  }

  /** A symbol that occurs only at cells (c1, r1) and (c2, r2), on different rows, is
      counted twice. */
  lemma CountTwoCells(L: seq<string>, s: char, c1: nat, r1: nat, c2: nat, r2: nat)
    requires r1 < r2 < |L| && c1 < |L[r1]| && c2 < |L[r2]| && L[r1][c1] == s && L[r2][c2] == s
    requires forall r, c :: 0 <= r < |L| && 0 <= c < |L[r]| && L[r][c] == s ==> (c == c1 && r == r1) || (c == c2 && r == r2)
    ensures SymbolCount(L, |L|, s) == 2
  {
    SymbolCountSkip(L, r2 + 1, |L|, s);
    SingleOccurrence(L[r2], s, c2);
    SymbolCountSkip(L, r1 + 1, r2, s);
    SingleOccurrence(L[r1], s, c1);
    SymbolCountSkip(L, 0, r1, s);
  }

  /** A symbol that occurs only at cell (c1, r1) is counted once. */
  lemma CountOneCell(L: seq<string>, s: char, c1: nat, r1: nat)
    requires r1 < |L| && c1 < |L[r1]| && L[r1][c1] == s
    requires forall r, c :: 0 <= r < |L| && 0 <= c < |L[r]| && L[r][c] == s ==> c == c1 && r == r1
    ensures SymbolCount(L, |L|, s) == 1
  {
    SymbolCountSkip(L, r1 + 1, |L|, s);
    SingleOccurrence(L[r1], s, c1);
    SymbolCountSkip(L, 0, r1, s);
  }

  /** Every layout has a pellet symbol at cell (1,1). */
  lemma CornerPellet(level: int)
    ensures InGrid(MazeLayout(level), 1, 1) && MazeLayout(level)[1][1] == '.'
  {
    if level == 2 {
      CornerPellet2();
    } else if level == 3 {
      CornerPellet3();
    } else {
      CornerPellet1();
    }
  }

  lemma CornerPellet1()
    ensures |Layout1()| > 1 && Layout1()[1][1] == '.'
  {
  }

  lemma CornerPellet2()
    ensures |Layout2()| > 1 && Layout2()[1][1] == '.'
  {
  }

  lemma CornerPellet3()
    ensures |Layout3()| > 1 && Layout3()[1][1] == '.'
  {
  }

  /** So a freshly built maze is never complete. */
  lemma FreshMazeHasPellets(level: int)
    ensures Parse(MazeLayout(level)).pellets != []
  {
    CornerPellet(level);
    PelletPerDot(MazeLayout(level), 1, 1);
  }

  // ---------------------------------------------------------------------------
  // Blocking

  /** What the blocking query reads: walls, doors, the collected colours and the
      intersection test. */
  datatype Board = Board(walls: seq<Rect>, doors: seq<Piece>, collected: set<Color>, overlaps: Overlap) {

    /** `checkCollision(x, y, width, height)`: the probe meets a wall, or a door whose
        colour has not been collected. */
    predicate Blocks(probe: Rect) {
      (exists i :: 0 <= i < |walls| && overlaps(probe, walls[i])) ||
      (exists i :: 0 <= i < |doors| && doors[i].color !in collected && overlaps(probe, doors[i].box))
    }
  }

  /** A probe that meets a wall is blocked whatever keys are held. */
  lemma WallsAlwaysBlock(b: Board, probe: Rect, i: nat, held: set<Color>)
    requires i < |b.walls| && b.overlaps(probe, b.walls[i])
    ensures b.(collected := held).Blocks(probe)
  {
  }

  /** Collecting keys never blocks a probe that was free. */
  lemma CollectingOnlyOpens(b: Board, probe: Rect, more: set<Color>)
    ensures b.(collected := b.collected + more).Blocks(probe) ==> b.Blocks(probe)
  {
  }

  /** A probe held back only by doors of colour c is blocked before c is collected and
      free on the very next query after. */
  lemma KeyOpensItsDoors(b: Board, probe: Rect, c: Color, i: nat)
    requires forall j :: 0 <= j < |b.walls| ==> !b.overlaps(probe, b.walls[j])
    requires forall j :: 0 <= j < |b.doors| && b.overlaps(probe, b.doors[j].box) ==> b.doors[j].color == c
    requires i < |b.doors| && b.overlaps(probe, b.doors[i].box) && c !in b.collected
    ensures b.Blocks(probe)
    ensures !b.(collected := b.collected + {c}).Blocks(probe)
  {
  }

  // ---------------------------------------------------------------------------
  // Key pick-up

  /** The last-inserted key that meets the probe, if any. */
  function LastHit(keys: seq<Piece>, probe: Rect, overlaps: Overlap): (i: Option<nat>)
    ensures i.Some? ==> i.value < |keys| && overlaps(probe, keys[i.value].box)
    ensures i.Some? ==> forall j :: i.value < j < |keys| ==> !overlaps(probe, keys[j].box)
    ensures i.None? ==> forall j :: 0 <= j < |keys| ==> !overlaps(probe, keys[j].box)
  {
    if keys == [] then None
    else if overlaps(probe, keys[|keys| - 1].box) then Some(|keys| - 1)
    else LastHit(keys[..|keys| - 1], probe, overlaps)
  }

  /** The contract of LastHit determines it: the hit at index i with no hit after it. */
  lemma LastHitIsLast(keys: seq<Piece>, probe: Rect, overlaps: Overlap, i: nat)
    requires i < |keys| && overlaps(probe, keys[i].box)
    requires forall j :: i < j < |keys| ==> !overlaps(probe, keys[j].box)
    ensures LastHit(keys, probe, overlaps) == Some(i)
  {
  }

  // ---------------------------------------------------------------------------
  // The maze object

  class Maze {
    const level: int
    /** The rows `getMazeLayout` returns for `level`; the level never changes, and
        neither do they. */
    const layout: seq<string>
    var pellets: seq<Rect>
    var walls: seq<Rect>
    var doors: seq<Piece>
    var keys: seq<Piece>
    var collectedKeys: set<Color>
    /** The page-global intersection test. */
    const overlaps: Overlap

    function Contents(): Objects
      reads this
    {
      Objects(walls, pellets, doors, keys)
    }

    function AsBoard(): Board
      reads this
    {
      Board(walls, doors, collectedKeys, overlaps)
    }

    /** As `generateMaze` leaves it: exactly the objects of the level's layout, and no
        key collected. */
    predicate Pristine()
      reads this
    {
      Contents() == Parse(layout) && collectedKeys == {}
    }

    constructor (level: int, overlaps: Overlap)
      ensures this.level == level && this.overlaps == overlaps
      ensures layout == MazeLayout(level) && Pristine()
    {
      this.level := level;
      layout := MazeLayout(level);
      this.overlaps := overlaps;
      pellets, walls, doors, keys := [], [], [], [];
      collectedKeys := {};
      new;
      GenerateMaze();
    }

    /** Empties every list and the collected colours, then scans the layout row by
        row, pushing one object per symbol cell: the result depends on the layout only. */
    method GenerateMaze()
      modifies this
      ensures Pristine()
    {
      pellets, walls, doors, keys := [], [], [], [];
      collectedKeys := {};
      Scan(layout);
    }

    /** The nested loops of `generateMaze`: rows top to bottom, cells left to right. */
    method Scan(layout: seq<string>)
      requires Contents() == NoObjects
      modifies this
      ensures Contents() == Parse(layout) && collectedKeys == old(collectedKeys)
    {
      for y := 0 to |layout|
        invariant Contents() == ParseRows(layout, y) && collectedKeys == old(collectedKeys)
      {
        for x := 0 to |layout[y]|
          invariant Contents() == ParseRow(ParseRows(layout, y), layout[y], y, x)
          invariant collectedKeys == old(collectedKeys)
        {
          PushCell(layout[y][x], x, y);
        }
      }
    }

    /** One step of `generateMaze`'s switch: push the object the symbol at (col, row)
        stands for onto its list. */
    method PushCell(symbol: char, col: int, row: int)
      modifies this
      ensures Contents() == AddCell(old(Contents()), symbol, col, row)
      ensures collectedKeys == old(collectedKeys)
    {
      var pixel := GridToPixel(col, row);
      match symbol
      case '#' =>
        walls := walls + [Rect(pixel.0, pixel.1, CellSize, CellSize)];
      case '.' =>
        pellets := pellets + [Rect(pixel.0 + CellSize / 2.0, pixel.1 + CellSize / 2.0, 4.0, 4.0)];
      case 'R' =>
        doors := doors + [Piece(Rect(pixel.0, pixel.1, CellSize, CellSize), Red)];
      case 'G' =>
        doors := doors + [Piece(Rect(pixel.0, pixel.1, CellSize, CellSize), Green)];
      case 'B' =>
        doors := doors + [Piece(Rect(pixel.0, pixel.1, CellSize, CellSize), Blue)];
      case 'r' =>
        keys := keys + [Piece(Rect(pixel.0 + CellSize / 2.0, pixel.1 + CellSize / 2.0, CellSize / 2.0, CellSize / 2.0), Red)];
      case 'g' =>
        keys := keys + [Piece(Rect(pixel.0 + CellSize / 2.0, pixel.1 + CellSize / 2.0, CellSize / 2.0, CellSize / 2.0), Green)];
      case 'b' =>
        keys := keys + [Piece(Rect(pixel.0 + CellSize / 2.0, pixel.1 + CellSize / 2.0, CellSize / 2.0, CellSize / 2.0), Blue)];
      case _ =>
    }

    /** `checkCollision(x, y, width, height)`. */
    predicate CheckCollision(x: real, y: real, width: real, height: real)
      reads this
    {
      AsBoard().Blocks(Rect(x, y, width, height))
    }

    /** Scans the keys from the last one back; the first that meets the player is
        removed, its colour collected and returned. With no hit nothing changes. */
    method CollectKey(player: Rect) returns (color: Option<Color>)
      modifies this
      ensures walls == old(walls) && pellets == old(pellets) && doors == old(doors)
      ensures match LastHit(old(keys), player, overlaps)
        case None =>
          color == None && keys == old(keys) && collectedKeys == old(collectedKeys)
        case Some(i) =>
          && color == Some(old(keys)[i].color)
          && keys == old(keys)[..i] + old(keys)[i + 1..]
          && collectedKeys == old(collectedKeys) + {old(keys)[i].color}
    {
      var i := |keys| - 1;
      while i >= 0
        invariant -1 <= i < |keys|
        invariant keys == old(keys) && collectedKeys == old(collectedKeys)
        invariant forall j :: i < j < |keys| ==> !overlaps(player, keys[j].box)
      {
        var key := keys[i];
        if overlaps(player, key.box) {
          LastHitIsLast(keys, player, overlaps, i);
          collectedKeys := collectedKeys + {key.color};
          keys := keys[..i] + keys[i + 1..];
          return Some(key.color);
        }
        i := i - 1;
      }
      return None;
    }

    /** `isComplete`: no pellet is left. */
    predicate IsComplete()
      reads this
    {
      |pellets| == 0
    }
  }
}
