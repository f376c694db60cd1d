/** The rules of the Dev6 drawing puzzle as functions on values: five pattern levels
    judged by `PS.checkLevel`, each wrong answer marked bead by bead with green or red
    borders, and a sixth free-drawing level. The clear button is (8, 10) and the check
    button (9, 10). */
module Dev6Rules {
  import opened Beads
  import opened Canvas

  /** The border width `PS.changeBorderCheck` gives a judged bead. */
  const CHECK_BORDER := 2
  /** The border width of the two buttons. */
  const BUTTON_BORDER := 3
  /** `correctBlanks` must reach this on level 5. */
  const LEVEL5_BLANKS := 72
  /** The level after the last puzzle: free drawing. */
  const FREE_DRAW := 6

  /** The border colour that tells whether a bead of colour c is the wanted colour. */
  function Verdict(c: int, want: int): int
  {
    if c == want then COLOR_GREEN else COLOR_RED
  }

  /** `PS.changeBorderCheck(x, y, want)`. */
  function BorderCheck(b: Board, x: Coord, y: Coord, want: int): Board
  {
    b.WithBorderColor(x, y, Verdict(b.Color(x, y), want)).WithBorder(x, y, CHECK_BORDER)
  }

  /** `PS.changeBorderCheck` on each judged bead in order. */
  function CheckAll(b: Board, checks: seq<Check>): Board
    decreases |checks|
  {
    if checks == [] then b
    else
      var last := checks[|checks| - 1];
      BorderCheck(CheckAll(b, checks[..|checks| - 1]), last.x, last.y, last.want)
  }

  /** The twenty beads of columns 5..9, rows 3..6. */
  predicate InRightBlock(i: int)
  {
    i < 100 && 5 <= Col(i) && 3 <= Row(i) < 7
  }

  /** Level 4's wrong-answer sweep: every bead of the right block judged against white. */
  function CheckBlock(b: Board): Board
  {
    b.(borderColor := seq(Cells, i requires 0 <= i < Cells =>
                            if InRightBlock(i) then Verdict(b.color[i], COLOR_WHITE) else b.borderColor[i]),
       border := seq(Cells, i requires 0 <= i < Cells => if InRightBlock(i) then CHECK_BORDER else b.border[i]))
  }

  /** Level 5's wrong-answer sweep: every canvas bead not tagged 1 judged against white. */
  function CheckUnfixed(b: Board): Board
  {
    b.(borderColor := seq(Cells, i requires 0 <= i < Cells =>
                            if i < 100 && b.data[i] != FIXED then Verdict(b.color[i], COLOR_WHITE) else b.borderColor[i]),
       border := seq(Cells, i requires 0 <= i < Cells =>
                       if i < 100 && b.data[i] != FIXED then CHECK_BORDER else b.border[i]))
  }

  /** Level 4, "Symmetry": the five beads that mirror the left half, then the twelve
      right-half beads that must stay white. */
  function Level4Checks(): seq<Check>
  {
    [Check(5, 5, LIGHT_PINK), Check(6, 3, LIGHT_YELLOW), Check(6, 4, LIGHT_BLUE), Check(7, 3, LIGHT_GREEN),
     Check(7, 5, LIGHT_PURPLE),
     Check(5, 3, COLOR_WHITE), Check(5, 4, COLOR_WHITE), Check(5, 6, COLOR_WHITE), Check(6, 5, COLOR_WHITE),
     Check(6, 6, COLOR_WHITE), Check(7, 4, COLOR_WHITE), Check(7, 6, COLOR_WHITE), Check(8, 3, COLOR_WHITE),
     Check(8, 4, COLOR_WHITE), Check(8, 5, COLOR_WHITE), Check(8, 6, COLOR_WHITE), Check(9, 4, COLOR_WHITE)]
  }

  /** Level 4 answered wrongly: the block judged against white, the five coloured answers
      judged against their colours, and the three starting beads of column 9 given back
      their default border. */
  function Level4Marks(b: Board): Board
  {
    UnmarkStarts(CheckAll(CheckBlock(b), Level4Checks()[..5]))
  }

  /** Default borders back on level 4's starting beads (9, 3), (9, 5) and (9, 6). */
  function UnmarkStarts(b: Board): Board
  {
    b.WithBorderColor(9, 3, DEFAULT_BORDER_COLOR).WithBorder(9, 3, DEFAULT_BORDER_WIDTH)
     .WithBorderColor(9, 5, DEFAULT_BORDER_COLOR).WithBorder(9, 5, DEFAULT_BORDER_WIDTH)
     .WithBorderColor(9, 6, DEFAULT_BORDER_COLOR).WithBorder(9, 6, DEFAULT_BORDER_WIDTH)
  }

  /** Level 5, the second "Symmetry": the eleven beads that must be painted. */
  function Level5Answers(): seq<Check>
  {
    [Check(1, 3, LIGHT_BLUE), Check(2, 3, LIGHT_YELLOW), Check(3, 4, LIGHT_PINK),
     Check(5, 3, LIGHT_PURPLE), Check(6, 1, LIGHT_ORANGE), Check(7, 3, LIGHT_YELLOW),
     Check(6, 5, LIGHT_PINK), Check(7, 7, LIGHT_GREEN),
     Check(0, 9, LIGHT_RED), Check(2, 6, LIGHT_YELLOW), Check(4, 6, LIGHT_PURPLE)]
  }

  /** The beads of level 5 that must stay white: the mask of the counting loop. */
  predicate Level5Blank(x: int, y: int)
  {
    ((y == 0 || y == 9) && (x != 0 && x != 9)) ||
    ((y == 1 || y == 8) && (x != 3 && x != 6)) ||
    ((y == 2 || y == 7) && (x != 2 && x != 7)) ||
    ((y == 3 || y == 6) && (x != 1 && x != 2 && x != 4 && x != 5 && x != 7 && x != 8)) ||
    ((y == 4 || y == 5) && (x != 3 && x != 6))
  }

  /** White mask beads among rows 0..n-1 of column x. */
  function BlanksInColumn(b: Board, x: Coord, n: int): nat
    requires 0 <= n <= 10
  {
    if n == 0 then 0
    else BlanksInColumn(b, x, n - 1) + (if Level5Blank(x, n - 1) && b.Color(x, n - 1) == COLOR_WHITE then 1 else 0)
  }

  /** White mask beads in columns 0..m-1: what `correctBlanks` holds after m columns. */
  function BlanksBefore(b: Board, m: int): nat
    requires 0 <= m <= 10
  {
    if m == 0 then 0 else BlanksBefore(b, m - 1) + BlanksInColumn(b, m - 1, 10)
  }

  function CountBlanks(b: Board): nat
  {
    BlanksBefore(b, 10)
  }

  /** Level 5 is solved when `correctColors` is 1 and `correctBlanks` is 72. */
  predicate Level5Solved(b: Board)
  {
    Passes(b, Level5Answers()) && CountBlanks(b) == LEVEL5_BLANKS
  }

  /** Level 5 answered wrongly: every bead not tagged 1 judged against white, then the
      eleven answers judged against their colours. */
  function Level5Marks(b: Board): Board
  {
    CheckAll(CheckUnfixed(b), Level5Answers())
  }

  /** The start of `PS.initLevel`: the canvas grey, tagged 1, with default borders. */
  function InitBase(b: Board): Board
  {
    Board(seq(Cells, i requires 0 <= i < Cells => if i < 100 then COLOR_GRAY else b.color[i]),
          seq(Cells, i requires 0 <= i < Cells => if i < 100 then DEFAULT_BORDER_COLOR else b.borderColor[i]),
          seq(Cells, i requires 0 <= i < Cells => if i < 100 then DEFAULT_BORDER_WIDTH else b.border[i]),
          seq(Cells, i requires 0 <= i < Cells => if i < 100 then FIXED else b.data[i]))
  }

  /** Rows 3 to 6 of level 4: white, with the left half tagged 1 and the right half 0. */
  predicate InSymmetryRows(i: int)
  {
    30 <= i < 70
  }

  function SymmetryRows(b: Board): Board
  {
    b.(color := seq(Cells, i requires 0 <= i < Cells => if InSymmetryRows(i) then DEFAULT_COLOR else b.color[i]),
       data := seq(Cells, i requires 0 <= i < Cells =>
                     if InSymmetryRows(i) then (if Col(i) < 5 then FIXED else OPEN) else b.data[i]))
  }

  /** The whole canvas white, tagged 0, with default border width (levels 5 and 6). */
  function BlankCanvas(b: Board): Board
  {
    b.(color := seq(Cells, i requires 0 <= i < Cells => if i < 100 then DEFAULT_COLOR else b.color[i]),
       border := seq(Cells, i requires 0 <= i < Cells => if i < 100 then DEFAULT_BORDER_WIDTH else b.border[i]),
       data := seq(Cells, i requires 0 <= i < Cells => if i < 100 then OPEN else b.data[i]))
  }

  /** Level 4's level beads: the left half of the picture and three starting beads. */
  function Level4Cells(): seq<Cell>
  {
    [Fixed(0, 3, LIGHT_RED), Fixed(0, 5, LIGHT_RED), Fixed(0, 6, LIGHT_ORANGE), Fixed(2, 3, LIGHT_GREEN),
     Fixed(2, 5, LIGHT_PURPLE), Fixed(3, 3, LIGHT_YELLOW), Fixed(3, 4, LIGHT_BLUE), Fixed(4, 5, LIGHT_PINK),
     Fixed(9, 3, LIGHT_RED), Fixed(9, 5, LIGHT_RED), Fixed(9, 6, LIGHT_ORANGE)]
  }

  /** Level 5's level beads, quadrant by quadrant. */
  function Level5Cells(): seq<Cell>
  {
    [Fixed(0, 0, LIGHT_RED), Fixed(2, 2, LIGHT_GREEN), Fixed(3, 1, LIGHT_ORANGE), Fixed(4, 3, LIGHT_PURPLE),
     Fixed(6, 4, LIGHT_PINK), Fixed(7, 2, LIGHT_GREEN), Fixed(8, 3, LIGHT_BLUE), Fixed(9, 0, LIGHT_RED),
     Fixed(5, 6, LIGHT_PURPLE), Fixed(6, 8, LIGHT_ORANGE), Fixed(7, 6, LIGHT_YELLOW), Fixed(8, 6, LIGHT_BLUE),
     Fixed(9, 9, LIGHT_RED),
     Fixed(1, 6, LIGHT_BLUE), Fixed(2, 7, LIGHT_GREEN), Fixed(3, 5, LIGHT_PINK), Fixed(3, 8, LIGHT_ORANGE)]
  }

  /** `PS.initLevel(level)`. */
  function InitLevel(b: Board, level: int): Board
  {
    var base := InitBase(b);
    if 1 <= level <= 3 then PutAll(base, RowCells(level))
    else if level == 4 then PutAll(SymmetryRows(base), Level4Cells())
    else if level == 5 then PutAll(BlankCanvas(base), Level5Cells())
    else if level == FREE_DRAW then BlankCanvas(base)
    else base
  }

  /** `PS.correct`: on to the next level. */
  function Correct(p: Puzzle): Puzzle
  {
    p.(level := p.level + 1, board := InitLevel(p.board, p.level + 1))
  }

  /** `PS.checkLevel(level)`: a solved level moves on; otherwise the judged beads get
      their marks (`PS.wrong` only shows a status and plays a sound). */
  function CheckLevel(p: Puzzle, level: int): Puzzle
  {
    var b := p.board;
    if 1 <= level <= 3 then
      if Passes(b, RowChecks(level)) then Correct(p) else p.(board := CheckAll(b, RowChecks(level)))
    else if level == 4 then
      if Passes(b, Level4Checks()) then Correct(p) else p.(board := Level4Marks(b))
    else if level == 5 then
      if Level5Solved(b) then Correct(p) else p.(board := Level5Marks(b))
    else p
  }

  /** The clear button: canvas borders back to default and every bead tagged 0 white. */
  function ClearCanvas(b: Board): Board
  {
    b.(color := seq(Cells, i requires 0 <= i < Cells => if i < 100 && b.data[i] == OPEN then DEFAULT_COLOR else b.color[i]),
       borderColor := seq(Cells, i requires 0 <= i < Cells => if i < 100 then DEFAULT_BORDER_COLOR else b.borderColor[i]),
       border := seq(Cells, i requires 0 <= i < Cells => if i < 100 then DEFAULT_BORDER_WIDTH else b.border[i]))
  }

  /** `PS.touch`: drawing starts; a row-10 bead loads its colour into the brush and the
      two buttons clear or check; a canvas bead tagged 0 is painted. */
  function Touch(p: Puzzle, x: int, y: int): Puzzle
    requires InGrid(x, y)
  {
    var drawing := p.(draw := true);
    if y > 9 then
      var picked := drawing.(brush := p.board.Color(x, y));
      var cleared := if x == 8 then picked.(board := ClearCanvas(picked.board)) else picked;
      if x == 9 then CheckLevel(cleared, cleared.level) else cleared
    else if p.board.Data(x, y) == OPEN then drawing.(board := p.board.WithColor(x, y, p.brush))
    else drawing
  }

  /** The grid after `PS.init`'s own writes: palette and button borders. */
  function Furnished(): Board
  {
    PaintPalette(FreshBoard())
      .WithBorderColor(8, 10, COLOR_RED).WithBorder(8, 10, BUTTON_BORDER)
      .WithBorderColor(9, 10, COLOR_GREEN).WithBorder(9, 10, BUTTON_BORDER)
  }

  /** `PS.init`: brush white, not drawing, level 1 laid out. */
  function Initial(): Puzzle
  {
    Puzzle(InitLevel(Furnished(), 1), DEFAULT_COLOR, false, 1)
  }

  /** What every reachable puzzle satisfies. */
  predicate Inv(p: Puzzle)
  {
    1 <= p.level <= FREE_DRAW && PaletteIntact(p.board) && p.brush in PALETTE
  }
}
