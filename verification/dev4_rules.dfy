/** The rules of the Dev4 drawing puzzle, the earlier version of Dev6: three one-row
    pattern levels judged by `PS.checkLevel`, where a wrong answer changes nothing on the
    grid, then a fourth free-drawing level. The check button is (8, 10) and the clear
    button (9, 10); clearing whitens the beads tagged 0 and leaves borders alone. */
module Dev4Rules {
  import opened Beads
  import opened Canvas

  /** The border width of the two buttons. */
  const BUTTON_BORDER := 3
  /** The level after the last puzzle: free drawing. */
  const FREE_DRAW := 4

  /** The start of `PS.initLevel`: the canvas grey and tagged 1; borders are untouched. */
  function InitBase(b: Board): Board
  {
    b.(color := seq(Cells, i requires 0 <= i < Cells => if i < 100 then COLOR_GRAY else b.color[i]),
       data := seq(Cells, i requires 0 <= i < Cells => if i < 100 then FIXED else b.data[i]))
  }

  /** Level 4: the whole canvas white and tagged 0. */
  function FreeCanvas(b: Board): Board
  {
    b.(color := seq(Cells, i requires 0 <= i < Cells => if i < 100 then DEFAULT_COLOR else b.color[i]),
       data := seq(Cells, i requires 0 <= i < Cells => if i < 100 then OPEN else b.data[i]))
  }

  /** `PS.initLevel(level)`. */
  function InitLevel(b: Board, level: int): Board
  {
    var base := InitBase(b);
    if 1 <= level <= 3 then PutAll(base, RowCells(level))
    else if level == FREE_DRAW then FreeCanvas(base)
    else base
  }

  /** `PS.correct`: on to the next level. */
  function Correct(p: Puzzle): Puzzle
  {
    p.(level := p.level + 1, board := InitLevel(p.board, p.level + 1))
  }

  /** `PS.checkLevel(level)`: a solved level moves on; `PS.wrong` only shows a status
      and plays a sound. */
  function CheckLevel(p: Puzzle, level: int): Puzzle
  {
    if 1 <= level <= 3 && Passes(p.board, RowChecks(level)) then Correct(p) else p
  }

  /** The clear button: every canvas bead tagged 0 white. */
  function ClearCanvas(b: Board): Board
  {
    b.(color := seq(Cells, i requires 0 <= i < Cells => if i < 100 && b.data[i] == OPEN then DEFAULT_COLOR else b.color[i]))
  }

  /** `PS.touch`: drawing starts; a row-10 bead loads its colour into the brush and the
      two buttons check or clear; a canvas bead tagged 0 is painted. */
  function Touch(p: Puzzle, x: int, y: int): Puzzle
    requires InGrid(x, y)
  {
    var drawing := p.(draw := true);
    if y > 9 then
      var picked := drawing.(brush := p.board.Color(x, y));
      var cleared := if x == 9 then picked.(board := ClearCanvas(picked.board)) else picked;
      if x == 8 then CheckLevel(cleared, cleared.level) else cleared
    else if p.board.Data(x, y) == OPEN then drawing.(board := p.board.WithColor(x, y, p.brush))
    else drawing
  }

  /** The grid after `PS.init`'s own writes: palette and button borders. */
  function Furnished(): Board
  {
    PaintPalette(FreshBoard())
      .WithBorderColor(8, 10, COLOR_GREEN).WithBorder(8, 10, BUTTON_BORDER)
      .WithBorderColor(9, 10, COLOR_RED).WithBorder(9, 10, BUTTON_BORDER)
  }

  /** `PS.init`: brush white, not drawing, level 1 laid out. */
  function Initial(): Puzzle
  {
    Puzzle(InitLevel(Furnished(), 1), DEFAULT_COLOR, false, 1)
  }

  /** What every reachable puzzle satisfies. */
  predicate Inv(p: Puzzle)
  {
    1 <= p.level <= FREE_DRAW && PaletteIntact(p.board) && p.brush in PALETTE
  }
}
