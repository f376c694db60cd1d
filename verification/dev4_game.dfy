/** resources/Dev4/game.js as the host runs it: the handlers and `PS.checkLevel`,
    `PS.initLevel` and `PS.correct` update the bead grid in place and reassign the three
    globals; each method is proved to leave exactly the state the matching function of
    Dev4Rules describes. */
module Dev4Game {
  import opened Beads
  import opened Canvas
  import opened Dev4Rules
  import Dev4Laws

  /** The grey-out loop at the start of `PS.initLevel`, column by column. */
  method InitBaseLoop(g: Grid)
    requires g.Valid()
    modifies g.color, g.data
    ensures g.Snapshot() == InitBase(old(g.Snapshot()))
  {
    ghost var b0 := g.Snapshot();
    for x := 0 to 10
      invariant forall i :: 0 <= i < Cells ==>
        g.color[i] == (if Visited(i, x, 0) then COLOR_GRAY else b0.color[i]) &&
        g.data[i] == (if Visited(i, x, 0) then FIXED else b0.data[i])
    {
      for y := 0 to 10
        invariant forall i :: 0 <= i < Cells ==>
          g.color[i] == (if Visited(i, x, y) then COLOR_GRAY else b0.color[i]) &&
          g.data[i] == (if Visited(i, x, y) then FIXED else b0.data[i])
      {
        var k := Idx(x, y);
        assert Col(k) == x && Row(k) == y;
        g.color[k] := COLOR_GRAY;
        g.data[k] := FIXED;
      }
    }
    assert g.color[..] == InitBase(b0).color;
    assert g.data[..] == InitBase(b0).data;
  }

  /** Level 4's loop: the whole canvas white and tagged 0. */
  method FreeCanvasLoop(g: Grid)
    requires g.Valid()
    modifies g.color, g.data
    ensures g.Snapshot() == FreeCanvas(old(g.Snapshot()))
  {
    ghost var b0 := g.Snapshot();
    for x := 0 to 10
      invariant forall i :: 0 <= i < Cells ==>
        g.color[i] == (if Visited(i, x, 0) then DEFAULT_COLOR else b0.color[i]) &&
        g.data[i] == (if Visited(i, x, 0) then OPEN else b0.data[i])
    {
      for y := 0 to 10
        invariant forall i :: 0 <= i < Cells ==>
          g.color[i] == (if Visited(i, x, y) then DEFAULT_COLOR else b0.color[i]) &&
          g.data[i] == (if Visited(i, x, y) then OPEN else b0.data[i])
      {
        var k := Idx(x, y);
        assert Col(k) == x && Row(k) == y;
        g.color[k] := DEFAULT_COLOR;
        g.data[k] := OPEN;
      }
    }
    assert g.color[..] == FreeCanvas(b0).color;
    assert g.data[..] == FreeCanvas(b0).data;
  }

  /** The clear button's loop. */
  method ClearCanvasLoop(g: Grid)
    requires g.Valid()
    modifies g.color
    ensures g.Snapshot() == ClearCanvas(old(g.Snapshot()))
  {
    ghost var b0 := g.Snapshot();
    for x := 0 to 10
      invariant forall i :: 0 <= i < Cells ==>
        g.color[i] == (if Visited(i, x, 0) && b0.data[i] == OPEN then DEFAULT_COLOR else b0.color[i])
    {
      for y := 0 to 10
        invariant forall i :: 0 <= i < Cells ==>
          g.color[i] == (if Visited(i, x, y) && b0.data[i] == OPEN then DEFAULT_COLOR else b0.color[i])
      {
        var k := Idx(x, y);
        assert Col(k) == x && Row(k) == y;
        if g.data[k] == OPEN {
          g.color[k] := DEFAULT_COLOR;
        }
      }
    }
    assert g.color[..] == ClearCanvas(b0).color;
  }

  /** The palette row `PS.init` paints. */
  method PaintPaletteOn(g: Grid)
    requires g.Valid()
    modifies g.color
    ensures g.Snapshot() == PaintPalette(old(g.Snapshot()))
  {
    g.SetColor(0, 10, LIGHT_RED);
    g.SetColor(1, 10, LIGHT_ORANGE);
    g.SetColor(2, 10, LIGHT_YELLOW);
    g.SetColor(3, 10, LIGHT_GREEN);
    g.SetColor(4, 10, LIGHT_BLUE);
    g.SetColor(5, 10, LIGHT_PURPLE);
    g.SetColor(6, 10, LIGHT_PINK);
    g.SetColor(7, 10, COLOR_WHITE);
  }

  /** The three globals of the game, with the grid they draw on. */
  class Game {
    const grid: Grid
    var brush: int
    var draw: bool
    var level: int

    ghost predicate Valid()
      reads this
    {
      grid.Valid()
    }

    /** The whole game state as a value. */
    function State(): Puzzle
      reads this, grid.color, grid.borderColor, grid.border, grid.data
      requires Valid()
    {
      Puzzle(grid.Snapshot(), brush, draw, level)
    }

    /** `PS.init`: the palette and the two buttons, then level 1. */
    constructor ()
      ensures Valid() && State() == Initial() && Inv(State())
      ensures fresh(grid.color) && fresh(grid.borderColor) && fresh(grid.border) && fresh(grid.data)
    {
      grid := new Grid();
      brush := DEFAULT_COLOR;
      draw := false;
      level := 1;
      new;
      PaintPaletteOn(grid);
      grid.SetBorderColor(8, 10, COLOR_GREEN);
      grid.SetBorder(8, 10, BUTTON_BORDER);
      grid.SetBorderColor(9, 10, COLOR_RED);
      grid.SetBorder(9, 10, BUTTON_BORDER);
      InitLevel(1);
      Dev4Laws.InitialInv();
    }

    /** `PS.initLevel(lv)` */
    method InitLevel(lv: int)
      requires Valid()
      modifies grid.color, grid.data
      ensures Valid() && State() == old(State()).(board := Dev4Rules.InitLevel(old(State()).board, lv))
    {
      InitBaseLoop(grid);
      if 1 <= lv <= 3 {
        PutCells(grid, RowCells(lv));
      } else if lv == FREE_DRAW {
        FreeCanvasLoop(grid);
      }
    }

    /** `PS.correct` */
    method Correct()
      requires Valid()
      modifies this, grid.color, grid.data
      ensures Valid() && State() == Dev4Rules.Correct(old(State()))
    {
      level := level + 1;
      InitLevel(level);
    }

    /** `PS.checkLevel(lv)` */
    method CheckLevel(lv: int)
      requires Valid()
      modifies this, grid.color, grid.data
      ensures Valid() && State() == Dev4Rules.CheckLevel(old(State()), lv)
    {
      if 1 <= lv <= 3 && Passes(grid.Snapshot(), RowChecks(lv)) {
        Correct();
      }
    }

    /** `PS.touch(x, y)` */
    method Touch(x: Coord, y: int)
      requires Valid() && InGrid(x, y)
      modifies this, grid.color, grid.data
      ensures Valid() && State() == Dev4Rules.Touch(old(State()), x, y)
      ensures Inv(old(State())) ==> Inv(State())
    {
      ghost var p0 := State();
      draw := true;
      if y > 9 {
        brush := grid.Color(x, y);
        if x == 9 {
          ClearCanvasLoop(grid);
        }
        if x == 8 {
          CheckLevel(level);
        }
      } else if grid.Data(x, y) == OPEN {
        grid.SetColor(x, y, brush);
      }
      if Inv(p0) {
        Dev4Laws.TouchKeepsInv(p0, x, y);
      }
    }

    /** `PS.release` */
    method Release()
      requires Valid()
      modifies this
      ensures Valid() && State() == Canvas.Release(old(State()))
    {
      draw := false;
    }

    /** `PS.enter(x, y)` */
    method Enter(x: Coord, y: int)
      requires Valid() && InGrid(x, y)
      modifies grid.color
      ensures Valid() && State() == Canvas.Enter(old(State()), x, y)
      ensures Inv(old(State())) ==> Inv(State())
    {
      ghost var p0 := State();
      if draw && y < 10 && grid.Data(x, y) == OPEN {
        grid.SetColor(x, y, brush);
      }
      if Inv(p0) {
        Dev4Laws.EnterKeepsInv(p0, x, y);
      }
    }
  }
}
