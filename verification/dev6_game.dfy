/** resources/Dev6/game.js as the host runs it: the handlers and `PS.checkLevel`,
    `PS.initLevel` and `PS.correct` update the bead grid in place and reassign the three
    globals; each method is proved to leave exactly the state the matching function of
    Dev6Rules describes. */
module Dev6Game {
  import opened Beads
  import opened Canvas
  import opened Dev6Rules
  import Dev6Laws

  /** The grey-out loop at the start of `PS.initLevel`, column by column. */
  method InitBaseLoop(g: Grid)
    requires g.Valid()
    modifies g.color, g.borderColor, g.border, g.data
    ensures g.Snapshot() == InitBase(old(g.Snapshot()))
  {
    ghost var b0 := g.Snapshot();
    for x := 0 to 10
      invariant forall i :: 0 <= i < Cells ==>
        g.color[i] == (if Visited(i, x, 0) then COLOR_GRAY else b0.color[i]) &&
        g.data[i] == (if Visited(i, x, 0) then FIXED else b0.data[i]) &&
        g.borderColor[i] == (if Visited(i, x, 0) then DEFAULT_BORDER_COLOR else b0.borderColor[i]) &&
        g.border[i] == (if Visited(i, x, 0) then DEFAULT_BORDER_WIDTH else b0.border[i])
    {
      for y := 0 to 10
        invariant forall i :: 0 <= i < Cells ==>
          g.color[i] == (if Visited(i, x, y) then COLOR_GRAY else b0.color[i]) &&
          g.data[i] == (if Visited(i, x, y) then FIXED else b0.data[i]) &&
          g.borderColor[i] == (if Visited(i, x, y) then DEFAULT_BORDER_COLOR else b0.borderColor[i]) &&
          g.border[i] == (if Visited(i, x, y) then DEFAULT_BORDER_WIDTH else b0.border[i])
      {
        var k := Idx(x, y);
        assert Col(k) == x && Row(k) == y;
        g.color[k] := COLOR_GRAY;
        g.data[k] := FIXED;
        g.borderColor[k] := DEFAULT_BORDER_COLOR;
        g.border[k] := DEFAULT_BORDER_WIDTH;
      }
    }
    assert g.color[..] == InitBase(b0).color;
    assert g.data[..] == InitBase(b0).data;
    assert g.borderColor[..] == InitBase(b0).borderColor;
    assert g.border[..] == InitBase(b0).border;
  }

  /** Level 4's loop over rows 3..6: white, the left half tagged 1 and the right half 0. */
  method SymmetryRowsLoop(g: Grid)
    requires g.Valid()
    modifies g.color, g.data
    ensures g.Snapshot() == SymmetryRows(old(g.Snapshot()))
  {
    ghost var b0 := g.Snapshot();
    for x := 0 to 10
      invariant forall i :: 0 <= i < Cells ==>
        g.color[i] == (if Swept(i, 0, 3, 7, x, 3) then DEFAULT_COLOR else b0.color[i]) &&
        g.data[i] == (if Swept(i, 0, 3, 7, x, 3) then (if Col(i) < 5 then FIXED else OPEN) else b0.data[i])
    {
      for y := 3 to 7
        invariant forall i :: 0 <= i < Cells ==>
          g.color[i] == (if Swept(i, 0, 3, 7, x, y) then DEFAULT_COLOR else b0.color[i]) &&
          g.data[i] == (if Swept(i, 0, 3, 7, x, y) then (if Col(i) < 5 then FIXED else OPEN) else b0.data[i])
      {
        var k := Idx(x, y);
        assert Col(k) == x && Row(k) == y;
        g.color[k] := DEFAULT_COLOR;
        if x < 5 {
          g.data[k] := FIXED;
        } else {
          g.data[k] := OPEN;
        }
      }
    }
    assert g.color[..] == SymmetryRows(b0).color;
    assert g.data[..] == SymmetryRows(b0).data;
  }

  /** The blanking loop of levels 5 and 6. */
  method BlankCanvasLoop(g: Grid)
    requires g.Valid()
    modifies g.color, g.border, g.data
    ensures g.Snapshot() == BlankCanvas(old(g.Snapshot()))
  {
    ghost var b0 := g.Snapshot();
    for x := 0 to 10
      invariant forall i :: 0 <= i < Cells ==>
        g.color[i] == (if Visited(i, x, 0) then DEFAULT_COLOR else b0.color[i]) &&
        g.data[i] == (if Visited(i, x, 0) then OPEN else b0.data[i]) &&
        g.border[i] == (if Visited(i, x, 0) then DEFAULT_BORDER_WIDTH else b0.border[i])
    {
      for y := 0 to 10
        invariant forall i :: 0 <= i < Cells ==>
          g.color[i] == (if Visited(i, x, y) then DEFAULT_COLOR else b0.color[i]) &&
          g.data[i] == (if Visited(i, x, y) then OPEN else b0.data[i]) &&
          g.border[i] == (if Visited(i, x, y) then DEFAULT_BORDER_WIDTH else b0.border[i])
      {
        var k := Idx(x, y);
        assert Col(k) == x && Row(k) == y;
        g.color[k] := DEFAULT_COLOR;
        g.data[k] := OPEN;
        g.border[k] := DEFAULT_BORDER_WIDTH;
      }
    }
    assert g.color[..] == BlankCanvas(b0).color;
    assert g.data[..] == BlankCanvas(b0).data;
    assert g.border[..] == BlankCanvas(b0).border;
  }

  /** The clear button's loop. */
  method ClearCanvasLoop(g: Grid)
    requires g.Valid()
    modifies g.color, g.borderColor, g.border
    ensures g.Snapshot() == ClearCanvas(old(g.Snapshot()))
  {
    ghost var b0 := g.Snapshot();
    for x := 0 to 10
      invariant forall i :: 0 <= i < Cells ==>
        g.borderColor[i] == (if Visited(i, x, 0) then DEFAULT_BORDER_COLOR else b0.borderColor[i])
      invariant forall i :: 0 <= i < Cells ==>
        g.border[i] == (if Visited(i, x, 0) then DEFAULT_BORDER_WIDTH else b0.border[i])
      invariant forall i :: 0 <= i < Cells ==>
        g.color[i] == (if Visited(i, x, 0) && b0.data[i] == OPEN then DEFAULT_COLOR else b0.color[i])
    {
      ClearColumn(g, x);
    }
    assert g.color[..] == ClearCanvas(b0).color;
    assert g.borderColor[..] == ClearCanvas(b0).borderColor;
    assert g.border[..] == ClearCanvas(b0).border;
  }

  /** One pass of the clear button's outer loop: column x of the canvas. */
  method ClearColumn(g: Grid, x: Coord)
    requires g.Valid()
    modifies g.color, g.borderColor, g.border
    ensures forall i :: 0 <= i < Cells ==>
      g.borderColor[i] == (if i < 100 && Col(i) == x then DEFAULT_BORDER_COLOR else old(g.borderColor[i]))
    ensures forall i :: 0 <= i < Cells ==>
      g.border[i] == (if i < 100 && Col(i) == x then DEFAULT_BORDER_WIDTH else old(g.border[i]))
    ensures forall i :: 0 <= i < Cells ==>
      g.color[i] == (if i < 100 && Col(i) == x && g.data[i] == OPEN then DEFAULT_COLOR else old(g.color[i]))
  {
    for y := 0 to 10
      invariant forall i :: 0 <= i < Cells ==>
        g.borderColor[i] == (if Visited(i, x, y) && Col(i) == x then DEFAULT_BORDER_COLOR else old(g.borderColor[i]))
      invariant forall i :: 0 <= i < Cells ==>
        g.border[i] == (if Visited(i, x, y) && Col(i) == x then DEFAULT_BORDER_WIDTH else old(g.border[i]))
      invariant forall i :: 0 <= i < Cells ==>
        g.color[i] == (if Visited(i, x, y) && Col(i) == x && g.data[i] == OPEN then DEFAULT_COLOR else old(g.color[i]))
    {
      var k := Idx(x, y);
      assert Col(k) == x && Row(k) == y;
      g.borderColor[k] := DEFAULT_BORDER_COLOR;
      g.border[k] := DEFAULT_BORDER_WIDTH;
      if g.data[k] == OPEN {
        g.color[k] := DEFAULT_COLOR;
      }
    }
  }

  /** `PS.changeBorderCheck(x, y, want)` */
  method ChangeBorderCheck(g: Grid, x: Coord, y: Coord, want: int)
    requires g.Valid()
    modifies g.borderColor, g.border
    ensures g.Snapshot() == BorderCheck(old(g.Snapshot()), x, y, want)
  {
    if g.Color(x, y) == want {
      g.SetBorderColor(x, y, COLOR_GREEN);
      g.SetBorder(x, y, CHECK_BORDER);
    } else {
      g.SetBorderColor(x, y, COLOR_RED);
      g.SetBorder(x, y, CHECK_BORDER);
    }
  }

  /** The run of `PS.changeBorderCheck` calls after a wrong answer. */
  method CheckCells(g: Grid, checks: seq<Check>)
    requires g.Valid()
    modifies g.borderColor, g.border
    ensures g.Snapshot() == CheckAll(old(g.Snapshot()), checks)
  {
    ghost var b0 := g.Snapshot();
    for k := 0 to |checks|
      invariant g.Snapshot() == CheckAll(b0, checks[..k])
    {
      ChangeBorderCheck(g, checks[k].x, checks[k].y, checks[k].want);
      assert checks[..k + 1][..k] == checks[..k];
    }
    assert checks[..|checks|] == checks;
  }

  /** Level 4's wrong-answer sweep over the right block. */
  method CheckBlockLoop(g: Grid)
    requires g.Valid()
    modifies g.borderColor, g.border
    ensures g.Snapshot() == CheckBlock(old(g.Snapshot()))
  {
    ghost var b0 := g.Snapshot();
    for x := 5 to 10
      invariant forall i :: 0 <= i < Cells ==>
        g.borderColor[i] == (if Swept(i, 5, 3, 7, x, 3) then Verdict(b0.color[i], COLOR_WHITE) else b0.borderColor[i]) &&
        g.border[i] == (if Swept(i, 5, 3, 7, x, 3) then CHECK_BORDER else b0.border[i])
    {
      for y := 3 to 7
        invariant forall i :: 0 <= i < Cells ==>
          g.borderColor[i] == (if Swept(i, 5, 3, 7, x, y) then Verdict(b0.color[i], COLOR_WHITE) else b0.borderColor[i]) &&
          g.border[i] == (if Swept(i, 5, 3, 7, x, y) then CHECK_BORDER else b0.border[i])
      {
        var k := Idx(x, y);
        assert Col(k) == x && Row(k) == y;
        ChangeBorderCheck(g, x, y, COLOR_WHITE);
      }
    }
    assert g.borderColor[..] == CheckBlock(b0).borderColor;
    assert g.border[..] == CheckBlock(b0).border;
  }

  /** Level 5's wrong-answer sweep over every bead not tagged 1. */
  method CheckUnfixedLoop(g: Grid)
    requires g.Valid()
    modifies g.borderColor, g.border
    ensures g.Snapshot() == CheckUnfixed(old(g.Snapshot()))
  {
    ghost var b0 := g.Snapshot();
    for x := 0 to 10
      invariant forall i :: 0 <= i < Cells ==>
        g.borderColor[i] == (if Visited(i, x, 0) && b0.data[i] != FIXED then Verdict(b0.color[i], COLOR_WHITE) else b0.borderColor[i]) &&
        g.border[i] == (if Visited(i, x, 0) && b0.data[i] != FIXED then CHECK_BORDER else b0.border[i])
    {
      for y := 0 to 10
        invariant forall i :: 0 <= i < Cells ==>
          g.borderColor[i] == (if Visited(i, x, y) && b0.data[i] != FIXED then Verdict(b0.color[i], COLOR_WHITE) else b0.borderColor[i]) &&
          g.border[i] == (if Visited(i, x, y) && b0.data[i] != FIXED then CHECK_BORDER else b0.border[i])
      {
        var k := Idx(x, y);
        assert Col(k) == x && Row(k) == y;
        if g.Data(x, y) != FIXED {
          ChangeBorderCheck(g, x, y, COLOR_WHITE);
        }
      }
    }
    assert g.borderColor[..] == CheckUnfixed(b0).borderColor;
    assert g.border[..] == CheckUnfixed(b0).border;
  }

  /** The `correctBlanks` loop of level 5: the count reaches 72 exactly when every mask
      bead is white. */
  method CountBlanksLoop(g: Grid) returns (count: nat)
    requires g.Valid()
    ensures count == CountBlanks(g.Snapshot())
    ensures count == LEVEL5_BLANKS <==>
      forall x, y :: InPlay(x, y) && Level5Blank(x, y) ==> g.Snapshot().Color(x, y) == COLOR_WHITE
  {
    ghost var b := g.Snapshot();
    count := 0;
    for x := 0 to 10
      invariant count == BlanksBefore(b, x)
    {
      for y := 0 to 10
        invariant count == BlanksBefore(b, x) + BlanksInColumn(b, x, y)
      {
        if Level5Blank(x, y) && g.Color(x, y) == COLOR_WHITE {
          count := count + 1;
        }
      }
    }
    Dev6Laws.CountBlanksMeans(b);
  }

  /** The palette row `PS.init` paints. */
  method PaintPaletteOn(g: Grid)
    requires g.Valid()
    modifies g.color
    ensures g.Snapshot() == PaintPalette(old(g.Snapshot()))
  {
    g.SetColor(0, 10, LIGHT_RED);
    g.SetColor(1, 10, LIGHT_ORANGE);
    g.SetColor(2, 10, LIGHT_YELLOW);
    g.SetColor(3, 10, LIGHT_GREEN);
    g.SetColor(4, 10, LIGHT_BLUE);
    g.SetColor(5, 10, LIGHT_PURPLE);
    g.SetColor(6, 10, LIGHT_PINK);
    g.SetColor(7, 10, COLOR_WHITE);
  }

  /** The three globals of the game, with the grid they draw on. */
  class Game {
    const grid: Grid
    var brush: int
    var draw: bool
    var level: int

    ghost predicate Valid()
      reads this
    {
      grid.Valid()
    }

    /** The whole game state as a value. */
    function State(): Puzzle
      reads this, grid.color, grid.borderColor, grid.border, grid.data
      requires Valid()
    {
      Puzzle(grid.Snapshot(), brush, draw, level)
    }

    /** `PS.init`: the palette and the two buttons, then level 1. */
    constructor ()
      ensures Valid() && State() == Initial() && Inv(State())
      ensures fresh(grid.color) && fresh(grid.borderColor) && fresh(grid.border) && fresh(grid.data)
    {
      grid := new Grid();
      brush := DEFAULT_COLOR;
      draw := false;
      level := 1;
      new;
      PaintPaletteOn(grid);
      grid.SetBorderColor(8, 10, COLOR_RED);
      grid.SetBorder(8, 10, BUTTON_BORDER);
      grid.SetBorderColor(9, 10, COLOR_GREEN);
      grid.SetBorder(9, 10, BUTTON_BORDER);
      InitLevel(1);
      Dev6Laws.InitialInv();
    }

    /** `PS.initLevel(lv)` */
    method InitLevel(lv: int)
      requires Valid()
      modifies grid.color, grid.borderColor, grid.border, grid.data
      ensures Valid() && State() == old(State()).(board := Dev6Rules.InitLevel(old(State()).board, lv))
    {
      InitBaseLoop(grid);
      if 1 <= lv <= 3 {
        PutCells(grid, RowCells(lv));
      } else if lv == 4 {
        SymmetryRowsLoop(grid);
        PutCells(grid, Level4Cells());
      } else if lv == 5 {
        BlankCanvasLoop(grid);
        PutCells(grid, Level5Cells());
      } else if lv == FREE_DRAW {
        BlankCanvasLoop(grid);
      }
    }

    /** `PS.correct` */
    method Correct()
      requires Valid()
      modifies this, grid.color, grid.borderColor, grid.border, grid.data
      ensures Valid() && State() == Dev6Rules.Correct(old(State()))
    {
      level := level + 1;
      InitLevel(level);
    }

    /** `PS.checkLevel(lv)` */
    method CheckLevel(lv: int)
      requires Valid()
      modifies this, grid.color, grid.borderColor, grid.border, grid.data
      ensures Valid() && State() == Dev6Rules.CheckLevel(old(State()), lv)
    {
      if 1 <= lv <= 3 {
        if Passes(grid.Snapshot(), RowChecks(lv)) {
          Correct();
        } else {
          CheckCells(grid, RowChecks(lv));
        }
      } else if lv == 4 {
        if Passes(grid.Snapshot(), Level4Checks()) {
          Correct();
        } else {
          CheckBlockLoop(grid);
          CheckCells(grid, Level4Checks()[..5]);
          grid.SetBorderColor(9, 3, DEFAULT_BORDER_COLOR);
          grid.SetBorder(9, 3, DEFAULT_BORDER_WIDTH);
          grid.SetBorderColor(9, 5, DEFAULT_BORDER_COLOR);
          grid.SetBorder(9, 5, DEFAULT_BORDER_WIDTH);
          grid.SetBorderColor(9, 6, DEFAULT_BORDER_COLOR);
          grid.SetBorder(9, 6, DEFAULT_BORDER_WIDTH);
        }
      } else if lv == 5 {
        var colorsRight := Passes(grid.Snapshot(), Level5Answers());
        var blanks := CountBlanksLoop(grid);
        if colorsRight && blanks == LEVEL5_BLANKS {
          Correct();
        } else {
          CheckUnfixedLoop(grid);
          CheckCells(grid, Level5Answers());
        }
      }
    }

    /** `PS.touch(x, y)` */
    method Touch(x: Coord, y: int)
      requires Valid() && InGrid(x, y)
      modifies this, grid.color, grid.borderColor, grid.border, grid.data
      ensures Valid() && State() == Dev6Rules.Touch(old(State()), x, y)
      ensures Inv(old(State())) ==> Inv(State())
    {
      ghost var p0 := State();
      draw := true;
      if y > 9 {
        brush := grid.Color(x, y);
        if x == 8 {
          ClearCanvasLoop(grid);
        }
        if x == 9 {
          CheckLevel(level);
        }
      } else if grid.Data(x, y) == OPEN {
        grid.SetColor(x, y, brush);
      }
      if Inv(p0) {
        Dev6Laws.TouchKeepsInv(p0, x, y);
      }
    }

    /** `PS.release` */
    method Release()
      requires Valid()
      modifies this
      ensures Valid() && State() == Canvas.Release(old(State()))
    {
      draw := false;
    }

    /** `PS.enter(x, y)` */
    method Enter(x: Coord, y: int)
      requires Valid() && InGrid(x, y)
      modifies grid.color
      ensures Valid() && State() == Canvas.Enter(old(State()), x, y)
      ensures Inv(old(State())) ==> Inv(State())
    {
      ghost var p0 := State();
      if draw && y < 10 && grid.Data(x, y) == OPEN {
        grid.SetColor(x, y, brush);
      }
      if Inv(p0) {
        Dev6Laws.EnterKeepsInv(p0, x, y);
      }
    }
  }
}
