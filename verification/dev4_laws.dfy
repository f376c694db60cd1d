/** What the Dev4 rules guarantee: painting only ever touches beads tagged 0, a wrong
    answer leaves the puzzle exactly as it was, the level moves on exactly when the
    judged beads have their wanted colours, each level leaves paintable exactly the beads
    it judges, and the palette row, brush and level stay well formed. */
module Dev4Laws {
  import opened Beads
  import opened Canvas
  import opened Dev4Rules

  /** Touching a canvas bead starts a drag and paints the bead as entering it would. */
  lemma TouchCanvasIsEnter(p: Puzzle, x: int, y: int)
    requires InPlay(x, y)
    ensures Touch(p, x, y) == Enter(p.(draw := true), x, y)
    ensures PaintsAtMost(p, Touch(p, x, y), x, y) && Touch(p, x, y).draw
    ensures Touch(p, x, y).board != p.board ==> Paintable(p.board, x, y)
  {
    EnterPaintsOnlyWhileDrawing(p.(draw := true), x, y);
  }

  /** A palette bead loads its colour into the brush and changes nothing else. */
  lemma TouchPalette(p: Puzzle, x: int)
    requires PaletteIntact(p.board) && 0 <= x < 8
    ensures Touch(p, x, 10) == p.(draw := true, brush := PALETTE[x])
  {
  }

  /** The check button judges the current level, with a white brush. */
  lemma TouchCheck(p: Puzzle)
    requires PaletteIntact(p.board)
    ensures Touch(p, 8, 10) == CheckLevel(p.(draw := true, brush := DEFAULT_COLOR), p.level)
  {
  }

  /** The clear button: the brush becomes white (the button's own colour). */
  lemma TouchClear(p: Puzzle)
    requires PaletteIntact(p.board)
    ensures Touch(p, 9, 10) == p.(draw := true, brush := DEFAULT_COLOR, board := ClearCanvas(p.board))
  {
  }

  /** Clearing whitens exactly the canvas beads tagged 0; tags, borders and the palette
      row are left alone. */
  lemma ClearCanvasSpec(b: Board)
    ensures ClearCanvas(b).data == b.data && ClearCanvas(b).border == b.border
    ensures ClearCanvas(b).borderColor == b.borderColor && BarKept(ClearCanvas(b), b)
    ensures forall x, y :: InPlay(x, y) ==>
      ClearCanvas(b).Color(x, y) == (if b.Data(x, y) == OPEN then COLOR_WHITE else b.Color(x, y))
  {
  }

  /** A level is solved when every bead it judges has its wanted colour. */
  predicate Solved(level: int, b: Board)
  {
    1 <= level <= 3 && Passes(b, RowChecks(level))
  }

  /** Checking a level moves on to the next one exactly when it is solved; a wrong answer,
      and any check on the free-drawing level, leaves the puzzle exactly as it was. */
  lemma CheckLevelOutcome(p: Puzzle, level: int)
    ensures Solved(level, p.board) ==> CheckLevel(p, level) == Correct(p)
    ensures !Solved(level, p.board) ==> CheckLevel(p, level) == p
    ensures CheckLevel(p, level).level != p.level <==> Solved(level, p.board)
  {
  }

  /** Laying out a level only writes the canvas. */
  lemma InitLevelKeepsBar(b: Board, level: int)
    ensures BarKept(InitLevel(b, level), b)
  {
    var base := InitBase(b);
    assert BarKept(base, b);
    if 1 <= level <= 3 {
      PutAllKeepsBar(base, RowCells(level));
      BarKeptTransitive(InitLevel(b, level), base, b);
    }
  }

  /** The beads a level judges: its answers; on the free-drawing level, every bead. */
  predicate Judges(level: int, x: int, y: int)
  {
    (1 <= level <= 3 && Judged(RowChecks(level), x, y)) || level == FREE_DRAW
  }

  lemma InitBaseAt(b: Board, x: Coord, y: Coord)
    ensures InitBase(b).Data(x, y) == FIXED && InitBase(b).Color(x, y) == COLOR_GRAY
  {
  }

  /** Each level, laid out, leaves paintable exactly the beads it judges, all of them
      white, and tags every other canvas bead 1. */
  lemma InitLevelOpens(b: Board, level: int, x: Coord, y: Coord)
    requires 1 <= level <= FREE_DRAW
    ensures OpensJudged(InitLevel(b, level), Judges(level, x, y), x, y)
  {
    InitBaseAt(b, x, y);
    if level <= 3 {
      RowLevelOpens(InitBase(b), level, x, y);
    }
  }

  /** The puzzle starts on level 1 with the palette painted and a white brush. */
  lemma InitialInv()
    ensures Inv(Initial()) && Initial().level == 1 && !Initial().draw
  {
    var f := Furnished();
    PaintPaletteIntact(FreshBoard());
    assert PaletteIntact(f);
    InitLevelKeepsBar(f, 1);
  }

  /** Checking a level keeps the invariant: only a solved level below the last moves on. */
  lemma CheckLevelKeepsInv(p: Puzzle)
    requires Inv(p)
    ensures Inv(CheckLevel(p, p.level))
    ensures CheckLevel(p, p.level).level in {p.level, p.level + 1}
  {
    if Solved(p.level, p.board) {
      InitLevelKeepsBar(p.board, p.level + 1);
    }
  }

  /** Touching any bead keeps the invariant. */
  lemma TouchKeepsInv(p: Puzzle, x: Coord, y: int)
    requires Inv(p) && InGrid(x, y)
    ensures Inv(Touch(p, x, y)) && Touch(p, x, y).draw
  {
    if y > 9 {
      PaletteColorIn(p.board, x);
      var picked := p.(draw := true, brush := p.board.Color(x, y));
      if x == 9 {
        ClearCanvasSpec(p.board);
      } else if x == 8 {
        CheckLevelKeepsInv(picked);
      }
    } else {
      WriteKeepsBar(p.board, x, y, p.brush);
    }
  }

  /** Entering a bead while dragging, and releasing, keep the invariant. */
  lemma EnterKeepsInv(p: Puzzle, x: Coord, y: int)
    requires Inv(p) && InGrid(x, y)
    ensures Inv(Enter(p, x, y)) && Inv(Release(p))
  {
    if p.draw && y < 10 {
      WriteKeepsBar(p.board, x, y, p.brush);
    }
  }
}
