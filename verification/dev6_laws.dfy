/** What the Dev6 rules guarantee: painting only ever touches beads tagged 0, a wrong
    answer changes borders only and marks each judged bead green exactly when it has the
    wanted colour, the level moves on exactly when the picture is right, and the palette
    row, brush and level stay well formed. */
module Dev6Laws {
  import opened Beads
  import opened Canvas
  import opened Dev6Rules

  /** Touching a canvas bead starts a drag and paints the bead as entering it would. */
  lemma TouchCanvasIsEnter(p: Puzzle, x: int, y: int)
    requires InPlay(x, y)
    ensures Touch(p, x, y) == Enter(p.(draw := true), x, y)
    ensures PaintsAtMost(p, Touch(p, x, y), x, y) && Touch(p, x, y).draw
    ensures Touch(p, x, y).board != p.board ==> Paintable(p.board, x, y)
  {
    EnterPaintsOnlyWhileDrawing(p.(draw := true), x, y);
  }

  /** A palette bead loads its colour into the brush and changes nothing else. */
  lemma TouchPalette(p: Puzzle, x: int)
    requires PaletteIntact(p.board) && 0 <= x < 8
    ensures Touch(p, x, 10) == p.(draw := true, brush := PALETTE[x])
  {
  }

  /** The clear button: the brush becomes white (the button's own colour). */
  lemma TouchClear(p: Puzzle)
    requires PaletteIntact(p.board)
    ensures Touch(p, 8, 10) == p.(draw := true, brush := DEFAULT_COLOR, board := ClearCanvas(p.board))
  {
  }

  /** The check button judges the current level, with a white brush. */
  lemma TouchCheck(p: Puzzle)
    requires PaletteIntact(p.board)
    ensures Touch(p, 9, 10) == CheckLevel(p.(draw := true, brush := DEFAULT_COLOR), p.level)
  {
  }

  /** Clearing whitens exactly the beads tagged 0 and resets every canvas border; the
      tags and the palette row are left alone. */
  lemma ClearCanvasSpec(b: Board)
    ensures ClearCanvas(b).data == b.data && BarKept(ClearCanvas(b), b)
    ensures forall x, y :: InPlay(x, y) ==>
      ClearCanvas(b).Color(x, y) == (if b.Data(x, y) == OPEN then COLOR_WHITE else b.Color(x, y)) &&
      ClearCanvas(b).BorderColor(x, y) == DEFAULT_BORDER_COLOR && ClearCanvas(b).Border(x, y) == DEFAULT_BORDER_WIDTH
  {
  }

  /** Judging beads never changes the picture or the tags. */
  lemma {:induction false} CheckAllKeepsPicture(b: Board, checks: seq<Check>)
    ensures CheckAll(b, checks).color == b.color && CheckAll(b, checks).data == b.data
    decreases |checks|
  {
    if checks != [] {
      CheckAllKeepsPicture(b, checks[..|checks| - 1]);
    }
  }

  /** Judging beads leaves the borders of every other bead alone. */
  lemma {:induction false} CheckAllOnlyJudged(b: Board, checks: seq<Check>, x: int, y: int)
    requires InGrid(x, y) && !Judged(checks, x, y)
    ensures CheckAll(b, checks).Border(x, y) == b.Border(x, y)
    ensures CheckAll(b, checks).BorderColor(x, y) == b.BorderColor(x, y)
    decreases |checks|
  {
    if checks != [] {
      var front := checks[..|checks| - 1];
      CheckAllOnlyJudged(b, front, x, y);
      var last := checks[|checks| - 1];
      IdxInjective(last.x, last.y, x, y);
    }
  }

  /** No two judged beads are the same bead. */
  predicate DistinctBeads(checks: seq<Check>)
  {
    forall i, j :: 0 <= i < j < |checks| ==> checks[i].x != checks[j].x || checks[i].y != checks[j].y
  }

  /** Checks are distinct when some lookup sends each judged bead back to its position. */
  lemma DistinctBeadsBySlot(checks: seq<Check>, slot: (int, int) -> int)
    requires forall i :: 0 <= i < |checks| ==> slot(checks[i].x, checks[i].y) == i
    ensures DistinctBeads(checks)
  {
  }

  /** A judged bead wears a check border, green exactly when it has its wanted colour
      and red otherwise. */
  predicate MarkedAt(b: Board, c: Check)
  {
    b.Border(c.x, c.y) == CHECK_BORDER &&
    (b.BorderColor(c.x, c.y) == COLOR_GREEN <==> b.Color(c.x, c.y) == c.want) &&
    b.BorderColor(c.x, c.y) in {COLOR_GREEN, COLOR_RED}
  }

  predicate Marked(b: Board, checks: seq<Check>)
  {
    forall i :: 0 <= i < |checks| ==> MarkedAt(b, checks[i])
  }

  lemma {:induction false} CheckAllMarks(b: Board, checks: seq<Check>)
    requires DistinctBeads(checks)
    ensures Marked(CheckAll(b, checks), checks)
    decreases |checks|
  {
    if checks != [] {
      var front := checks[..|checks| - 1];
      var last := checks[|checks| - 1];
      var m := CheckAll(b, front);
      CheckAllMarks(b, front);
      var r := CheckAll(b, checks);
      assert r == BorderCheck(m, last.x, last.y, last.want);
      forall i | 0 <= i < |checks|
        ensures MarkedAt(r, checks[i])
      {
        if i < |checks| - 1 {
          assert front[i] == checks[i];
          IdxInjective(last.x, last.y, checks[i].x, checks[i].y);
        }
      }
    }
  }

  /** Beads of the level-5 mask among rows 0..n-1 of column x. */
  function MaskInColumn(x: int, n: int): nat
    requires 0 <= n <= 10
  {
    if n == 0 then 0 else MaskInColumn(x, n - 1) + (if Level5Blank(x, n - 1) then 1 else 0)
  }

  /** How many beads of each column the mask holds. */
  const COLUMN_MASK: seq<nat> := [8, 8, 6, 6, 8, 8, 6, 6, 8, 8]

  lemma MaskColumn(x: Coord)
    ensures MaskInColumn(x, 10) == COLUMN_MASK[x]
  {
    if x < 5 { MaskLeftColumn(x); } else { MaskRightColumn(x); }
  }

  lemma MaskLeftColumn(x: Coord)
    requires x < 5
    ensures MaskInColumn(x, 10) == COLUMN_MASK[x]
  {
    if x == 0 { assert MaskInColumn(0, 10) == 8; }
    else if x == 1 { assert MaskInColumn(1, 10) == 8; }
    else if x == 2 { assert MaskInColumn(2, 10) == 6; }
    else if x == 3 { assert MaskInColumn(3, 10) == 6; }
    else { assert MaskInColumn(4, 10) == 8; }
  }

  lemma MaskRightColumn(x: Coord)
    requires 5 <= x
    ensures MaskInColumn(x, 10) == COLUMN_MASK[x]
  {
    if x == 5 { assert MaskInColumn(5, 10) == 8; }
    else if x == 6 { assert MaskInColumn(6, 10) == 6; }
    else if x == 7 { assert MaskInColumn(7, 10) == 6; }
    else if x == 8 { assert MaskInColumn(8, 10) == 8; }
    else { assert MaskInColumn(9, 10) == 8; }
  }

  /** Beads of the mask in columns 0..m-1; 72 in all. */
  function MaskBefore(m: int): nat
    requires 0 <= m <= 10
  {
    if m == 0 then 0 else MaskBefore(m - 1) + COLUMN_MASK[m - 1]
  }

  /** Every mask bead among rows 0..n-1 of column x is white. */
  predicate ColumnWhite(b: Board, x: Coord, n: int)
    requires 0 <= n <= 10
  {
    n == 0 || (ColumnWhite(b, x, n - 1) && (Level5Blank(x, n - 1) ==> b.Color(x, n - 1) == COLOR_WHITE))
  }

  lemma {:induction false} BlanksInColumnCount(b: Board, x: Coord, n: int)
    requires 0 <= n <= 10
    ensures BlanksInColumn(b, x, n) <= MaskInColumn(x, n)
    ensures BlanksInColumn(b, x, n) == MaskInColumn(x, n) <==> ColumnWhite(b, x, n)
  {
    if n > 0 {
      BlanksInColumnCount(b, x, n - 1);
    }
  }

  lemma {:induction false} BlanksBeforeCount(b: Board, m: int)
    requires 0 <= m <= 10
    ensures BlanksBefore(b, m) <= MaskBefore(m)
    ensures BlanksBefore(b, m) == MaskBefore(m) <==> forall x: Coord :: x < m ==> ColumnWhite(b, x, 10)
  {
    if m > 0 {
      BlanksBeforeCount(b, m - 1);
      BlanksInColumnCount(b, m - 1, 10);
      MaskColumn(m - 1);
      if forall x: Coord :: x < m ==> ColumnWhite(b, x, 10) {
        assert ColumnWhite(b, m - 1, 10);
      }
    }
  }

  lemma {:induction false} ColumnWhiteMeans(b: Board, x: Coord, n: int)
    requires 0 <= n <= 10
    ensures ColumnWhite(b, x, n) <==> forall y :: 0 <= y < n && Level5Blank(x, y) ==> b.Color(x, y) == COLOR_WHITE
  {
    if n > 0 {
      ColumnWhiteMeans(b, x, n - 1);
    }
  }

  lemma MaskTotal()
    ensures MaskBefore(10) == LEVEL5_BLANKS
  {
  }

  /** The level-5 count reaches 72 exactly when every mask bead is white. */
  lemma CountBlanksMeans(b: Board)
    ensures CountBlanks(b) == LEVEL5_BLANKS <==>
      forall x, y :: InPlay(x, y) && Level5Blank(x, y) ==> b.Color(x, y) == COLOR_WHITE
  {
    BlanksBeforeCount(b, 10);
    MaskTotal();
    if forall x, y :: InPlay(x, y) && Level5Blank(x, y) ==> b.Color(x, y) == COLOR_WHITE {
      forall x: Coord
        ensures ColumnWhite(b, x, 10)
      {
        ColumnWhiteMeans(b, x, 10);
      }
    }
    if CountBlanks(b) == LEVEL5_BLANKS {
      forall x, y | InPlay(x, y) && Level5Blank(x, y)
        ensures b.Color(x, y) == COLOR_WHITE
      {
        ColumnWhiteMeans(b, x, 10);
      }
    }
  }

  /** A level is solved when every bead it judges has its wanted colour and, on level 5,
      every mask bead is white. */
  ghost predicate Solved(level: int, b: Board)
  {
    (1 <= level <= 3 && Passes(b, RowChecks(level))) ||
    (level == 4 && Passes(b, Level4Checks())) ||
    (level == 5 && Passes(b, Level5Answers()) &&
     forall x, y :: InPlay(x, y) && Level5Blank(x, y) ==> b.Color(x, y) == COLOR_WHITE)
  }

  /** Checking a level moves on to the next one exactly when it is solved; otherwise only
      borders change. Levels other than 1..5 are never judged. */
  lemma CheckLevelOutcome(p: Puzzle, level: int)
    ensures Solved(level, p.board) ==> CheckLevel(p, level) == Correct(p)
    ensures !Solved(level, p.board) ==>
      CheckLevel(p, level).level == p.level && CheckLevel(p, level).brush == p.brush &&
      CheckLevel(p, level).draw == p.draw &&
      CheckLevel(p, level).board.color == p.board.color && CheckLevel(p, level).board.data == p.board.data
    ensures !(1 <= level <= 5) ==> CheckLevel(p, level) == p
  {
    var b := p.board;
    CountBlanksMeans(b);
    if 1 <= level <= 3 {
      CheckAllKeepsPicture(b, RowChecks(level));
    } else if level == 4 {
      CheckAllKeepsPicture(CheckBlock(b), Level4Checks()[..5]);
    } else if level == 5 {
      CheckAllKeepsPicture(CheckUnfixed(b), Level5Answers());
    }
  }

  lemma RowChecksDistinct(level: int)
    requires 1 <= level <= 3
    ensures DistinctBeads(RowChecks(level))
  {
  }

  /** A wrong answer on levels 1 to 3 marks each judged bead and no other. */
  lemma RowLevelWrongMarks(p: Puzzle, level: int)
    requires 1 <= level <= 3 && !Passes(p.board, RowChecks(level))
    ensures Marked(CheckLevel(p, level).board, RowChecks(level))
    ensures forall x, y :: InGrid(x, y) && !Judged(RowChecks(level), x, y) ==>
      CheckLevel(p, level).board.Border(x, y) == p.board.Border(x, y) &&
      CheckLevel(p, level).board.BorderColor(x, y) == p.board.BorderColor(x, y)
  {
    RowChecksDistinct(level);
    CheckAllMarks(p.board, RowChecks(level));
    forall x, y | InGrid(x, y) && !Judged(RowChecks(level), x, y)
      ensures CheckAll(p.board, RowChecks(level)).Border(x, y) == p.board.Border(x, y)
      ensures CheckAll(p.board, RowChecks(level)).BorderColor(x, y) == p.board.BorderColor(x, y)
    {
      CheckAllOnlyJudged(p.board, RowChecks(level), x, y);
    }
  }

  /** The seventeen judged beads of level 4 are distinct, none is a starting bead of
      column 9, all lie in the right block, and the last twelve must be white. */
  lemma Level4ChecksShape()
    ensures DistinctBeads(Level4Checks())
    ensures forall i :: 0 <= i < |Level4Checks()| ==> Level4Checks()[i].x != 9 || Level4Checks()[i].y == 4
    ensures forall i :: 0 <= i < |Level4Checks()| ==> 5 <= Level4Checks()[i].x && 3 <= Level4Checks()[i].y < 7
    ensures forall i :: 5 <= i < |Level4Checks()| ==> Level4Checks()[i].want == COLOR_WHITE
  {
    Level4ChecksDistinct();
  }

  lemma Level4ChecksDistinct()
    ensures DistinctBeads(Level4Checks())
  {
    DistinctBeadsBySlot(Level4Checks(), Level4Slot);
  }

  /** Where each judged bead of level 4 sits in `Level4Checks`, by its grid index. */
  function Level4Slot(x: int, y: int): int
  {
    var k := 10 * y + x;
    if k == 55 then 0 else if k == 36 then 1 else if k == 46 then 2 else if k == 37 then 3
    else if k == 57 then 4 else if k == 35 then 5 else if k == 45 then 6 else if k == 65 then 7
    else if k == 56 then 8 else if k == 66 then 9 else if k == 47 then 10 else if k == 67 then 11
    else if k == 38 then 12 else if k == 48 then 13 else if k == 58 then 14 else if k == 68 then 15
    else if k == 49 then 16 else -1
  }

  /** The block sweep marks each bead of the right block against white. */
  lemma CheckBlockMarks(b: Board, c: Check)
    requires c.want == COLOR_WHITE && 5 <= c.x && 3 <= c.y < 7
    ensures MarkedAt(CheckBlock(b), c) && CheckBlock(b).color == b.color
  {
    var i := Idx(c.x, c.y);
    ColRow(c.x, c.y);
    assert InRightBlock(i);
    assert CheckBlock(b).borderColor[i] == Verdict(b.color[i], COLOR_WHITE);
    assert CheckBlock(b).border[i] == CHECK_BORDER;
  }

  /** Unmarking the starting beads leaves every other bead's mark alone. */
  lemma UnmarkStartsKeepsMark(m: Board, c: Check)
    requires MarkedAt(m, c) && (c.x != 9 || c.y == 4)
    ensures MarkedAt(UnmarkStarts(m), c)
  {
    IdxInjective(c.x, c.y, 9, 3);
    IdxInjective(c.x, c.y, 9, 5);
    IdxInjective(c.x, c.y, 9, 6);
  }

  /** Beads judged by the block sweep and then by their own colours are all marked,
      whichever comes last deciding. */
  lemma BlockThenOwnMarks(b: Board, checks: seq<Check>, n: nat)
    requires n <= |checks| && DistinctBeads(checks)
    requires forall i :: 0 <= i < |checks| ==> checks[i].x != 9 || checks[i].y == 4
    requires forall i :: n <= i < |checks| ==> checks[i].want == COLOR_WHITE && 5 <= checks[i].x && 3 <= checks[i].y < 7
    ensures Marked(UnmarkStarts(CheckAll(CheckBlock(b), checks[..n])), checks)
  {
    var block := CheckBlock(b);
    var m := CheckAll(block, checks[..n]);
    CheckAllMarks(block, checks[..n]);
    CheckAllKeepsPicture(block, checks[..n]);
    forall i | 0 <= i < |checks|
      ensures MarkedAt(UnmarkStarts(m), checks[i])
    {
      var c := checks[i];
      if i < n {
        assert checks[..n][i] == c;
      } else {
        CheckBlockMarks(b, c);
        CheckAllOnlyJudged(block, checks[..n], c.x, c.y);
      }
      UnmarkStartsKeepsMark(m, c);
    }
  }

  /** A wrong answer on level 4 marks all seventeen judged beads, each against the colour
      the level is solved with, and leaves the three starting beads of column 9 with
      default borders. */
  lemma Level4WrongMarks(p: Puzzle)
    requires !Passes(p.board, Level4Checks())
    ensures Marked(CheckLevel(p, 4).board, Level4Checks())
    ensures CheckLevel(p, 4).board.Border(9, 3) == DEFAULT_BORDER_WIDTH && CheckLevel(p, 4).board.BorderColor(9, 3) == DEFAULT_BORDER_COLOR
    ensures CheckLevel(p, 4).board.Border(9, 5) == DEFAULT_BORDER_WIDTH && CheckLevel(p, 4).board.BorderColor(9, 5) == DEFAULT_BORDER_COLOR
    ensures CheckLevel(p, 4).board.Border(9, 6) == DEFAULT_BORDER_WIDTH && CheckLevel(p, 4).board.BorderColor(9, 6) == DEFAULT_BORDER_COLOR
  {
    Level4ChecksShape();
    BlockThenOwnMarks(p.board, Level4Checks(), 5);
  }

  lemma Level5AnswersDistinct()
    ensures DistinctBeads(Level5Answers())
  {
  }

  /** The level-5 sweep marks every canvas bead not tagged 1 against white. */
  lemma CheckUnfixedMarks(b: Board, x: Coord, y: Coord)
    requires b.Data(x, y) != FIXED
    ensures MarkedAt(CheckUnfixed(b), Check(x, y, COLOR_WHITE)) && CheckUnfixed(b).color == b.color
    ensures CheckUnfixed(b).data == b.data
  {
  }

  /** A wrong answer on level 5 marks the eleven answers against their colours and every
      other bead not tagged 1 against white. */
  lemma Level5WrongMarks(p: Puzzle)
    requires !Level5Solved(p.board)
    ensures Marked(CheckLevel(p, 5).board, Level5Answers())
    ensures forall x: Coord, y: Coord :: p.board.Data(x, y) != FIXED && !Judged(Level5Answers(), x, y) ==>
      MarkedAt(CheckLevel(p, 5).board, Check(x, y, COLOR_WHITE))
  {
    var sweep := CheckUnfixed(p.board);
    Level5AnswersDistinct();
    CheckAllMarks(sweep, Level5Answers());
    CheckAllKeepsPicture(sweep, Level5Answers());
    forall x: Coord, y: Coord | p.board.Data(x, y) != FIXED && !Judged(Level5Answers(), x, y)
      ensures MarkedAt(CheckLevel(p, 5).board, Check(x, y, COLOR_WHITE))
    {
      CheckUnfixedMarks(p.board, x, y);
      CheckAllOnlyJudged(sweep, Level5Answers(), x, y);
    }
  }

  /** Laying out a level only ever writes the canvas. */
  lemma InitLevelKeepsBar(b: Board, level: int)
    ensures BarKept(InitLevel(b, level), b)
  {
    var base := InitBase(b);
    assert BarKept(base, b);
    if 1 <= level <= 3 {
      PutAllKeepsBar(base, RowCells(level));
    } else if level == 4 {
      PutAllKeepsBar(SymmetryRows(base), Level4Cells());
      BarKeptTransitive(InitLevel(b, level), SymmetryRows(base), base);
    } else if level == 5 {
      PutAllKeepsBar(BlankCanvas(base), Level5Cells());
      BarKeptTransitive(InitLevel(b, level), BlankCanvas(base), base);
    }
  }

  /** The beads a level judges: its answers and, on level 5, the mask; on the free-drawing
      level, every bead. */
  ghost predicate Judges(level: int, x: int, y: int)
  {
    (1 <= level <= 3 && Judged(RowChecks(level), x, y)) ||
    (level == 4 && Judged(Level4Checks(), x, y)) ||
    (level == 5 && (Judged(Level5Answers(), x, y) || Level5Blank(x, y))) ||
    level == FREE_DRAW
  }

  lemma InitBaseAt(b: Board, x: Coord, y: Coord)
    ensures InitBase(b).Data(x, y) == FIXED && InitBase(b).Color(x, y) == COLOR_GRAY
  {
  }

  /** Every right-block bead but the three starting beads is judged on level 4. */
  lemma Level4Judges(x: Coord, y: Coord)
    requires 5 <= x && 3 <= y < 7 && (x != 9 || y == 4)
    ensures Judged(Level4Checks(), x, y)
  {
    var checks := Level4Checks();
    var i :=
      if y == 3 then (if x == 5 then 5 else if x == 6 then 1 else if x == 7 then 3 else 12)
      else if y == 4 then (if x == 5 then 6 else if x == 6 then 2 else if x == 7 then 10 else if x == 8 then 13 else 16)
      else if y == 5 then (if x == 5 then 0 else if x == 6 then 8 else if x == 7 then 4 else 14)
      else (if x == 5 then 7 else if x == 6 then 9 else if x == 7 then 11 else 15);
    assert checks[i].x == x && checks[i].y == y;
  }

  lemma SymmetryRowsAt(b: Board, x: Coord, y: Coord)
    ensures SymmetryRows(InitBase(b)).Data(x, y) == (if 3 <= y < 7 && 5 <= x then OPEN else FIXED)
    ensures 3 <= y < 7 ==> SymmetryRows(InitBase(b)).Color(x, y) == COLOR_WHITE
  {
    ColRow(x, y);
  }

  lemma Level4CellsDistinct()
    ensures DistinctCells(Level4Cells())
    ensures forall j :: 0 <= j < |Level4Cells()| ==> Level4Cells()[j].x < 5 || Level4Cells()[j].y != 4
  {
  }

  lemma Level4Opens(b: Board, x: Coord, y: Coord)
    ensures OpensJudged(InitLevel(b, 4), Judged(Level4Checks(), x, y), x, y)
  {
    var cells := Level4Cells();
    if Unwritten(cells, x, y) {
      Level4OpensUnwritten(b, x, y);
    } else {
      var j :| 0 <= j < |cells| && cells[j].x == x && cells[j].y == y;
      Level4OpensWritten(b, j);
    }
  }

  lemma Level4OpensUnwritten(b: Board, x: Coord, y: Coord)
    requires Unwritten(Level4Cells(), x, y)
    ensures OpensJudged(InitLevel(b, 4), Judged(Level4Checks(), x, y), x, y)
  {
    Level4ChecksShape();
    SymmetryRowsAt(b, x, y);
    PutAllUnwritten(SymmetryRows(InitBase(b)), Level4Cells(), x, y);
    if 5 <= x && 3 <= y < 7 {
      Level4Judges(x, y);
    }
  }

  lemma Level4OpensWritten(b: Board, j: int)
    requires 0 <= j < |Level4Cells()|
    ensures OpensJudged(InitLevel(b, 4), Judged(Level4Checks(), Level4Cells()[j].x, Level4Cells()[j].y),
                        Level4Cells()[j].x, Level4Cells()[j].y)
  {
    Level4ChecksShape();
    Level4CellsDistinct();
    PutAllDistinct(SymmetryRows(InitBase(b)), Level4Cells(), j);
  }

  /** Level 4 asks for the mirror image of the left half: every judged bead wants the
      colour the layout gives the bead opposite it across the vertical axis. */
  lemma Level4MirrorAt(b: Board, i: int)
    requires 0 <= i < |Level4Checks()|
    ensures var c := Level4Checks()[i];
      c.want == InitLevel(b, 4).Color(9 - c.x, c.y)
  {
    var c := Level4Checks()[i];
    var base := SymmetryRows(InitBase(b));
    if i < 5 {
      var k := [7, 5, 6, 3, 4][i];
      Level4CellsDistinct();
      PutAllDistinct(base, Level4Cells(), k);
    } else {
      Level4WhitesMirrorBlank(i);
      SymmetryRowsAt(b, 9 - c.x, c.y);
      PutAllUnwritten(base, Level4Cells(), 9 - c.x, c.y);
    }
  }

  /** Opposite each bead that must stay white lies no level bead. */
  lemma Level4WhitesMirrorBlank(i: int)
    requires 5 <= i < |Level4Checks()|
    ensures var c := Level4Checks()[i];
      c.want == COLOR_WHITE && Unwritten(Level4Cells(), 9 - c.x, c.y)
  {
  }

  /** The three starting beads of column 9 already match the beads opposite them. */
  lemma Level4StartsMirrored(b: Board, y: Coord)
    requires 3 <= y < 7
    ensures InitLevel(b, 4).Color(9, y) == InitLevel(b, 4).Color(0, y)
  {
    var base := SymmetryRows(InitBase(b));
    Level4CellsDistinct();
    if y == 4 {
      SymmetryRowsAt(b, 9, 4);
      SymmetryRowsAt(b, 0, 4);
      PutAllUnwritten(base, Level4Cells(), 9, 4);
      PutAllUnwritten(base, Level4Cells(), 0, 4);
    } else {
      var k := if y == 3 then 0 else if y == 5 then 1 else 2;
      PutAllDistinct(base, Level4Cells(), k);
      PutAllDistinct(base, Level4Cells(), k + 8);
    }
  }

  lemma BlankCanvasAt(b: Board, x: Coord, y: Coord)
    ensures BlankCanvas(InitBase(b)).Data(x, y) == OPEN && BlankCanvas(InitBase(b)).Color(x, y) == COLOR_WHITE
  {
  }

  /** Level 5's level beads are distinct, and none is in the mask or among the answers. */
  lemma Level5CellsDistinct()
    ensures DistinctCells(Level5Cells())
  {
    DistinctBySlot(Level5Cells(), Level5Slot);
  }

  /** Where each level bead of level 5 sits in `Level5Cells`, by its grid index. */
  function Level5Slot(x: int, y: int): int
  {
    var k := 10 * y + x;
    if k == 0 then 0 else if k == 22 then 1 else if k == 13 then 2 else if k == 34 then 3
    else if k == 46 then 4 else if k == 27 then 5 else if k == 38 then 6 else if k == 9 then 7
    else if k == 65 then 8 else if k == 86 then 9 else if k == 67 then 10 else if k == 68 then 11
    else if k == 99 then 12 else if k == 61 then 13 else if k == 72 then 14 else if k == 53 then 15
    else if k == 83 then 16 else -1
  }

  lemma Level5CellsOffMask()
    ensures forall j :: 0 <= j < |Level5Cells()| ==> !Level5Blank(Level5Cells()[j].x, Level5Cells()[j].y)
  {
  }

  lemma Level5CellsUnjudged()
    ensures forall j :: 0 <= j < |Level5Cells()| ==> !Judged(Level5Answers(), Level5Cells()[j].x, Level5Cells()[j].y)
  {
  }

  /** Off the mask, a bead no level-5 cell writes is one of the answers. */
  lemma Level5Judges(x: Coord, y: Coord)
    requires !Level5Blank(x, y) && Unwritten(Level5Cells(), x, y)
    ensures Judged(Level5Answers(), x, y)
  {
    var answers := Level5Answers();
    var cells := Level5Cells();
    // The level beads off the mask, row by row; what is left are the answers.
    assert cells[0].x == 0 && cells[7].x == 9 && cells[12].y == 9 && cells[2].y == 1;
    assert cells[16].y == 8 && cells[9].y == 8 && cells[1].y == 2 && cells[5].y == 2;
    assert cells[14].y == 7 && cells[3].y == 3 && cells[6].y == 3 && cells[13].y == 6;
    assert cells[8].y == 6 && cells[10].y == 6 && cells[11].y == 6 && cells[4].y == 4 && cells[15].y == 5;
    var i :=
      if y == 1 then 4 else if y == 9 then 8 else if y == 7 then 7
      else if y == 4 then 2 else if y == 5 then 6
      else if y == 3 then (if x == 1 then 0 else if x == 2 then 1 else if x == 5 then 3 else 5)
      else (if x == 2 then 9 else 10);
    assert answers[i].x == x && answers[i].y == y;
  }

  lemma Level5Opens(b: Board, x: Coord, y: Coord)
    ensures OpensJudged(InitLevel(b, 5), Judged(Level5Answers(), x, y) || Level5Blank(x, y), x, y)
  {
    var cells := Level5Cells();
    if Unwritten(cells, x, y) {
      Level5OpensUnwritten(b, x, y);
    } else {
      var j :| 0 <= j < |cells| && cells[j].x == x && cells[j].y == y;
      Level5OpensWritten(b, j);
    }
  }

  lemma Level5OpensUnwritten(b: Board, x: Coord, y: Coord)
    requires Unwritten(Level5Cells(), x, y)
    ensures OpensJudged(InitLevel(b, 5), Judged(Level5Answers(), x, y) || Level5Blank(x, y), x, y)
  {
    BlankCanvasAt(b, x, y);
    PutAllUnwritten(BlankCanvas(InitBase(b)), Level5Cells(), x, y);
    if !Level5Blank(x, y) {
      Level5Judges(x, y);
    }
  }

  lemma Level5OpensWritten(b: Board, j: int)
    requires 0 <= j < |Level5Cells()|
    ensures var c := Level5Cells()[j];
      OpensJudged(InitLevel(b, 5), Judged(Level5Answers(), c.x, c.y) || Level5Blank(c.x, c.y), c.x, c.y)
  {
    Level5CellsDistinct();
    Level5CellsOffMask();
    Level5CellsUnjudged();
    PutAllDistinct(BlankCanvas(InitBase(b)), Level5Cells(), j);
  }

  /** Each level, laid out, leaves paintable exactly the beads it judges, all of them
      white, and tags every other canvas bead 1: every level can be solved, and no bead
      the player may paint goes unjudged. */
  lemma InitLevelOpens(b: Board, level: int, x: Coord, y: Coord)
    requires 1 <= level <= FREE_DRAW
    ensures OpensJudged(InitLevel(b, level), Judges(level, x, y), x, y)
  {
    if level <= 3 {
      InitBaseAt(b, x, y);
      RowLevelOpens(InitBase(b), level, x, y);
    } else if level == 4 {
      Level4Opens(b, x, y);
    } else if level == 5 {
      Level5Opens(b, x, y);
    } else {
      BlankCanvasAt(b, x, y);
    }
  }

  /** The puzzle starts on level 1 with the palette painted and a white brush. */
  lemma InitialInv()
    ensures Inv(Initial()) && Initial().level == 1 && !Initial().draw
  {
    var f := Furnished();
    PaintPaletteIntact(FreshBoard());
    assert PaletteIntact(f);
    InitLevelKeepsBar(f, 1);
  }

  /** Checking a level keeps the invariant: a solved level below the last moves on by
      one and lays the next level out without touching the palette. */
  lemma CheckLevelKeepsInv(p: Puzzle)
    requires Inv(p)
    ensures Inv(CheckLevel(p, p.level))
    ensures CheckLevel(p, p.level).level in {p.level, p.level + 1}
  {
    CheckLevelOutcome(p, p.level);
    if Solved(p.level, p.board) {
      InitLevelKeepsBar(p.board, p.level + 1);
    }
  }

  /** Touching any bead keeps the invariant. */
  lemma TouchKeepsInv(p: Puzzle, x: Coord, y: int)
    requires Inv(p) && InGrid(x, y)
    ensures Inv(Touch(p, x, y)) && Touch(p, x, y).draw
  {
    if y > 9 {
      PaletteColorIn(p.board, x);
      var picked := p.(draw := true, brush := p.board.Color(x, y));
      if x == 8 {
        ClearCanvasSpec(p.board);
      } else if x == 9 {
        CheckLevelKeepsInv(picked);
      }
    } else {
      WriteKeepsBar(p.board, x, y, p.brush);
    }
  }

  /** Entering a bead while dragging, and releasing, keep the invariant. */
  lemma EnterKeepsInv(p: Puzzle, x: Coord, y: int)
    requires Inv(p) && InGrid(x, y)
    ensures Inv(Enter(p, x, y)) && Inv(Release(p))
  {
    if p.draw && y < 10 {
      WriteKeepsBar(p.board, x, y, p.brush);
    }
  }
}
