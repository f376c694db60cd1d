/** What the two colour-pattern drawing puzzles (Dev6 and Dev4) share: the palette, the
    state of a session, the authored cells of a level, and the two drag handlers, which
    both files define with identical bodies. Rows 0..9 are the canvas; row 10 holds the
    palette and two buttons. */
module Canvas {
  import opened Beads

  /** The light palette colours. */
  const LIGHT_RED := 0xFF8E80
  const LIGHT_ORANGE := 0xFFC07D
  const LIGHT_YELLOW := 0xFFEC82
  const LIGHT_GREEN := 0x84D87C
  const LIGHT_BLUE := 0xA6D2FF
  const LIGHT_PURPLE := 0xB4ABED
  const LIGHT_PINK := 0xFFB5EF

  /** Colours of palette beads (0, 10) .. (7, 10), as set by `PS.init`. */
  const PALETTE: seq<int> :=
    [LIGHT_RED, LIGHT_ORANGE, LIGHT_YELLOW, LIGHT_GREEN, LIGHT_BLUE, LIGHT_PURPLE, LIGHT_PINK, COLOR_WHITE]

  /** The `data` tag of a canvas bead: 0 may be painted, 1 is part of the level. */
  const OPEN := 0
  const FIXED := 1

  /** The globals `CURRENTCOLOR`, `DRAW` and `CURRENTLEVEL`, with the grid. `CURRENTCOLOR`
      starts as `PS.DEFAULT`, which paints white. */
  datatype Puzzle = Puzzle(board: Board, brush: int, draw: bool, level: int)

  /** A bead the brush may paint: on the canvas and tagged 0. */
  predicate Paintable(b: Board, x: int, y: int)
    requires InGrid(x, y)
  {
    y < PlayRows && b.Data(x, y) == OPEN
  }

  /** `PS.release`: drawing stops. */
  function Release(p: Puzzle): Puzzle
  {
    p.(draw := false)
  }

  /** `PS.enter`: while drawing, a paintable bead entered takes the brush colour. */
  function Enter(p: Puzzle, x: int, y: int): Puzzle
    requires InGrid(x, y)
  {
    if p.draw && y < 10 && p.board.Data(x, y) == OPEN then p.(board := p.board.WithColor(x, y, p.brush)) else p
  }

  /** At most bead (x, y) changes colour, and nothing else of the puzzle changes. */
  predicate PaintsAtMost(p: Puzzle, r: Puzzle, x: int, y: int)
    requires InGrid(x, y)
  {
    r.brush == p.brush && r.level == p.level &&
    r.board.data == p.board.data && r.board.border == p.board.border &&
    r.board.borderColor == p.board.borderColor &&
    (r.board == p.board || r.board == p.board.WithColor(x, y, r.board.Color(x, y)))
  }

  /** Dragging over a bead paints it with the brush exactly when drawing is on and the
      bead is paintable; nothing else changes, and a level bead or the palette row is
      never painted. After a release, entering a bead changes nothing at all. */
  lemma EnterPaintsOnlyWhileDrawing(p: Puzzle, x: int, y: int)
    requires InGrid(x, y)
    ensures PaintsAtMost(p, Enter(p, x, y), x, y) && Enter(p, x, y).draw == p.draw
    ensures Enter(p, x, y).board != p.board ==> p.draw && Paintable(p.board, x, y)
    ensures p.draw && Paintable(p.board, x, y) ==> Enter(p, x, y).board.Color(x, y) == p.brush
    ensures Enter(Release(p), x, y) == Release(p)
  {
    if p.draw && Paintable(p.board, x, y) {
      var r := Enter(p, x, y);
      assert r.board == p.board.WithColor(x, y, r.board.Color(x, y));
    }
  }

  /** One authored canvas write of a level layout. */
  datatype Cell =
    | Fixed(x: Coord, y: Coord, c: int)   // a level bead of colour c, tag 1
    | Open(x: Coord, y: Coord)            // a white bead the player must paint, tag 0

  /** The colour and the tag a cell gives its bead. */
  function Paint(cell: Cell): int { if cell.Fixed? then cell.c else DEFAULT_COLOR }
  function Tag(cell: Cell): int { if cell.Fixed? then FIXED else OPEN }

  function Put(b: Board, cell: Cell): Board
  {
    b.WithColor(cell.x, cell.y, Paint(cell)).WithData(cell.x, cell.y, Tag(cell))
  }

  /** The cells written in order. */
  function PutAll(b: Board, cells: seq<Cell>): Board
    decreases |cells|
  {
    if cells == [] then b else Put(PutAll(b, cells[..|cells| - 1]), cells[|cells| - 1])
  }

  /** No cell of the layout writes bead (x, y). */
  predicate Unwritten(cells: seq<Cell>, x: int, y: int)
  {
    forall j :: 0 <= j < |cells| ==> cells[j].x != x || cells[j].y != y
  }

  /** Cell i is the last one of the layout that writes bead (x, y). */
  predicate LastWrite(cells: seq<Cell>, i: int, x: int, y: int)
  {
    0 <= i < |cells| && cells[i].x == x && cells[i].y == y &&
    forall j :: i < j < |cells| ==> cells[j].x != x || cells[j].y != y
  }

  /** A bead no cell writes keeps its colour and tag. */
  lemma {:induction false} PutAllUnwritten(b: Board, cells: seq<Cell>, x: int, y: int)
    requires InGrid(x, y) && Unwritten(cells, x, y)
    ensures PutAll(b, cells).Color(x, y) == b.Color(x, y) && PutAll(b, cells).Data(x, y) == b.Data(x, y)
    decreases |cells|
  {
    if cells != [] {
      PutAllUnwritten(b, cells[..|cells| - 1], x, y);
      var cell := cells[|cells| - 1];
      IdxInjective(cell.x, cell.y, x, y);
    }
  }

  /** The last cell written to a bead decides its colour and tag. */
  lemma {:induction false} PutAllLastWrite(b: Board, cells: seq<Cell>, i: int, x: int, y: int)
    requires LastWrite(cells, i, x, y)
    ensures PutAll(b, cells).Color(x, y) == Paint(cells[i]) && PutAll(b, cells).Data(x, y) == Tag(cells[i])
    decreases |cells|
  {
    var cell := cells[|cells| - 1];
    if i < |cells| - 1 {
      PutAllLastWrite(b, cells[..|cells| - 1], i, x, y);
      IdxInjective(cell.x, cell.y, x, y);
    }
  }

  /** No two cells of the layout write the same bead. */
  predicate DistinctCells(cells: seq<Cell>)
  {
    forall i, j :: 0 <= i < j < |cells| ==> cells[i].x != cells[j].x || cells[i].y != cells[j].y
  }

  /** Cells are distinct when some lookup sends each cell's bead back to its position. */
  lemma DistinctBySlot(cells: seq<Cell>, slot: (int, int) -> int)
    requires forall i :: 0 <= i < |cells| ==> slot(cells[i].x, cells[i].y) == i
    ensures DistinctCells(cells)
  {
  }

  /** In a layout that writes each bead at most once, every cell decides its bead. */
  lemma PutAllDistinct(b: Board, cells: seq<Cell>, j: int)
    requires DistinctCells(cells) && 0 <= j < |cells|
    ensures PutAll(b, cells).Color(cells[j].x, cells[j].y) == Paint(cells[j])
    ensures PutAll(b, cells).Data(cells[j].x, cells[j].y) == Tag(cells[j])
  {
    PutAllLastWrite(b, cells, j, cells[j].x, cells[j].y);
  }

  /** Layouts only write colours and tags. */
  lemma {:induction false} PutAllKeepsBorders(b: Board, cells: seq<Cell>)
    ensures PutAll(b, cells).border == b.border && PutAll(b, cells).borderColor == b.borderColor
    decreases |cells|
  {
    if cells != [] {
      PutAllKeepsBorders(b, cells[..|cells| - 1]);
    }
  }

  /** Level layouts only ever write the canvas. */
  lemma {:induction false} PutAllKeepsBar(b: Board, cells: seq<Cell>)
    ensures BarKept(PutAll(b, cells), b)
    decreases |cells|
  {
    if cells != [] {
      var front := PutAll(b, cells[..|cells| - 1]);
      PutAllKeepsBar(b, cells[..|cells| - 1]);
      var cell := cells[|cells| - 1];
      WriteKeepsBar(front, cell.x, cell.y, Paint(cell));
      var mid := front.WithColor(cell.x, cell.y, Paint(cell));
      WriteKeepsBar(mid, cell.x, cell.y, Tag(cell));
      BarKeptTransitive(Put(front, cell), mid, front);
      BarKeptTransitive(Put(front, cell), front, b);
    }
  }

  lemma PutAllSnoc(b: Board, cells: seq<Cell>, cell: Cell)
    ensures PutAll(b, cells + [cell]) == Put(PutAll(b, cells), cell)
  {
    assert (cells + [cell])[..|cells|] == cells;
  }

  /** `PS.setLevelBead` and the colour-and-tag pairs that open a bead, one cell at a time. */
  method PutCell(g: Grid, cell: Cell)
    requires g.Valid()
    modifies g.color, g.data
    ensures g.Snapshot() == Put(old(g.Snapshot()), cell)
  {
    g.SetColor(cell.x, cell.y, Paint(cell));
    g.SetData(cell.x, cell.y, Tag(cell));
  }

  method PutCells(g: Grid, cells: seq<Cell>)
    requires g.Valid()
    modifies g.color, g.data
    ensures g.Snapshot() == PutAll(old(g.Snapshot()), cells)
  {
    ghost var b0 := g.Snapshot();
    for k := 0 to |cells|
      invariant g.Snapshot() == PutAll(b0, cells[..k])
    {
      PutCell(g, cells[k]);
      PutAllSnoc(b0, cells[..k], cells[k]);
      assert cells[..k] + [cells[k]] == cells[..k + 1];
    }
    assert cells[..|cells|] == cells;
  }

  /** One bead a level judges, and the colour it must have. */
  datatype Check = Check(x: Coord, y: Coord, want: int)

  /** Every judged bead has its wanted colour. */
  predicate Passes(b: Board, checks: seq<Check>)
  {
    forall i :: 0 <= i < |checks| ==> b.Color(checks[i].x, checks[i].y) == checks[i].want
  }

  /** Bead (x, y) is one of the judged beads. */
  predicate Judged(checks: seq<Check>, x: int, y: int)
  {
    exists i :: 0 <= i < |checks| && checks[i].x == x && checks[i].y == y
  }

  /** The three one-row levels both puzzles open with: level beads on row 5 and white
      gaps to fill in. */
  function RowCells(level: int): seq<Cell>
    requires 1 <= level <= 3
  {
    if level == 1 then
      [Fixed(2, 5, LIGHT_RED), Open(3, 5), Fixed(4, 5, LIGHT_YELLOW), Fixed(5, 5, LIGHT_GREEN),
       Fixed(6, 5, LIGHT_BLUE), Fixed(7, 5, LIGHT_PURPLE)]
    else if level == 2 then
      [Fixed(1, 5, LIGHT_RED), Fixed(2, 5, LIGHT_YELLOW), Open(4, 5), Fixed(5, 5, LIGHT_YELLOW),
       Fixed(7, 5, LIGHT_RED), Open(8, 5)]
    else
      [Fixed(0, 5, LIGHT_PINK), Fixed(1, 5, LIGHT_BLUE), Fixed(2, 5, LIGHT_PURPLE), Fixed(3, 5, LIGHT_PINK),
       Open(4, 5), Fixed(5, 5, LIGHT_PURPLE), Open(6, 5), Fixed(7, 5, LIGHT_BLUE), Open(8, 5),
       Fixed(9, 5, LIGHT_PINK)]
  }

  /** What `PS.checkLevel` tests on those levels. */
  function RowChecks(level: int): seq<Check>
    requires 1 <= level <= 3
  {
    if level == 1 then [Check(3, 5, LIGHT_ORANGE)]
    else if level == 2 then [Check(4, 5, LIGHT_RED), Check(8, 5, LIGHT_YELLOW)]
    else [Check(4, 5, LIGHT_BLUE), Check(6, 5, LIGHT_PINK), Check(8, 5, LIGHT_PURPLE)]
  }

  /** A freshly laid-out bead is paintable exactly when it is judged, white when it is
      paintable, and otherwise tagged 1. */
  predicate OpensJudged(b: Board, judged: bool, x: Coord, y: Coord)
  {
    (b.Data(x, y) == OPEN <==> judged) &&
    (b.Data(x, y) == OPEN ==> b.Color(x, y) == COLOR_WHITE) &&
    (b.Data(x, y) == OPEN || b.Data(x, y) == FIXED)
  }

  /** On a canvas tagged 1, laying out a one-row level leaves paintable exactly the beads
      that level judges. */
  lemma RowLevelOpens(base: Board, level: int, x: Coord, y: Coord)
    requires 1 <= level <= 3 && base.Data(x, y) == FIXED
    ensures OpensJudged(PutAll(base, RowCells(level)), Judged(RowChecks(level), x, y), x, y)
  {
    if y != 5 {
      PutAllUnwritten(base, RowCells(level), x, y);
    } else if level == 1 {
      Level1Opens(base, x);
    } else if level == 2 {
      Level2Opens(base, x);
    } else {
      Level3Opens(base, x);
    }
  }

  lemma Level1Opens(base: Board, x: Coord)
    requires base.Data(x, 5) == FIXED
    ensures OpensJudged(PutAll(base, RowCells(1)), Judged(RowChecks(1), x, 5), x, 5)
  {
    if x < 2 || 7 < x {
      PutAllUnwritten(base, RowCells(1), x, 5);
    } else {
      PutAllLastWrite(base, RowCells(1), x - 2, x, 5);
      if x == 3 { assert RowChecks(1)[0].x == 3; }
    }
  }

  lemma Level2Opens(base: Board, x: Coord)
    requires base.Data(x, 5) == FIXED
    ensures OpensJudged(PutAll(base, RowCells(2)), Judged(RowChecks(2), x, 5), x, 5)
  {
    if x in {0, 3, 6, 9} {
      PutAllUnwritten(base, RowCells(2), x, 5);
    } else {
      var i := if x < 3 then x - 1 else if x < 6 then x - 2 else x - 3;
      PutAllLastWrite(base, RowCells(2), i, x, 5);
      if x == 4 { assert RowChecks(2)[0].x == 4; }
      if x == 8 { assert RowChecks(2)[1].x == 8; }
    }
  }

  lemma Level3Opens(base: Board, x: Coord)
    ensures OpensJudged(PutAll(base, RowCells(3)), Judged(RowChecks(3), x, 5), x, 5)
  {
    PutAllLastWrite(base, RowCells(3), x, x, 5);
    if x == 4 { assert RowChecks(3)[0].x == 4; }
    if x == 6 { assert RowChecks(3)[1].x == 6; }
    if x == 8 { assert RowChecks(3)[2].x == 8; }
  }

  /** `PS.init`'s palette: seven light colours and white on row 10, left to right. */
  function PaintPalette(b: Board): Board
  {
    b.WithColor(0, 10, LIGHT_RED).WithColor(1, 10, LIGHT_ORANGE).WithColor(2, 10, LIGHT_YELLOW)
     .WithColor(3, 10, LIGHT_GREEN).WithColor(4, 10, LIGHT_BLUE).WithColor(5, 10, LIGHT_PURPLE)
     .WithColor(6, 10, LIGHT_PINK).WithColor(7, 10, COLOR_WHITE)
  }

  /** The colour of bead (x, 10): a palette colour, or the default colour of the two
      buttons, which is what a button touch loads into the brush. */
  function PaletteColor(x: int): int
    requires 0 <= x < Width
  {
    if x < 8 then PALETTE[x] else DEFAULT_COLOR
  }

  predicate PaletteIntact(b: Board)
  {
    forall x :: 0 <= x < Width ==> b.Color(x, 10) == PaletteColor(x)
  }

  /** A row-10 bead's colour, on an intact palette, is a palette colour. */
  lemma PaletteColorIn(b: Board, x: Coord)
    requires PaletteIntact(b)
    ensures b.Color(x, 10) in PALETTE
  {
    assert PaletteColor(x) == PALETTE[if x < 8 then x else 7];
  }

  /** A fresh grid with the palette painted has every row-10 bead as `PaletteColor` says. */
  lemma PaintPaletteIntact(b: Board)
    requires b.Color(8, 10) == DEFAULT_COLOR && b.Color(9, 10) == DEFAULT_COLOR
    ensures PaletteIntact(PaintPalette(b))
  {
  }
}
