/** The Perlenspiel bead grid that all four games draw on: 10 columns by 11 rows.
    Every bead has a colour, a border colour, a border width and an integer `data`
    tag. Glyphs, alpha, audio and status text are fire-and-forget host calls that no
    game reads back, so they are not part of the state. */
module Beads {

  /** Grid dimensions set by `PS.gridSize(10, 11)` in every game. */
  const Width := 10
  const Height := 11
  const Cells := 110
  /** Rows 0..9 are the play area / canvas; row 10 is the inventory bar or palette. */
  const PlayRows := 10

  /** Perlenspiel colour constants (24-bit RGB). */
  const COLOR_BLACK := 0x000000
  const COLOR_WHITE := 0xFFFFFF
  const COLOR_GRAY := 0x808080
  const COLOR_RED := 0xFF0000
  const COLOR_ORANGE := 0xFF8000
  const COLOR_YELLOW := 0xFFFF00
  const COLOR_GREEN := 0x00FF00
  const COLOR_BLUE := 0x0000FF

  /** What `PS.DEFAULT` stands for when written to each bead attribute. */
  const DEFAULT_COLOR := COLOR_WHITE
  const DEFAULT_BORDER_WIDTH := 1
  const DEFAULT_BORDER_COLOR := COLOR_GRAY

  /** A column or row index of the 10x10 play area. */
  type Coord = n: int | 0 <= n < 10

  predicate InGrid(x: int, y: int) { 0 <= x < Width && 0 <= y < Height }

  predicate InPlay(x: int, y: int) { 0 <= x < Width && 0 <= y < PlayRows }

  /** Row-major position of bead (x, y). */
  function Idx(x: int, y: int): (i: nat)
    requires InGrid(x, y)
    ensures i < Cells
    ensures InPlay(x, y) <==> i < Width * PlayRows
  {
    10 * y + x
  }

  /** Column and row of position `i`; inverse of Idx. */
  function Col(i: int): int { i % 10 }
  function Row(i: int): int { i / 10 }

  /** Bead i of the play area has been visited by a column-by-column sweep of the play
      area once the outer loop is at column x and the inner loop at row y. */
  predicate Visited(i: int, x: int, y: int)
  {
    i < 100 && (Col(i) < x || (Col(i) == x && Row(i) < y))
  }

  /** The same for a sweep of columns x0.. and rows y0..y1-1 only. */
  predicate Swept(i: int, x0: int, y0: int, y1: int, x: int, y: int)
  {
    i < 100 && x0 <= Col(i) && y0 <= Row(i) < y1 && (Col(i) < x || (Col(i) == x && Row(i) < y))
  }

  lemma IdxInverse(i: int)
    requires 0 <= i < Cells
    ensures InGrid(Col(i), Row(i)) && Idx(Col(i), Row(i)) == i
    ensures InPlay(Col(i), Row(i)) <==> i < Width * PlayRows
  {
  }

  lemma ColRow(x: int, y: int)
    requires InGrid(x, y)
    ensures Col(Idx(x, y)) == x && Row(Idx(x, y)) == y
  {
  }

  lemma IdxInjective(x: int, y: int, u: int, v: int)
    requires InGrid(x, y) && InGrid(u, v)
    ensures Idx(x, y) == Idx(u, v) <==> x == u && y == v
  {
  }

  /** One attribute of every bead. */
  type Layer = s: seq<int> | |s| == Cells witness seq(110, _ => 0)

  /** A value snapshot of the whole grid. */
  datatype Board = Board(color: Layer, borderColor: Layer, border: Layer, data: Layer)
  {
    function Color(x: int, y: int): int requires InGrid(x, y) { color[Idx(x, y)] }
    function BorderColor(x: int, y: int): int requires InGrid(x, y) { borderColor[Idx(x, y)] }
    function Border(x: int, y: int): int requires InGrid(x, y) { border[Idx(x, y)] }
    function Data(x: int, y: int): int requires InGrid(x, y) { data[Idx(x, y)] }

    /** `PS.color(x, y, c)` */
    function WithColor(x: int, y: int, c: int): Board
      requires InGrid(x, y)
    {
      this.(color := color[Idx(x, y) := c])
    }

    /** `PS.borderColor(x, y, c)` */
    function WithBorderColor(x: int, y: int, c: int): Board
      requires InGrid(x, y)
    {
      this.(borderColor := borderColor[Idx(x, y) := c])
    }

    /** `PS.border(x, y, w)` */
    function WithBorder(x: int, y: int, w: int): Board
      requires InGrid(x, y)
    {
      this.(border := border[Idx(x, y) := w])
    }

    /** `PS.data(x, y, d)` */
    function WithData(x: int, y: int, d: int): Board
      requires InGrid(x, y)
    {
      this.(data := data[Idx(x, y) := d])
    }
  }

  /** The grid as `PS.gridSize` leaves it: every attribute at its default, data 0. */
  function FreshBoard(): Board
  {
    Board(seq(Cells, _ => DEFAULT_COLOR), seq(Cells, _ => DEFAULT_BORDER_COLOR),
          seq(Cells, _ => DEFAULT_BORDER_WIDTH), seq(Cells, _ => 0))
  }

  /** Row 10 (the inventory bar or the palette) shows the same colours and tags on both
      boards. */
  predicate BarKept(a: Board, b: Board)
  {
    forall x :: 0 <= x < Width ==> a.Color(x, 10) == b.Color(x, 10) && a.Data(x, 10) == b.Data(x, 10)
  }

  lemma BarKeptTransitive(a: Board, b: Board, c: Board)
    requires BarKept(a, b) && BarKept(b, c)
    ensures BarKept(a, c)
  {
  }

  /** A single write to the play area leaves row 10 alone. */
  lemma WriteKeepsBar(b: Board, x: int, y: int, v: int)
    requires InPlay(x, y)
    ensures BarKept(b.WithColor(x, y, v), b) && BarKept(b.WithData(x, y, v), b)
    ensures BarKept(b.WithBorder(x, y, v), b) && BarKept(b.WithBorderColor(x, y, v), b)
  {
    forall u | 0 <= u < Width ensures Idx(u, 10) != Idx(x, y) { }
  }

  /** The host's bead grid, updated in place one attribute of one bead at a time. */
  class Grid {
    const color: array<int>
    const borderColor: array<int>
    const border: array<int>
    const data: array<int>

    ghost predicate Valid()
    {
      color.Length == Cells && borderColor.Length == Cells &&
      border.Length == Cells && data.Length == Cells &&
      color != borderColor && color != border && color != data &&
      borderColor != border && borderColor != data && border != data
    }

    /** The current contents of the grid as a value. */
    function Snapshot(): Board
      reads color, borderColor, border, data
      requires Valid()
    {
      Board(color[..], borderColor[..], border[..], data[..])
    }

    constructor ()
      ensures Valid() && Snapshot() == FreshBoard()
      ensures fresh(color) && fresh(borderColor) && fresh(border) && fresh(data)
    {
      color := new int[Cells](_ => DEFAULT_COLOR);
      borderColor := new int[Cells](_ => DEFAULT_BORDER_COLOR);
      border := new int[Cells](_ => DEFAULT_BORDER_WIDTH);
      data := new int[Cells](_ => 0);
    }

    function Color(x: int, y: int): int
      reads color
      requires Valid() && InGrid(x, y)
    {
      color[Idx(x, y)]
    }

    function BorderColor(x: int, y: int): int
      reads borderColor
      requires Valid() && InGrid(x, y)
    {
      borderColor[Idx(x, y)]
    }

    function Data(x: int, y: int): int
      reads data
      requires Valid() && InGrid(x, y)
    {
      data[Idx(x, y)]
    }

    method SetColor(x: int, y: int, c: int)
      requires Valid() && InGrid(x, y)
      modifies color
      ensures Snapshot() == old(Snapshot()).WithColor(x, y, c)
    {
      color[Idx(x, y)] := c;
    }

    method SetBorderColor(x: int, y: int, c: int)
      requires Valid() && InGrid(x, y)
      modifies borderColor
      ensures Snapshot() == old(Snapshot()).WithBorderColor(x, y, c)
    {
      borderColor[Idx(x, y)] := c;
    }

    method SetBorder(x: int, y: int, w: int)
      requires Valid() && InGrid(x, y)
      modifies border
      ensures Snapshot() == old(Snapshot()).WithBorder(x, y, w)
    {
      border[Idx(x, y)] := w;
    }

    method SetData(x: int, y: int, d: int)
      requires Valid() && InGrid(x, y)
      modifies data
      ensures Snapshot() == old(Snapshot()).WithData(x, y, d)
    {
      data[Idx(x, y)] := d;
    }
  }
}
