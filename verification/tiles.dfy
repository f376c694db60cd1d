/** Tile-world vocabulary shared by the two adventure games (Dev7 and Dev9): the
    meaning of the bead `data` tag, the bead helpers both files define with identical
    bodies, and room layouts written as lists of placements. */
module Tiles {
  import opened Beads

  /** The `data` tag of a play-area bead. */
  const NONE := 0
  const WALL := 1
  const DOOR := 2
  const KEY := 3
  const NPC := 4
  const ICE := 5
  const CRACKING := 6
  const CHEESE := 7
  const COLOR_TILE := 8

  /** Ice shades and the colour of room-1 walls (also broken ice). */
  const ICE_COLOR := 0xA4DCFF
  const CRACKING_COLOR := 0x5CA6FF
  const WALL_ICE_COLOR := 0x7699FF

  /** Border widths of doors and colour tiles. */
  const DOOR_BORDER := 5
  const TILE_BORDER := 3

  /** Arrow-key codes delivered to `PS.keyDown`. */
  const KEY_ARROW_LEFT := 1005
  const KEY_ARROW_UP := 1006
  const KEY_ARROW_RIGHT := 1007
  const KEY_ARROW_DOWN := 1008

  /** The one-step displacement an arrow key gives; any other key gives none. */
  function Step(key: int): (d: (int, int))
    ensures -1 <= d.0 <= 1 && -1 <= d.1 <= 1
    ensures d.0 == 0 || d.1 == 0
    ensures d != (0, 0) <==> key in {KEY_ARROW_LEFT, KEY_ARROW_UP, KEY_ARROW_RIGHT, KEY_ARROW_DOWN}
  {
    if key == KEY_ARROW_UP then (0, -1)
    else if key == KEY_ARROW_DOWN then (0, 1)
    else if key == KEY_ARROW_RIGHT then (1, 0)
    else if key == KEY_ARROW_LEFT then (-1, 0)
    else (0, 0)
  }

  /** `PS.setLevelBead`: a wall of the given colour. */
  function LevelBead(b: Board, x: Coord, y: Coord, c: int): Board
  {
    b.WithColor(x, y, c).WithData(x, y, WALL)
  }

  /** `PS.setLevelDoor`: a door, whose colour is carried by its border. */
  function LevelDoor(b: Board, x: Coord, y: Coord, c: int): Board
  {
    b.WithBorder(x, y, DOOR_BORDER).WithBorderColor(x, y, c).WithData(x, y, DOOR)
  }

  /** `PS.setLevelKey`: a key, whose colour is the bead colour. */
  function LevelKey(b: Board, x: Coord, y: Coord, c: int): Board
  {
    b.WithColor(x, y, c).WithData(x, y, KEY)
  }

  /** `PS.setIce`: 0 freezes, 1 cracks, 2 breaks into a wall; anything else does nothing. */
  function IceAt(b: Board, x: Coord, y: Coord, frozen: int): Board
  {
    if frozen == 0 then b.WithColor(x, y, ICE_COLOR).WithData(x, y, ICE)
    else if frozen == 1 then b.WithColor(x, y, CRACKING_COLOR).WithData(x, y, CRACKING)
    else if frozen == 2 then LevelBead(b, x, y, WALL_ICE_COLOR)
    else b
  }

  /** One authored write of a room layout. */
  datatype Placement =
    | Wall(x: Coord, y: Coord, c: int)        // PS.setLevelBead
    | Door(x: Coord, y: Coord, c: int)        // PS.setLevelDoor
    | Key(x: Coord, y: Coord, c: int)         // PS.setLevelKey
    | Ice(x: Coord, y: Coord, frozen: int)    // PS.setIce
    | Npc(x: Coord, y: Coord, c: int)         // PS.setNPC
    | Cheese(x: Coord, y: Coord)              // PS.setCheese (Dev7)
    | ColorTile(x: Coord, y: Coord, c: int)   // PS.setColorTile (Dev7)
    | Paint(x: Coord, y: Coord, c: int)       // a bare PS.color

  function Apply(b: Board, p: Placement): Board
  {
    match p
    case Wall(x, y, c) => LevelBead(b, x, y, c)
    case Door(x, y, c) => LevelDoor(b, x, y, c)
    case Key(x, y, c) => LevelKey(b, x, y, c)
    case Ice(x, y, f) => IceAt(b, x, y, f)
    case Npc(x, y, c) => b.WithColor(x, y, c).WithData(x, y, NPC)
    case Cheese(x, y) => b.WithData(x, y, CHEESE)
    case ColorTile(x, y, c) => b.WithBorder(x, y, TILE_BORDER).WithBorderColor(x, y, c).WithData(x, y, COLOR_TILE)
    case Paint(x, y, c) => b.WithColor(x, y, c)
  }

  /** The placements applied in order. */
  function ApplyAll(b: Board, ps: seq<Placement>): Board
    decreases |ps|
  {
    if ps == [] then b else Apply(ApplyAll(b, ps[..|ps| - 1]), ps[|ps| - 1])
  }

  predicate SameBead(b: Board, c: Board, x: int, y: int)
    requires InGrid(x, y)
  {
    b.Color(x, y) == c.Color(x, y) && b.BorderColor(x, y) == c.BorderColor(x, y) &&
    b.Border(x, y) == c.Border(x, y) && b.Data(x, y) == c.Data(x, y)
  }

  /** No placement of `ps` writes bead (x, y). */
  predicate Avoids(ps: seq<Placement>, x: int, y: int)
  {
    forall i :: 0 <= i < |ps| ==> ps[i].x != x || ps[i].y != y
  }

  lemma ApplyAvoids(b: Board, p: Placement, x: int, y: int)
    requires InGrid(x, y) && (p.x != x || p.y != y)
    ensures SameBead(Apply(b, p), b, x, y)
  {
    IdxInjective(p.x, p.y, x, y);
  }

  /** A bead no placement mentions keeps all four attributes. */
  lemma {:induction false} ApplyAllAvoids(b: Board, ps: seq<Placement>, x: int, y: int)
    requires InGrid(x, y) && Avoids(ps, x, y)
    ensures SameBead(ApplyAll(b, ps), b, x, y)
    decreases |ps|
  {
    if ps != [] {
      var init := ps[..|ps| - 1];
      assert Avoids(init, x, y) by {
        forall i | 0 <= i < |init| ensures init[i].x != x || init[i].y != y {
          assert init[i] == ps[i];
        }
      }
      ApplyAllAvoids(b, init, x, y);
      ApplyAvoids(ApplyAll(b, init), ps[|ps| - 1], x, y);
    }
  }

  lemma AvoidsAppend(ps: seq<Placement>, qs: seq<Placement>, x: int, y: int)
    requires Avoids(ps, x, y) && Avoids(qs, x, y)
    ensures Avoids(ps + qs, x, y)
  {
    forall i | 0 <= i < |ps + qs| ensures (ps + qs)[i].x != x || (ps + qs)[i].y != y {
      if i >= |ps| {
        assert (ps + qs)[i] == qs[i - |ps|];
      }
    }
  }

  /** Placements after the last one that writes (x, y) leave that bead alone. */
  lemma ApplyAllThenAvoids(b: Board, ps: seq<Placement>, qs: seq<Placement>, x: int, y: int)
    requires InGrid(x, y) && Avoids(qs, x, y)
    ensures SameBead(ApplyAll(b, ps + qs), ApplyAll(b, ps), x, y)
  {
    ApplyAllAppend(b, ps, qs);
    ApplyAllAvoids(ApplyAll(b, ps), qs, x, y);
  }

  /** Placements only ever write the play area, so row 10 keeps colour and tag. */
  lemma ApplyAllKeepsRow10(b: Board, ps: seq<Placement>, x: int)
    requires 0 <= x < Width
    ensures SameBead(ApplyAll(b, ps), b, x, 10)
  {
    forall i | 0 <= i < |ps| ensures ps[i].x != x || ps[i].y != 10 { }
    ApplyAllAvoids(b, ps, x, 10);
  }

  lemma {:induction false} ApplyAllAppend(b: Board, ps: seq<Placement>, qs: seq<Placement>)
    ensures ApplyAll(b, ps + qs) == ApplyAll(ApplyAll(b, ps), qs)
    decreases |qs|
  {
    if qs == [] {
      assert ps + qs == ps;
    } else {
      assert (ps + qs)[..|ps + qs| - 1] == ps + qs[..|qs| - 1];
      ApplyAllAppend(b, ps, qs[..|qs| - 1]);
    }
  }

  lemma IceAtKeepsBar(b: Board, x: Coord, y: Coord, f: int)
    ensures BarKept(IceAt(b, x, y, f), b)
  {
    var c := if f == 0 then ICE_COLOR else if f == 1 then CRACKING_COLOR else WALL_ICE_COLOR;
    WriteKeepsBar(b, x, y, c);
    WriteKeepsBar(b.WithColor(x, y, c), x, y, if f == 0 then ICE else if f == 1 then CRACKING else WALL);
  }

  lemma ApplyAllKeepsBar(b: Board, ps: seq<Placement>)
    ensures BarKept(ApplyAll(b, ps), b)
  {
    forall x | 0 <= x < Width
      ensures ApplyAll(b, ps).Color(x, 10) == b.Color(x, 10) && ApplyAll(b, ps).Data(x, 10) == b.Data(x, 10)
    {
      ApplyAllKeepsRow10(b, ps, x);
    }
  }

  /** The condition of the nested loop that walls in room 1 (the same in Dev7 and Dev9);
      it holds exactly off row 1. */
  predicate Room1WallCell(x: int, y: int)
  {
    (x != 0 && y != 1) || (x != 1 && y != 1)
  }

  /** Every play-area bead that meets the room-1 wall condition becomes an ice-coloured wall. */
  function Room1Walls(b: Board): Board
  {
    Board(seq(Cells, i requires 0 <= i < Cells =>
                if i < 100 && Room1WallCell(Col(i), Row(i)) then WALL_ICE_COLOR else b.color[i]),
          b.borderColor, b.border,
          seq(Cells, i requires 0 <= i < Cells =>
                if i < 100 && Room1WallCell(Col(i), Row(i)) then WALL else b.data[i]))
  }

  /** `PS.setIce(x, r, 0)` for every x in [lo, hi) and every row r of `rows`, x outermost. */
  function IceSweep(lo: Coord, hi: int, rows: seq<Coord>): seq<Placement>
    requires lo <= hi <= 10
    decreases hi - lo
  {
    if hi == lo then [] else IceSweep(lo, hi - 1, rows) + IceColumn(hi - 1, rows)
  }

  function IceColumn(x: Coord, rows: seq<Coord>): seq<Placement>
  {
    seq(|rows|, k requires 0 <= k < |rows| => Ice(x, rows[k], 0))
  }

  /** A sweep only writes the columns lo .. hi - 1. */
  lemma {:induction false} IceSweepAvoids(lo: Coord, hi: int, rows: seq<Coord>, x: int, y: int)
    requires lo <= hi <= 10 && (x < lo || hi <= x)
    ensures Avoids(IceSweep(lo, hi, rows), x, y)
    decreases hi - lo
  {
    if hi != lo {
      IceSweepAvoids(lo, hi - 1, rows, x, y);
      assert Avoids(IceColumn(hi - 1, rows), x, y);
      AvoidsAppend(IceSweep(lo, hi - 1, rows), IceColumn(hi - 1, rows), x, y);
    }
  }

  /** The bead writes shared by the two adventure games. */
  method SetLevelBead(g: Grid, x: Coord, y: Coord, c: int)
    requires g.Valid()
    modifies g.color, g.data
    ensures g.Snapshot() == LevelBead(old(g.Snapshot()), x, y, c)
  {
    g.SetColor(x, y, c);
    g.SetData(x, y, WALL);
  }

  method SetLevelDoor(g: Grid, x: Coord, y: Coord, c: int)
    requires g.Valid()
    modifies g.border, g.borderColor, g.data
    ensures g.Snapshot() == LevelDoor(old(g.Snapshot()), x, y, c)
  {
    g.SetBorder(x, y, DOOR_BORDER);
    g.SetBorderColor(x, y, c);
    g.SetData(x, y, DOOR);
  }

  method SetLevelKey(g: Grid, x: Coord, y: Coord, c: int)
    requires g.Valid()
    modifies g.color, g.data
    ensures g.Snapshot() == LevelKey(old(g.Snapshot()), x, y, c)
  {
    g.SetColor(x, y, c);
    g.SetData(x, y, KEY);
  }

  /** `PS.setIce`, which also returns the level it was given. */
  method SetIce(g: Grid, x: Coord, y: Coord, frozen: int) returns (status: int)
    requires g.Valid()
    modifies g.color, g.data
    ensures g.Snapshot() == IceAt(old(g.Snapshot()), x, y, frozen)
    ensures status == frozen
  {
    if frozen == 0 {
      g.SetColor(x, y, ICE_COLOR);
      g.SetData(x, y, ICE);
    }
    if frozen == 1 {
      g.SetColor(x, y, CRACKING_COLOR);
      g.SetData(x, y, CRACKING);
    }
    if frozen == 2 {
      SetLevelBead(g, x, y, WALL_ICE_COLOR);
    }
    status := frozen;
  }

  method Place(g: Grid, p: Placement)
    requires g.Valid()
    modifies g.color, g.borderColor, g.border, g.data
    ensures g.Snapshot() == Apply(old(g.Snapshot()), p)
  {
    match p
    case Wall(x, y, c) => SetLevelBead(g, x, y, c);
    case Door(x, y, c) => SetLevelDoor(g, x, y, c);
    case Key(x, y, c) => SetLevelKey(g, x, y, c);
    case Ice(x, y, f) => var _ := SetIce(g, x, y, f);
    case Npc(x, y, c) =>
      g.SetColor(x, y, c);
      g.SetData(x, y, NPC);
    case Cheese(x, y) => g.SetData(x, y, CHEESE);
    case ColorTile(x, y, c) =>
      g.SetBorder(x, y, TILE_BORDER);
      g.SetBorderColor(x, y, c);
      g.SetData(x, y, COLOR_TILE);
    case Paint(x, y, c) => g.SetColor(x, y, c);
  }

  /** Runs the authored writes of a layout one after the other. */
  method PlaceAll(g: Grid, ps: seq<Placement>)
    requires g.Valid()
    modifies g.color, g.borderColor, g.border, g.data
    ensures g.Snapshot() == ApplyAll(old(g.Snapshot()), ps)
  {
    for i := 0 to |ps|
      invariant g.Snapshot() == ApplyAll(old(g.Snapshot()), ps[..i])
    {
      assert ps[..i + 1][..i] == ps[..i];
      Place(g, ps[i]);
    }
    assert ps[..|ps|] == ps;
  }

  /** The nested loop of room 1 that turns every bead off row 1 into a wall. */
  method PlaceRoom1Walls(g: Grid)
    requires g.Valid()
    modifies g.color, g.data
    ensures g.Snapshot() == Room1Walls(old(g.Snapshot()))
  {
    ghost var b0 := g.Snapshot();
    for x := 0 to 10
      invariant forall u, v :: InGrid(u, v) ==>
        g.color[Idx(u, v)] == (if v < 10 && u < x && Room1WallCell(u, v) then WALL_ICE_COLOR
                               else b0.color[Idx(u, v)])
      invariant forall u, v :: InGrid(u, v) ==>
        g.data[Idx(u, v)] == (if v < 10 && u < x && Room1WallCell(u, v) then WALL
                              else b0.data[Idx(u, v)])
    {
      for y := 0 to 10
        invariant forall u, v :: InGrid(u, v) ==>
          g.color[Idx(u, v)] == (if v < 10 && (u < x || (u == x && v < y)) && Room1WallCell(u, v)
                                 then WALL_ICE_COLOR else b0.color[Idx(u, v)])
        invariant forall u, v :: InGrid(u, v) ==>
          g.data[Idx(u, v)] == (if v < 10 && (u < x || (u == x && v < y)) && Room1WallCell(u, v)
                                then WALL else b0.data[Idx(u, v)])
      {
        if Room1WallCell(x, y) {
          SetLevelBead(g, x, y, WALL_ICE_COLOR);
        }
      }
    }
    forall i | 0 <= i < Cells
      ensures g.color[i] == Room1Walls(b0).color[i] && g.data[i] == Room1Walls(b0).data[i]
    {
      IdxInverse(i);
    }
    assert g.color[..] == Room1Walls(b0).color;
    assert g.data[..] == Room1Walls(b0).data;
  }

  /** Lines that build the ice room (room 1) of both adventure games, after the
      wall loop: an extra wall, the exit door, the frozen floor, and the blue key
      unless it was already collected. */
  function IceRoomLayout(blueKey: bool): seq<Placement>
  {
    [Wall(9, 1, WALL_ICE_COLOR), Door(0, 1, COLOR_WHITE)]
    + IceSweep(2, 9, [1, 5, 8])
    + IceFloor()
    + IceSweep(2, 9, [3])
    + (if blueKey then [] else [Key(9, 8, COLOR_BLUE)])
  }

  function IceFloor(): seq<Placement>
  {
    [Ice(5, 2, 0), Ice(8, 2, 0), Ice(8, 4, 0), Ice(2, 4, 0), Ice(1, 5, 0),
     Ice(1, 6, 0), Ice(1, 7, 0), Ice(1, 8, 0), Ice(3, 6, 0), Ice(3, 7, 0)]
  }

  function IceRoom(b: Board, blueKey: bool): Board
  {
    ApplyAll(Room1Walls(b), IceRoomLayout(blueKey))
  }

  lemma Room1WallsKeepsBar(b: Board)
    ensures BarKept(Room1Walls(b), b)
  {
  }

  lemma IceRoomKeepsBar(b: Board, blueKey: bool)
    ensures BarKept(IceRoom(b, blueKey), b)
  {
    Room1WallsKeepsBar(b);
    ApplyAllKeepsBar(Room1Walls(b), IceRoomLayout(blueKey));
    BarKeptTransitive(IceRoom(b, blueKey), Room1Walls(b), b);
  }

  lemma ApplyAllSnoc(b: Board, ps: seq<Placement>, p: Placement)
    ensures ApplyAll(b, ps + [p]) == Apply(ApplyAll(b, ps), p)
  {
    assert (ps + [p])[..|ps + [p]| - 1] == ps;
  }

  /** One pass of that loop: rows 1, 5 and 8 of column x. */
  method FreezeColumn158(g: Grid, x: Coord)
    requires g.Valid()
    modifies g.color, g.data
    ensures g.Snapshot() == ApplyAll(old(g.Snapshot()), IceColumn(x, [1, 5, 8]))
  {
    ghost var b0 := g.Snapshot();
    assert IceColumn(x, [1, 5, 8]) == [Ice(x, 1, 0)] + [Ice(x, 5, 0)] + [Ice(x, 8, 0)];
    var _ := SetIce(g, x, 1, 0);
    ApplyAllSnoc(b0, [], Ice(x, 1, 0));
    var _ := SetIce(g, x, 5, 0);
    ApplyAllSnoc(b0, [Ice(x, 1, 0)], Ice(x, 5, 0));
    var _ := SetIce(g, x, 8, 0);
    ApplyAllSnoc(b0, [Ice(x, 1, 0)] + [Ice(x, 5, 0)], Ice(x, 8, 0));
  }

  /** `for (let x = 2; x < 9; x++)` freezing rows 1, 5 and 8 of each column. */
  method FreezeRows158(g: Grid)
    requires g.Valid()
    modifies g.color, g.data
    ensures g.Snapshot() == ApplyAll(old(g.Snapshot()), IceSweep(2, 9, [1, 5, 8]))
  {
    ghost var b0 := g.Snapshot();
    for x := 2 to 9
      invariant g.Snapshot() == ApplyAll(b0, IceSweep(2, x, [1, 5, 8]))
    {
      FreezeColumn158(g, x);
      ApplyAllAppend(b0, IceSweep(2, x, [1, 5, 8]), IceColumn(x, [1, 5, 8]));
    }
  }

  /** `for (let x = 2; x < 9; x++)` freezing row 3. */
  method FreezeRow3(g: Grid)
    requires g.Valid()
    modifies g.color, g.data
    ensures g.Snapshot() == ApplyAll(old(g.Snapshot()), IceSweep(2, 9, [3]))
  {
    ghost var b0 := g.Snapshot();
    for x := 2 to 9
      invariant g.Snapshot() == ApplyAll(b0, IceSweep(2, x, [3]))
    {
      assert IceColumn(x, [3]) == [Ice(x, 3, 0)];
      assert IceSweep(2, x + 1, [3]) == IceSweep(2, x, [3]) + [Ice(x, 3, 0)];
      var _ := SetIce(g, x, 3, 0);
      ApplyAllSnoc(b0, IceSweep(2, x, [3]), Ice(x, 3, 0));
    }
  }

  /** Builds the ice room on an already reset play area. */
  method PlaceIceRoom(g: Grid, blueKey: bool)
    requires g.Valid()
    modifies g.color, g.borderColor, g.border, g.data
    ensures g.Snapshot() == IceRoom(old(g.Snapshot()), blueKey)
  {
    PlaceRoom1Walls(g);
    ghost var walled := g.Snapshot();
    ghost var exits := [Wall(9, 1, WALL_ICE_COLOR), Door(0, 1, COLOR_WHITE)];
    SetLevelBead(g, 9, 1, WALL_ICE_COLOR);
    SetLevelDoor(g, 0, 1, COLOR_WHITE);
    assert g.Snapshot() == ApplyAll(walled, exits) by {
      ApplyAllSnoc(walled, [], exits[0]);
      ApplyAllSnoc(walled, [exits[0]], exits[1]);
      assert [exits[0]] + [exits[1]] == exits;
    }
    ghost var done := exits;
    FreezeRows158(g);
    ApplyAllAppend(walled, done, IceSweep(2, 9, [1, 5, 8]));
    done := done + IceSweep(2, 9, [1, 5, 8]);
    PlaceAll(g, IceFloor());
    ApplyAllAppend(walled, done, IceFloor());
    done := done + IceFloor();
    FreezeRow3(g);
    ApplyAllAppend(walled, done, IceSweep(2, 9, [3]));
    done := done + IceSweep(2, 9, [3]);
    if !blueKey {
      SetLevelKey(g, 9, 8, COLOR_BLUE);
      ApplyAllSnoc(walled, done, Key(9, 8, COLOR_BLUE));
      done := done + [Key(9, 8, COLOR_BLUE)];
    }
    assert done == IceRoomLayout(blueKey);
  }

  /** The walls of the hub (room 0), the same in both games. */
  function HubWalls(): seq<Placement>
  {
    [Wall(2, 3, COLOR_BLACK), Wall(3, 3, COLOR_BLACK), Wall(4, 3, COLOR_BLACK),
     Wall(5, 3, COLOR_BLACK), Wall(6, 3, COLOR_BLACK), Wall(7, 3, COLOR_BLACK),
     Wall(2, 4, COLOR_BLACK), Wall(2, 5, COLOR_BLACK),
     Wall(2, 6, COLOR_BLACK), Wall(3, 6, COLOR_BLACK), Wall(4, 6, COLOR_BLACK),
     Wall(5, 6, COLOR_BLACK), Wall(6, 6, COLOR_BLACK), Wall(7, 6, COLOR_BLACK),
     Wall(7, 4, COLOR_BLACK)]
  }

  /** The first loop of `PS.init`: border width 0 on the play area. */
  function ZeroBorders(b: Board): Board
  {
    b.(border := seq(Cells, i requires 0 <= i < Cells => if i < 100 then 0 else b.border[i]))
  }

  /** The last loop of `PS.init`: tag 1 on all of row 10. */
  function TagInventoryBar(b: Board): Board
  {
    b.(data := seq(Cells, i requires 0 <= i < Cells => if i < 100 then b.data[i] else WALL))
  }

  /** The first loop of `PS.init`: border width 0 over the play area. */
  method ZeroBordersLoop(g: Grid)
    requires g.Valid()
    modifies g.border
    ensures g.Snapshot() == ZeroBorders(old(g.Snapshot()))
  {
    ghost var b0 := g.Snapshot();
    for x := 0 to 10
      invariant forall i :: 0 <= i < Cells ==> g.border[i] == (if Visited(i, x, 0) then 0 else b0.border[i])
    {
      for y := 0 to 10
        invariant forall i :: 0 <= i < Cells ==> g.border[i] == (if Visited(i, x, y) then 0 else b0.border[i])
      {
        var k := Idx(x, y);
        assert Col(k) == x && Row(k) == y;
        g.border[k] := 0;
      }
    }
    assert g.border[..] == ZeroBorders(b0).border;
  }

  /** The last loop of `PS.init`: tag 1 on every bead of row 10. */
  method TagInventoryBarLoop(g: Grid)
    requires g.Valid()
    modifies g.data
    ensures g.Snapshot() == TagInventoryBar(old(g.Snapshot()))
  {
    ghost var b0 := g.Snapshot();
    for x := 0 to 10
      invariant forall i :: 0 <= i < Cells ==> g.data[i] == (if 100 <= i < 100 + x then WALL else b0.data[i])
    {
      g.data[Idx(x, 10)] := WALL;
    }
    assert g.data[..] == TagInventoryBar(b0).data;
  }
}
