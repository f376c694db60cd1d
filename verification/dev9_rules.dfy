/** The mouse adventure of resources/Dev9/game.js as pure state transitions: what one
    key press and one room load do to the whole game state, written in the order the
    handlers perform their reads and writes. It shares its tile vocabulary, the ice room
    and the hub walls with the rat adventure of Dev7, but not its rules: three tags are
    walkable, only green and blue keys are collected, every blue door sets
    `BLUEENTERED`, the reset loop leaves border colours alone, and there is no cheese,
    colour tile, reset button or touch handling. */
module Dev9Rules {
  import opened Beads
  import opened Tiles

  /** The 0/1 globals the handlers read or write (`REDKEY` is declared but never used). */
  datatype Flags = Flags(greenKey: bool, blueKey: bool, blueEntered: bool)

  function NoFlags(): Flags
  {
    Flags(false, false, false)
  }

  /** No flag of `f` is cleared in `g`. */
  predicate FlagsGrow(f: Flags, g: Flags)
  {
    (f.greenKey ==> g.greenKey) && (f.blueKey ==> g.blueKey) && (f.blueEntered ==> g.blueEntered)
  }

  /** The grid, the current room, the sprite (the mouse) and the flags. */
  datatype World = World(board: Board, room: int, px: Coord, py: Coord, flags: Flags)

  /** Each key flag is in step with its inventory bead. */
  predicate KeysInStep(w: World)
  {
    (w.flags.greenKey <==> w.board.Color(0, 10) == COLOR_GREEN) &&
    (w.flags.blueKey <==> w.board.Color(1, 10) == COLOR_BLUE)
  }

  /** Tags the general movement rule lets the mouse step onto. */
  predicate Walkable(tag: int)
  {
    tag == NONE || tag == ICE || tag == CRACKING
  }

  /** The colour the vacated bead is given. */
  function PrevBlockColor(w: World): int
  {
    var c0 := w.board.Color(w.px, w.py);
    var c1 := if w.room == 1 then ICE_COLOR else c0;
    if c1 == COLOR_GRAY then COLOR_WHITE else c1
  }

  /** Room 1: the bead just left is frozen back to ice by `PS.setIce` without a level, which
      returns 0; it then cracks if the target is ice. The second test asks for a status of
      1, which that call never returns. */
  function IceTrail(b: Board, px: Coord, py: Coord, tx: Coord, ty: Coord): (r: Board)
    ensures BarKept(r, b)
  {
    var status := 0;
    var b1 := IceAt(b, px, py, status);
    IceAtKeepsBar(b, px, py, 0);
    var b2 := if b1.Data(tx, ty) == ICE && status == 0 then IceAt(b1, px, py, 1) else b1;
    IceAtKeepsBar(b1, px, py, 1);
    BarKeptTransitive(b2, b1, b);
    var r := if b2.Data(tx, ty) == CRACKING && status == 1 then LevelBead(b2, px, py, WALL_ICE_COLOR) else b2;
    WriteKeepsBar(b2, px, py, WALL_ICE_COLOR);
    WriteKeepsBar(b2.WithColor(px, py, WALL_ICE_COLOR), px, py, WALL);
    BarKeptTransitive(r, b2, b);
    r
  }

  /** The "general movement" block: the mouse steps onto a walkable target or stays. The
      vacated bead is recoloured outside room 1 and refrozen inside it. */
  function GeneralMove(w: World, tx: int, ty: int, prevColor: int): (r: World)
    ensures r.room == w.room && r.flags == w.flags && BarKept(r.board, w.board)
    ensures (r.px, r.py) == if InPlay(tx, ty) && Walkable(w.board.Data(tx, ty)) then (tx, ty) else (w.px, w.py)
  {
    if InPlay(tx, ty) && Walkable(w.board.Data(tx, ty)) then
      var b1 := if w.room != 1 then w.board.WithColor(w.px, w.py, prevColor) else w.board;
      WriteKeepsBar(w.board, w.px, w.py, prevColor);
      var b2 := if w.room == 1 then IceTrail(b1, w.px, w.py, tx, ty) else b1;
      BarKeptTransitive(b2, b1, w.board);
      w.(board := b2, px := tx, py := ty)
    else w
  }

  /** `PS.collectKey`: a green or blue key lights its inventory bead, sets its flag and
      clears the key's tag; any other colour (the red key included) does nothing. */
  function CollectKey(w: World, x: Coord, y: Coord, keyColor: int): (r: World)
    ensures r.room == w.room && r.px == w.px && r.py == w.py
    ensures r.flags == w.flags.(greenKey := w.flags.greenKey || keyColor == COLOR_GREEN,
                                blueKey := w.flags.blueKey || keyColor == COLOR_BLUE)
    ensures r.board.Data(x, y) == if keyColor in {COLOR_GREEN, COLOR_BLUE} then NONE else w.board.Data(x, y)
    ensures r.board.Color(0, 10) == if keyColor == COLOR_GREEN then COLOR_GREEN else w.board.Color(0, 10)
    ensures r.board.Color(1, 10) == if keyColor == COLOR_BLUE then COLOR_BLUE else w.board.Color(1, 10)
    ensures keyColor !in {COLOR_GREEN, COLOR_BLUE} ==> r == w
    ensures KeysInStep(w) ==> KeysInStep(r)
  {
    if keyColor == COLOR_GREEN then
      w.(board := w.board.WithColor(0, 10, COLOR_GREEN).WithData(x, y, NONE), flags := w.flags.(greenKey := true))
    else if keyColor == COLOR_BLUE then
      w.(board := w.board.WithColor(1, 10, COLOR_BLUE).WithData(x, y, NONE), flags := w.flags.(blueKey := true))
    else w
  }

  /** The "collect key" block: the mouse moves onto any key, whether or not it is
      collected. */
  function CollectStep(w: World, px: Coord, py: Coord, tx: int, ty: int, prevColor: int): (r: World)
    ensures r.room == w.room && FlagsGrow(w.flags, r.flags) && r.flags.blueEntered == w.flags.blueEntered
    ensures KeysInStep(w) ==> KeysInStep(r)
    ensures (r.px, r.py) == if InPlay(tx, ty) && w.board.Data(tx, ty) == KEY then (tx, ty) else (w.px, w.py)
  {
    if InPlay(tx, ty) && w.board.Data(tx, ty) == KEY then
      var keyColor := w.board.Color(tx, ty);
      var w1 := CollectKey(w.(px := tx, py := ty), tx, ty, keyColor);
      var b2 := w1.board.WithColor(px, py, prevColor);
      WriteKeepsBar(w1.board, px, py, prevColor);
      var b3 := if w1.room == 1 then IceAt(b2, 8, 8, 1) else b2;
      IceAtKeepsBar(b2, 8, 8, 1);
      w1.(board := b3)
    else w
  }

  /** `PS.unlockDoor`: whether it returns 1, and `BLUEENTERED` set by an opening blue door
      in any room. No return value (a door of another colour) counts as "does not open". */
  function UnlockDoor(w: World, doorColor: int): (r: (World, bool))
    ensures r.1 <==> doorColor == COLOR_WHITE ||
                     (doorColor == COLOR_GREEN && w.board.Color(0, 10) == COLOR_GREEN) ||
                     (doorColor == COLOR_BLUE && w.board.Color(1, 10) == COLOR_BLUE)
    ensures r.0 == w.(flags := w.flags.(blueEntered := w.flags.blueEntered || (r.1 && doorColor == COLOR_BLUE)))
  {
    if doorColor == COLOR_GREEN then
      (w, w.board.Color(0, 10) == COLOR_GREEN)
    else if doorColor == COLOR_BLUE then
      if w.board.Color(1, 10) == COLOR_BLUE then (w.(flags := w.flags.(blueEntered := true)), true)
      else (w, false)
    else (w, doorColor == COLOR_WHITE)
  }

  /** The "unlock door" block: the mouse moves onto the door only when it opens, and the
      door bead takes the door's colour. */
  function DoorStep(w: World, tx: int, ty: int): (r: World)
    ensures r.room == w.room && BarKept(r.board, w.board)
    ensures r.flags.greenKey == w.flags.greenKey && r.flags.blueKey == w.flags.blueKey
    ensures FlagsGrow(w.flags, r.flags)
    ensures r.flags.blueEntered ==> w.flags.blueEntered || w.board.Color(1, 10) == COLOR_BLUE
    ensures (r.px, r.py) ==
      if InPlay(tx, ty) && w.board.Data(tx, ty) == DOOR && UnlockDoor(w, w.board.BorderColor(tx, ty)).1
      then (tx, ty) else (w.px, w.py)
  {
    if InPlay(tx, ty) && w.board.Data(tx, ty) == DOOR then
      var doorColor := w.board.BorderColor(tx, ty);
      var u := UnlockDoor(w, doorColor);
      if u.1 then
        WriteKeepsBar(w.board, tx, ty, doorColor);
        u.0.(px := tx, py := ty, board := u.0.board.WithColor(tx, ty, doorColor))
      else u.0
    else w
  }

  /** The reset loop of `PS.loadRoom`: every play-area bead gets border 0, the default
      (white) colour and tag 0; border colours and row 10 are left alone. */
  function ResetPlayArea(b: Board): Board
  {
    Board(seq(Cells, i requires 0 <= i < Cells => if i < 100 then COLOR_WHITE else b.color[i]),
          b.borderColor,
          seq(Cells, i requires 0 <= i < Cells => if i < 100 then 0 else b.border[i]),
          seq(Cells, i requires 0 <= i < Cells => if i < 100 then NONE else b.data[i]))
  }

  /** Room 0, the hub; `keyBar` is the colour of inventory bead (0, 10). */
  function HubLayout(keyBar: int, greenKey: bool, blueEntered: bool): seq<Placement>
  {
    (if keyBar != COLOR_GREEN then [Key(3, 4, COLOR_GREEN)] else []) + HubFixtures(greenKey, blueEntered)
  }

  /** The hub after its green key: walls, four exits and the green door (painted once
      opened), and the NPC. */
  function HubFixtures(greenKey: bool, blueEntered: bool): seq<Placement>
  {
    HubWalls()
    + [Door(7, 5, COLOR_GREEN)]
    + (if greenKey then [Paint(7, 5, COLOR_GREEN)] else [])
    + [Door(9, 1, COLOR_WHITE), Door(4, 0, COLOR_WHITE), Door(0, 1, COLOR_BLUE)]
    + (if blueEntered then [Paint(0, 1, COLOR_BLUE)] else [])
    + [Door(1, 9, COLOR_WHITE), Npc(9, 5, COLOR_YELLOW)]
  }

  /** Room 2: the exit and one orange wall. */
  function Room2Layout(): seq<Placement>
  {
    [Door(4, 9, COLOR_WHITE), Wall(6, 3, COLOR_ORANGE)]
  }

  /** Room 3: the blue exit and the red key. The source paints (9, 1) blue ten times in a
      loop; once has the same effect. */
  function Room3Layout(): seq<Placement>
  {
    [Paint(9, 1, COLOR_BLUE), Door(9, 1, COLOR_BLUE), Key(6, 3, COLOR_RED)]
  }

  /** Room 4: the exit and one green wall. */
  function Room4Layout(): seq<Placement>
  {
    [Door(1, 0, COLOR_WHITE), Wall(6, 3, COLOR_GREEN)]
  }

  /** The play area `PS.loadRoom(room)` builds on the reset board `b` from the session
      flags; another room number leaves it blank. */
  function RoomBoard(b: Board, room: int, f: Flags): (r: Board)
    ensures BarKept(r, b)
  {
    if room == 0 then
      ApplyAllKeepsBar(b, HubLayout(b.Color(0, 10), f.greenKey, f.blueEntered));
      ApplyAll(b, HubLayout(b.Color(0, 10), f.greenKey, f.blueEntered))
    else if room == 1 then
      IceRoomKeepsBar(b, f.blueKey);
      IceRoom(b, f.blueKey)
    else if room == 2 then
      ApplyAllKeepsBar(b, Room2Layout());
      ApplyAll(b, Room2Layout())
    else if room == 3 then
      ApplyAllKeepsBar(b, Room3Layout());
      ApplyAll(b, Room3Layout())
    else if room == 4 then
      ApplyAllKeepsBar(b, Room4Layout());
      ApplyAll(b, Room4Layout())
    else b
  }

  /** `PS.loadRoom(room)`: rebuilds the play area and places the mouse; it sets
      `BLUEENTERED` for room 3, moves no other flag and never writes row 10. */
  function LoadRoom(w: World, room: int): (r: World)
    ensures r.room == w.room && BarKept(r.board, w.board)
    ensures r.flags == if room == 3 then w.flags.(blueEntered := true) else w.flags
  {
    var reset := ResetPlayArea(w.board);
    assert BarKept(reset, w.board);
    var b := RoomBoard(reset, room, w.flags);
    BarKeptTransitive(b, reset, w.board);
    if room == 1 then w.(board := b, px := 1, py := 1)
    else if room == 2 then w.(board := b, px := 4, py := 8)
    else if room == 3 then w.(board := b, px := 8, py := 1, flags := w.flags.(blueEntered := true))
    else if room == 4 then w.(board := b, px := 1, py := 1)
    else w.(board := b)
  }

  /** The exits of the hub (room 0), tested one after the other. */
  function HubExits(w: World, tx: int, ty: int): World
  {
    var a := if tx == 9 && ty == 1 then LoadRoom(w.(room := 1), 1) else w;
    var b := if tx == 4 && ty == 0 then LoadRoom(a.(room := 2), 2) else a;
    var c := if tx == 0 && ty == 1 && b.flags.blueKey then LoadRoom(b.(room := 3), 3) else b;
    if tx == 1 && ty == 9 then LoadRoom(c.(room := 4), 4) else c
  }

  /** Leaving a room for the hub: the hub is rebuilt and the mouse put at (x, y). */
  function BackToHub(w: World, x: Coord, y: Coord): World
  {
    LoadRoom(w.(room := 0), 0).(px := x, py := y)
  }

  /** The room blocks at the end of `PS.keyDown`, each testing the room as left by the
      blocks before it. */
  function Transitions(w: World, tx: int, ty: int): World
  {
    var a := if w.room == 0 then HubExits(w, tx, ty) else w;
    var b := if a.room == 1 && tx == 0 && ty == 1 then BackToHub(a, 8, 1) else a;
    var c := if b.room == 2 && tx == 4 && ty == 9 then BackToHub(b, 4, 1) else b;
    var d := if c.room == 3 && tx == 9 && ty == 1 then BackToHub(c, 1, 1) else c;
    if d.room == 4 && tx == 1 && ty == 0 then BackToHub(d, 1, 8) else d
  }

  /** The target of a key press: one orthogonal step, or the mouse's own bead. */
  function Target(w: World, key: int): (int, int)
  {
    (w.px + Step(key).0, w.py + Step(key).1)
  }

  /** `PS.keyDown` */
  function KeyDown(w: World, key: int): World
  {
    var t := Target(w, key);
    var prevColor := PrevBlockColor(w);
    var w1 := GeneralMove(w, t.0, t.1, prevColor);
    var w2 := CollectStep(w1, w.px, w.py, t.0, t.1, prevColor);
    var w3 := DoorStep(w2, t.0, t.1);
    Transitions(w3, t.0, t.1)
  }

  /** The state `PS.init` leaves: the hub loaded, the mouse at (5, 4), nothing collected. */
  function Initial(): World
  {
    var w0 := World(ZeroBorders(FreshBoard()), 0, 0, 0, NoFlags());
    var w1 := LoadRoom(w0, 0);
    w1.(board := TagInventoryBar(w1.board), px := 5, py := 4)
  }

  /** Whether moving towards (x, y) leaves the current room. */
  predicate IsExit(w: World, x: int, y: int)
  {
    if w.room == 0 then
      (x == 9 && y == 1) || (x == 4 && y == 0) || (x == 0 && y == 1 && w.flags.blueKey) || (x == 1 && y == 9)
    else if w.room == 1 then x == 0 && y == 1
    else if w.room == 2 then x == 4 && y == 9
    else if w.room == 3 then x == 9 && y == 1
    else if w.room == 4 then x == 1 && y == 0
    else false
  }

  /** What a session of this game keeps true: each key flag is in step with its inventory
      bead, the current room is one of the five, and the blue key precedes room 3 and the
      painted blue door. */
  predicate Inv(w: World)
  {
    KeysInStep(w) && 0 <= w.room <= 4 &&
    (w.room == 3 ==> w.flags.blueKey) && (w.flags.blueEntered ==> w.flags.blueKey)
  }
}
