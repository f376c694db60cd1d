/** The rat adventure of resources/Dev7/game.js as pure state transitions: what one
    key press, one touch and one room load do to the whole game state, written in the
    order the handlers perform their reads and writes. */
module Dev7Rules {
  import opened Beads
  import opened Tiles

  /** `TILESTEP` as declared: the order in which the room-3 colour tiles must be stepped on. */
  const TILE_SEQUENCE: seq<int> := [COLOR_RED, COLOR_ORANGE, COLOR_YELLOW, COLOR_GREEN, COLOR_BLUE]

  /** The 0/1 globals of the game. */
  datatype Flags = Flags(
    greenKey: bool, blueKey: bool, redKey: bool,
    blueEntered: bool, blueMazeEntered: bool, redMazeEntered: bool,
    room3Solved: bool, cheeseEaten: bool)

  function NoFlags(): Flags
  {
    Flags(false, false, false, false, false, false, false, false)
  }

  /** No flag of `f` is cleared in `g`. */
  predicate FlagsGrow(f: Flags, g: Flags)
  {
    (f.greenKey ==> g.greenKey) && (f.blueKey ==> g.blueKey) && (f.redKey ==> g.redKey) &&
    (f.blueEntered ==> g.blueEntered) && (f.blueMazeEntered ==> g.blueMazeEntered) &&
    (f.redMazeEntered ==> g.redMazeEntered) && (f.room3Solved ==> g.room3Solved) &&
    (f.cheeseEaten ==> g.cheeseEaten)
  }

  /** The grid, the current room, the sprite (the player) and every other global. */
  datatype World = World(board: Board, room: int, px: Coord, py: Coord, flags: Flags, tileStep: seq<int>)

  /** Each key flag is in step with its inventory bead. */
  predicate KeysInStep(w: World)
  {
    (w.flags.greenKey <==> w.board.Color(0, 10) == COLOR_GREEN) &&
    (w.flags.blueKey <==> w.board.Color(1, 10) == COLOR_BLUE) &&
    (w.flags.redKey <==> w.board.Color(2, 10) == COLOR_RED)
  }

  /** `a` is what is left of `b` after shifting some elements off its front. */
  predicate IsSuffix(a: seq<int>, b: seq<int>)
  {
    |a| <= |b| && a == b[|b| - |a|..]
  }

  /** Tags the general movement rule lets the player step onto. */
  predicate Walkable(tag: int)
  {
    tag == NONE || tag == ICE || tag == CRACKING || tag == COLOR_TILE
  }

  /** The colour the vacated bead is given. */
  function PrevBlockColor(w: World): int
  {
    var c0 := w.board.Color(w.px, w.py);
    var c1 := if w.room == 1 then ICE_COLOR else c0;
    var c2 := if c1 == COLOR_GRAY then COLOR_WHITE else c1;
    if w.room == 3 && w.flags.room3Solved then w.board.BorderColor(w.px, w.py) else c2
  }

  /** Room 1: the bead just left cracks when the player steps onto ice, and breaks into a
      wall when the player steps onto cracking ice (tags read from the target after
      each write). */
  function BreakIce(b: Board, px: Coord, py: Coord, tx: Coord, ty: Coord): (r: Board)
    ensures BarKept(r, b)
  {
    var b1 := if b.Data(tx, ty) == ICE then IceAt(b, px, py, 1) else b;
    IceAtKeepsBar(b, px, py, 1);
    IceAtKeepsBar(b1, px, py, 2);
    var r := if b1.Data(tx, ty) == CRACKING then IceAt(b1, px, py, 2) else b1;
    BarKeptTransitive(r, b1, b);
    r
  }

  /** Room 3: a target whose border colour is the head of `TILESTEP` is painted with it and
      the head is shifted off; the queue never changes otherwise. */
  function StepOnColorTile(w: World, tx: Coord, ty: Coord): (r: World)
    ensures r.room == w.room && r.px == w.px && r.py == w.py && r.flags == w.flags
    ensures BarKept(r.board, w.board) && IsSuffix(r.tileStep, w.tileStep)
    ensures r.tileStep != w.tileStep <==> |w.tileStep| > 0 && w.board.BorderColor(tx, ty) == w.tileStep[0]
    ensures r.tileStep != w.tileStep ==> r.board.Color(tx, ty) == w.tileStep[0]
    ensures !(|w.tileStep| > 0 && w.board.BorderColor(tx, ty) == w.tileStep[0]) ==> r == w
  {
    if |w.tileStep| > 0 && w.board.BorderColor(tx, ty) == w.tileStep[0] then
      WriteKeepsBar(w.board, tx, ty, w.tileStep[0]);
      assert |w.tileStep[1..]| < |w.tileStep|;
      w.(board := w.board.WithColor(tx, ty, w.tileStep[0]), tileStep := w.tileStep[1..])
    else w
  }

  /** The "general movement" block: the player steps onto a walkable target (recolouring
      the vacated bead) or stays. */
  function GeneralMove(w: World, tx: int, ty: int, prevColor: int): (r: World)
    ensures r.room == w.room && r.flags == w.flags
    ensures BarKept(r.board, w.board) && IsSuffix(r.tileStep, w.tileStep)
    ensures (r.px, r.py) == if InPlay(tx, ty) && Walkable(w.board.Data(tx, ty)) then (tx, ty) else (w.px, w.py)
  {
    if InPlay(tx, ty) && Walkable(w.board.Data(tx, ty)) then
      var b1 := w.board.WithColor(w.px, w.py, prevColor);
      WriteKeepsBar(w.board, w.px, w.py, prevColor);
      var b2 := if w.room == 1 then BreakIce(b1, w.px, w.py, tx, ty) else b1;
      BarKeptTransitive(b2, b1, w.board);
      var moved := w.(board := b2, px := tx, py := ty);
      var r := if w.room == 3 then StepOnColorTile(moved, tx, ty) else moved;
      BarKeptTransitive(r.board, b2, w.board);
      r
    else w
  }

  /** `PS.collectKey`: a green, blue or red key lights its inventory bead, sets its flag
      and clears the key's tag; any other colour does nothing. */
  function CollectKey(w: World, x: Coord, y: Coord, keyColor: int): (r: World)
    ensures r.room == w.room && r.px == w.px && r.py == w.py && r.tileStep == w.tileStep
    ensures r.flags == w.flags.(greenKey := w.flags.greenKey || keyColor == COLOR_GREEN,
                                blueKey := w.flags.blueKey || keyColor == COLOR_BLUE,
                                redKey := w.flags.redKey || keyColor == COLOR_RED)
    ensures r.board.Data(x, y) == if keyColor in {COLOR_GREEN, COLOR_BLUE, COLOR_RED} then NONE else w.board.Data(x, y)
    ensures r.board.Color(0, 10) == if keyColor == COLOR_GREEN then COLOR_GREEN else w.board.Color(0, 10)
    ensures r.board.Color(1, 10) == if keyColor == COLOR_BLUE then COLOR_BLUE else w.board.Color(1, 10)
    ensures r.board.Color(2, 10) == if keyColor == COLOR_RED then COLOR_RED else w.board.Color(2, 10)
    ensures KeysInStep(w) ==> KeysInStep(r)
  {
    if keyColor == COLOR_GREEN then
      w.(board := w.board.WithColor(0, 10, COLOR_GREEN).WithData(x, y, NONE), flags := w.flags.(greenKey := true))
    else if keyColor == COLOR_BLUE then
      w.(board := w.board.WithColor(1, 10, COLOR_BLUE).WithData(x, y, NONE), flags := w.flags.(blueKey := true))
    else if keyColor == COLOR_RED then
      w.(board := w.board.WithColor(2, 10, COLOR_RED).WithData(x, y, NONE), flags := w.flags.(redKey := true))
    else w
  }

  /** The "collect key" block. */
  function CollectStep(w: World, px: Coord, py: Coord, tx: int, ty: int, prevColor: int): (r: World)
    ensures r.room == w.room && r.tileStep == w.tileStep
    ensures KeysInStep(w) ==> KeysInStep(r)
    ensures FlagsGrow(w.flags, r.flags)
    ensures r.flags.(greenKey := w.flags.greenKey, blueKey := w.flags.blueKey, redKey := w.flags.redKey) == w.flags
    ensures (r.px, r.py) == if InPlay(tx, ty) && w.board.Data(tx, ty) == KEY then (tx, ty) else (w.px, w.py)
  {
    if InPlay(tx, ty) && w.board.Data(tx, ty) == KEY then
      var keyColor := w.board.Color(tx, ty);
      var w1 := CollectKey(w.(px := tx, py := ty), tx, ty, keyColor);
      w1.(board := AfterPickup(w1.board, w1.room, px, py, prevColor))
    else w
  }

  /** What follows a pickup: the bead left behind gets back its colour and, in room 1,
      the ice at (8, 8) cracks. */
  function AfterPickup(b: Board, room: int, px: Coord, py: Coord, prevColor: int): (r: Board)
    ensures BarKept(r, b)
  {
    var b2 := b.WithColor(px, py, prevColor);
    WriteKeepsBar(b, px, py, prevColor);
    IceAtKeepsBar(b2, 8, 8, 1);
    if room == 1 then IceAt(b2, 8, 8, 1) else b2
  }

  /** `PS.unlockDoor`: whether it returns 1, and the flags it sets on the way. A return
      of 0 and no return value at all both count as "does not open". */
  function UnlockDoor(w: World, doorColor: int): (r: (World, bool))
    ensures r.1 <==> doorColor == COLOR_WHITE ||
                     (doorColor == COLOR_GREEN && w.board.Color(0, 10) == COLOR_GREEN) ||
                     (doorColor == COLOR_BLUE && w.board.Color(1, 10) == COLOR_BLUE) ||
                     (doorColor == COLOR_RED && w.board.Color(2, 10) == COLOR_RED)
    ensures r.0.board == w.board && r.0.room == w.room && r.0.px == w.px && r.0.py == w.py
    ensures r.0.tileStep == w.tileStep
    ensures r.0.flags == w.flags.(
      blueEntered := w.flags.blueEntered || (r.1 && doorColor == COLOR_BLUE && w.room == 3),
      blueMazeEntered := w.flags.blueMazeEntered || (r.1 && doorColor == COLOR_BLUE && w.room == 4),
      redMazeEntered := w.flags.redMazeEntered || (r.1 && doorColor == COLOR_RED && w.room == 4))
  {
    if doorColor == COLOR_GREEN then
      (w, w.board.Color(0, 10) == COLOR_GREEN)
    else if doorColor == COLOR_BLUE then
      if w.board.Color(1, 10) == COLOR_BLUE then
        (w.(flags := w.flags.(blueEntered := w.flags.blueEntered || w.room == 3,
                               blueMazeEntered := w.flags.blueMazeEntered || w.room == 4)), true)
      else (w, false)
    else if doorColor == COLOR_RED then
      if w.board.Color(2, 10) == COLOR_RED then
        (w.(flags := w.flags.(redMazeEntered := w.flags.redMazeEntered || w.room == 4)), true)
      else (w, false)
    else (w, doorColor == COLOR_WHITE)
  }

  /** The "unlock door" block: the player moves onto the door only when it opens. */
  function DoorStep(w: World, tx: int, ty: int): (r: World)
    ensures r.room == w.room && r.tileStep == w.tileStep && BarKept(r.board, w.board)
    ensures r.flags.greenKey == w.flags.greenKey && r.flags.blueKey == w.flags.blueKey &&
            r.flags.redKey == w.flags.redKey && r.flags.room3Solved == w.flags.room3Solved &&
            r.flags.cheeseEaten == w.flags.cheeseEaten
    ensures FlagsGrow(w.flags, r.flags)
    ensures r.flags.blueEntered ==> w.flags.blueEntered || w.board.Color(1, 10) == COLOR_BLUE
    ensures r.flags.blueMazeEntered ==> w.flags.blueMazeEntered || w.board.Color(1, 10) == COLOR_BLUE
    ensures r.flags.redMazeEntered ==> w.flags.redMazeEntered || w.board.Color(2, 10) == COLOR_RED
    ensures (r.px, r.py) ==
      if InPlay(tx, ty) && w.board.Data(tx, ty) == DOOR && UnlockDoor(w, w.board.BorderColor(tx, ty)).1
      then (tx, ty) else (w.px, w.py)
  {
    if InPlay(tx, ty) && w.board.Data(tx, ty) == DOOR then
      var doorColor := w.board.BorderColor(tx, ty);
      var u := UnlockDoor(w, doorColor);
      if u.1 then
        WriteKeepsBar(w.board, tx, ty, doorColor);
        u.0.(px := tx, py := ty, board := u.0.board.WithColor(tx, ty, doorColor))
      else u.0
    else w
  }

  /** `PS.checkCheese`: a cheese bead loses its tag. */
  function CheckCheese(b: Board, x: Coord, y: Coord): (r: Board)
    ensures BarKept(r, b) && r.Data(x, y) != CHEESE
  {
    WriteKeepsBar(b, x, y, NONE);
    if b.Data(x, y) == CHEESE then b.WithData(x, y, NONE) else b
  }

  /** The "eat cheese" block: the cheese is eaten from the neighbouring bead and the player
      does not move. */
  function CheeseStep(w: World, tx: int, ty: int): (r: World)
    ensures r.room == w.room && r.px == w.px && r.py == w.py && r.tileStep == w.tileStep
    ensures BarKept(r.board, w.board)
    ensures r.flags == if InPlay(tx, ty) && w.board.Data(tx, ty) == CHEESE
                       then w.flags.(cheeseEaten := true) else w.flags
  {
    if InPlay(tx, ty) && w.board.Data(tx, ty) == CHEESE then
      w.(board := CheckCheese(w.board, tx, ty), flags := w.flags.(cheeseEaten := true))
    else w
  }

  /** The five colour tiles of room 3 show their colours. */
  predicate Room3Rainbow(b: Board)
  {
    b.Color(1, 1) == COLOR_RED && b.Color(4, 3) == COLOR_ORANGE && b.Color(7, 4) == COLOR_YELLOW &&
    b.Color(1, 5) == COLOR_GREEN && b.Color(6, 7) == COLOR_BLUE
  }

  /** Room 3: once the rainbow is complete the red key appears at (1, 8), unless it has
      been collected. */
  function Room3Reward(w: World): (r: World)
    ensures r.room == w.room && r.px == w.px && r.py == w.py && r.tileStep == w.tileStep
    ensures BarKept(r.board, w.board)
    ensures r.flags == w.flags.(room3Solved := w.flags.room3Solved || (Room3Rainbow(w.board) && !w.flags.redKey))
  {
    if Room3Rainbow(w.board) && !w.flags.redKey then
      WriteKeepsBar(w.board, 1, 8, COLOR_RED);
      WriteKeepsBar(w.board.WithColor(1, 8, COLOR_RED), 1, 8, KEY);
      w.(board := LevelKey(w.board, 1, 8, COLOR_RED), flags := w.flags.(room3Solved := true))
    else w
  }

  /** The part of `PS.loadRoom` shared by every room: the reset loop and the default
      border of (9, 10). */
  function ResetForLoad(b: Board): Board
  {
    ResetPlayArea(b).WithBorder(9, 10, DEFAULT_BORDER_WIDTH)
  }

  /** The reset loop: every play-area bead gets border 0, white border colour, white
      colour and tag 0; row 10 is left alone. */
  function ResetPlayArea(b: Board): Board
  {
    Board(seq(Cells, i requires 0 <= i < Cells => if i < 100 then COLOR_WHITE else b.color[i]),
          seq(Cells, i requires 0 <= i < Cells => if i < 100 then COLOR_WHITE else b.borderColor[i]),
          seq(Cells, i requires 0 <= i < Cells => if i < 100 then 0 else b.border[i]),
          seq(Cells, i requires 0 <= i < Cells => if i < 100 then NONE else b.data[i]))
  }

  /** Room 0, the hub; `keyBar` is the colour of inventory bead (0, 10). */
  function HubLayout(keyBar: int, greenKey: bool, blueEntered: bool): seq<Placement>
  {
    (if keyBar != COLOR_GREEN then [Key(3, 4, COLOR_GREEN)] else []) + HubFixtures(greenKey, blueEntered)
  }

  /** The hub after its green key: walls, doors (painted once entered) and the NPC. */
  function HubFixtures(greenKey: bool, blueEntered: bool): seq<Placement>
  {
    HubWalls()
    + [Door(7, 5, COLOR_GREEN)]
    + (if greenKey then [Paint(7, 5, COLOR_GREEN)] else [])
    + [Door(9, 1, COLOR_WHITE), Door(3, 0, COLOR_WHITE), Door(0, 1, COLOR_BLUE)]
    + (if blueEntered then [Paint(0, 1, COLOR_BLUE)] else [])
    + [Door(1, 9, COLOR_WHITE), Npc(9, 5, COLOR_WHITE)]
  }

  /** `PS.addResetButton`: the reset button on (9, 10). */
  function ResetButton(b: Board): Board
  {
    b.WithBorder(9, 10, DOOR_BORDER).WithBorderColor(9, 10, COLOR_GRAY)
  }

  /** Room 2 (no door of this version leads there). */
  function Room2Layout(): seq<Placement>
  {
    [Door(3, 9, COLOR_WHITE), Wall(6, 3, COLOR_ORANGE)]
  }

  /** Room 3, the rainbow room. The source paints (9, 1) blue ten times in a loop; once
      has the same effect. */
  function Room3Layout(solved: bool): seq<Placement>
  {
    [Paint(9, 1, COLOR_BLUE), Door(9, 1, COLOR_BLUE),
     ColorTile(1, 1, COLOR_RED), ColorTile(4, 3, COLOR_ORANGE), ColorTile(7, 4, COLOR_YELLOW),
     ColorTile(1, 5, COLOR_GREEN), ColorTile(6, 7, COLOR_BLUE)]
    + (if solved then
         [Paint(1, 1, COLOR_RED), Paint(4, 3, COLOR_ORANGE), Paint(7, 4, COLOR_YELLOW),
          Paint(1, 5, COLOR_GREEN), Paint(6, 7, COLOR_BLUE)]
       else [])
  }

  /** Room 4, the maze. */
  function MazeLayout(cheeseEaten: bool, blueMazeEntered: bool, redMazeEntered: bool): seq<Placement>
  {
    ([Door(1, 0, COLOR_WHITE)] + MazeWalls())
    + (if cheeseEaten then [] else [Cheese(8, 8)])
    + MazeDoors(blueMazeEntered, redMazeEntered)
  }

  /** The two coloured doors of the maze, painted once entered. */
  function MazeDoors(blueMazeEntered: bool, redMazeEntered: bool): seq<Placement>
  {
    [Door(0, 7, COLOR_BLUE)]
    + (if blueMazeEntered then [Paint(0, 7, COLOR_BLUE)] else [])
    + [Door(8, 6, COLOR_RED)]
    + (if redMazeEntered then [Paint(8, 6, COLOR_RED)] else [])
  }

  function MazeWalls(): seq<Placement>
  {
    [Wall(2, 0, COLOR_BLACK), Wall(1, 1, COLOR_BLACK), Wall(2, 1, COLOR_BLACK), Wall(4, 1, COLOR_BLACK),
     Wall(7, 1, COLOR_BLACK), Wall(8, 1, COLOR_BLACK), Wall(1, 2, COLOR_BLACK), Wall(5, 2, COLOR_BLACK),
     Wall(6, 2, COLOR_BLACK), Wall(7, 2, COLOR_BLACK), Wall(1, 3, COLOR_BLACK), Wall(2, 3, COLOR_BLACK),
     Wall(3, 3, COLOR_BLACK), Wall(5, 3, COLOR_BLACK), Wall(3, 4, COLOR_BLACK), Wall(5, 4, COLOR_BLACK),
     Wall(7, 4, COLOR_BLACK), Wall(8, 4, COLOR_BLACK), Wall(1, 5, COLOR_BLACK), Wall(2, 5, COLOR_BLACK),
     Wall(5, 5, COLOR_BLACK), Wall(7, 5, COLOR_BLACK), Wall(3, 6, COLOR_BLACK), Wall(6, 6, COLOR_BLACK),
     Wall(7, 6, COLOR_BLACK), Wall(9, 6, COLOR_BLACK), Wall(1, 7, COLOR_BLACK), Wall(2, 7, COLOR_BLACK),
     Wall(3, 7, COLOR_BLACK), Wall(6, 7, COLOR_BLACK), Wall(2, 8, COLOR_BLACK), Wall(5, 8, COLOR_BLACK),
     Wall(6, 8, COLOR_BLACK), Wall(6, 9, COLOR_BLACK)]
  }

  /** The play area `PS.loadRoom(room)` builds on the reset board `b` from the session
      flags; another room number leaves it blank. */
  function RoomBoard(b: Board, room: int, f: Flags): (r: Board)
    ensures BarKept(r, b)
  {
    if room == 0 then
      ApplyAllKeepsBar(b, HubLayout(b.Color(0, 10), f.greenKey, f.blueEntered));
      ApplyAll(b, HubLayout(b.Color(0, 10), f.greenKey, f.blueEntered))
    else if room == 1 then
      IceRoomKeepsBar(ResetButton(b), f.blueKey);
      IceRoom(ResetButton(b), f.blueKey)
    else if room == 2 then
      ApplyAllKeepsBar(b, Room2Layout());
      ApplyAll(b, Room2Layout())
    else if room == 3 then
      ApplyAllKeepsBar(b, Room3Layout(f.room3Solved));
      ApplyAll(b, Room3Layout(f.room3Solved))
    else if room == 4 then
      ApplyAllKeepsBar(b, MazeLayout(f.cheeseEaten, f.blueMazeEntered, f.redMazeEntered));
      ApplyAll(b, MazeLayout(f.cheeseEaten, f.blueMazeEntered, f.redMazeEntered))
    else b
  }

  /** `PS.loadRoom(room)`: rebuilds the play area and places the player; it sets
      `BLUEENTERED` for room 3, moves no other flag and never writes the colour or the
      tag of row 10. */
  function LoadRoom(w: World, room: int): (r: World)
    ensures r.room == w.room && r.tileStep == w.tileStep && BarKept(r.board, w.board)
    ensures r.flags == if room == 3 then w.flags.(blueEntered := true) else w.flags
  {
    var reset := ResetForLoad(w.board);
    assert BarKept(reset, w.board);
    var b := RoomBoard(reset, room, w.flags);
    BarKeptTransitive(b, reset, w.board);
    if room == 1 then w.(board := b, px := 1, py := 1)
    else if room == 2 then w.(board := b, px := 4, py := 8)
    else if room == 3 then w.(board := b, px := 8, py := 1, flags := w.flags.(blueEntered := true))
    else if room == 4 then w.(board := b, px := 0, py := 0)
    else w.(board := b)
  }

  /** The exits of the hub (room 0), tested one after the other. */
  function HubExits(w: World, tx: int, ty: int): World
  {
    var a := if tx == 9 && ty == 1 then LoadRoom(w.(room := 1), 1) else w;
    var b := if tx == 0 && ty == 1 && a.flags.blueKey then LoadRoom(a.(room := 3), 3) else a;
    if tx == 1 && ty == 9 then LoadRoom(b.(room := 4), 4) else b
  }

  /** Leaving a room for the hub: the hub is rebuilt and the player put at (x, y). */
  function BackToHub(w: World, x: Coord, y: Coord): World
  {
    LoadRoom(w.(room := 0), 0).(px := x, py := y)
  }

  /** The room blocks at the end of `PS.keyDown`, each testing the room as left by the
      blocks before it. */
  function Transitions(w: World, tx: int, ty: int): World
  {
    var a := if w.room == 0 then HubExits(w, tx, ty) else w;
    var b := if a.room == 1 && tx == 0 && ty == 1 then BackToHub(a.(board := a.board.WithColor(0, 1, COLOR_BLUE)), 8, 1)
             else a;
    var c := if b.room == 2 && tx == 3 && ty == 9 then BackToHub(b, 3, 1) else b;
    var d := if c.room == 3 then
               var r := Room3Reward(c);
               if tx == 9 && ty == 1 then BackToHub(r, 1, 1) else r
             else c;
    if d.room == 4 && tx == 1 && ty == 0 then BackToHub(d, 1, 8) else d
  }

  /** The target of a key press: one orthogonal step, or the player's own bead. */
  function Target(w: World, key: int): (int, int)
  {
    (w.px + Step(key).0, w.py + Step(key).1)
  }

  /** `PS.keyDown` */
  function KeyDown(w: World, key: int): World
  {
    var t := Target(w, key);
    var prevColor := PrevBlockColor(w);
    var w1 := GeneralMove(w, t.0, t.1, prevColor);
    var w2 := CollectStep(w1, w.px, w.py, t.0, t.1, prevColor);
    var w3 := DoorStep(w2, t.0, t.1);
    var w4 := CheeseStep(w3, t.0, t.1);
    Transitions(w4, t.0, t.1)
  }

  /** `PS.touch`: only the reset button (9, 10) of room 1 does anything; it reloads the
      room and greys (1, 1) if the player was standing there. */
  function Touch(w: World, x: int, y: int): World
  {
    if w.room == 1 && x == 9 && y == 10 then
      var reloaded := LoadRoom(w, 1);
      if w.px == 1 && w.py == 1 then reloaded.(board := reloaded.board.WithColor(1, 1, COLOR_GRAY))
      else reloaded
    else w
  }

  /** The state `PS.init` leaves: the hub loaded, the player at (5, 4), nothing collected. */
  function Initial(): World
  {
    var w0 := World(ZeroBorders(FreshBoard()), 0, 0, 0, NoFlags(), TILE_SEQUENCE);
    var w1 := LoadRoom(w0, 0);
    w1.(board := TagInventoryBar(w1.board), px := 5, py := 4)
  }

  /** Whether moving towards (x, y) leaves the current room. */
  predicate IsExit(w: World, x: int, y: int)
  {
    if w.room == 0 then (x == 9 && y == 1) || (x == 0 && y == 1 && w.flags.blueKey) || (x == 1 && y == 9)
    else if w.room == 1 then x == 0 && y == 1
    else if w.room == 2 then x == 3 && y == 9
    else if w.room == 3 then x == 9 && y == 1
    else if w.room == 4 then x == 1 && y == 0
    else false
  }

  /** What a session of this game keeps true: each key flag is in step with its
      inventory bead, only rooms with an entrance are ever current, the blue key precedes
      everything behind the blue door, the red key precedes the red maze door, and the
      tile queue has only lost elements from its front. */
  predicate Inv(w: World)
  {
    KeysInStep(w) &&
    w.room in {0, 1, 3, 4} &&
    (w.room == 3 ==> w.flags.blueKey) &&
    (w.flags.blueEntered ==> w.flags.blueKey) && (w.flags.blueMazeEntered ==> w.flags.blueKey) &&
    (w.flags.room3Solved ==> w.flags.blueKey) && (w.flags.redMazeEntered ==> w.flags.redKey) &&
    IsSuffix(w.tileStep, TILE_SEQUENCE)
  }
}
