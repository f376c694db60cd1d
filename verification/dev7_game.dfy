/** resources/Dev7/game.js as the host runs it: the handlers update the bead grid in place
    and reassign the game's globals; each method is proved to leave exactly the state the
    matching function of Dev7Rules describes. */
module Dev7Game {
  import opened Beads
  import opened Tiles
  import opened Dev7Rules
  import Dev7Laws

  /** The nested reset loop of `PS.loadRoom`, column by column. */
  method ResetPlayAreaLoop(g: Grid)
    requires g.Valid()
    modifies g.color, g.borderColor, g.border, g.data
    ensures g.Snapshot() == ResetPlayArea(old(g.Snapshot()))
  {
    ghost var b0 := g.Snapshot();
    for x := 0 to 10
      invariant forall i :: 0 <= i < Cells ==>
        g.border[i] == (if Visited(i, x, 0) then 0 else b0.border[i]) &&
        g.borderColor[i] == (if Visited(i, x, 0) then COLOR_WHITE else b0.borderColor[i]) &&
        g.color[i] == (if Visited(i, x, 0) then COLOR_WHITE else b0.color[i]) &&
        g.data[i] == (if Visited(i, x, 0) then NONE else b0.data[i])
    {
      for y := 0 to 10
        invariant forall i :: 0 <= i < Cells ==>
          g.border[i] == (if Visited(i, x, y) then 0 else b0.border[i]) &&
          g.borderColor[i] == (if Visited(i, x, y) then COLOR_WHITE else b0.borderColor[i]) &&
          g.color[i] == (if Visited(i, x, y) then COLOR_WHITE else b0.color[i]) &&
          g.data[i] == (if Visited(i, x, y) then NONE else b0.data[i])
      {
        var k := Idx(x, y);
        assert Col(k) == x && Row(k) == y;
        g.border[k] := 0;
        g.borderColor[k] := COLOR_WHITE;
        g.color[k] := COLOR_WHITE;
        g.data[k] := NONE;
      }
    }
    assert g.border[..] == ResetPlayArea(b0).border;
    assert g.borderColor[..] == ResetPlayArea(b0).borderColor;
    assert g.color[..] == ResetPlayArea(b0).color;
    assert g.data[..] == ResetPlayArea(b0).data;
  }

  /** The room-1 ice rule on the bead just left. */
  method BreakIceAt(g: Grid, px: Coord, py: Coord, tx: Coord, ty: Coord)
    requires g.Valid()
    modifies g.color, g.data
    ensures g.Snapshot() == BreakIce(old(g.Snapshot()), px, py, tx, ty)
  {
    if g.Data(tx, ty) == ICE {
      var _ := SetIce(g, px, py, 1);
    }
    if g.Data(tx, ty) == CRACKING {
      SetLevelBead(g, px, py, WALL_ICE_COLOR);
    }
  }

  /** `PS.checkCheese` */
  method CheckCheeseAt(g: Grid, x: Coord, y: Coord)
    requires g.Valid()
    modifies g.data
    ensures g.Snapshot() == CheckCheese(old(g.Snapshot()), x, y)
  {
    if g.Data(x, y) == CHEESE {
      g.SetData(x, y, NONE);
    }
  }

  /** The hub part of `PS.loadRoom`: the green key unless inventory bead (0, 10) is
      green, then the fixtures. */
  method PlaceHub(g: Grid, greenKey: bool, blueEntered: bool)
    requires g.Valid()
    modifies g.color, g.borderColor, g.border, g.data
    ensures g.Snapshot() == ApplyAll(old(g.Snapshot()), HubLayout(old(g.Snapshot()).Color(0, 10), greenKey, blueEntered))
  {
    ghost var b0 := g.Snapshot();
    if g.Color(0, 10) != COLOR_GREEN {
      SetLevelKey(g, 3, 4, COLOR_GREEN);
    }
    PlaceAll(g, HubFixtures(greenKey, blueEntered));
    ApplyAllAppend(b0, if b0.Color(0, 10) != COLOR_GREEN then [Key(3, 4, COLOR_GREEN)] else [],
                   HubFixtures(greenKey, blueEntered));
    ApplyAllSnoc(b0, [], Key(3, 4, COLOR_GREEN));
    assert [] + [Key(3, 4, COLOR_GREEN)] == [Key(3, 4, COLOR_GREEN)];
  }

  /** The globals of the game, with the grid they draw on. */
  class Game {
    const grid: Grid
    var room: int
    var px: Coord
    var py: Coord
    var flags: Flags
    var tileStep: seq<int>

    ghost predicate Valid()
      reads this
    {
      grid.Valid()
    }

    /** The whole game state as a value. */
    function State(): World
      reads this, grid.color, grid.borderColor, grid.border, grid.data
      requires Valid()
    {
      World(grid.Snapshot(), room, px, py, flags, tileStep)
    }

    /** `PS.init` */
    constructor ()
      ensures Valid() && State() == Initial() && Dev7Rules.Inv(State())
      ensures fresh(grid.color) && fresh(grid.borderColor) && fresh(grid.border) && fresh(grid.data)
    {
      grid := new Grid();
      room := 0;
      px, py := 0, 0;
      flags := NoFlags();
      tileStep := TILE_SEQUENCE;
      new;
      ZeroBordersLoop(grid);
      LoadRoom(0);
      TagInventoryBarLoop(grid);
      px, py := 5, 4;
      Dev7Laws.InitialInv();
    }

    /** `PS.loadRoom(r)` */
    method LoadRoom(r: int)
      requires Valid()
      modifies this, grid.color, grid.borderColor, grid.border, grid.data
      ensures Valid() && State() == Dev7Rules.LoadRoom(old(State()), r)
    {
      ResetPlayAreaLoop(grid);
      grid.SetBorder(9, 10, DEFAULT_BORDER_WIDTH);
      if r == 0 {
        PlaceHub(grid, flags.greenKey, flags.blueEntered);
      } else if r == 1 {
        px, py := 1, 1;
        grid.SetBorder(9, 10, DOOR_BORDER);
        grid.SetBorderColor(9, 10, COLOR_GRAY);
        PlaceIceRoom(grid, flags.blueKey);
      } else if r == 2 {
        px, py := 4, 8;
        PlaceAll(grid, Room2Layout());
      } else if r == 3 {
        px, py := 8, 1;
        flags := flags.(blueEntered := true);
        PlaceAll(grid, Room3Layout(flags.room3Solved));
      } else if r == 4 {
        px, py := 0, 0;
        PlaceAll(grid, MazeLayout(flags.cheeseEaten, flags.blueMazeEntered, flags.redMazeEntered));
      }
    }

    /** The room-3 part of the movement block: the colour-tile queue. */
    method StepOnColorTile(tx: Coord, ty: Coord)
      requires Valid()
      modifies this, grid.color
      ensures Valid() && State() == Dev7Rules.StepOnColorTile(old(State()), tx, ty)
    {
      if |tileStep| > 0 && grid.BorderColor(tx, ty) == tileStep[0] {
        grid.SetColor(tx, ty, tileStep[0]);
        tileStep := tileStep[1..];
      }
    }

    /** The "general movement" block. */
    method GeneralMove(tx: int, ty: int, prevColor: int)
      requires Valid()
      modifies this, grid.color, grid.data
      ensures Valid() && State() == Dev7Rules.GeneralMove(old(State()), tx, ty, prevColor)
    {
      if 0 <= tx <= 9 && 0 <= ty <= 9 {
        var tag := grid.Data(tx, ty);
        if tag == NONE || tag == ICE || tag == CRACKING || tag == COLOR_TILE {
          var prevX, prevY := px, py;
          px, py := tx, ty;
          grid.SetColor(prevX, prevY, prevColor);
          if room == 1 {
            BreakIceAt(grid, prevX, prevY, tx, ty);
          }
          if room == 3 {
            StepOnColorTile(tx, ty);
          }
        }
      }
    }

    /** `PS.collectKey` */
    method CollectKey(x: Coord, y: Coord, keyColor: int)
      requires Valid()
      modifies this, grid.color, grid.data
      ensures Valid() && State() == Dev7Rules.CollectKey(old(State()), x, y, keyColor)
    {
      if keyColor == COLOR_GREEN {
        grid.SetColor(0, 10, COLOR_GREEN);
        grid.SetData(x, y, NONE);
        flags := flags.(greenKey := true);
      }
      if keyColor == COLOR_BLUE {
        grid.SetColor(1, 10, COLOR_BLUE);
        grid.SetData(x, y, NONE);
        flags := flags.(blueKey := true);
      }
      if keyColor == COLOR_RED {
        grid.SetColor(2, 10, COLOR_RED);
        grid.SetData(x, y, NONE);
        flags := flags.(redKey := true);
      }
    }

    /** The "collect key" block; (prevX, prevY) is where the player stood. */
    method CollectStep(prevX: Coord, prevY: Coord, tx: int, ty: int, prevColor: int)
      requires Valid()
      modifies this, grid.color, grid.data
      ensures Valid() && State() == Dev7Rules.CollectStep(old(State()), prevX, prevY, tx, ty, prevColor)
    {
      if 0 <= tx < 10 && 0 <= ty < 10 && grid.Data(tx, ty) == KEY {
        var keyColor := grid.Color(tx, ty);
        px, py := tx, ty;
        CollectKey(tx, ty, keyColor);
        grid.SetColor(prevX, prevY, prevColor);
        if room == 1 {
          var _ := SetIce(grid, 8, 8, 1);
        }
      }
    }

    /** `PS.unlockDoor`: whether it returns 1. */
    method UnlockDoor(doorColor: int) returns (opens: bool)
      requires Valid()
      modifies this
      ensures Valid() && opens == Dev7Rules.UnlockDoor(old(State()), doorColor).1
      ensures State() == Dev7Rules.UnlockDoor(old(State()), doorColor).0
    {
      // Each branch of the handler ends in a return, so the branches form one chain.
      if doorColor == COLOR_GREEN {
        opens := grid.Color(0, 10) == COLOR_GREEN;
      } else if doorColor == COLOR_BLUE {
        opens := grid.Color(1, 10) == COLOR_BLUE;
        if opens && room == 3 {
          flags := flags.(blueEntered := true);
        }
        if opens && room == 4 {
          flags := flags.(blueMazeEntered := true);
        }
      } else if doorColor == COLOR_RED {
        opens := grid.Color(2, 10) == COLOR_RED;
        if opens && room == 4 {
          flags := flags.(redMazeEntered := true);
        }
      } else {
        opens := doorColor == COLOR_WHITE;
      }
    }

    /** The "unlock door" block. */
    method DoorStep(tx: int, ty: int)
      requires Valid()
      modifies this, grid.color
      ensures Valid() && State() == Dev7Rules.DoorStep(old(State()), tx, ty)
    {
      if 0 <= tx < 10 && 0 <= ty < 10 && grid.Data(tx, ty) == DOOR {
        var doorColor := grid.BorderColor(tx, ty);
        var opens := UnlockDoor(doorColor);
        if opens {
          px, py := tx, ty;
          grid.SetColor(tx, ty, doorColor);
        }
      }
    }

    /** The "eat cheese" block. */
    method CheeseStep(tx: int, ty: int)
      requires Valid()
      modifies this, grid.data
      ensures Valid() && State() == Dev7Rules.CheeseStep(old(State()), tx, ty)
    {
      if 0 <= tx < 10 && 0 <= ty < 10 && grid.Data(tx, ty) == CHEESE {
        CheckCheeseAt(grid, tx, ty);
        flags := flags.(cheeseEaten := true);
      }
    }

    /** The room-3 check of the rainbow. */
    method Room3Reward()
      requires Valid()
      modifies this, grid.color, grid.data
      ensures Valid() && State() == Dev7Rules.Room3Reward(old(State()))
    {
      if grid.Color(1, 1) == COLOR_RED && grid.Color(4, 3) == COLOR_ORANGE && grid.Color(7, 4) == COLOR_YELLOW &&
         grid.Color(1, 5) == COLOR_GREEN && grid.Color(6, 7) == COLOR_BLUE {
        if !flags.redKey {
          SetLevelKey(grid, 1, 8, COLOR_RED);
          flags := flags.(room3Solved := true);
        }
      }
    }

    /** Back to the hub, with the player put at (x, y). */
    method BackToHub(x: Coord, y: Coord)
      requires Valid()
      modifies this, grid.color, grid.borderColor, grid.border, grid.data
      ensures Valid() && State() == Dev7Rules.BackToHub(old(State()), x, y)
    {
      room := 0;
      LoadRoom(room);
      px, py := x, y;
    }

    /** The hub block of `PS.keyDown`. */
    method HubExits(tx: int, ty: int)
      requires Valid()
      modifies this, grid.color, grid.borderColor, grid.border, grid.data
      ensures Valid() && State() == Dev7Rules.HubExits(old(State()), tx, ty)
    {
      if tx == 9 && ty == 1 {
        room := 1;
        LoadRoom(room);
      }
      if tx == 0 && ty == 1 {
        if flags.blueKey {
          room := 3;
          LoadRoom(room);
        }
      }
      if tx == 1 && ty == 9 {
        room := 4;
        LoadRoom(room);
      }
    }

    /** The room blocks at the end of `PS.keyDown`. */
    method Transitions(tx: int, ty: int)
      requires Valid()
      modifies this, grid.color, grid.borderColor, grid.border, grid.data
      ensures Valid() && State() == Dev7Rules.Transitions(old(State()), tx, ty)
    {
      if room == 0 {
        HubExits(tx, ty);
      }
      if room == 1 && tx == 0 && ty == 1 {
        grid.SetColor(0, 1, COLOR_BLUE);
        BackToHub(8, 1);
      }
      if room == 2 && tx == 3 && ty == 9 {
        BackToHub(3, 1);
      }
      if room == 3 {
        Room3Reward();
        if tx == 9 && ty == 1 {
          BackToHub(1, 1);
        }
      }
      if room == 4 && tx == 1 && ty == 0 {
        BackToHub(1, 8);
      }
    }

    /** The opening of `PS.keyDown`: the colour the bead being left will get, and the
        target of the move. */
    method Aim(key: int) returns (prevColor: int, tx: int, ty: int)
      requires Valid()
      ensures prevColor == Dev7Rules.PrevBlockColor(State())
      ensures (tx, ty) == Dev7Rules.Target(State(), key)
    {
      prevColor := grid.Color(px, py);
      if room == 1 {
        prevColor := ICE_COLOR;
      }
      if prevColor == COLOR_GRAY {
        prevColor := COLOR_WHITE;
      }
      if room == 3 && flags.room3Solved {
        prevColor := grid.BorderColor(px, py);
      }
      tx, ty := px, py;
      if key == KEY_ARROW_UP {
        ty := ty - 1;
      }
      if key == KEY_ARROW_DOWN {
        ty := ty + 1;
      }
      if key == KEY_ARROW_RIGHT {
        tx := tx + 1;
      }
      if key == KEY_ARROW_LEFT {
        tx := tx - 1;
      }
    }

    /** `PS.keyDown` */
    method KeyDown(key: int)
      requires Valid()
      modifies this, grid.color, grid.borderColor, grid.border, grid.data
      ensures Valid() && State() == Dev7Rules.KeyDown(old(State()), key)
      ensures Dev7Rules.Inv(old(State())) ==> Dev7Rules.Inv(State())
    {
      ghost var w0 := State();
      if Dev7Rules.Inv(w0) {
        Dev7Laws.KeyDownKeepsInv(w0, key);
      }
      var prevX, prevY := px, py;
      var prevColor, tx, ty := Aim(key);
      GeneralMove(tx, ty, prevColor);
      CollectStep(prevX, prevY, tx, ty, prevColor);
      DoorStep(tx, ty);
      CheeseStep(tx, ty);
      Transitions(tx, ty);
    }

    /** `PS.touch` */
    method Touch(x: int, y: int)
      requires Valid()
      modifies this, grid.color, grid.borderColor, grid.border, grid.data
      ensures Valid() && State() == Dev7Rules.Touch(old(State()), x, y)
      ensures Dev7Rules.Inv(old(State())) ==> Dev7Rules.Inv(State())
    {
      ghost var w0 := State();
      if Dev7Rules.Inv(w0) {
        Dev7Laws.TouchKeepsInv(w0, x, y);
      }
      if room == 1 && x == 9 && y == 10 {
        var prevX, prevY := px, py;
        LoadRoom(1);
        if prevX == 1 && prevY == 1 {
          grid.SetColor(1, 1, COLOR_GRAY);
        }
      }
    }
  }
}
