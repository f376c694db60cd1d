/** resources/Dev9/game.js as the host runs it: the handlers update the bead grid in place
    and reassign the game's globals; each method is proved to leave exactly the state the
    matching function of Dev9Rules describes. */
module Dev9Game {
  import opened Beads
  import opened Tiles
  import opened Dev9Rules
  import Dev9Laws

  /** The nested reset loop of `PS.loadRoom`, column by column; border colours are not
      written. */
  method ResetPlayAreaLoop(g: Grid)
    requires g.Valid()
    modifies g.color, g.border, g.data
    ensures g.Snapshot() == ResetPlayArea(old(g.Snapshot()))
  {
    ghost var b0 := g.Snapshot();
    for x := 0 to 10
      invariant g.borderColor[..] == b0.borderColor
      invariant forall i :: 0 <= i < Cells ==>
        g.border[i] == (if Visited(i, x, 0) then 0 else b0.border[i]) &&
        g.color[i] == (if Visited(i, x, 0) then COLOR_WHITE else b0.color[i]) &&
        g.data[i] == (if Visited(i, x, 0) then NONE else b0.data[i])
    {
      for y := 0 to 10
        invariant g.borderColor[..] == b0.borderColor
        invariant forall i :: 0 <= i < Cells ==>
          g.border[i] == (if Visited(i, x, y) then 0 else b0.border[i]) &&
          g.color[i] == (if Visited(i, x, y) then COLOR_WHITE else b0.color[i]) &&
          g.data[i] == (if Visited(i, x, y) then NONE else b0.data[i])
      {
        var k := Idx(x, y);
        assert Col(k) == x && Row(k) == y;
        g.border[k] := 0;
        g.color[k] := COLOR_WHITE;
        g.data[k] := NONE;
      }
    }
    assert g.border[..] == ResetPlayArea(b0).border;
    assert g.color[..] == ResetPlayArea(b0).color;
    assert g.data[..] == ResetPlayArea(b0).data;
  }

  /** The room-1 ice trail on the bead just left. */
  method IceTrailAt(g: Grid, px: Coord, py: Coord, tx: Coord, ty: Coord)
    requires g.Valid()
    modifies g.color, g.data
    ensures g.Snapshot() == IceTrail(old(g.Snapshot()), px, py, tx, ty)
  {
    var iceStatus := SetIce(g, px, py, 0);
    if g.Data(tx, ty) == ICE && iceStatus == 0 {
      var _ := SetIce(g, px, py, 1);
    }
    if g.Data(tx, ty) == CRACKING && iceStatus == 1 {
      // The handler walls the bead in here, but `PS.setIce` without a level has just
      // returned 0, so this branch is never taken.
      assert false;
    }
  }

  /** The hub part of `PS.loadRoom`: the green key unless inventory bead (0, 10) is
      green, then the fixtures. */
  method PlaceHub(g: Grid, greenKey: bool, blueEntered: bool)
    requires g.Valid()
    modifies g.color, g.borderColor, g.border, g.data
    ensures g.Snapshot() == ApplyAll(old(g.Snapshot()), HubLayout(old(g.Snapshot()).Color(0, 10), greenKey, blueEntered))
  {
    ghost var b0 := g.Snapshot();
    if g.Color(0, 10) != COLOR_GREEN {
      SetLevelKey(g, 3, 4, COLOR_GREEN);
    }
    PlaceAll(g, HubFixtures(greenKey, blueEntered));
    ApplyAllAppend(b0, if b0.Color(0, 10) != COLOR_GREEN then [Key(3, 4, COLOR_GREEN)] else [],
                   HubFixtures(greenKey, blueEntered));
    ApplyAllSnoc(b0, [], Key(3, 4, COLOR_GREEN));
    assert [] + [Key(3, 4, COLOR_GREEN)] == [Key(3, 4, COLOR_GREEN)];
  }

  /** The globals of the game, with the grid they draw on. */
  class Game {
    const grid: Grid
    var room: int
    var px: Coord
    var py: Coord
    var flags: Flags

    ghost predicate Valid()
      reads this
    {
      grid.Valid()
    }

    /** The whole game state as a value. */
    function State(): World
      reads this, grid.color, grid.borderColor, grid.border, grid.data
      requires Valid()
    {
      World(grid.Snapshot(), room, px, py, flags)
    }

    /** `PS.init` */
    constructor ()
      ensures Valid() && State() == Initial() && Dev9Rules.Inv(State())
      ensures fresh(grid.color) && fresh(grid.borderColor) && fresh(grid.border) && fresh(grid.data)
    {
      grid := new Grid();
      room := 0;
      px, py := 0, 0;
      flags := NoFlags();
      new;
      ZeroBordersLoop(grid);
      LoadRoom(0);
      TagInventoryBarLoop(grid);
      px, py := 5, 4;
      Dev9Laws.InitialInv();
    }

    /** `PS.loadRoom(r)` */
    method LoadRoom(r: int)
      requires Valid()
      modifies this, grid.color, grid.border, grid.borderColor, grid.data
      ensures Valid() && State() == Dev9Rules.LoadRoom(old(State()), r)
    {
      ResetPlayAreaLoop(grid);
      if r == 0 {
        PlaceHub(grid, flags.greenKey, flags.blueEntered);
      } else if r == 1 {
        px, py := 1, 1;
        PlaceIceRoom(grid, flags.blueKey);
      } else if r == 2 {
        px, py := 4, 8;
        PlaceAll(grid, Room2Layout());
      } else if r == 3 {
        px, py := 8, 1;
        flags := flags.(blueEntered := true);
        PlaceAll(grid, Room3Layout());
      } else if r == 4 {
        px, py := 1, 1;
        PlaceAll(grid, Room4Layout());
      }
    }

    /** The "general movement" block. */
    method GeneralMove(tx: int, ty: int, prevColor: int)
      requires Valid()
      modifies this, grid.color, grid.data
      ensures Valid() && State() == Dev9Rules.GeneralMove(old(State()), tx, ty, prevColor)
    {
      if 0 <= tx <= 9 && 0 <= ty <= 9 {
        var tag := grid.Data(tx, ty);
        if tag == NONE || tag == ICE || tag == CRACKING {
          var prevX, prevY := px, py;
          px, py := tx, ty;
          if room != 1 {
            grid.SetColor(prevX, prevY, prevColor);
          }
          if room == 1 {
            IceTrailAt(grid, prevX, prevY, tx, ty);
          }
        }
      }
    }

    /** `PS.collectKey` */
    method CollectKey(x: Coord, y: Coord, keyColor: int)
      requires Valid()
      modifies this, grid.color, grid.data
      ensures Valid() && State() == Dev9Rules.CollectKey(old(State()), x, y, keyColor)
    {
      if keyColor == COLOR_GREEN {
        grid.SetColor(0, 10, COLOR_GREEN);
        grid.SetData(x, y, NONE);
        flags := flags.(greenKey := true);
      }
      if keyColor == COLOR_BLUE {
        grid.SetColor(1, 10, COLOR_BLUE);
        grid.SetData(x, y, NONE);
        flags := flags.(blueKey := true);
      }
    }

    /** The "collect key" block; (prevX, prevY) is where the mouse stood. */
    method CollectStep(prevX: Coord, prevY: Coord, tx: int, ty: int, prevColor: int)
      requires Valid()
      modifies this, grid.color, grid.data
      ensures Valid() && State() == Dev9Rules.CollectStep(old(State()), prevX, prevY, tx, ty, prevColor)
    {
      if 0 <= tx < 10 && 0 <= ty < 10 && grid.Data(tx, ty) == KEY {
        var keyColor := grid.Color(tx, ty);
        px, py := tx, ty;
        CollectKey(tx, ty, keyColor);
        grid.SetColor(prevX, prevY, prevColor);
        if room == 1 {
          var _ := SetIce(grid, 8, 8, 1);
        }
      }
    }

    /** `PS.unlockDoor`: whether it returns 1. */
    method UnlockDoor(doorColor: int) returns (opens: bool)
      requires Valid()
      modifies this
      ensures Valid() && (State(), opens) == Dev9Rules.UnlockDoor(old(State()), doorColor)
    {
      if doorColor == COLOR_GREEN {
        return grid.Color(0, 10) == COLOR_GREEN;
      }
      if doorColor == COLOR_BLUE {
        if grid.Color(1, 10) == COLOR_BLUE {
          flags := flags.(blueEntered := true);
          return true;
        } else {
          return false;
        }
      }
      return doorColor == COLOR_WHITE;
    }

    /** The "unlock door" block. */
    method DoorStep(tx: int, ty: int)
      requires Valid()
      modifies this, grid.color
      ensures Valid() && State() == Dev9Rules.DoorStep(old(State()), tx, ty)
    {
      if 0 <= tx < 10 && 0 <= ty < 10 && grid.Data(tx, ty) == DOOR {
        var doorColor := grid.BorderColor(tx, ty);
        var opens := UnlockDoor(doorColor);
        if opens {
          px, py := tx, ty;
          grid.SetColor(tx, ty, doorColor);
        }
      }
    }

    /** Back to the hub, with the mouse put at (x, y). */
    method BackToHub(x: Coord, y: Coord)
      requires Valid()
      modifies this, grid.color, grid.borderColor, grid.border, grid.data
      ensures Valid() && State() == Dev9Rules.BackToHub(old(State()), x, y)
    {
      room := 0;
      LoadRoom(room);
      px, py := x, y;
    }

    /** The hub block of `PS.keyDown`. */
    method HubExits(tx: int, ty: int)
      requires Valid()
      modifies this, grid.color, grid.borderColor, grid.border, grid.data
      ensures Valid() && State() == Dev9Rules.HubExits(old(State()), tx, ty)
    {
      if tx == 9 && ty == 1 {
        room := 1;
        LoadRoom(room);
      }
      if tx == 4 && ty == 0 {
        room := 2;
        LoadRoom(room);
      }
      if tx == 0 && ty == 1 {
        if flags.blueKey {
          room := 3;
          LoadRoom(room);
        }
      }
      if tx == 1 && ty == 9 {
        room := 4;
        LoadRoom(room);
      }
    }

    /** The room blocks at the end of `PS.keyDown`. */
    method Transitions(tx: int, ty: int)
      requires Valid()
      modifies this, grid.color, grid.borderColor, grid.border, grid.data
      ensures Valid() && State() == Dev9Rules.Transitions(old(State()), tx, ty)
    {
      if room == 0 {
        HubExits(tx, ty);
      }
      if room == 1 && tx == 0 && ty == 1 {
        BackToHub(8, 1);
      }
      if room == 2 && tx == 4 && ty == 9 {
        BackToHub(4, 1);
      }
      if room == 3 && tx == 9 && ty == 1 {
        BackToHub(1, 1);
      }
      if room == 4 && tx == 1 && ty == 0 {
        BackToHub(1, 8);
      }
    }

    /** The opening of `PS.keyDown`: the colour the bead being left will get, and the
        target of the move. */
    method Aim(key: int) returns (prevColor: int, tx: int, ty: int)
      requires Valid()
      ensures prevColor == Dev9Rules.PrevBlockColor(State())
      ensures (tx, ty) == Dev9Rules.Target(State(), key)
    {
      prevColor := grid.Color(px, py);
      if room == 1 {
        prevColor := ICE_COLOR;
      }
      if prevColor == COLOR_GRAY {
        prevColor := COLOR_WHITE;
      }
      tx, ty := px, py;
      if key == KEY_ARROW_UP {
        ty := ty - 1;
      }
      if key == KEY_ARROW_DOWN {
        ty := ty + 1;
      }
      if key == KEY_ARROW_RIGHT {
        tx := tx + 1;
      }
      if key == KEY_ARROW_LEFT {
        tx := tx - 1;
      }
    }

    /** `PS.keyDown` */
    method KeyDown(key: int)
      requires Valid()
      modifies this, grid.color, grid.borderColor, grid.border, grid.data
      ensures Valid() && State() == Dev9Rules.KeyDown(old(State()), key)
      ensures Dev9Rules.Inv(old(State())) ==> Dev9Rules.Inv(State())
    {
      ghost var w0 := State();
      if Dev9Rules.Inv(w0) {
        Dev9Laws.KeyDownKeepsInv(w0, key);
      }
      var prevX, prevY := px, py;
      var prevColor, tx, ty := Aim(key);
      GeneralMove(tx, ty, prevColor);
      CollectStep(prevX, prevY, tx, ty, prevColor);
      DoorStep(tx, ty);
      Transitions(tx, ty);
    }
  }
}
