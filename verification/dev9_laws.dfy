/** What the rules of resources/Dev9/game.js guarantee: movement legality, the ice trail
    of room 1, keys (and the red key that is never collected), doors, room transitions,
    what a room load builds, and the invariant a session preserves. */
module Dev9Laws {
  import opened Beads
  import opened Tiles
  import opened Dev9Rules

  lemma FlagsGrowTransitive(f: Flags, g: Flags, h: Flags)
    requires FlagsGrow(f, g) && FlagsGrow(g, h)
    ensures FlagsGrow(f, h)
  {
  }

  lemma LoadRoomKeepsInv(w: World, room: int)
    requires Inv(w) && w.room == room && (room == 3 ==> w.flags.blueKey)
    ensures Inv(LoadRoom(w, room)) && FlagsGrow(w.flags, LoadRoom(w, room).flags)
  {
  }

  /** The hub exits as one decision: at most one of them matches the target. */
  function HubExitFor(w: World, tx: int, ty: int): World
  {
    if tx == 9 && ty == 1 then LoadRoom(w.(room := 1), 1)
    else if tx == 4 && ty == 0 then LoadRoom(w.(room := 2), 2)
    else if tx == 0 && ty == 1 && w.flags.blueKey then LoadRoom(w.(room := 3), 3)
    else if tx == 1 && ty == 9 then LoadRoom(w.(room := 4), 4)
    else w
  }

  /** The room blocks as one decision on the room the press started in: a room just
      entered from the hub never has its own exit on the target that led into it. */
  function TransitionFor(w: World, tx: int, ty: int): World
  {
    if w.room == 0 then HubExitFor(w, tx, ty)
    else if w.room == 1 then (if tx == 0 && ty == 1 then BackToHub(w, 8, 1) else w)
    else if w.room == 2 then (if tx == 4 && ty == 9 then BackToHub(w, 4, 1) else w)
    else if w.room == 3 then (if tx == 9 && ty == 1 then BackToHub(w, 1, 1) else w)
    else if w.room == 4 then (if tx == 1 && ty == 0 then BackToHub(w, 1, 8) else w)
    else w
  }

  /** The sequential room blocks of the handler agree with the one-decision reading. */
  lemma TransitionsByRoom(w: World, tx: int, ty: int)
    ensures HubExits(w, tx, ty) == HubExitFor(w, tx, ty)
    ensures Transitions(w, tx, ty) == TransitionFor(w, tx, ty)
  {
  }

  lemma BackToHubKeepsInv(w: World, x: Coord, y: Coord)
    requires Inv(w)
    ensures Inv(BackToHub(w, x, y)) && FlagsGrow(w.flags, BackToHub(w, x, y).flags)
  {
    LoadRoomKeepsInv(w.(room := 0), 0);
  }

  lemma HubExitKeepsInv(w: World, tx: int, ty: int)
    requires Inv(w) && w.room == 0
    ensures Inv(HubExitFor(w, tx, ty)) && FlagsGrow(w.flags, HubExitFor(w, tx, ty).flags)
  {
    if tx == 9 && ty == 1 {
      LoadRoomKeepsInv(w.(room := 1), 1);
    } else if tx == 4 && ty == 0 {
      LoadRoomKeepsInv(w.(room := 2), 2);
    } else if tx == 0 && ty == 1 && w.flags.blueKey {
      LoadRoomKeepsInv(w.(room := 3), 3);
    } else if tx == 1 && ty == 9 {
      LoadRoomKeepsInv(w.(room := 4), 4);
    }
  }

  /** The room blocks keep the invariant and never clear a flag. */
  lemma TransitionsKeepInv(w: World, tx: int, ty: int)
    requires Inv(w)
    ensures Inv(Transitions(w, tx, ty)) && FlagsGrow(w.flags, Transitions(w, tx, ty).flags)
  {
    TransitionsByRoom(w, tx, ty);
    if w.room == 0 {
      HubExitKeepsInv(w, tx, ty);
    } else if w.room == 1 {
      BackToHubKeepsInv(w, 8, 1);
    } else if w.room == 2 {
      BackToHubKeepsInv(w, 4, 1);
    } else if w.room == 3 {
      BackToHubKeepsInv(w, 1, 1);
    } else {
      BackToHubKeepsInv(w, 1, 8);
    }
  }

  lemma GeneralMoveKeepsInv(w: World, tx: int, ty: int, pc: int)
    requires Inv(w)
    ensures Inv(GeneralMove(w, tx, ty, pc)) && GeneralMove(w, tx, ty, pc).flags == w.flags
  {
  }

  lemma CollectStepKeepsInv(w: World, px: Coord, py: Coord, tx: int, ty: int, pc: int)
    requires Inv(w)
    ensures Inv(CollectStep(w, px, py, tx, ty, pc)) && FlagsGrow(w.flags, CollectStep(w, px, py, tx, ty, pc).flags)
  {
  }

  lemma DoorStepKeepsInv(w: World, tx: int, ty: int)
    requires Inv(w)
    ensures Inv(DoorStep(w, tx, ty)) && FlagsGrow(w.flags, DoorStep(w, tx, ty).flags)
  {
  }

  /** One key press keeps the invariant and never clears a flag. */
  lemma KeyDownKeepsInv(w: World, key: int)
    requires Inv(w)
    ensures Inv(KeyDown(w, key)) && FlagsGrow(w.flags, KeyDown(w, key).flags)
  {
    var t := Target(w, key);
    var pc := PrevBlockColor(w);
    var w1 := GeneralMove(w, t.0, t.1, pc);
    GeneralMoveKeepsInv(w, t.0, t.1, pc);
    var w2 := CollectStep(w1, w.px, w.py, t.0, t.1, pc);
    CollectStepKeepsInv(w1, w.px, w.py, t.0, t.1, pc);
    var w3 := DoorStep(w2, t.0, t.1);
    DoorStepKeepsInv(w2, t.0, t.1);
    FlagsGrowTransitive(w.flags, w2.flags, w3.flags);
    TransitionsKeepInv(w3, t.0, t.1);
    FlagsGrowTransitive(w.flags, w3.flags, Transitions(w3, t.0, t.1).flags);
    assert KeyDown(w, key) == Transitions(w3, t.0, t.1);
  }

  /** `PS.init` starts a session in which the invariant holds. */
  lemma InitialInv()
    ensures Inv(Initial())
  {
    var w0 := World(ZeroBorders(FreshBoard()), 0, 0, 0, NoFlags());
    assert w0.board.Color(0, 10) == COLOR_WHITE && w0.board.Color(1, 10) == COLOR_WHITE;
  }

  /** A target the mouse cannot enter: off the play area, or a tag that the movement, key
      and door blocks all refuse. */
  predicate Blocked(w: World, x: int, y: int)
  {
    !InPlay(x, y) ||
    (var tag := w.board.Data(x, y);
     !Walkable(tag) && tag != KEY && !(tag == DOOR && UnlockDoor(w, w.board.BorderColor(x, y)).1))
  }

  /** Away from an exit the room blocks change nothing. */
  lemma TransitionsStay(w: World, tx: int, ty: int)
    requires !IsExit(w, tx, ty)
    ensures Transitions(w, tx, ty) == w
  {
    TransitionsByRoom(w, tx, ty);
  }

  lemma GeneralMoveStays(w: World, tx: int, ty: int, pc: int)
    requires !(InPlay(tx, ty) && Walkable(w.board.Data(tx, ty)))
    ensures GeneralMove(w, tx, ty, pc) == w
  {
  }

  lemma CollectStepStays(w: World, px: Coord, py: Coord, tx: int, ty: int, pc: int)
    requires !(InPlay(tx, ty) && w.board.Data(tx, ty) == KEY)
    ensures CollectStep(w, px, py, tx, ty, pc) == w
  {
  }

  lemma DoorStepStays(w: World, tx: int, ty: int)
    requires !(InPlay(tx, ty) && w.board.Data(tx, ty) == DOOR && UnlockDoor(w, w.board.BorderColor(tx, ty)).1)
    ensures DoorStep(w, tx, ty) == w
  {
  }

  /** A press towards a blocked target that is not an exit changes nothing at all: the
      grid, the mouse, the room and the flags stay as they were. */
  lemma KeyDownBlocked(w: World, key: int)
    requires Blocked(w, Target(w, key).0, Target(w, key).1) && !IsExit(w, Target(w, key).0, Target(w, key).1)
    ensures KeyDown(w, key) == w
  {
    var t := Target(w, key);
    var pc := PrevBlockColor(w);
    GeneralMoveStays(w, t.0, t.1, pc);
    CollectStepStays(w, w.px, w.py, t.0, t.1, pc);
    DoorStepStays(w, t.0, t.1);
    TransitionsStay(w, t.0, t.1);
  }

  /** Outside room 1, a press onto a walkable bead that is not an exit moves the mouse
      there and only recolours the vacated bead. */
  lemma KeyDownWalks(w: World, key: int)
    requires w.room != 1
    requires InPlay(Target(w, key).0, Target(w, key).1)
    requires Walkable(w.board.Data(Target(w, key).0, Target(w, key).1))
    requires !IsExit(w, Target(w, key).0, Target(w, key).1)
    ensures KeyDown(w, key) == w.(board := w.board.WithColor(w.px, w.py, PrevBlockColor(w)),
                                  px := Target(w, key).0, py := Target(w, key).1)
  {
    var t := Target(w, key);
    var pc := PrevBlockColor(w);
    var w1 := GeneralMove(w, t.0, t.1, pc);
    assert w1 == w.(board := w.board.WithColor(w.px, w.py, pc), px := t.0, py := t.1);
    CollectStepStays(w1, w.px, w.py, t.0, t.1, pc);
    DoorStepStays(w1, t.0, t.1);
    TransitionsStay(w1, t.0, t.1);
  }

  /** What the ice trail does to the vacated bead (px, py) when the mouse steps onto a
      different bead (tx, ty): it becomes cracking ice after ice and plain ice after
      anything else, so it never becomes a wall; the target is untouched. */
  lemma IceTrailEffect(b: Board, px: Coord, py: Coord, tx: Coord, ty: Coord)
    requires px != tx || py != ty
    ensures var r := IceTrail(b, px, py, tx, ty);
            r.Data(tx, ty) == b.Data(tx, ty) && r.Color(tx, ty) == b.Color(tx, ty) &&
            (b.Data(tx, ty) == ICE ==> r.Data(px, py) == CRACKING && r.Color(px, py) == CRACKING_COLOR) &&
            (b.Data(tx, ty) != ICE ==> r.Data(px, py) == ICE && r.Color(px, py) == ICE_COLOR) &&
            r.Data(px, py) != WALL
  {
    IdxInjective(px, py, tx, ty);
  }

  /** Room 1: an arrow press onto a walkable bead other than the exit moves the mouse and
      leaves ice behind, cracked if the target was ice. Cracked ice never breaks into a
      wall in this version: the `iceStatus == 1` branch of the handler is unreachable. */
  lemma KeyDownOnIce(w: World, key: int)
    requires w.room == 1 && Step(key) != (0, 0)
    requires InPlay(Target(w, key).0, Target(w, key).1)
    requires Walkable(w.board.Data(Target(w, key).0, Target(w, key).1))
    requires Target(w, key) != (0, 1)
    ensures var r := KeyDown(w, key);
            var t := Target(w, key);
            var tag := w.board.Data(t.0, t.1);
            r.room == 1 && r.px == t.0 && r.py == t.1 && r.flags == w.flags &&
            r.board.Data(w.px, w.py) == (if tag == ICE then CRACKING else ICE) &&
            r.board.Color(w.px, w.py) == (if tag == ICE then CRACKING_COLOR else ICE_COLOR)
  {
    var t := Target(w, key);
    var pc := PrevBlockColor(w);
    var w1 := GeneralMove(w, t.0, t.1, pc);
    assert w1 == w.(board := IceTrail(w.board, w.px, w.py, t.0, t.1), px := t.0, py := t.1);
    IceTrailEffect(w.board, w.px, w.py, t.0, t.1);
    CollectStepStays(w1, w.px, w.py, t.0, t.1, pc);
    DoorStepStays(w1, t.0, t.1);
    TransitionsStay(w1, t.0, t.1);
  }

  /** Room 1: a key that is not an arrow makes the target the mouse's own bead. Standing on
      a walkable bead, the trail rule refreezes that bead and, finding ice there, at once
      cracks it: the mouse stays on cracking ice and is never walled in. */
  lemma KeyDownNonArrowOnIce(w: World, key: int)
    requires w.room == 1 && Step(key) == (0, 0)
    requires Walkable(w.board.Data(w.px, w.py)) && (w.px, w.py) != (0, 1)
    ensures var r := KeyDown(w, key);
            r.room == 1 && r.px == w.px && r.py == w.py && r.flags == w.flags &&
            r.board.Data(w.px, w.py) == CRACKING && r.board.Color(w.px, w.py) == CRACKING_COLOR
  {
    var pc := PrevBlockColor(w);
    var w1 := GeneralMove(w, w.px, w.py, pc);
    assert w1 == w.(board := IceTrail(w.board, w.px, w.py, w.px, w.py));
    assert w1.board.Data(w.px, w.py) == CRACKING;
    CollectStepStays(w1, w.px, w.py, w.px, w.py, pc);
    DoorStepStays(w1, w.px, w.py);
    TransitionsStay(w1, w.px, w.py);
  }

  /** What the collect-key block does when the target holds a key. */
  lemma CollectStepEffect(w: World, px: Coord, py: Coord, tx: Coord, ty: Coord, pc: int)
    requires w.board.Data(tx, ty) == KEY
    ensures var r := CollectStep(w, px, py, tx, ty, pc);
            var c := w.board.Color(tx, ty);
            r.px == tx && r.py == ty &&
            r.flags == w.flags.(greenKey := w.flags.greenKey || c == COLOR_GREEN,
                                blueKey := w.flags.blueKey || c == COLOR_BLUE) &&
            r.board.Data(tx, ty) == (if w.room == 1 && tx == 8 && ty == 8 then CRACKING
                                     else if c in {COLOR_GREEN, COLOR_BLUE} then NONE else KEY) &&
            r.board.Color(0, 10) == (if c == COLOR_GREEN then COLOR_GREEN else w.board.Color(0, 10)) &&
            r.board.Color(1, 10) == (if c == COLOR_BLUE then COLOR_BLUE else w.board.Color(1, 10))
  {
    var c := w.board.Color(tx, ty);
    var w1 := CollectKey(w.(px := tx, py := ty), tx, ty, c);
    var b2 := w1.board.WithColor(px, py, pc);
    WriteKeepsBar(w1.board, px, py, pc);
    IceAtKeepsBar(b2, 8, 8, 1);
    IdxInjective(tx, ty, 8, 8);
  }

  /** Onto a key that is not an exit, only the collect-key block acts. */
  lemma KeyDownOntoKey(w: World, key: int)
    requires InPlay(Target(w, key).0, Target(w, key).1)
    requires w.board.Data(Target(w, key).0, Target(w, key).1) == KEY
    requires !IsExit(w, Target(w, key).0, Target(w, key).1) && (w.room != 0 || Target(w, key) != (0, 1))
    ensures var t := Target(w, key);
            KeyDown(w, key) == CollectStep(w, w.px, w.py, t.0, t.1, PrevBlockColor(w))
  {
    var t := Target(w, key);
    var pc := PrevBlockColor(w);
    GeneralMoveStays(w, t.0, t.1, pc);
    var w2 := CollectStep(w, w.px, w.py, t.0, t.1, pc);
    CollectStepEffect(w, w.px, w.py, t.0, t.1, pc);
    DoorStepStays(w2, t.0, t.1);
    TransitionsStay(w2, t.0, t.1);
  }

  /** Stepping onto a key moves the mouse there. A green or blue key lights its inventory
      bead and sets its flag; a key of any other colour only lets the mouse stand on it. */
  lemma KeyDownCollects(w: World, key: int)
    requires InPlay(Target(w, key).0, Target(w, key).1)
    requires w.board.Data(Target(w, key).0, Target(w, key).1) == KEY
    requires !IsExit(w, Target(w, key).0, Target(w, key).1) && (w.room != 0 || Target(w, key) != (0, 1))
    ensures var r := KeyDown(w, key);
            var t := Target(w, key);
            var c := w.board.Color(t.0, t.1);
            r.room == w.room && r.px == t.0 && r.py == t.1 &&
            r.flags == w.flags.(greenKey := w.flags.greenKey || c == COLOR_GREEN,
                                blueKey := w.flags.blueKey || c == COLOR_BLUE) &&
            r.board.Color(0, 10) == (if c == COLOR_GREEN then COLOR_GREEN else w.board.Color(0, 10)) &&
            r.board.Color(1, 10) == (if c == COLOR_BLUE then COLOR_BLUE else w.board.Color(1, 10))
  {
    var t := Target(w, key);
    KeyDownOntoKey(w, key);
    CollectStepEffect(w, w.px, w.py, t.0, t.1, PrevBlockColor(w));
  }

  /** The red key of room 3 cannot be collected: stepping onto it moves the mouse there
      and leaves the key's tag, the flags and the inventory bar as they were. */
  lemma KeyDownRedKeyStays(w: World, key: int)
    requires w.room == 3
    requires InPlay(Target(w, key).0, Target(w, key).1)
    requires w.board.Data(Target(w, key).0, Target(w, key).1) == KEY
    requires w.board.Color(Target(w, key).0, Target(w, key).1) == COLOR_RED
    requires Target(w, key) != (9, 1)
    ensures var r := KeyDown(w, key);
            var t := Target(w, key);
            r.room == 3 && r.px == t.0 && r.py == t.1 && r.flags == w.flags &&
            r.board.Data(t.0, t.1) == KEY && BarKept(r.board, w.board)
  {
    var t := Target(w, key);
    KeyDownOntoKey(w, key);
    CollectStepEffect(w, w.px, w.py, t.0, t.1, PrevBlockColor(w));
    WriteKeepsBar(w.board, w.px, w.py, PrevBlockColor(w));
  }

  /** The reset loop of `PS.loadRoom`: every play-area bead is white with border 0 and no
      tag; border colours everywhere and the rest of row 10 are kept. */
  lemma ResetPlayAreaSpec(b: Board)
    ensures var r := ResetPlayArea(b);
            (forall x, y :: InPlay(x, y) ==> r.Color(x, y) == COLOR_WHITE && r.Border(x, y) == 0 && r.Data(x, y) == NONE) &&
            r.borderColor == b.borderColor &&
            (forall x :: 0 <= x < Width ==>
               r.Color(x, 10) == b.Color(x, 10) && r.Border(x, 10) == b.Border(x, 10) && r.Data(x, 10) == b.Data(x, 10))
  {
  }

  /** The hub shows the green key exactly when inventory bead (0, 10) is not green. */
  lemma LoadHubGreenKey(w: World)
    ensures LoadRoom(w, 0).board.Data(3, 4) == KEY <==> w.board.Color(0, 10) != COLOR_GREEN
  {
    var reset := ResetPlayArea(w.board);
    ResetPlayAreaSpec(w.board);
    var k := if reset.Color(0, 10) != COLOR_GREEN then [Key(3, 4, COLOR_GREEN)] else [];
    var rest := HubFixtures(w.flags.greenKey, w.flags.blueEntered);
    assert Avoids(rest, 3, 4);
    ApplyAllThenAvoids(reset, k, rest, 3, 4);
    if k != [] {
      ApplyAllSnoc(reset, [], Key(3, 4, COLOR_GREEN));
      assert [] + [Key(3, 4, COLOR_GREEN)] == k;
    }
  }

  /** The ice room shows the blue key at (9, 8) exactly when it has not been collected;
      otherwise that bead stays a wall. */
  lemma LoadIceRoomBlueKey(w: World)
    ensures LoadRoom(w, 1).board.Data(9, 8) == (if w.flags.blueKey then WALL else KEY)
  {
    var reset := ResetPlayArea(w.board);
    var walled := Room1Walls(reset);
    assert walled.Data(9, 8) == WALL;
    var front := [Wall(9, 1, WALL_ICE_COLOR), Door(0, 1, COLOR_WHITE)] + IceSweep(2, 9, [1, 5, 8])
                 + IceFloor() + IceSweep(2, 9, [3]);
    IceSweepAvoids(2, 9, [1, 5, 8], 9, 8);
    IceSweepAvoids(2, 9, [3], 9, 8);
    AvoidsAppend([Wall(9, 1, WALL_ICE_COLOR), Door(0, 1, COLOR_WHITE)], IceSweep(2, 9, [1, 5, 8]), 9, 8);
    AvoidsAppend([Wall(9, 1, WALL_ICE_COLOR), Door(0, 1, COLOR_WHITE)] + IceSweep(2, 9, [1, 5, 8]), IceFloor(), 9, 8);
    AvoidsAppend([Wall(9, 1, WALL_ICE_COLOR), Door(0, 1, COLOR_WHITE)] + IceSweep(2, 9, [1, 5, 8]) + IceFloor(),
                 IceSweep(2, 9, [3]), 9, 8);
    ApplyAllAvoids(walled, front, 9, 8);
    if !w.flags.blueKey {
      ApplyAllSnoc(walled, front, Key(9, 8, COLOR_BLUE));
    } else {
      assert IceRoomLayout(true) == front + [];
      assert front + [] == front;
    }
  }

  /** Room 3 always shows the red key at (6, 3) and the blue exit at (9, 1), and loading it
      sets `BLUEENTERED`. */
  lemma LoadRoom3(w: World)
    ensures var r := LoadRoom(w, 3);
            r.board.Data(6, 3) == KEY && r.board.Color(6, 3) == COLOR_RED &&
            r.board.Data(9, 1) == DOOR && r.board.BorderColor(9, 1) == COLOR_BLUE &&
            r.px == 8 && r.py == 1 && r.flags.blueEntered
  {
    var reset := ResetPlayArea(w.board);
    var front := [Paint(9, 1, COLOR_BLUE), Door(9, 1, COLOR_BLUE)];
    ApplyAllSnoc(reset, front, Key(6, 3, COLOR_RED));
    assert Room3Layout() == front + [Key(6, 3, COLOR_RED)];
    ApplyAllSnoc(reset, [Paint(9, 1, COLOR_BLUE)], Door(9, 1, COLOR_BLUE));
    assert front == [Paint(9, 1, COLOR_BLUE)] + [Door(9, 1, COLOR_BLUE)];
    IdxInjective(9, 1, 6, 3);
  }

  /** Whether a door of border colour `c` opens for a mouse holding the keys `f`. */
  predicate Unlocks(f: Flags, c: int)
  {
    c == COLOR_WHITE || (c == COLOR_GREEN && f.greenKey) || (c == COLOR_BLUE && f.blueKey)
  }

  /** With the key flags in step with the bar, `PS.unlockDoor` opens a door exactly when
      it is white or its key has been collected; a red door never opens. */
  lemma UnlockDoorByKeys(w: World, c: int)
    requires KeysInStep(w)
    ensures UnlockDoor(w, c).1 <==> Unlocks(w.flags, c)
  {
  }

  /** A press towards a door (not an exit) moves the mouse onto it exactly when
      `PS.unlockDoor` returns 1, which for a consistent state means the door is white or
      its key is held; otherwise the mouse stays. */
  lemma KeyDownDoor(w: World, key: int)
    requires InPlay(Target(w, key).0, Target(w, key).1)
    requires w.board.Data(Target(w, key).0, Target(w, key).1) == DOOR
    requires !IsExit(w, Target(w, key).0, Target(w, key).1)
    ensures var r := KeyDown(w, key);
            var t := Target(w, key);
            var opens := UnlockDoor(w, w.board.BorderColor(t.0, t.1)).1;
            r.room == w.room && (r.px, r.py) == (if opens then t else (w.px, w.py))
    ensures KeysInStep(w) ==>
            var r := KeyDown(w, key);
            var t := Target(w, key);
            (r.px, r.py) == (if Unlocks(w.flags, w.board.BorderColor(t.0, t.1)) then t else (w.px, w.py))
  {
    var t := Target(w, key);
    var pc := PrevBlockColor(w);
    GeneralMoveStays(w, t.0, t.1, pc);
    CollectStepStays(w, w.px, w.py, t.0, t.1, pc);
    var w3 := DoorStep(w, t.0, t.1);
    TransitionsStay(w3, t.0, t.1);
  }

  /** Room 0: the target (0, 1) switches to room 3, with the mouse at (8, 1), exactly when
      the blue key is held (a key on (0, 1) itself aside). */
  lemma KeyDownHubBlueDoor(w: World, key: int)
    requires w.room == 0 && Target(w, key) == (0, 1) && w.board.Data(0, 1) != KEY
    ensures KeyDown(w, key).room == 3 <==> w.flags.blueKey
    ensures w.flags.blueKey ==> KeyDown(w, key).px == 8 && KeyDown(w, key).py == 1
  {
    var pc := PrevBlockColor(w);
    var w1 := GeneralMove(w, 0, 1, pc);
    CollectStepStays(w1, w.px, w.py, 0, 1, pc);
    var w3 := DoorStep(w1, 0, 1);
    assert w3.room == 0 && w3.flags.blueKey == w.flags.blueKey;
    TransitionsByRoom(w3, 0, 1);
  }

  /** Room 0: the exits (9, 1), (4, 0) and (1, 9) load rooms 1, 2 and 4 with the mouse at
      (1, 1), (4, 8) and (1, 1). */
  lemma KeyDownLeavesHub(w: World, key: int)
    requires w.room == 0 && Target(w, key) in {(9, 1), (4, 0), (1, 9)}
    ensures var r := KeyDown(w, key);
            if Target(w, key) == (9, 1) then r.room == 1 && r.px == 1 && r.py == 1
            else if Target(w, key) == (4, 0) then r.room == 2 && r.px == 4 && r.py == 8
            else r.room == 4 && r.px == 1 && r.py == 1
  {
    var t := Target(w, key);
    var pc := PrevBlockColor(w);
    var w1 := GeneralMove(w, t.0, t.1, pc);
    var w2 := CollectStep(w1, w.px, w.py, t.0, t.1, pc);
    var w3 := DoorStep(w2, t.0, t.1);
    assert w3.room == 0;
    TransitionsByRoom(w3, t.0, t.1);
  }

  /** The exits of rooms 1, 2, 3 and 4 load the hub with the mouse at (8, 1), (4, 1),
      (1, 1) and (1, 8). */
  lemma KeyDownReturnsToHub(w: World, key: int)
    requires w.room != 0 && IsExit(w, Target(w, key).0, Target(w, key).1)
    ensures var r := KeyDown(w, key);
            r.room == 0 &&
            (r.px, r.py) == (if w.room == 1 then (8, 1) else if w.room == 2 then (4, 1)
                             else if w.room == 3 then (1, 1) else (1, 8))
  {
    var t := Target(w, key);
    var pc := PrevBlockColor(w);
    var w1 := GeneralMove(w, t.0, t.1, pc);
    var w2 := CollectStep(w1, w.px, w.py, t.0, t.1, pc);
    var w3 := DoorStep(w2, t.0, t.1);
    assert w3.room == w.room;
    TransitionsByRoom(w3, t.0, t.1);
  }
}
