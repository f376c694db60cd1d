/** What the rules of resources/Dev7/game.js guarantee: movement legality, the key,
    door, ice and colour-tile effects, room transitions, what a room load keeps, and the
    invariant a session preserves. */
module Dev7Laws {
  import opened Beads
  import opened Tiles
  import opened Dev7Rules

  /** No flag is ever cleared and the tile queue only loses elements from its front. */
  predicate Grows(w: World, r: World)
  {
    FlagsGrow(w.flags, r.flags) && IsSuffix(r.tileStep, w.tileStep)
  }

  lemma SuffixTransitive(a: seq<int>, b: seq<int>, c: seq<int>)
    requires IsSuffix(a, b) && IsSuffix(b, c)
    ensures IsSuffix(a, c)
  {
    assert c[|c| - |b|..][|b| - |a|..] == c[|c| - |a|..];
  }

  lemma GrowsTransitive(u: World, v: World, w: World)
    requires Grows(u, v) && Grows(v, w)
    ensures Grows(u, w)
  {
    SuffixTransitive(w.tileStep, v.tileStep, u.tileStep);
  }

  lemma LoadRoomKeepsInv(w: World, room: int)
    requires Inv(w) && w.room == room && (room == 3 ==> w.flags.blueKey)
    ensures Inv(LoadRoom(w, room)) && Grows(w, LoadRoom(w, room))
  {
  }

  /** The hub exits as one decision: at most one of them matches the target. */
  function HubExitFor(w: World, tx: int, ty: int): World
  {
    if tx == 9 && ty == 1 then LoadRoom(w.(room := 1), 1)
    else if tx == 0 && ty == 1 && w.flags.blueKey then LoadRoom(w.(room := 3), 3)
    else if tx == 1 && ty == 9 then LoadRoom(w.(room := 4), 4)
    else w
  }

  /** The room blocks as one decision on the room the press started in. Entering room 3
      from the hub runs the room-3 reward check at once, since that block follows the hub
      block in the handler. */
  function TransitionFor(w: World, tx: int, ty: int): World
  {
    if w.room == 0 then
      var a := HubExitFor(w, tx, ty);
      if a.room == 3 then Room3Reward(a) else a
    else if w.room == 1 then
      if tx == 0 && ty == 1 then BackToHub(w.(board := w.board.WithColor(0, 1, COLOR_BLUE)), 8, 1) else w
    else if w.room == 2 then
      if tx == 3 && ty == 9 then BackToHub(w, 3, 1) else w
    else if w.room == 3 then
      var r := Room3Reward(w);
      if tx == 9 && ty == 1 then BackToHub(r, 1, 1) else r
    else if w.room == 4 then
      if tx == 1 && ty == 0 then BackToHub(w, 1, 8) else w
    else w
  }

  /** The sequential room blocks of the handler agree with the one-decision reading. */
  lemma TransitionsByRoom(w: World, tx: int, ty: int)
    ensures HubExits(w, tx, ty) == HubExitFor(w, tx, ty)
    ensures Transitions(w, tx, ty) == TransitionFor(w, tx, ty)
  {
  }

  lemma BackToHubKeepsInv(w: World, x: Coord, y: Coord)
    requires Inv(w)
    ensures Inv(BackToHub(w, x, y)) && Grows(w, BackToHub(w, x, y))
  {
    LoadRoomKeepsInv(w.(room := 0), 0);
  }

  lemma HubExitKeepsInv(w: World, tx: int, ty: int)
    requires Inv(w) && w.room == 0
    ensures Inv(TransitionFor(w, tx, ty)) && Grows(w, TransitionFor(w, tx, ty))
  {
    var a := HubExitFor(w, tx, ty);
    if tx == 9 && ty == 1 {
      LoadRoomKeepsInv(w.(room := 1), 1);
    } else if tx == 0 && ty == 1 && w.flags.blueKey {
      LoadRoomKeepsInv(w.(room := 3), 3);
    } else if tx == 1 && ty == 9 {
      LoadRoomKeepsInv(w.(room := 4), 4);
    }
    GrowsTransitive(w, a, Room3Reward(a));
  }

  lemma LeaveIceRoomKeepsInv(w: World, tx: int, ty: int)
    requires Inv(w) && w.room == 1
    ensures Inv(TransitionFor(w, tx, ty)) && Grows(w, TransitionFor(w, tx, ty))
  {
    WriteKeepsBar(w.board, 0, 1, COLOR_BLUE);
    BackToHubKeepsInv(w.(board := w.board.WithColor(0, 1, COLOR_BLUE)), 8, 1);
  }

  lemma LeaveRoom3KeepsInv(w: World, tx: int, ty: int)
    requires Inv(w) && w.room == 3
    ensures Inv(TransitionFor(w, tx, ty)) && Grows(w, TransitionFor(w, tx, ty))
  {
    var r := Room3Reward(w);
    BackToHubKeepsInv(r, 1, 1);
    GrowsTransitive(w, r, BackToHub(r, 1, 1));
  }

  lemma LeaveMazeKeepsInv(w: World, tx: int, ty: int)
    requires Inv(w) && w.room == 4
    ensures Inv(TransitionFor(w, tx, ty)) && Grows(w, TransitionFor(w, tx, ty))
  {
    BackToHubKeepsInv(w, 1, 8);
  }

  /** The room blocks keep the invariant and never clear a flag. */
  lemma TransitionsKeepInv(w: World, tx: int, ty: int)
    requires Inv(w)
    ensures Inv(Transitions(w, tx, ty)) && Grows(w, Transitions(w, tx, ty))
  {
    TransitionsByRoom(w, tx, ty);
    if w.room == 0 {
      HubExitKeepsInv(w, tx, ty);
    } else if w.room == 1 {
      LeaveIceRoomKeepsInv(w, tx, ty);
    } else if w.room == 3 {
      LeaveRoom3KeepsInv(w, tx, ty);
    } else {
      LeaveMazeKeepsInv(w, tx, ty);
    }
  }

  lemma GeneralMoveKeepsInv(w: World, tx: int, ty: int, pc: int)
    requires Inv(w)
    ensures Inv(GeneralMove(w, tx, ty, pc)) && Grows(w, GeneralMove(w, tx, ty, pc))
  {
  }

  lemma CollectStepKeepsInv(w: World, px: Coord, py: Coord, tx: int, ty: int, pc: int)
    requires Inv(w)
    ensures Inv(CollectStep(w, px, py, tx, ty, pc)) && Grows(w, CollectStep(w, px, py, tx, ty, pc))
  {
  }

  lemma DoorStepKeepsInv(w: World, tx: int, ty: int)
    requires Inv(w)
    ensures Inv(DoorStep(w, tx, ty)) && Grows(w, DoorStep(w, tx, ty))
  {
  }

  lemma CheeseStepKeepsInv(w: World, tx: int, ty: int)
    requires Inv(w)
    ensures Inv(CheeseStep(w, tx, ty)) && Grows(w, CheeseStep(w, tx, ty))
  {
  }

  /** One key press keeps the invariant, never clears a flag (keys, entered doors, solved
      room, eaten cheese) and only ever shifts colours off the front of `TILESTEP`. */
  lemma KeyDownKeepsInv(w: World, key: int)
    requires Inv(w)
    ensures Inv(KeyDown(w, key)) && Grows(w, KeyDown(w, key))
  {
    var t := Target(w, key);
    var pc := PrevBlockColor(w);
    var w1 := GeneralMove(w, t.0, t.1, pc);
    GeneralMoveKeepsInv(w, t.0, t.1, pc);
    var w2 := CollectStep(w1, w.px, w.py, t.0, t.1, pc);
    CollectStepKeepsInv(w1, w.px, w.py, t.0, t.1, pc);
    GrowsTransitive(w, w1, w2);
    var w3 := DoorStep(w2, t.0, t.1);
    DoorStepKeepsInv(w2, t.0, t.1);
    GrowsTransitive(w, w2, w3);
    var w4 := CheeseStep(w3, t.0, t.1);
    CheeseStepKeepsInv(w3, t.0, t.1);
    GrowsTransitive(w, w3, w4);
    TransitionsKeepInv(w4, t.0, t.1);
    GrowsTransitive(w, w4, Transitions(w4, t.0, t.1));
    assert KeyDown(w, key) == Transitions(w4, t.0, t.1);
  }

  /** A touch (the room-1 reset button) keeps the invariant and every flag. */
  lemma TouchKeepsInv(w: World, x: int, y: int)
    requires Inv(w)
    ensures Inv(Touch(w, x, y)) && Touch(w, x, y).flags == w.flags && Touch(w, x, y).tileStep == w.tileStep
  {
    if w.room == 1 && x == 9 && y == 10 {
      var reloaded := LoadRoom(w, 1);
      WriteKeepsBar(reloaded.board, 1, 1, COLOR_GRAY);
    }
  }

  /** `PS.init` starts a session in which the invariant holds. */
  lemma InitialInv()
    ensures Inv(Initial())
  {
    var w0 := World(ZeroBorders(FreshBoard()), 0, 0, 0, NoFlags(), TILE_SEQUENCE);
    var w1 := LoadRoom(w0, 0);
    assert w0.board.Color(0, 10) == COLOR_WHITE && w0.board.Color(1, 10) == COLOR_WHITE;
    assert w0.board.Color(2, 10) == COLOR_WHITE;
    assert KeysInStep(w1);
    assert TILE_SEQUENCE[|TILE_SEQUENCE| - |TILE_SEQUENCE|..] == TILE_SEQUENCE;
  }

  /** A target the player cannot enter: off the play area, or a tag that the movement,
      key and door blocks all refuse. */
  predicate Blocked(w: World, x: int, y: int)
  {
    !InPlay(x, y) ||
    (var tag := w.board.Data(x, y);
     !Walkable(tag) && tag != KEY && !(tag == DOOR && UnlockDoor(w, w.board.BorderColor(x, y)).1))
  }

  /** Away from an exit the room blocks change nothing but the room-3 reward. */
  lemma TransitionsStay(w: World, tx: int, ty: int)
    requires !IsExit(w, tx, ty)
    ensures Transitions(w, tx, ty) == if w.room == 3 then Room3Reward(w) else w
  {
    TransitionsByRoom(w, tx, ty);
  }

  lemma GeneralMoveStays(w: World, tx: int, ty: int, pc: int)
    requires !(InPlay(tx, ty) && Walkable(w.board.Data(tx, ty)))
    ensures GeneralMove(w, tx, ty, pc) == w
  {
  }

  lemma CollectStepStays(w: World, px: Coord, py: Coord, tx: int, ty: int, pc: int)
    requires !(InPlay(tx, ty) && w.board.Data(tx, ty) == KEY)
    ensures CollectStep(w, px, py, tx, ty, pc) == w
  {
  }

  lemma DoorStepStays(w: World, tx: int, ty: int)
    requires !(InPlay(tx, ty) && w.board.Data(tx, ty) == DOOR && UnlockDoor(w, w.board.BorderColor(tx, ty)).1)
    ensures DoorStep(w, tx, ty) == w
  {
  }

  lemma CheeseStepStays(w: World, tx: int, ty: int)
    requires !(InPlay(tx, ty) && w.board.Data(tx, ty) == CHEESE)
    ensures CheeseStep(w, tx, ty) == w
  {
  }

  /** A press towards a blocked target that is not an exit leaves the player and the room
      as they were; unless the target is cheese, nothing changes at all apart from the
      room-3 reward check. */
  lemma KeyDownBlocked(w: World, key: int)
    requires Blocked(w, Target(w, key).0, Target(w, key).1) && !IsExit(w, Target(w, key).0, Target(w, key).1)
    ensures KeyDown(w, key).px == w.px && KeyDown(w, key).py == w.py && KeyDown(w, key).room == w.room
    ensures var t := Target(w, key);
            (!InPlay(t.0, t.1) || w.board.Data(t.0, t.1) != CHEESE) ==>
            KeyDown(w, key) == if w.room == 3 then Room3Reward(w) else w
  {
    var t := Target(w, key);
    var pc := PrevBlockColor(w);
    GeneralMoveStays(w, t.0, t.1, pc);
    CollectStepStays(w, w.px, w.py, t.0, t.1, pc);
    DoorStepStays(w, t.0, t.1);
    var w4 := CheeseStep(w, t.0, t.1);
    if !InPlay(t.0, t.1) || w.board.Data(t.0, t.1) != CHEESE {
      CheeseStepStays(w, t.0, t.1);
    }
    TransitionsStay(w4, t.0, t.1);
  }

  /** An arrow press onto a walkable bead outside rooms 1 and 3 moves the player there
      and only recolours the vacated bead. */
  lemma KeyDownWalks(w: World, key: int)
    requires w.room != 1 && w.room != 3
    requires InPlay(Target(w, key).0, Target(w, key).1)
    requires Walkable(w.board.Data(Target(w, key).0, Target(w, key).1))
    requires !IsExit(w, Target(w, key).0, Target(w, key).1)
    ensures KeyDown(w, key) == w.(board := w.board.WithColor(w.px, w.py, PrevBlockColor(w)),
                                  px := Target(w, key).0, py := Target(w, key).1)
  {
    var t := Target(w, key);
    var pc := PrevBlockColor(w);
    var w1 := GeneralMove(w, t.0, t.1, pc);
    assert w1 == w.(board := w.board.WithColor(w.px, w.py, pc), px := t.0, py := t.1);
    CollectStepStays(w1, w.px, w.py, t.0, t.1, pc);
    DoorStepStays(w1, t.0, t.1);
    CheeseStepStays(w1, t.0, t.1);
    TransitionsStay(w1, t.0, t.1);
  }

  /** What the ice rule does to the vacated bead (px, py) when the player steps onto a
      different bead (tx, ty): ice behind becomes cracking ice, cracking ice behind
      becomes a wall, and nothing else is touched. */
  lemma BreakIceEffect(b: Board, px: Coord, py: Coord, tx: Coord, ty: Coord)
    requires px != tx || py != ty
    ensures var r := BreakIce(b, px, py, tx, ty);
            r.Data(tx, ty) == b.Data(tx, ty) && r.Color(tx, ty) == b.Color(tx, ty) &&
            (b.Data(tx, ty) == ICE ==> r.Data(px, py) == CRACKING && r.Color(px, py) == CRACKING_COLOR) &&
            (b.Data(tx, ty) == CRACKING ==> r.Data(px, py) == WALL && r.Color(px, py) == WALL_ICE_COLOR) &&
            (b.Data(tx, ty) != ICE && b.Data(tx, ty) != CRACKING ==> r == b)
  {
    IdxInjective(px, py, tx, ty);
  }

  /** Room 1: an arrow press onto walkable ice moves the player and degrades the bead
      left behind: it becomes cracking ice after ice, a wall after cracking ice, and
      plain ice colour otherwise. */
  lemma KeyDownOnIce(w: World, key: int)
    requires w.room == 1 && Step(key) != (0, 0)
    requires InPlay(Target(w, key).0, Target(w, key).1)
    requires Walkable(w.board.Data(Target(w, key).0, Target(w, key).1))
    requires Target(w, key) != (0, 1)
    ensures var r := KeyDown(w, key);
            var t := Target(w, key);
            var tag := w.board.Data(t.0, t.1);
            r.room == 1 && r.px == t.0 && r.py == t.1 && r.flags == w.flags && r.tileStep == w.tileStep &&
            (tag == ICE ==> r.board.Data(w.px, w.py) == CRACKING && r.board.Color(w.px, w.py) == CRACKING_COLOR) &&
            (tag == CRACKING ==> r.board.Data(w.px, w.py) == WALL && r.board.Color(w.px, w.py) == WALL_ICE_COLOR) &&
            (tag != ICE && tag != CRACKING ==>
               r.board.Data(w.px, w.py) == w.board.Data(w.px, w.py) && r.board.Color(w.px, w.py) == ICE_COLOR)
  {
    var t := Target(w, key);
    var pc := PrevBlockColor(w);
    assert pc == ICE_COLOR;
    var b1 := w.board.WithColor(w.px, w.py, pc);
    var w1 := GeneralMove(w, t.0, t.1, pc);
    assert w1 == w.(board := BreakIce(b1, w.px, w.py, t.0, t.1), px := t.0, py := t.1);
    BreakIceEffect(b1, w.px, w.py, t.0, t.1);
    CollectStepStays(w1, w.px, w.py, t.0, t.1, pc);
    DoorStepStays(w1, t.0, t.1);
    CheeseStepStays(w1, t.0, t.1);
    TransitionsStay(w1, t.0, t.1);
  }

  /** Room 1: a key that is not an arrow leaves the target on the player's own bead; when
      that bead is ice, the ice rule runs both of its steps on it and walls the player
      in where it stands. */
  lemma KeyDownNonArrowOnIce(w: World, key: int)
    requires w.room == 1 && Step(key) == (0, 0)
    requires w.board.Data(w.px, w.py) == ICE && (w.px, w.py) != (0, 1)
    ensures KeyDown(w, key).px == w.px && KeyDown(w, key).py == w.py
    ensures KeyDown(w, key).board.Data(w.px, w.py) == WALL
  {
    var pc := PrevBlockColor(w);
    var w1 := GeneralMove(w, w.px, w.py, pc);
    assert w1.board.Data(w.px, w.py) == WALL;
    CollectStepStays(w1, w.px, w.py, w.px, w.py, pc);
    DoorStepStays(w1, w.px, w.py);
    CheeseStepStays(w1, w.px, w.py);
    TransitionsStay(w1, w.px, w.py);
  }

  /** Room 3: an arrow press onto a walkable bead moves the player there; the tile queue
      loses its head exactly when the target's border colour is that head, and the
      target then shows that colour. */
  lemma KeyDownOnColorTile(w: World, key: int)
    requires w.room == 3 && Step(key) != (0, 0)
    requires InPlay(Target(w, key).0, Target(w, key).1)
    requires Walkable(w.board.Data(Target(w, key).0, Target(w, key).1))
    requires Target(w, key) != (9, 1)
    ensures var r := KeyDown(w, key);
            var t := Target(w, key);
            var hit := |w.tileStep| > 0 && w.board.BorderColor(t.0, t.1) == w.tileStep[0];
            r.room == 3 && r.px == t.0 && r.py == t.1 &&
            r.tileStep == (if hit then w.tileStep[1..] else w.tileStep) &&
            (hit && t != (1, 8) ==> r.board.Color(t.0, t.1) == w.tileStep[0]) &&
            (!hit && t != (1, 8) ==> r.board.Color(t.0, t.1) == w.board.Color(t.0, t.1))
  {
    var t := Target(w, key);
    var pc := PrevBlockColor(w);
    var moved := w.(board := w.board.WithColor(w.px, w.py, pc), px := t.0, py := t.1);
    var w1 := GeneralMove(w, t.0, t.1, pc);
    KeyDownWalksRoom3(w, key);
    assert w1 == StepOnColorTile(moved, t.0, t.1);
    Room3RewardKeepsKeys(w1);
    if t != (1, 8) {
      Room3RewardKeepsColor(w1, t.0, t.1);
    }
    if |w.tileStep| > 0 && w.board.BorderColor(t.0, t.1) == w.tileStep[0] {
      assert w1.tileStep == w.tileStep[1..];
    } else {
      assert w1 == moved;
      IdxInjective(t.0, t.1, w.px, w.py);
    }
  }

  /** In room 3, a step onto a walkable bead is the movement block followed by the
      room-3 check. */
  lemma KeyDownWalksRoom3(w: World, key: int)
    requires w.room == 3 && Step(key) != (0, 0)
    requires InPlay(Target(w, key).0, Target(w, key).1)
    requires Walkable(w.board.Data(Target(w, key).0, Target(w, key).1))
    requires Target(w, key) != (9, 1)
    ensures KeyDown(w, key) == Room3Reward(GeneralMove(w, Target(w, key).0, Target(w, key).1, PrevBlockColor(w)))
  {
    var t := Target(w, key);
    var pc := PrevBlockColor(w);
    var moved := w.(board := w.board.WithColor(w.px, w.py, pc), px := t.0, py := t.1);
    var w1 := GeneralMove(w, t.0, t.1, pc);
    assert w1 == StepOnColorTile(moved, t.0, t.1);
    assert w1.board.data == w.board.data;
    CollectStepStays(w1, w.px, w.py, t.0, t.1, pc);
    DoorStepStays(w1, t.0, t.1);
    CheeseStepStays(w1, t.0, t.1);
    TransitionsStay(w1, t.0, t.1);
  }

  /** The queue as declared starts with red, and no sequence of presses ever puts a
      colour back: the queue is always a suffix of the declared order. */
  lemma TileQueueOnlyShrinks(w: World, key: int)
    requires Inv(w)
    ensures IsSuffix(KeyDown(w, key).tileStep, w.tileStep)
    ensures IsSuffix(KeyDown(w, key).tileStep, TILE_SEQUENCE)
    ensures Initial().tileStep == TILE_SEQUENCE
  {
    KeyDownKeepsInv(w, key);
  }

  /** Room 3 check: with the five tiles showing their colours and no red key yet, the red
      key appears at (1, 8) and the room counts as solved; once the red key is held the
      check changes nothing. */
  lemma Room3RewardOnce(w: World)
    ensures Room3Rainbow(w.board) && !w.flags.redKey ==>
            var r := Room3Reward(w);
            r.board.Data(1, 8) == KEY && r.board.Color(1, 8) == COLOR_RED && r.flags.room3Solved
    ensures w.flags.redKey ==> Room3Reward(w) == w
    ensures !Room3Rainbow(w.board) ==> Room3Reward(w) == w
  {
  }

  /** What the collect-key block does when the target holds a key. */
  lemma CollectStepEffect(w: World, px: Coord, py: Coord, tx: Coord, ty: Coord, pc: int)
    requires w.board.Data(tx, ty) == KEY
    ensures var r := CollectStep(w, px, py, tx, ty, pc);
            var c := w.board.Color(tx, ty);
            r.px == tx && r.py == ty &&
            r.flags == w.flags.(greenKey := w.flags.greenKey || c == COLOR_GREEN,
                                blueKey := w.flags.blueKey || c == COLOR_BLUE,
                                redKey := w.flags.redKey || c == COLOR_RED) &&
            r.board.Data(tx, ty) == (if w.room == 1 && tx == 8 && ty == 8 then CRACKING
                                     else if c in {COLOR_GREEN, COLOR_BLUE, COLOR_RED} then NONE else KEY) &&
            r.board.Color(0, 10) == (if c == COLOR_GREEN then COLOR_GREEN else w.board.Color(0, 10)) &&
            r.board.Color(1, 10) == (if c == COLOR_BLUE then COLOR_BLUE else w.board.Color(1, 10)) &&
            r.board.Color(2, 10) == (if c == COLOR_RED then COLOR_RED else w.board.Color(2, 10))
  {
    var c := w.board.Color(tx, ty);
    var w1 := CollectKey(w.(px := tx, py := ty), tx, ty, c);
    var b2 := w1.board.WithColor(px, py, pc);
    WriteKeepsBar(w1.board, px, py, pc);
    IceAtKeepsBar(b2, 8, 8, 1);
    IdxInjective(tx, ty, 8, 8);
  }

  /** Stepping onto a key moves the player there. A green, blue or red key lights its
      inventory bead and sets its flag; a key of any other colour only lets the player
      stand on it. */
  lemma KeyDownCollects(w: World, key: int)
    requires InPlay(Target(w, key).0, Target(w, key).1)
    requires w.board.Data(Target(w, key).0, Target(w, key).1) == KEY
    requires !IsExit(w, Target(w, key).0, Target(w, key).1) && (w.room != 0 || Target(w, key) != (0, 1))
    ensures var r := KeyDown(w, key);
            var t := Target(w, key);
            var c := w.board.Color(t.0, t.1);
            r.room == w.room && r.px == t.0 && r.py == t.1 &&
            r.flags.greenKey == (w.flags.greenKey || c == COLOR_GREEN) &&
            r.flags.blueKey == (w.flags.blueKey || c == COLOR_BLUE) &&
            r.flags.redKey == (w.flags.redKey || c == COLOR_RED)
  {
    var t := Target(w, key);
    var pc := PrevBlockColor(w);
    var w2 := CollectStep(w, w.px, w.py, t.0, t.1, pc);
    KeyDownOntoKey(w, key);
    CollectStepEffect(w, w.px, w.py, t.0, t.1, pc);
    Room3RewardKeepsKeys(w2);
  }

  /** The collected key's colour shows in its inventory bead. */
  lemma KeyDownLightsBar(w: World, key: int)
    requires InPlay(Target(w, key).0, Target(w, key).1)
    requires w.board.Data(Target(w, key).0, Target(w, key).1) == KEY
    requires !IsExit(w, Target(w, key).0, Target(w, key).1) && (w.room != 0 || Target(w, key) != (0, 1))
    ensures var r := KeyDown(w, key);
            var c := w.board.Color(Target(w, key).0, Target(w, key).1);
            (c == COLOR_GREEN ==> r.board.Color(0, 10) == COLOR_GREEN) &&
            (c == COLOR_BLUE ==> r.board.Color(1, 10) == COLOR_BLUE) &&
            (c == COLOR_RED ==> r.board.Color(2, 10) == COLOR_RED)
  {
    var t := Target(w, key);
    var pc := PrevBlockColor(w);
    var w2 := CollectStep(w, w.px, w.py, t.0, t.1, pc);
    KeyDownOntoKey(w, key);
    CollectStepEffect(w, w.px, w.py, t.0, t.1, pc);
    Room3RewardKeepsKeys(w2);
  }

  /** The room-3 check writes no bead colour but that of (1, 8). */
  lemma Room3RewardKeepsColor(w: World, x: int, y: int)
    requires InGrid(x, y) && (x, y) != (1, 8)
    ensures Room3Reward(w).board.Color(x, y) == w.board.Color(x, y)
  {
    IdxInjective(x, y, 1, 8);
  }

  lemma Room3RewardKeepsKeys(w: World)
    ensures var r := Room3Reward(w);
            r.room == w.room && r.px == w.px && r.py == w.py &&
            r.flags.greenKey == w.flags.greenKey && r.flags.blueKey == w.flags.blueKey &&
            r.flags.redKey == w.flags.redKey &&
            r.board.Color(0, 10) == w.board.Color(0, 10) && r.board.Color(1, 10) == w.board.Color(1, 10) &&
            r.board.Color(2, 10) == w.board.Color(2, 10)
  {
  }

  /** A collected green, blue or red key loses its tag, so the same key cannot be
      collected twice (the ice rule of room 1 may refreeze (8, 8), and the room-3 reward
      may put the red key back on (1, 8)). */
  lemma KeyDownClearsKey(w: World, key: int)
    requires InPlay(Target(w, key).0, Target(w, key).1)
    requires w.board.Data(Target(w, key).0, Target(w, key).1) == KEY
    requires !IsExit(w, Target(w, key).0, Target(w, key).1) && (w.room != 0 || Target(w, key) != (0, 1))
    requires w.board.Color(Target(w, key).0, Target(w, key).1) in {COLOR_GREEN, COLOR_BLUE, COLOR_RED}
    requires w.room == 1 ==> Target(w, key) != (8, 8)
    requires w.room == 3 ==> Target(w, key) != (1, 8)
    ensures KeyDown(w, key).board.Data(Target(w, key).0, Target(w, key).1) == NONE
  {
    var t := Target(w, key);
    var pc := PrevBlockColor(w);
    var w2 := CollectStep(w, w.px, w.py, t.0, t.1, pc);
    KeyDownOntoKey(w, key);
    CollectStepEffect(w, w.px, w.py, t.0, t.1, pc);
    if w.room == 3 {
      IdxInjective(t.0, t.1, 1, 8);
    }
  }

  /** Onto a key, only the collect-key block and the room-3 check act. */
  lemma KeyDownOntoKey(w: World, key: int)
    requires InPlay(Target(w, key).0, Target(w, key).1)
    requires w.board.Data(Target(w, key).0, Target(w, key).1) == KEY
    requires !IsExit(w, Target(w, key).0, Target(w, key).1) && (w.room != 0 || Target(w, key) != (0, 1))
    ensures var t := Target(w, key);
            var w2 := CollectStep(w, w.px, w.py, t.0, t.1, PrevBlockColor(w));
            KeyDown(w, key) == if w.room == 3 then Room3Reward(w2) else w2
  {
    var t := Target(w, key);
    var pc := PrevBlockColor(w);
    GeneralMoveStays(w, t.0, t.1, pc);
    var w2 := CollectStep(w, w.px, w.py, t.0, t.1, pc);
    CollectStepEffect(w, w.px, w.py, t.0, t.1, pc);
    DoorStepStays(w2, t.0, t.1);
    CheeseStepStays(w2, t.0, t.1);
    TransitionsStay(w2, t.0, t.1);
  }

  /** The reset loop of `PS.loadRoom`: every play-area bead is white with a white border
      of width 0 and no tag; row 10 keeps its colour, border colour and tag, and only the
      border width of (9, 10) goes back to its default. */
  lemma ResetForLoadSpec(b: Board)
    ensures var r := ResetForLoad(b);
            (forall x, y :: InPlay(x, y) ==>
               r.Color(x, y) == COLOR_WHITE && r.BorderColor(x, y) == COLOR_WHITE &&
               r.Border(x, y) == 0 && r.Data(x, y) == NONE) &&
            (forall x :: 0 <= x < Width ==>
               r.Color(x, 10) == b.Color(x, 10) && r.BorderColor(x, 10) == b.BorderColor(x, 10) &&
               r.Data(x, 10) == b.Data(x, 10) &&
               r.Border(x, 10) == if x == 9 then DEFAULT_BORDER_WIDTH else b.Border(x, 10))
  {
  }

  /** The hub shows the green key exactly when inventory bead (0, 10) is not green. */
  lemma LoadHubGreenKey(w: World)
    ensures LoadRoom(w, 0).board.Data(3, 4) == KEY <==> w.board.Color(0, 10) != COLOR_GREEN
  {
    var reset := ResetForLoad(w.board);
    ResetForLoadSpec(w.board);
    var k := if reset.Color(0, 10) != COLOR_GREEN then [Key(3, 4, COLOR_GREEN)] else [];
    var rest := HubFixtures(w.flags.greenKey, w.flags.blueEntered);
    assert Avoids(rest, 3, 4);
    ApplyAllThenAvoids(reset, k, rest, 3, 4);
    if k != [] {
      ApplyAllSnoc(reset, [], Key(3, 4, COLOR_GREEN));
      assert [] + [Key(3, 4, COLOR_GREEN)] == k;
    }
  }

  /** The ice room shows the blue key at (9, 8) exactly when it has not been collected;
      otherwise that bead stays a wall. */
  lemma LoadIceRoomBlueKey(w: World)
    ensures LoadRoom(w, 1).board.Data(9, 8) == (if w.flags.blueKey then WALL else KEY)
  {
    var reset := ResetButton(ResetForLoad(w.board));
    var walled := Room1Walls(reset);
    assert walled.Data(9, 8) == WALL;
    var front := [Wall(9, 1, WALL_ICE_COLOR), Door(0, 1, COLOR_WHITE)] + IceSweep(2, 9, [1, 5, 8])
                 + IceFloor() + IceSweep(2, 9, [3]);
    IceSweepAvoids(2, 9, [1, 5, 8], 9, 8);
    IceSweepAvoids(2, 9, [3], 9, 8);
    AvoidsAppend([Wall(9, 1, WALL_ICE_COLOR), Door(0, 1, COLOR_WHITE)], IceSweep(2, 9, [1, 5, 8]), 9, 8);
    AvoidsAppend([Wall(9, 1, WALL_ICE_COLOR), Door(0, 1, COLOR_WHITE)] + IceSweep(2, 9, [1, 5, 8]), IceFloor(), 9, 8);
    AvoidsAppend([Wall(9, 1, WALL_ICE_COLOR), Door(0, 1, COLOR_WHITE)] + IceSweep(2, 9, [1, 5, 8]) + IceFloor(),
                 IceSweep(2, 9, [3]), 9, 8);
    ApplyAllAvoids(walled, front, 9, 8);
    if !w.flags.blueKey {
      ApplyAllSnoc(walled, front, Key(9, 8, COLOR_BLUE));
    } else {
      assert IceRoomLayout(true) == front + [];
      assert front + [] == front;
    }
  }

  /** The maze shows the cheese at (8, 8) exactly when it has not been eaten. */
  lemma LoadMazeCheese(w: World)
    ensures LoadRoom(w, 4).board.Data(8, 8) == CHEESE <==> !w.flags.cheeseEaten
  {
    var reset := ResetForLoad(w.board);
    ResetForLoadSpec(w.board);
    var front := [Door(1, 0, COLOR_WHITE)] + MazeWalls();
    var c := if w.flags.cheeseEaten then [] else [Cheese(8, 8)];
    var doors := MazeDoors(w.flags.blueMazeEntered, w.flags.redMazeEntered);
    assert Avoids(front, 8, 8);
    assert Avoids(doors, 8, 8);
    ApplyAllThenAvoids(reset, front + c, doors, 8, 8);
    if w.flags.cheeseEaten {
      assert front + c == front;
      ApplyAllAvoids(reset, front, 8, 8);
    } else {
      ApplyAllSnoc(reset, front, Cheese(8, 8));
    }
  }

  /** Whether a door of border colour `c` opens for a player holding the keys `f`. */
  predicate Unlocks(f: Flags, c: int)
  {
    c == COLOR_WHITE || (c == COLOR_GREEN && f.greenKey) || (c == COLOR_BLUE && f.blueKey) ||
    (c == COLOR_RED && f.redKey)
  }

  /** With the key flags in step with the bar, `PS.unlockDoor` opens a door exactly when
      it is white or its key has been collected; any other colour never opens. */
  lemma UnlockDoorByKeys(w: World, c: int)
    requires KeysInStep(w)
    ensures UnlockDoor(w, c).1 <==> Unlocks(w.flags, c)
  {
  }

  /** A press towards a door (not an exit) moves the player onto it exactly when
      `PS.unlockDoor` returns 1, which for a consistent state means the door is white
      or its key is held; otherwise the player stays. */
  lemma KeyDownDoor(w: World, key: int)
    requires InPlay(Target(w, key).0, Target(w, key).1)
    requires w.board.Data(Target(w, key).0, Target(w, key).1) == DOOR
    requires !IsExit(w, Target(w, key).0, Target(w, key).1)
    ensures var r := KeyDown(w, key);
            var t := Target(w, key);
            var opens := UnlockDoor(w, w.board.BorderColor(t.0, t.1)).1;
            r.room == w.room && (r.px, r.py) == (if opens then t else (w.px, w.py))
    ensures KeysInStep(w) ==>
            var r := KeyDown(w, key);
            var t := Target(w, key);
            (r.px, r.py) == (if Unlocks(w.flags, w.board.BorderColor(t.0, t.1)) then t else (w.px, w.py))
  {
    var t := Target(w, key);
    var pc := PrevBlockColor(w);
    GeneralMoveStays(w, t.0, t.1, pc);
    CollectStepStays(w, w.px, w.py, t.0, t.1, pc);
    var w3 := DoorStep(w, t.0, t.1);
    var w4 := CheeseStep(w3, t.0, t.1);
    TransitionsStay(w4, t.0, t.1);
  }

  /** Room 0: the target (0, 1) switches to room 3, with the player at (8, 1), exactly
      when the blue key is held (a key on (0, 1) itself aside). */
  lemma KeyDownHubBlueDoor(w: World, key: int)
    requires w.room == 0 && Target(w, key) == (0, 1) && w.board.Data(0, 1) != KEY
    ensures KeyDown(w, key).room == 3 <==> w.flags.blueKey
    ensures w.flags.blueKey ==> KeyDown(w, key).px == 8 && KeyDown(w, key).py == 1
  {
    var pc := PrevBlockColor(w);
    var w1 := GeneralMove(w, 0, 1, pc);
    CollectStepStays(w1, w.px, w.py, 0, 1, pc);
    var w3 := DoorStep(w1, 0, 1);
    var w4 := CheeseStep(w3, 0, 1);
    assert w4.room == 0 && w4.flags.blueKey == w.flags.blueKey;
    TransitionsByRoom(w4, 0, 1);
  }

  /** Room 0: the exits (9, 1) and (1, 9) load room 1 with the player at (1, 1) and room
      4 with the player at (0, 0). */
  lemma KeyDownLeavesHub(w: World, key: int)
    requires w.room == 0 && Target(w, key) in {(9, 1), (1, 9)}
    ensures var r := KeyDown(w, key);
            if Target(w, key) == (9, 1) then r.room == 1 && r.px == 1 && r.py == 1
            else r.room == 4 && r.px == 0 && r.py == 0
  {
    var t := Target(w, key);
    var pc := PrevBlockColor(w);
    var w1 := GeneralMove(w, t.0, t.1, pc);
    var w2 := CollectStep(w1, w.px, w.py, t.0, t.1, pc);
    var w3 := DoorStep(w2, t.0, t.1);
    var w4 := CheeseStep(w3, t.0, t.1);
    assert w4.room == 0;
    TransitionsByRoom(w4, t.0, t.1);
    HubExitLoads(w4, t.0, t.1);
  }

  /** The hub's exits (9, 1) and (1, 9) load rooms 1 and 4, by their doors. */
  lemma HubExitLoads(w: World, tx: int, ty: int)
    requires w.room == 0 && (tx, ty) in {(9, 1), (1, 9)}
    ensures var r := TransitionFor(w, tx, ty);
            if (tx, ty) == (9, 1) then r.room == 1 && r.px == 1 && r.py == 1
            else r.room == 4 && r.px == 0 && r.py == 0
  {
  }

  /** The exits of rooms 1, 2, 3 and 4 load the hub with the player at (8, 1), (3, 1),
      (1, 1) and (1, 8). */
  lemma KeyDownReturnsToHub(w: World, key: int)
    requires w.room != 0 && IsExit(w, Target(w, key).0, Target(w, key).1)
    ensures var r := KeyDown(w, key);
            r.room == 0 &&
            (r.px, r.py) == (if w.room == 1 then (8, 1) else if w.room == 2 then (3, 1)
                             else if w.room == 3 then (1, 1) else (1, 8))
  {
    var t := Target(w, key);
    var pc := PrevBlockColor(w);
    var w1 := GeneralMove(w, t.0, t.1, pc);
    var w2 := CollectStep(w1, w.px, w.py, t.0, t.1, pc);
    var w3 := DoorStep(w2, t.0, t.1);
    var w4 := CheeseStep(w3, t.0, t.1);
    assert w4.room == w.room;
    TransitionsByRoom(w4, t.0, t.1);
    ExitReturnsToHub(w4, t.0, t.1);
  }

  /** Stepping onto a room's exit lands the player in the hub, by that room's door. */
  lemma ExitReturnsToHub(w: World, tx: int, ty: int)
    requires w.room != 0 && IsExit(w, tx, ty)
    ensures var r := TransitionFor(w, tx, ty);
            r.room == 0 &&
            (r.px, r.py) == (if w.room == 1 then (8, 1) else if w.room == 2 then (3, 1)
                             else if w.room == 3 then (1, 1) else (1, 8))
  {
  }

  /** A press towards cheese eats it: the player stays, the cheese loses its tag and
      `CHEESEEATEN` is set. */
  lemma KeyDownEatsCheese(w: World, key: int)
    requires InPlay(Target(w, key).0, Target(w, key).1)
    requires w.board.Data(Target(w, key).0, Target(w, key).1) == CHEESE
    requires !IsExit(w, Target(w, key).0, Target(w, key).1) && w.room != 3
    ensures var r := KeyDown(w, key);
            var t := Target(w, key);
            r.room == w.room && r.px == w.px && r.py == w.py && r.flags == w.flags.(cheeseEaten := true) &&
            r.board.Data(t.0, t.1) == NONE
  {
    var t := Target(w, key);
    var pc := PrevBlockColor(w);
    GeneralMoveStays(w, t.0, t.1, pc);
    CollectStepStays(w, w.px, w.py, t.0, t.1, pc);
    DoorStepStays(w, t.0, t.1);
    var w4 := CheeseStep(w, t.0, t.1);
    TransitionsStay(w4, t.0, t.1);
  }

  /** The reset button of room 1 rebuilds the room with the player back at (1, 1), keeps
      every flag, and greys (1, 1) when the player was already standing there; a touch
      anywhere else, or in another room, does nothing. */
  lemma TouchResetsIceRoom(w: World, x: int, y: int)
    ensures !(w.room == 1 && x == 9 && y == 10) ==> Touch(w, x, y) == w
    ensures w.room == 1 && x == 9 && y == 10 ==>
            var r := Touch(w, x, y);
            r.room == 1 && r.px == 1 && r.py == 1 && r.flags == w.flags &&
            r.board.Data(9, 8) == (if w.flags.blueKey then WALL else KEY) &&
            r.board.Color(1, 1) == (if w.px == 1 && w.py == 1 then COLOR_GRAY else LoadRoom(w, 1).board.Color(1, 1))
  {
    if w.room == 1 && x == 9 && y == 10 {
      LoadIceRoomBlueKey(w);
      IdxInjective(1, 1, 9, 8);
    }
  }
}
