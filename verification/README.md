# Perlenspiel mini-games: a verified model

This project models four small Perlenspiel games. Each one is a set of event handlers that
read and write a bead grid of 10 columns by 11 rows. Every bead has a colour, a border width, a
border colour and an integer `data` tag. Rows 0..9 form the play area or canvas. Row 10 is the
inventory bar in the two adventure games and the palette in the two drawing puzzles.

- **Dev7 and Dev9, the rat and mouse adventures.** `PS.keyDown` turns an arrow key into a
  one-step orthogonal move.
  - The move is gated on the target's tag: 0 none, 1 wall, 2 door, 3 key, 4 NPC, 5 ice,
    6 cracking ice, 7 cheese, 8 colour tile.
  - The tag's effects follow: collecting a key, unlocking a door, degrading ice, the colour-tile
    queue `TILESTEP` and eating the cheese.
  - Last come the room transitions. `PS.loadRoom` rebuilds the play area from the room's layout
    and the session flags.
  - The two files differ in their walkable tags, their ice rule and the key colours they collect.
    Each is modelled as written.
- **Dev6 and Dev4, the colour-pattern drawing puzzles.** The state is the brush
  (`CURRENTCOLOR`), the drag flag (`DRAW`), the level (`CURRENTLEVEL`) and the grid.
  - Painting only reaches canvas beads tagged 0.
  - `PS.checkLevel` compares fixed beads with their wanted colours. A solved level advances and
    lays out the next one.
  - A wrong answer changes no colour or tag. In Dev6 it marks the judged beads' borders green
    or red.

Layout of the project:

- `beads.dfy` (module `Beads`): the host grid.
  - class `Grid` holds four arrays of 110 integers, indexed `10 * y + x`. Its methods write one
    attribute of one bead.
  - `Board` is the value mirror of the grid.
  - `BarKept` says that row 10 keeps its colours and tags (its border widths and border colours
    are not part of it).
- `tiles.dfy` (module `Tiles`): what both adventure games share.
  - tag constants, arrow keys, `PS.setLevelBead/Door/Key` and `PS.setIce`;
  - the authored placements of a room layout, with the loops that run them (room-1 walls, ice
    sweeps, the `PS.init` loops).
- `canvas.dfy` (module `Canvas`): what both drawing puzzles share.
  - the palette, `PS.enter` and `PS.release`;
  - level layouts as lists of cells, and the three one-row levels.
- Each game has three modules:
  - `DevNRules`: a pure state value (`World` or `Puzzle`) and one function per handler or block
    of a handler, in the source's statement order;
  - `DevNLaws`: lemmas about those functions;
  - `DevNGame`: class `Game`, whose fields are the globals and whose `const grid` is the host
    grid. Each method updates the grid arrays in place and is proved to leave exactly the state
    the matching `DevNRules` function gives (`State() == DevNRules.F(old(State()), ...)`).
    `KeyDown`, `Touch` and `Enter` also carry the game invariant `Inv`.

Assumptions about the host:

- `PS.DEFAULT` is white as a bead colour, 1 as a border width and gray as a border colour.
  `PS.COLOR_*` take Perlenspiel's RGB values. All colours are distinct integers.
- The 0/1 globals are booleans.
- `PS.unlockDoor` returns 1, 0 or nothing. This collapses to "opens" or "does not open".
- The sprite is the player position `(px, py)`.
- `PS.spriteMove(MOUSE)` reports that position.

## Model

| member | source | states |
|---|---|---|
| Beads.Idx | resources/Dev7/game.js:84 | every bead of the 10x11 grid has its own array slot; a slot lies in the play area exactly when the bead does |
| Beads.WriteKeepsBar | resources/Dev7/game.js:391-402 | a colour, tag or border write to a play-area bead leaves row 10's colours and tags (inventory bar or palette) unchanged |
| Beads.Grid.constructor | resources/Dev7/game.js:84 | `PS.gridSize(10, 11)` gives a grid with every bead at its default attributes and tag 0 |
| Beads.Grid.SetColor | resources/Dev7/game.js:626-630 | `PS.color` changes the colour of exactly one bead |
| Beads.Grid.SetBorderColor | resources/Dev7/game.js:632-638 | `PS.borderColor` changes the border colour of exactly one bead |
| Beads.Grid.SetBorder | resources/Dev7/game.js:85-91 | `PS.border` changes the border width of exactly one bead |
| Beads.Grid.SetData | resources/Dev7/game.js:94-97 | `PS.data` changes the tag of exactly one bead |
| Tiles.Step | resources/Dev7/game.js:183-205 | an arrow key gives a one-step orthogonal move; exactly the four arrow keys give a non-zero step; Dev9 game.js:163-185 has the same switch |
| Tiles.SetLevelBead | resources/Dev7/game.js:626-630 | writes a wall of the given colour at (x, y); the same helper is Dev9 game.js:533-537 |
| Tiles.SetLevelDoor | resources/Dev7/game.js:632-638 | writes a door whose colour is carried by its border; the same helper is Dev9 game.js:539-545 |
| Tiles.SetLevelKey | resources/Dev7/game.js:640-646 | writes a key whose colour is the bead colour; the same helper is Dev9 game.js:547-553 |
| Tiles.SetIce | resources/Dev7/game.js:648-671 | 0 freezes, 1 cracks and 2 breaks the bead into an ice-coloured wall; any other level writes nothing; the level given is returned; the same helper is Dev9 game.js:555-578, where `frozen || 0` turns a call without a level into level 0, so it freezes |
| Tiles.IceAtKeepsBar | resources/Dev7/game.js:648-671 | `PS.setIce` leaves the inventory bar's colours and tags alone; the same helper is Dev9 game.js:555-578 |
| Tiles.Place | resources/Dev7/game.js:405-458 | one authored write of a room layout; the `ColorTile` placement is `PS.setColorTile` (Dev7 game.js:788-793: border 3, border colour, tag 8); Dev9's layouts are game.js:385-522 |
| Tiles.PlaceAll | resources/Dev7/game.js:405-613 | a room layout's writes run in order; Dev9's room layouts are game.js:385-522 |
| Tiles.ApplyAllKeepsBar | resources/Dev7/game.js:405-613 | no room layout changes the inventory bar's colours or tags; also for Dev9's layouts, game.js:385-522 |
| Tiles.ApplyAllAvoids | resources/Dev7/game.js:405-613 | a bead that no placement of a layout mentions keeps all four attributes; also for Dev9's layouts, game.js:385-522 |
| Tiles.ApplyAllThenAvoids | resources/Dev7/game.js:405-613 | placements after the last write to a bead leave that bead alone; also for Dev9's layouts, game.js:385-522 |
| Tiles.PlaceRoom1Walls | resources/Dev7/game.js:468-477 | the nested loop of room 1 turns every play-area bead that meets its condition into an ice-coloured wall; Dev9's copy of the loop is game.js:443-452 |
| Tiles.Room1WallsKeepsBar | resources/Dev7/game.js:468-477 | that loop leaves row 10's colours and tags alone; also for Dev9 game.js:443-452 |
| Tiles.FreezeColumn158 | resources/Dev7/game.js:484-489 | one pass of the freeze loop: rows 1, 5 and 8 of column x become ice; Dev9's copy is game.js:459-464 |
| Tiles.FreezeRows158 | resources/Dev7/game.js:484-489 | columns 2..8 of rows 1, 5 and 8 become ice, column by column; Dev9's copy is game.js:459-464 |
| Tiles.FreezeRow3 | resources/Dev7/game.js:501-504 | columns 2..8 of row 3 become ice; Dev9's copy is game.js:476-479 |
| Tiles.IceSweepAvoids | resources/Dev7/game.js:484-489 | a freeze sweep writes only the columns it runs over; also for Dev9 game.js:459-479 |
| Tiles.PlaceIceRoom | resources/Dev7/game.js:460-510 | builds room 1 (walls, exits, ice floor, blue key unless collected) on the reset play area; Dev9's room 1 is game.js:439-487 |
| Tiles.IceRoomKeepsBar | resources/Dev7/game.js:460-510 | building room 1 leaves the inventory bar's colours and tags alone; also for Dev9 game.js:439-487 |
| Tiles.ZeroBordersLoop | resources/Dev7/game.js:85-91 | the first loop of `PS.init` sets border width 0 on exactly the play area; Dev9's copy is game.js:81-87 |
| Tiles.TagInventoryBarLoop | resources/Dev7/game.js:94-97 | the last loop of `PS.init` tags exactly the beads of row 10 with 1; Dev9's copy is game.js:90-93 |
| Canvas.EnterPaintsOnlyWhileDrawing | resources/Dev6/game.js:206-219 | `PS.enter` paints at most the entered bead. It paints only while drawing and only a canvas bead tagged 0, and then with the brush. It never changes `DRAW`. After a release it paints nothing; Dev4's `PS.enter` is game.js:203-216 |
| Canvas.PutAllUnwritten | resources/Dev6/game.js:395-434 | a bead that no cell of a level layout writes keeps its colour and tag; also for Dev4's layouts, game.js:282-334 |
| Canvas.PutAllLastWrite | resources/Dev6/game.js:395-434 | the last cell that writes a bead decides its colour and tag; also for Dev4's layouts, game.js:282-334 |
| Canvas.PutAllDistinct | resources/Dev6/game.js:395-434 | in a layout that writes each bead at most once, every cell decides its own bead; also for Dev4's layouts, game.js:282-334 |
| Canvas.PutAllKeepsBorders | resources/Dev6/game.js:553-557 | level layouts write only colours and tags; Dev4 writes its layouts as `PS.color`/`PS.data` pairs, game.js:282-334 |
| Canvas.PutAllKeepsBar | resources/Dev6/game.js:395-434 | level layouts leave the palette row's colours and tags alone; also for Dev4's layouts, game.js:282-334 |
| Canvas.PutCell | resources/Dev6/game.js:553-557 | `PS.setLevelBead` writes one level bead, and each canvas write that opens a bead writes one white bead tagged 0; Dev4 writes the same pair inline in `PS.initLevel`, game.js:282-334 |
| Canvas.PutCells | resources/Dev6/game.js:395-434 | a level layout's writes run in order; Dev4's layouts are game.js:282-334 |
| Canvas.RowLevelOpens | resources/Dev6/game.js:395-434 | on a canvas tagged 1, laying out levels 1-3 leaves paintable, and white, exactly the beads `PS.checkLevel` judges; Dev4's levels 1-3 are game.js:282-334, with level 1 opening only (3, 5) |
| Canvas.Level1Opens | resources/Dev6/game.js:395-405 | the same for row 5 of level 1; Dev4's level 1 is game.js:282-296 |
| Canvas.Level2Opens | resources/Dev6/game.js:406-417 | the same for row 5 of level 2; Dev4's level 2 is game.js:297-311 |
| Canvas.Level3Opens | resources/Dev6/game.js:418-434 | the same for row 5 of level 3; Dev4's level 3 is game.js:312-334 |
| Canvas.PaintPaletteIntact | resources/Dev6/game.js:89-96 | after `PS.init` paints the palette, beads (0..7, 10) hold the seven light colours and white; Dev4's palette is game.js:89-96 |
| Canvas.PaletteColorIn | resources/Dev6/game.js:89-96 | on an intact palette every row-10 bead has a palette colour, so a palette touch always picks a palette brush; Dev4's palette is game.js:89-96 |
| Dev7Rules.BreakIce | resources/Dev7/game.js:220-229 | room 1's ice rule writes only the play area |
| Dev7Rules.StepOnColorTile | resources/Dev7/game.js:231-241 | the tile queue loses its head exactly when the target's border colour equals that head, and the target then takes that colour; on a miss the world is returned unchanged; the queue only ever loses its front |
| Dev7Rules.GeneralMove | resources/Dev7/game.js:207-248 | the player moves to the target exactly when the target is on the play area and tagged 0, 5, 6 or 8; room and flags never change |
| Dev7Rules.CollectKey | resources/Dev7/game.js:687-713 | a green, blue or red key sets its own flag, lights its own inventory bead (0, 10), (1, 10) or (2, 10) and loses its tag; other colours change none of these; flags stay in step with the bar |
| Dev7Rules.CollectStep | resources/Dev7/game.js:250-266 | the player moves onto the target exactly when it is a key; only key flags can change, none is cleared, and they stay in step with the bar |
| Dev7Rules.AfterPickup | resources/Dev7/game.js:259-265 | the clean-up after a pickup (the left bead's colour, room 1's (8, 8) cracking) leaves the bar alone |
| Dev7Rules.UnlockDoor | resources/Dev7/game.js:719-776 | returns "opens" exactly for a white door, or a green, blue or red door whose inventory bead holds its colour; it changes only the entered-door flags |
| Dev7Rules.DoorStep | resources/Dev7/game.js:268-282 | the player moves onto a door exactly when `PS.unlockDoor` opens it; key, solved and cheese flags are untouched; an entered-door flag is set only when its key's colour is in the bar |
| Dev7Rules.CheckCheese | resources/Dev7/game.js:778-786 | afterwards the bead is not cheese, and the bar is unchanged |
| Dev7Rules.CheeseStep | resources/Dev7/game.js:284-292 | the player never moves; `CHEESEEATEN` is set exactly when the target is cheese |
| Dev7Rules.Room3Reward | resources/Dev7/game.js:357-366 | `ROOM3SOLVED` becomes set exactly when the rainbow is complete and `REDKEY` is 0; no other flag changes |
| Dev7Rules.RoomBoard | resources/Dev7/game.js:403-613 | every room layout leaves the inventory bar's colours and tags alone |
| Dev7Rules.LoadRoom | resources/Dev7/game.js:389-614 | loading keeps the inventory bar's colours and tags and the tile queue; only loading room 3 sets `BLUEENTERED` |
| Dev7Laws.LoadRoomKeepsInv | resources/Dev7/game.js:389-614 | loading a room keeps the invariant and clears no flag |
| Dev7Laws.TransitionsByRoom | resources/Dev7/game.js:294-385 | the sequential room blocks at the end of `PS.keyDown` agree with one decision on the starting room |
| Dev7Laws.BackToHubKeepsInv | resources/Dev7/game.js:331-385 | returning to the hub keeps the invariant |
| Dev7Laws.HubExitKeepsInv | resources/Dev7/game.js:294-330 | the hub's exits keep the invariant |
| Dev7Laws.LeaveIceRoomKeepsInv | resources/Dev7/game.js:331-342 | leaving room 1 keeps the invariant |
| Dev7Laws.LeaveRoom3KeepsInv | resources/Dev7/game.js:355-374 | room 3's reward check and exit keep the invariant |
| Dev7Laws.LeaveMazeKeepsInv | resources/Dev7/game.js:376-385 | leaving room 4 keeps the invariant |
| Dev7Laws.TransitionsKeepInv | resources/Dev7/game.js:294-385 | the room blocks keep the invariant, clear no flag, and only shorten the tile queue from the front |
| Dev7Laws.GeneralMoveKeepsInv | resources/Dev7/game.js:207-248 | the movement block keeps the invariant |
| Dev7Laws.CollectStepKeepsInv | resources/Dev7/game.js:250-266 | the collect-key block keeps the invariant |
| Dev7Laws.DoorStepKeepsInv | resources/Dev7/game.js:268-282 | the door block keeps the invariant |
| Dev7Laws.CheeseStepKeepsInv | resources/Dev7/game.js:284-292 | the cheese block keeps the invariant |
| Dev7Laws.KeyDownKeepsInv | resources/Dev7/game.js:157-386 | a key press keeps every key flag in step with its inventory bead. It clears no flag, and the tile queue stays a suffix of `TILESTEP` |
| Dev7Laws.TouchKeepsInv | resources/Dev7/game.js:134-144 | a touch keeps the invariant, every flag and the tile queue |
| Dev7Laws.InitialInv | resources/Dev7/game.js:68-114 | `PS.init` starts a session in which the invariant holds |
| Dev7Laws.TransitionsStay | resources/Dev7/game.js:294-385 | away from an exit the room blocks change nothing but room 3's reward check |
| Dev7Laws.GeneralMoveStays | resources/Dev7/game.js:208-216 | onto a target off the play area or with a tag other than 0, 5, 6 and 8, the movement block changes nothing |
| Dev7Laws.CollectStepStays | resources/Dev7/game.js:251-253 | onto a target that is not a key, the collect-key block changes nothing |
| Dev7Laws.DoorStepStays | resources/Dev7/game.js:269-275 | onto a target that is not an opening door, the door block changes nothing |
| Dev7Laws.CheeseStepStays | resources/Dev7/game.js:284-292 | onto a target that is not cheese, the cheese block changes nothing |
| Dev7Laws.KeyDownBlocked | resources/Dev7/game.js:207-292 | a press towards a blocked target that is not an exit leaves the player and the room as they were. Unless the target is cheese, nothing changes beyond room 3's reward check |
| Dev7Laws.KeyDownWalks | resources/Dev7/game.js:207-248 | outside rooms 1 and 3, a press onto a walkable bead that is not an exit moves the player there and gives the left bead its colour, and nothing else |
| Dev7Laws.BreakIceEffect | resources/Dev7/game.js:220-229 | stepping onto ice cracks the left bead, stepping onto cracking ice turns it into an ice-coloured wall; the target bead is never touched |
| Dev7Laws.KeyDownOnIce | resources/Dev7/game.js:220-229 | in room 1 an arrow press onto a walkable bead moves the player, and the left bead cracks, becomes a wall, or stays as it was coloured as ice |
| Dev7Laws.KeyDownNonArrowOnIce | resources/Dev7/game.js:164-229 | in room 1 a key that is not an arrow, pressed while standing on ice, walls in the bead the player stands on: the key switch (lines 164-181) leaves the target on the player's own bead, the first ice test (219-223) cracks it, and the second test (224-227) re-reads the tag, now 6, and makes it a wall |
| Dev7Laws.KeyDownOnColorTile | resources/Dev7/game.js:231-241 | in room 3 an arrow press onto a walkable bead moves the player. The tile queue is dequeued exactly when the bead's border colour matches the queue's head, and the bead then shows that colour; on a miss the bead keeps the colour it had |
| Dev7Laws.KeyDownWalksRoom3 | resources/Dev7/game.js:231-241 | in room 3 such a press is the movement block followed by the reward check |
| Dev7Laws.TileQueueOnlyShrinks | resources/Dev7/game.js:54 | `TILESTEP` starts as red, orange, yellow, green, blue; every press leaves a suffix of it, and of what was there before |
| Dev7Laws.Room3RewardOnce | resources/Dev7/game.js:357-366 | with the rainbow complete and no red key, the red key appears at (1, 8) and `ROOM3SOLVED` is set; once `REDKEY` is set, or without the rainbow, the check does nothing |
| Dev7Laws.CollectStepEffect | resources/Dev7/game.js:250-266 | onto a key the player moves and the key's flag and inventory bead are set. The key bead loses its tag, except (8, 8) of room 1, which cracks. Other key colours set nothing |
| Dev7Laws.KeyDownCollects | resources/Dev7/game.js:250-266 | a press onto a key moves the player there and sets exactly the flag of the key's colour |
| Dev7Laws.KeyDownLightsBar | resources/Dev7/game.js:687-713 | the collected key's colour shows in its inventory bead |
| Dev7Laws.Room3RewardKeepsKeys | resources/Dev7/game.js:357-366 | the reward check changes no key flag, inventory bead, room or position |
| Dev7Laws.KeyDownClearsKey | resources/Dev7/game.js:687-713 | a collected green, blue or red key loses its tag, so it cannot be collected twice |
| Dev7Laws.KeyDownOntoKey | resources/Dev7/game.js:250-266 | onto a key, only the collect-key block and room 3's check act |
| Dev7Laws.ResetForLoadSpec | resources/Dev7/game.js:391-403 | `PS.loadRoom` makes every play-area bead white, with a white border of width 0 and tag 0. Row 10 keeps its colours and tags; only (9, 10) gets the default border width |
| Dev7Laws.LoadHubGreenKey | resources/Dev7/game.js:405-411 | the hub shows the green key exactly when inventory bead (0, 10) is not green |
| Dev7Laws.LoadIceRoomBlueKey | resources/Dev7/game.js:506-509 | room 1 shows the blue key at (9, 8) exactly when it has not been collected, and a wall otherwise |
| Dev7Laws.LoadMazeCheese | resources/Dev7/game.js:597-600 | room 4 shows the cheese exactly when it has not been eaten |
| Dev7Laws.UnlockDoorByKeys | resources/Dev7/game.js:719-776 | with the flags in step with the bar, a door opens exactly when it is white or the player holds the key of its colour |
| Dev7Laws.KeyDownDoor | resources/Dev7/game.js:268-282 | a press towards a door moves the player onto it exactly when `PS.unlockDoor` opens it. With the flags in step with the bar, that is exactly when the player holds its key or the door is white |
| Dev7Laws.KeyDownHubBlueDoor | resources/Dev7/game.js:306-315 | in the hub the target (0, 1) switches to room 3, with the player at (8, 1), exactly when `BLUEKEY` is set |
| Dev7Laws.KeyDownLeavesHub | resources/Dev7/game.js:304-329 | the hub's exits (9, 1) and (1, 9) load room 1 with the player at (1, 1) and room 4 with the player at (0, 0) |
| Dev7Laws.HubExitLoads | resources/Dev7/game.js:304-329 | the same, for the room blocks taken as one decision |
| Dev7Laws.KeyDownReturnsToHub | resources/Dev7/game.js:331-385 | the exits of rooms 1, 2, 3 and 4 land the player in the hub at (8, 1), (3, 1), (1, 1) and (1, 8) |
| Dev7Laws.ExitReturnsToHub | resources/Dev7/game.js:331-385 | the same, for the room blocks taken as one decision |
| Dev7Laws.KeyDownEatsCheese | resources/Dev7/game.js:284-292 | a press towards cheese leaves the player in place, removes the cheese's tag and sets `CHEESEEATEN` |
| Dev7Laws.TouchResetsIceRoom | resources/Dev7/game.js:134-144 | only the reset button (9, 10) of room 1 acts. It rebuilds room 1 with the player at (1, 1) and keeps every flag; (1, 1) is grey when the player was already there |
| Dev7Game.ResetPlayAreaLoop | resources/Dev7/game.js:391-402 | the nested reset loop leaves the grid as `ResetPlayArea` describes (see ResetForLoadSpec) |
| Dev7Game.BreakIceAt | resources/Dev7/game.js:220-229 | the in-place ice rule matches `BreakIce` |
| Dev7Game.CheckCheeseAt | resources/Dev7/game.js:778-786 | the in-place `PS.checkCheese` matches `CheckCheese` |
| Dev7Game.PlaceHub | resources/Dev7/game.js:405-458 | builds the hub: the green key unless (0, 10) is green, then walls, doors and NPC |
| Dev7Game.Game.constructor | resources/Dev7/game.js:68-114 | `PS.init` leaves the initial state, in which the invariant holds |
| Dev7Game.Game.LoadRoom | resources/Dev7/game.js:389-614 | the in-place `PS.loadRoom` leaves the state `Dev7Rules.LoadRoom` gives |
| Dev7Game.Game.StepOnColorTile | resources/Dev7/game.js:231-241 | `TILESTEP.shift()` and the painting match `StepOnColorTile` |
| Dev7Game.Game.GeneralMove | resources/Dev7/game.js:207-248 | the movement block matches `GeneralMove` |
| Dev7Game.Game.CollectKey | resources/Dev7/game.js:687-713 | the in-place `PS.collectKey` matches `CollectKey` |
| Dev7Game.Game.CollectStep | resources/Dev7/game.js:250-266 | the collect-key block matches `CollectStep` |
| Dev7Game.Game.UnlockDoor | resources/Dev7/game.js:719-776 | the in-place `PS.unlockDoor` returns and sets what `UnlockDoor` says |
| Dev7Game.Game.DoorStep | resources/Dev7/game.js:268-282 | the door block matches `DoorStep` |
| Dev7Game.Game.CheeseStep | resources/Dev7/game.js:284-292 | the cheese block matches `CheeseStep` |
| Dev7Game.Game.Room3Reward | resources/Dev7/game.js:357-366 | the reward check matches `Room3Reward` |
| Dev7Game.Game.BackToHub | resources/Dev7/game.js:331-342 | returning to the hub matches `BackToHub` |
| Dev7Game.Game.HubExits | resources/Dev7/game.js:294-330 | the hub block matches `HubExits` |
| Dev7Game.Game.Transitions | resources/Dev7/game.js:294-385 | the room blocks match `Transitions` |
| Dev7Game.Game.Aim | resources/Dev7/game.js:159-205 | the opening of `PS.keyDown` computes the colour for the left bead and the target |
| Dev7Game.Game.KeyDown | resources/Dev7/game.js:157-386 | `PS.keyDown` leaves the state `Dev7Rules.KeyDown` gives and keeps the invariant |
| Dev7Game.Game.Touch | resources/Dev7/game.js:126-145 | `PS.touch` leaves the state `Dev7Rules.Touch` gives and keeps the invariant |
| Dev9Rules.IceTrail | resources/Dev9/game.js:200-212 | room 1's ice trail writes only the play area |
| Dev9Rules.GeneralMove | resources/Dev9/game.js:187-219 | the mouse moves to the target exactly when it is on the play area and tagged 0, 5 or 6; room and flags never change |
| Dev9Rules.CollectKey | resources/Dev9/game.js:587-605 | a green or blue key sets its flag, lights (0, 10) or (1, 10) and loses its tag; any other colour changes nothing at all |
| Dev9Rules.CollectStep | resources/Dev9/game.js:221-236 | the mouse moves onto the target exactly when it is a key; no flag is cleared and the flags stay in step with the bar |
| Dev9Rules.UnlockDoor | resources/Dev9/game.js:607-636 | opens exactly a white door, a green door when (0, 10) is green, and a blue door when (1, 10) is blue; an opening blue door sets `BLUEENTERED` |
| Dev9Rules.DoorStep | resources/Dev9/game.js:238-251 | the mouse moves onto a door exactly when it opens; key flags are untouched; `BLUEENTERED` is set only with blue in the bar |
| Dev9Rules.RoomBoard | resources/Dev9/game.js:385-522 | every room layout leaves the inventory bar's colours and tags alone |
| Dev9Rules.LoadRoom | resources/Dev9/game.js:372-523 | loading keeps the inventory bar's colours and tags; only loading room 3 sets `BLUEENTERED` |
| Dev9Laws.LoadRoomKeepsInv | resources/Dev9/game.js:372-523 | loading a room keeps the invariant and clears no flag |
| Dev9Laws.TransitionsByRoom | resources/Dev9/game.js:253-329 | the sequential room blocks agree with one decision on the starting room |
| Dev9Laws.BackToHubKeepsInv | resources/Dev9/game.js:289-329 | returning to the hub keeps the invariant |
| Dev9Laws.HubExitKeepsInv | resources/Dev9/game.js:253-287 | the hub's exits keep the invariant |
| Dev9Laws.TransitionsKeepInv | resources/Dev9/game.js:253-329 | the room blocks keep the invariant and clear no flag |
| Dev9Laws.GeneralMoveKeepsInv | resources/Dev9/game.js:187-219 | the movement block keeps the invariant and every flag |
| Dev9Laws.CollectStepKeepsInv | resources/Dev9/game.js:221-236 | the collect-key block keeps the invariant |
| Dev9Laws.DoorStepKeepsInv | resources/Dev9/game.js:238-251 | the door block keeps the invariant |
| Dev9Laws.KeyDownKeepsInv | resources/Dev9/game.js:142-331 | a key press keeps each key flag in step with its inventory bead and clears no flag |
| Dev9Laws.InitialInv | resources/Dev9/game.js:64-110 | `PS.init` starts a session in which the invariant holds |
| Dev9Laws.TransitionsStay | resources/Dev9/game.js:253-329 | away from an exit the room blocks change nothing |
| Dev9Laws.GeneralMoveStays | resources/Dev9/game.js:188-192 | onto a target off the play area or with a tag other than 0, 5 and 6, the movement block changes nothing |
| Dev9Laws.CollectStepStays | resources/Dev9/game.js:221-236 | onto a target that is not a key, the collect-key block changes nothing |
| Dev9Laws.DoorStepStays | resources/Dev9/game.js:238-251 | onto a target that is not an opening door, the door block changes nothing |
| Dev9Laws.KeyDownBlocked | resources/Dev9/game.js:187-251 | a press towards a blocked target that is not an exit changes nothing at all |
| Dev9Laws.KeyDownWalks | resources/Dev9/game.js:187-219 | outside room 1, a press onto a walkable bead that is not an exit moves the mouse there and gives the left bead its colour, and nothing else |
| Dev9Laws.IceTrailEffect | resources/Dev9/game.js:200-212 | the left bead is frozen back to ice, and it cracks when the target is ice. It never becomes a wall, and the target is never touched |
| Dev9Laws.KeyDownOnIce | resources/Dev9/game.js:200-212 | in room 1 an arrow press onto a walkable bead moves the mouse; the left bead cracks when the target was ice and is ice otherwise |
| Dev9Laws.KeyDownNonArrowOnIce | resources/Dev9/game.js:164-212 | in room 1 a key that is not an arrow, pressed on a walkable bead, leaves the mouse in place on that bead, now cracking ice; unlike Dev7 it is never walled in |
| Dev9Laws.CollectStepEffect | resources/Dev9/game.js:221-236 | onto a key the mouse moves. Green and blue keys set their flag and bar bead and lose their tag. Any other key stays a key, and (8, 8) of room 1 cracks |
| Dev9Laws.KeyDownOntoKey | resources/Dev9/game.js:221-236 | onto a key that is not an exit, only the collect-key block acts |
| Dev9Laws.KeyDownCollects | resources/Dev9/game.js:221-236 | a press onto a key moves the mouse there and sets exactly the green or blue flag of its colour and the matching bar bead |
| Dev9Laws.KeyDownRedKeyStays | resources/Dev9/game.js:587-605 | stepping onto room 3's red key moves the mouse but sets no flag, leaves the tag 3 and leaves the bar alone |
| Dev9Laws.ResetPlayAreaSpec | resources/Dev9/game.js:374-384 | `PS.loadRoom` makes every play-area bead white with border width 0 and tag 0; border colours and row 10 are untouched |
| Dev9Laws.LoadHubGreenKey | resources/Dev9/game.js:385-391 | the hub shows the green key exactly when (0, 10) is not green |
| Dev9Laws.LoadIceRoomBlueKey | resources/Dev9/game.js:481-484 | room 1 shows the blue key exactly when `BLUEKEY` is 0, and a wall otherwise |
| Dev9Laws.LoadRoom3 | resources/Dev9/game.js:499-512 | room 3 shows the red key at (6, 3) and the blue exit at (9, 1), puts the mouse at (8, 1) and sets `BLUEENTERED` |
| Dev9Laws.UnlockDoorByKeys | resources/Dev9/game.js:607-636 | with the flags in step with the bar, a door opens exactly when it is white or the mouse holds the green or blue key of its colour |
| Dev9Laws.KeyDownDoor | resources/Dev9/game.js:238-251 | a press towards a door moves the mouse onto it exactly when `PS.unlockDoor` opens it. With the flags in step with the bar, that is exactly when the mouse holds its key or the door is white |
| Dev9Laws.KeyDownHubBlueDoor | resources/Dev9/game.js:253-287 | in the hub the target (0, 1) switches to room 3, with the mouse at (8, 1), exactly when `BLUEKEY` is set |
| Dev9Laws.KeyDownLeavesHub | resources/Dev9/game.js:253-287 | the hub's exits (9, 1), (4, 0) and (1, 9) load rooms 1, 2 and 4 with the mouse at (1, 1), (4, 8) and (1, 1) |
| Dev9Laws.KeyDownReturnsToHub | resources/Dev9/game.js:289-329 | the exits of rooms 1, 2, 3 and 4 land the mouse in the hub at (8, 1), (4, 1), (1, 1) and (1, 8) |
| Dev9Game.ResetPlayAreaLoop | resources/Dev9/game.js:374-384 | the nested reset loop leaves the grid as `ResetPlayArea` describes (see ResetPlayAreaSpec) |
| Dev9Game.IceTrailAt | resources/Dev9/game.js:200-212 | the in-place ice trail matches `IceTrail` |
| Dev9Game.PlaceHub | resources/Dev9/game.js:385-438 | builds the hub: the green key unless (0, 10) is green, then walls, exits and the green door |
| Dev9Game.Game.constructor | resources/Dev9/game.js:64-110 | `PS.init` leaves the initial state, in which the invariant holds |
| Dev9Game.Game.LoadRoom | resources/Dev9/game.js:372-523 | the in-place `PS.loadRoom` leaves the state `Dev9Rules.LoadRoom` gives |
| Dev9Game.Game.GeneralMove | resources/Dev9/game.js:187-219 | the movement block matches `GeneralMove` |
| Dev9Game.Game.CollectKey | resources/Dev9/game.js:587-605 | the in-place `PS.collectKey` matches `CollectKey` |
| Dev9Game.Game.CollectStep | resources/Dev9/game.js:221-236 | the collect-key block matches `CollectStep` |
| Dev9Game.Game.UnlockDoor | resources/Dev9/game.js:607-636 | the in-place `PS.unlockDoor` returns and sets what `UnlockDoor` says |
| Dev9Game.Game.DoorStep | resources/Dev9/game.js:238-251 | the door block matches `DoorStep` |
| Dev9Game.Game.BackToHub | resources/Dev9/game.js:289-299 | returning to the hub matches `BackToHub` |
| Dev9Game.Game.HubExits | resources/Dev9/game.js:253-287 | the hub block matches `HubExits` |
| Dev9Game.Game.Transitions | resources/Dev9/game.js:253-329 | the room blocks match `Transitions` |
| Dev9Game.Game.Aim | resources/Dev9/game.js:144-185 | the opening of `PS.keyDown` computes the colour for the left bead and the target |
| Dev9Game.Game.KeyDown | resources/Dev9/game.js:142-331 | `PS.keyDown` leaves the state `Dev9Rules.KeyDown` gives and keeps the invariant |
| Dev6Laws.TouchCanvasIsEnter | resources/Dev6/game.js:122-173 | touching a canvas bead starts a drag and paints at most that bead, only when it is tagged 0 |
| Dev6Laws.TouchPalette | resources/Dev6/game.js:135-138 | a palette bead loads its colour into the brush and changes nothing else |
| Dev6Laws.TouchClear | resources/Dev6/game.js:140-156 | the clear button (8, 10) clears the canvas, with a white brush |
| Dev6Laws.TouchCheck | resources/Dev6/game.js:158-161 | the check button (9, 10) judges the current level, with a white brush |
| Dev6Laws.ClearCanvasSpec | resources/Dev6/game.js:140-156 | clearing whitens exactly the canvas beads tagged 0 and gives every canvas bead the default border; tags and the palette row's colours stay |
| Dev6Laws.CheckAllKeepsPicture | resources/Dev6/game.js:539-551 | judging beads never changes a colour or a tag |
| Dev6Laws.CheckAllOnlyJudged | resources/Dev6/game.js:539-551 | judging beads leaves every other bead's border alone |
| Dev6Laws.CheckAllMarks | resources/Dev6/game.js:539-551 | each judged bead gets border width 2, green exactly when it has its wanted colour and red otherwise |
| Dev6Laws.MaskColumn | resources/Dev6/game.js:311-327 | the level-5 mask holds the listed number of beads per column |
| Dev6Laws.MaskLeftColumn | resources/Dev6/game.js:311-327 | the same for columns 0-4 |
| Dev6Laws.MaskRightColumn | resources/Dev6/game.js:311-327 | the same for columns 5-9 |
| Dev6Laws.BlanksInColumnCount | resources/Dev6/game.js:311-327 | the count of one column never exceeds its mask and equals it exactly when all its mask beads are white |
| Dev6Laws.BlanksBeforeCount | resources/Dev6/game.js:311-327 | the same for the first m columns |
| Dev6Laws.ColumnWhiteMeans | resources/Dev6/game.js:311-327 | "the column is white" means every mask bead of it is white |
| Dev6Laws.MaskTotal | resources/Dev6/game.js:301 | the mask holds 72 beads in all |
| Dev6Laws.CountBlanksMeans | resources/Dev6/game.js:311-330 | `correctBlanks` reaches 72 exactly when every mask bead is white |
| Dev6Laws.CheckLevelOutcome | resources/Dev6/game.js:222-369 | a solved level gives `PS.correct`. A wrong answer changes no colour, tag, brush, drag flag or level. Levels outside 1-5 change nothing |
| Dev6Laws.RowChecksDistinct | resources/Dev6/game.js:224-264 | the beads that levels 1-3 judge are distinct |
| Dev6Laws.RowLevelWrongMarks | resources/Dev6/game.js:224-264 | a wrong answer on levels 1-3 marks each judged bead and leaves every other border alone |
| Dev6Laws.Level4ChecksShape | resources/Dev6/game.js:266-296 | the 17 beads of level 4 are distinct and lie in the right block; none is a starting bead; the 12 after the first five want white |
| Dev6Laws.Level4ChecksDistinct | resources/Dev6/game.js:268-271 | the 17 beads level 4 judges are distinct |
| Dev6Laws.CheckBlockMarks | resources/Dev6/game.js:278-284 | the block sweep marks each right-block bead against white and changes no colour |
| Dev6Laws.UnmarkStartsKeepsMark | resources/Dev6/game.js:290-295 | resetting the starting beads' borders keeps every other mark |
| Dev6Laws.BlockThenOwnMarks | resources/Dev6/game.js:278-295 | after the block sweep, the five coloured checks and the unmarking, every judged bead is marked |
| Dev6Laws.Level4WrongMarks | resources/Dev6/game.js:276-296 | a wrong answer on level 4 marks all 17 judged beads; (9, 3), (9, 5) and (9, 6) get the default border |
| Dev6Laws.Level5AnswersDistinct | resources/Dev6/game.js:350-366 | the 11 answers of level 5 are distinct beads |
| Dev6Laws.CheckUnfixedMarks | resources/Dev6/game.js:338-348 | the level-5 sweep marks every canvas bead not tagged 1 against white and changes no colour or tag |
| Dev6Laws.Level5WrongMarks | resources/Dev6/game.js:336-367 | a wrong answer on level 5 marks the 11 answers against their colours, and every other bead not tagged 1 against white |
| Dev6Laws.InitLevelKeepsBar | resources/Dev6/game.js:382-521 | laying out a level leaves the palette row's colours and tags alone |
| Dev6Laws.InitBaseAt | resources/Dev6/game.js:385-394 | `PS.initLevel` first makes every canvas bead grey and tags it 1 |
| Dev6Laws.Level4Judges | resources/Dev6/game.js:268-271 | every right-block bead but the three starting beads is judged on level 4 |
| Dev6Laws.SymmetryRowsAt | resources/Dev6/game.js:438-455 | level 4's loop makes rows 3-6 white, tagged 1 on the left half and 0 on the right |
| Dev6Laws.Level4CellsDistinct | resources/Dev6/game.js:457-468 | level 4's level beads are distinct and none is on row 4 of the right half |
| Dev6Laws.Level4Opens | resources/Dev6/game.js:435-469 | level 4 leaves paintable, and white, exactly the beads it judges |
| Dev6Laws.Level4OpensUnwritten | resources/Dev6/game.js:435-455 | the same for beads that no level bead writes |
| Dev6Laws.Level4OpensWritten | resources/Dev6/game.js:457-468 | the same for the level beads |
| Dev6Laws.Level4MirrorAt | resources/Dev6/game.js:266-296 | every judged bead of level 4 wants the colour of the bead mirrored across the vertical axis |
| Dev6Laws.Level4WhitesMirrorBlank | resources/Dev6/game.js:268-271 | opposite each bead that must stay white lies no level bead |
| Dev6Laws.Level4StartsMirrored | resources/Dev6/game.js:466-468 | the starting beads of column 9 already match the beads opposite them |
| Dev6Laws.BlankCanvasAt | resources/Dev6/game.js:470-480 | levels 5 and 6 make every canvas bead white and tag it 0 |
| Dev6Laws.Level5CellsDistinct | resources/Dev6/game.js:482-506 | level 5's level beads are distinct |
| Dev6Laws.Level5CellsOffMask | resources/Dev6/game.js:482-506 | no level bead of level 5 is in the mask |
| Dev6Laws.Level5CellsUnjudged | resources/Dev6/game.js:482-506 | no level bead of level 5 is an answer |
| Dev6Laws.Level5Judges | resources/Dev6/game.js:470-506 | off the mask, every bead that no level-5 cell writes is an answer |
| Dev6Laws.Level5Opens | resources/Dev6/game.js:470-506 | level 5 leaves paintable, and white, exactly its answers and its mask |
| Dev6Laws.Level5OpensUnwritten | resources/Dev6/game.js:470-480 | the same for beads that no level bead writes |
| Dev6Laws.Level5OpensWritten | resources/Dev6/game.js:482-506 | the same for the level beads |
| Dev6Laws.InitLevelOpens | resources/Dev6/game.js:382-521 | each level 1-6 leaves paintable, and white, exactly the beads it judges (every bead on level 6) and tags every other canvas bead 1 |
| Dev6Laws.InitialInv | resources/Dev6/game.js:62-108 | the puzzle starts on level 1, not drawing, with the palette painted and a palette brush |
| Dev6Laws.CheckLevelKeepsInv | resources/Dev6/game.js:222-369 | checking keeps the invariant; the level moves on by at most one and never past 6 |
| Dev6Laws.TouchKeepsInv | resources/Dev6/game.js:122-173 | a touch keeps the invariant and sets `DRAW` |
| Dev6Laws.EnterKeepsInv | resources/Dev6/game.js:185-219 | entering a bead and releasing keep the invariant |
| Dev6Game.InitBaseLoop | resources/Dev6/game.js:385-394 | the grey-out loop leaves the grid as `InitBase` describes (see InitBaseAt) |
| Dev6Game.SymmetryRowsLoop | resources/Dev6/game.js:438-455 | level 4's loop leaves the grid as `SymmetryRows` describes (see SymmetryRowsAt) |
| Dev6Game.BlankCanvasLoop | resources/Dev6/game.js:470-480 | the blanking loop leaves the grid as `BlankCanvas` describes (see BlankCanvasAt) |
| Dev6Game.ClearColumn | resources/Dev6/game.js:142-155 | one column of the clear loop: default borders everywhere in it and white on beads tagged 0 |
| Dev6Game.ClearCanvasLoop | resources/Dev6/game.js:140-156 | the clear loop leaves the grid as `ClearCanvas` describes (see ClearCanvasSpec) |
| Dev6Game.ChangeBorderCheck | resources/Dev6/game.js:539-551 | the in-place `PS.changeBorderCheck` matches `BorderCheck` |
| Dev6Game.CheckCells | resources/Dev6/game.js:233-262 | a run of `PS.changeBorderCheck` calls matches `CheckAll` |
| Dev6Game.CheckBlockLoop | resources/Dev6/game.js:278-284 | the block sweep matches `CheckBlock` |
| Dev6Game.CheckUnfixedLoop | resources/Dev6/game.js:338-348 | the level-5 sweep matches `CheckUnfixed` |
| Dev6Game.CountBlanksLoop | resources/Dev6/game.js:311-327 | `correctBlanks` counts the white mask beads and reaches 72 exactly when every mask bead is white |
| Dev6Game.PaintPaletteOn | resources/Dev6/game.js:89-96 | paints the palette as `PaintPalette` describes |
| Dev6Game.Game.constructor | resources/Dev6/game.js:62-108 | `PS.init` leaves the initial state, in which the invariant holds |
| Dev6Game.Game.InitLevel | resources/Dev6/game.js:382-521 | the in-place `PS.initLevel` matches `Dev6Rules.InitLevel` |
| Dev6Game.Game.Correct | resources/Dev6/game.js:524-530 | `PS.correct` moves on one level and lays it out |
| Dev6Game.Game.CheckLevel | resources/Dev6/game.js:222-369 | the in-place `PS.checkLevel` matches `Dev6Rules.CheckLevel` |
| Dev6Game.Game.Touch | resources/Dev6/game.js:122-173 | `PS.touch` matches `Dev6Rules.Touch` and keeps the invariant |
| Dev6Game.Game.Release | resources/Dev6/game.js:185-194 | `PS.release` stops drawing |
| Dev6Game.Game.Enter | resources/Dev6/game.js:206-219 | `PS.enter` matches `Canvas.Enter` and keeps the invariant |
| Dev4Laws.TouchCanvasIsEnter | resources/Dev4/game.js:121-170 | touching a canvas bead starts a drag and paints at most that bead, only when it is tagged 0 |
| Dev4Laws.TouchPalette | resources/Dev4/game.js:134-136 | a palette bead loads its colour into the brush and changes nothing else |
| Dev4Laws.TouchClear | resources/Dev4/game.js:139-153 | the clear button (9, 10) clears the canvas, with a white brush |
| Dev4Laws.TouchCheck | resources/Dev4/game.js:155-158 | the check button (8, 10) judges the current level, with a white brush |
| Dev4Laws.ClearCanvasSpec | resources/Dev4/game.js:139-153 | clearing whitens exactly the canvas beads tagged 0; tags, borders and the palette row stay |
| Dev4Laws.CheckLevelOutcome | resources/Dev4/game.js:219-258 | checking moves on exactly when the level is solved; a wrong answer, or a check on level 4, leaves the puzzle exactly as it was |
| Dev4Laws.InitLevelKeepsBar | resources/Dev4/game.js:271-347 | laying out a level leaves the palette row's colours and tags alone |
| Dev4Laws.InitBaseAt | resources/Dev4/game.js:274-281 | `PS.initLevel` first makes every canvas bead grey and tags it 1 |
| Dev4Laws.InitLevelOpens | resources/Dev4/game.js:271-347 | levels 1-3 leave paintable, and white, exactly the beads they judge (on level 1 only (3, 5)); level 4 opens every bead |
| Dev4Laws.InitialInv | resources/Dev4/game.js:62-107 | the puzzle starts on level 1, not drawing, with the palette painted and a palette brush |
| Dev4Laws.CheckLevelKeepsInv | resources/Dev4/game.js:219-258 | checking keeps the invariant and moves the level on by at most one |
| Dev4Laws.TouchKeepsInv | resources/Dev4/game.js:121-170 | a touch keeps the invariant and sets `DRAW` |
| Dev4Laws.EnterKeepsInv | resources/Dev4/game.js:182-216 | entering a bead and releasing keep the invariant |
| Dev4Game.InitBaseLoop | resources/Dev4/game.js:274-281 | the grey-out loop leaves the grid as `InitBase` describes (see InitBaseAt) |
| Dev4Game.FreeCanvasLoop | resources/Dev4/game.js:335-346 | level 4's loop makes every canvas bead white and tags it 0 |
| Dev4Game.ClearCanvasLoop | resources/Dev4/game.js:139-153 | the clear loop leaves the grid as `ClearCanvas` describes (see ClearCanvasSpec) |
| Dev4Game.PaintPaletteOn | resources/Dev4/game.js:89-96 | paints the palette as `PaintPalette` describes |
| Dev4Game.Game.constructor | resources/Dev4/game.js:62-107 | `PS.init` leaves the initial state, in which the invariant holds |
| Dev4Game.Game.InitLevel | resources/Dev4/game.js:271-347 | the in-place `PS.initLevel` matches `Dev4Rules.InitLevel` |
| Dev4Game.Game.Correct | resources/Dev4/game.js:350-356 | `PS.correct` moves on one level and lays it out |
| Dev4Game.Game.CheckLevel | resources/Dev4/game.js:219-258 | the in-place `PS.checkLevel` matches `Dev4Rules.CheckLevel` |
| Dev4Game.Game.Touch | resources/Dev4/game.js:121-170 | `PS.touch` matches `Dev4Rules.Touch` and keeps the invariant |
| Dev4Game.Game.Release | resources/Dev4/game.js:182-191 | `PS.release` stops drawing |
| Dev4Game.Game.Enter | resources/Dev4/game.js:203-216 | `PS.enter` matches `Canvas.Enter` and keeps the invariant |

## Left out

- Audio (`PS.audioPlay`), status text (`PS.statusText`) and `PS.debug` are left out. They have no effect on the game logic. For the same reason, `PS.wrong` is modelled only through its callers: it shows a status and plays a sound.
- Glyphs (`PS.glyph`, `PS.setNPC`'s glyph) and alpha (`PS.alpha`) are not modelled. NPC beads are modelled only by their colour and tag.
- Sprite creation and colour (`PS.spriteSolid`, `PS.spriteSolidColor`) are not modelled. The sprite is the position `(px, py)`.
- The empty `PS.keyUp` and `PS.input` handlers of Dev9 are not modelled, and neither are Dev9's empty `PS.touch` and the template handlers of all four files.
- Dev7 room 3 paints (9, 1) blue ten times in a loop; the model paints it once, with the same result. Dev9 room 3 does the same.
- Dev9's broken-ice branch is kept only as its test, which can never pass, because `PS.setIce` without a level freezes the bead and returns 0. Its one-argument `PS.data(iceStatus)` call is not modelled.
- Dev7's room 2 has a layout and an exit, but no door of this version leads there. The model loads it like any other room and proves its exit, but no sequence of presses from the start reaches it.
- Dev7Laws.KeyDownNonArrowOnIce: this is a consequence of the source rather than a design promise. A non-arrow key makes the target the player's own bead. On ice, the ice rule then runs on that bead and walls the player in.
- Dev6 and Dev4 buttons: touching a button loads the button's own colour, white, into the brush, as the source does.
- Dev9's `REDKEY` global is declared but never read or written. It is left out of the flags.
