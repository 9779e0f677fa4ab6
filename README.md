# Turn engine of a dice-rolling puzzle game, modelled in Dafny

The game is a grid puzzle played in turns. The player's die rolls one tile at
a time. Golem dice copy the player's move while the same number faces up on
both. Buttons open doors when a die with the right number up rests on them.
Jump pads throw a die to a target tile and roll it on from there.

This project models the turn engine behind all of that:

- the **turn manager** (`Turns.TurnManager`): a phase pointer cycling over a
  fixed turn order, and a FIFO queue of actions run one at a time, each
  action's completion starting the next;
- the **turn controllers** (`TurnControllers`): one per non-player phase. On
  their phase's turn, with the manager idle, they queue the actions kept for
  retry, poll every turn object registered for the phase in order, and take
  the turn;
- the **turn objects**: buttons (`Buttons`), doors (`Doors`), jump pads
  (`JumpPads`) and golem dice (`Golems`), dispatched by kind in `TurnObjects`;
- the **dice** (`Dice`): the face pointing up, whether a move is allowed, the
  move itself and the forced moves a jump pad makes;
- the **player die** (`Players`) and its earlier version (`LegacyPlayers`):
  input to direction, and when the player's turn is taken.

Each file is one module. `wrappers.dfy` holds `Option`, and `vectors.dfy`
holds a 3-vector of reals with the grid steps.

Modelling choices:

- **Engine readings are inputs.** The physics engine's part is state the model
  never computes. This covers how far each side's rotated normal points up,
  which tiles hold an obstacle or a floor, and which die a button's or pad's
  raycast finds. These are fields such as `Die.sides`, `Die.scene`,
  `Button.occupant` and `JumpPad.occupant`, which no model method writes.
- **Actions are values.** They are named by kind and by the id of the object
  that owns the coroutine (`Move`, `TriggerAction`, `ReleaseTriggerAction`,
  `Jump`). A running coroutine's completion is the explicit step
  `TurnManager.ActionFinished`.
- **Composition replaces inheritance.** `GolemDie`, `PlayerDie` and
  `LegacyPlayerDie` hold the `Die` they extend. `GolemController` holds the
  `TurnController` it extends.
- **Turn objects are a datatype.** The `ITurnObject` interface becomes the
  datatype `TurnObject`, dispatched by `PollObject`.
- **Polls are specified against snapshots.** A poll of several objects is
  specified against what every object saw before the poll. It is sound
  because the registered objects of one phase never write what another one
  reads: `TurnObjects.Independent`.
- **The turn-manager API is reconstructed.** `Managers/TurnManager.cs` is the
  first version of the manager. It has `TICK_TYPE {PLAYER, WORLD}`, a public
  `actionQueue` and `Tick`. The newer callers use `TurnManager.QueueAction`,
  `TurnManager.TakeTurn` and `TURN_TYPE` with `GOLEM`, and their source is
  not part of this model. The model makes three assumptions:
  - the turn order is a non-empty parameter over the three phases;
  - `QueueAction` enqueues at the tail, as `PlayerDie.cs:34` does by hand;
  - `TakeTurn` is `Tick`, as the earlier `PlayerDie.cs:35` calls `Tick` where
    the newer `Dice/PlayerDie.cs:51` calls `TakeTurn`.

Four facts of the code that the model follows, and that a reader of the
game might expect otherwise:

- **Doors do not retry.** `Door.cs` only shows or hides its model
  (`Door.cs:9-17`), and no file of the modelled source calls
  `RequeueActionForNextTurn` (`TurnController.cs:56-58`). The retry list is
  modelled as the controller keeps it, and doors never add to it.
- **The pointer moves first.** `Tick` advances the phase pointer
  (`TurnManager.cs:55`) and only then starts the queue (`:58`); it does not
  wait for the queue to drain.
- **The player does not queue golem moves.** The player die queues only its
  own `Move` and hands each synced golem the direction (`QueueMove`,
  `Dice/PlayerDie.cs:46-50`). The golem queues its own `Move` on the golem
  phase's turn (`GolemDie.cs:6-16`).
- **The turn order is not fixed.** The manager in the code has the phases
  PLAYER and WORLD; the newer callers also name GOLEM. The model takes the
  order as a parameter.

## Model

| member | source | states |
|---|---|---|
| Turns.NextPointer | Assets/Scripts/Managers/TurnManager.cs:55 | one tick of the pointer stays inside the turn order |
| Turns.TickWraps | Assets/Scripts/Managers/TurnManager.cs:55 | the source's `(p + 1) % length` is the increment that wraps to 0 past the last phase |
| Turns.PointerAfter | Assets/Scripts/Managers/TurnManager.cs:26-55 | after any number of ticks the pointer is still a valid index of the turn order |
| Turns.PointerAfterWithinCycle | Assets/Scripts/Managers/TurnManager.cs:55 | within one cycle the pointer walks forward one phase per tick and wraps past the end exactly once |
| Turns.PointerAfterCompose | Assets/Scripts/Managers/TurnManager.cs:55 | ticking a times then b times is ticking a + b times |
| Turns.RoundRobin | Assets/Scripts/Managers/TurnManager.cs:22-66 | from the first phase, tick k of the first cycle shows phase k of the order, and the sequence of phases repeats with the length of the order |
| Turns.EveryPhaseWithinOneCycle | Assets/Scripts/Managers/TurnManager.cs:54-66 | no phase is skipped: from any pointer, every phase comes up within one cycle of ticks |
| Turns.TurnManager.constructor | Assets/Scripts/Managers/TurnManager.cs:22-31 | a new manager starts at the first phase with an empty queue, nothing running and no history |
| Turns.TurnManager.QueueComplete | Assets/Scripts/Managers/TurnManager.cs:50-52 | true exactly when the queue is empty |
| Turns.TurnManager.ReadyForNextTurn | Assets/Scripts/Managers/TurnManager.cs:46-48 | true exactly when the queue is empty and no action is running |
| Turns.TurnManager.GetCurrentTurn | Assets/Scripts/Managers/TurnManager.cs:64-66 | the current phase is one of the turn order's phases |
| Turns.TurnManager.QueueAction | Assets/Scripts/PlayerDie.cs:34 | the action is added at the tail and nothing else changes; the manager is no longer ready for the next turn |
| Turns.TurnManager.StartNextAction | Assets/Scripts/Managers/TurnManager.cs:33-44 | on an empty queue nothing runs and nothing else changes; otherwise exactly the front action is removed, becomes the running one and is recorded as started, and the rest of the queue is kept; the invariant that started actions followed by queued ones are all actions ever queued is kept |
| Turns.TurnManager.ActionFinished | Assets/Scripts/Managers/TurnManager.cs:43 | a finished action's callback starts the next one, as StartNextAction does, without moving the pointer |
| Turns.TurnManager.Tick | Assets/Scripts/Managers/TurnManager.cs:54-58 | the pointer advances one phase (wrapping) before the queue starts, then the front action starts, or nothing runs on an empty queue |
| Turns.TurnManager.RunUntilIdle | Assets/Scripts/Managers/TurnManager.cs:33-44 | once a drain is under way, every action queued before it starts exactly once, in queue order, and the manager ends ready for the next turn with the pointer unmoved |
| Dice.FirstMaxIndex | Assets/Scripts/Dice/Die.cs:114-120 | among a non-empty prefix of the sides, the index found has the largest upness, and every earlier side's is strictly smaller (the first maximum wins ties) |
| Dice.FirstMaxIsUnique | Assets/Scripts/Dice/Die.cs:116 | there is only one first maximum, so strict `>` fixes the answer |
| Dice.UpFace | Assets/Scripts/Dice/Die.cs:110-125 | -1 for a die without sides; otherwise the value of the first side of largest upness |
| Dice.GetCurrentSide | Assets/Scripts/Dice/Die.cs:110-125 | the best-so-far loop returns -1 with no sides, and otherwise the value of the first side with the largest upness |
| Dice.ValidMove | Assets/Scripts/Dice/Die.cs:128-144 | the zero direction is never valid; any other direction is valid exactly when no obstacle is hit ahead and a floor is hit at the destination |
| Dice.CanMove | Assets/Scripts/Dice/Die.cs:128-144 | the raycasts read as tiles of the scene: a move is allowed exactly when the direction is non-zero, the tile one step along it holds no obstacle and that tile has a floor |
| Dice.Die.IsValidMoveDirection | Assets/Scripts/Dice/Die.cs:128-144 | from the die's own position and move distance: valid exactly when the direction is non-zero and the tile it leads to has a floor and no obstacle |
| Dice.Die.CurrentFace | Assets/Scripts/Dice/Die.cs:110-125 | the face up is -1 for a die without sides, and otherwise the value of the first side of largest upness |
| Dice.ForcedMovesGoStraight | Assets/Scripts/Tiles/JumpPad.cs:96-102 | any run of forced moves in one direction ends some number j of whole rolls along it; every tile rolled from allowed the move, and if a move was refused, it was the one after the last roll |
| Dice.BlockedStaysBlocked | Assets/Scripts/Dice/Die.cs:48-54 | once a forced move is refused, every later forced move in the same direction leaves the die where it is |
| Dice.Die.constructor | Assets/Scripts/Dice/Die.cs:28-32 | a new die has no stored move direction |
| Dice.Die.GetPivotPointForDirection | Assets/Scripts/Dice/Die.cs:62-73 | the pivot lies on the bottom face (y is minus the y extent), pushed out by the extent times the direction along x and z |
| Dice.Die.AnimateMove | Assets/Scripts/Dice/Die.cs:80-107 | whatever the frames did, the die ends exactly one move distance along the direction, rolled once more by the rotation amount about the swapped axis |
| Dice.Die.Move | Assets/Scripts/Dice/Die.cs:38-41 | the die rolls in its stored direction without a validity check, and the stored direction is zero afterwards |
| Dice.Die.ForceExternalMove | Assets/Scripts/Dice/Die.cs:48-54 | the die rolls in the direction if that move is valid and otherwise stays where it is |
| Doors.Door.TriggerAction | Assets/Scripts/Tiles/Door.cs:14-17 | the door's model is hidden afterwards, whatever it was before, so a repeated trigger changes nothing |
| Doors.Door.ReleaseTriggerAction | Assets/Scripts/Tiles/Door.cs:9-12 | the door's model is shown afterwards, whatever it was before, so a release after a trigger restores it |
| Buttons.ButtonStep | Assets/Scripts/Tiles/Button.cs:30-46 | the three checks: the flag ends set if pressed, or if it was set on a one-shot button; the trigger call is made exactly when pressed and not yet triggered; the release call exactly when a triggered hold-down button is no longer pressed; so at most one call per turn |
| Buttons.DoorActions | Assets/Scripts/Tiles/Button.cs:49-56 | one action per trigger object, in the objects' order, the trigger action when held and the release action otherwise |
| Buttons.Button.constructor | Assets/Scripts/Tiles/Button.cs:16 | a new button is not triggered |
| Buttons.Button.CheckTrigger | Assets/Scripts/Tiles/Button.cs:18-28 | not pressed with no die on the button; with a die, pressed exactly when the first side of largest upness shows the required value (or, for a die without sides, the required value is -1) |
| Buttons.Button.QueueTurn | Assets/Scripts/Tiles/Button.cs:18-46 | the button's pressed state is an occupant whose face up equals the required value; the turn leaves the flag and appends the actions that ButtonStep decides, and nothing when the pressed state equals the flag |
| Buttons.Button.Trigger | Assets/Scripts/Tiles/Button.cs:48-57 | the loop appends one trigger (or release) action per object, in array order |
| Buttons.HoldDownTracksPresses | Assets/Scripts/Tiles/Button.cs:36-46 | over any run of turns, a hold-down button ends triggered exactly when the last turn found it pressed; its trigger and release calls alternate, and its last call agrees with its final flag |
| Buttons.DoorFollowsLastCall | Assets/Scripts/Tiles/Door.cs:9-17 | a door's state after a run of trigger and release actions depends only on the last one |
| Buttons.HoldDownDoorOpenWhilePressed | Assets/Scripts/Tiles/Button.cs:36-40 | a door behind a hold-down button that starts in agreement with it is open after any run of turns exactly when the last turn found the button pressed |
| Buttons.OneShotFiresOnce | Assets/Scripts/Tiles/Button.cs:42-45 | a one-shot button never releases; it fires once, on the first pressed turn, unless it started triggered, and stays triggered from then on |
| JumpPads.LandingDirection | Assets/Scripts/Tiles/JumpPad.cs:52-68 | a grid step along the axis of larger horizontal travel to the target (ties, even no travel, go to z), pointing the way the travel goes with a zero component counting as positive; its component of the travel is the dominant magnitude |
| JumpPads.LandingDirectionBestAligned | Assets/Scripts/Tiles/JumpPad.cs:52-68 | no grid step has a larger component of the travel than the landing direction |
| JumpPads.JumpPad.CheckTrigger | Assets/Scripts/Tiles/JumpPad.cs:26-36 | the projectile becomes the die on the pad, or none, and the result says whether there is one |
| JumpPads.JumpPad.QueueTurn | Assets/Scripts/Tiles/JumpPad.cs:38-41 | exactly one jump is appended when a die rests on the pad, and nothing otherwise |
| JumpPads.JumpPad.Jump | Assets/Scripts/Tiles/JumpPad.cs:70-103 | the projectile lands on the target's x and z at its own height, then exactly as many forced moves as the count says (none if negative) are made, all in the landing direction, ending at the pose those forced moves reach |
| Golems.GolemDie.constructor | Assets/Scripts/Dice/GolemDie.cs:3 | a golem is the die it extends |
| Golems.GolemDie.QueueTurn | Assets/Scripts/Dice/GolemDie.cs:6-16 | a valid stored direction appends exactly one move and is kept; an invalid one (the zero direction included) appends nothing and is reset to zero; afterwards the stored direction is zero or valid |
| Golems.GolemDie.IsSynced | Assets/Scripts/Dice/GolemDie.cs:25-28 | synced exactly when the golem and the player show the same face up; in particular a golem whose sides read as the player's is synced |
| Golems.GolemDie.QueueMove | Assets/Scripts/Dice/GolemDie.cs:34-36 | the stored direction is overwritten with no check |
| TurnObjects.TurnType | Assets/Scripts/TurnControllers/ITurnObject.cs:5 | no turn object takes the player's turn, and exactly the golems take the golem turn (buttons and pads the world's) |
| TurnObjects.PollObject | Assets/Scripts/TurnControllers/ITurnObject.cs:6 | an object's QueueTurn appends the actions its kind decides from what it saw, and leaves the object as its kind's turn decides; only a button's flag, a pad's projectile and a golem die's stored direction may change, so no die moves and no engine reading changes |
| TurnObjects.PollAll | Assets/Scripts/TurnControllers/TurnController.cs:47-49 | polling independent objects in order appends each object's actions in array order, every object acting on what it saw before the poll, and leaves each one as its own turn decides; only a button's flag, a pad's projectile and a golem die's stored direction may change, so no die moves and no engine reading changes |
| TurnControllers.Registered | Assets/Scripts/TurnControllers/TurnController.cs:29-34 | the registered objects are exactly the found objects whose turn type is the controller's phase |
| TurnControllers.RegisteredIndependent | Assets/Scripts/TurnControllers/TurnController.cs:29-34 | objects registered for one phase, each found once, cannot see each other's turns |
| TurnControllers.TurnController.constructor | Assets/Scripts/TurnControllers/TurnController.cs:12-17 | the controller registers the objects of its phase, and the retry list starts empty |
| TurnControllers.TurnController.QueueRetries | Assets/Scripts/TurnControllers/TurnController.cs:41-43 | the retry actions are appended in list order |
| TurnControllers.TurnController.QueueActions | Assets/Scripts/TurnControllers/TurnController.cs:39-50 | all retry actions are appended before any object's, the retry list is empty afterwards, and each registered object is polled once, in array order; only a button's flag, a pad's projectile and a golem die's stored direction may change, so no die moves and no engine reading changes |
| TurnControllers.TurnController.RequeueActionForNextTurn | Assets/Scripts/TurnControllers/TurnController.cs:56-58 | the action goes to the tail of the retry list, and the manager is untouched |
| TurnControllers.TurnController.Update | Assets/Scripts/TurnControllers/TurnController.cs:19-24 | on its own phase with the manager idle, the turn's actions are queued, the pointer advances once and the first of them starts; at any other time nothing changes; only a button's flag, a pad's projectile and a golem die's stored direction may change, so no die moves and no engine reading changes |
| TurnControllers.GolemController.constructor | Assets/Scripts/TurnControllers/GolemController.cs:8-11 | `golems` is the registered turn objects as golems, in the same order and number |
| TurnControllers.GolemController.AnySyncedGolemHasValidMove | Assets/Scripts/TurnControllers/GolemController.cs:18-23 | true exactly when some golem synced with the player could move in the direction; false without golems |
| TurnControllers.WorldController.constructor | Assets/Scripts/TurnControllers/WorldController.cs:12-17 | the world objects are exactly the found objects whose turn type is WORLD |
| TurnControllers.WorldController.QueueActions | Assets/Scripts/TurnControllers/WorldController.cs:34-38 | every world object is polled once, in array order, with no retry list; only a button's flag, a pad's projectile and a golem die's stored direction may change, so no die moves and no engine reading changes |
| TurnControllers.WorldController.Update | Assets/Scripts/TurnControllers/WorldController.cs:24-29 | on the world's turn with the manager idle, the world objects' actions are queued, the pointer advances once and the first action starts; at any other time nothing changes; only a button's flag, a pad's projectile and a golem die's stored direction may change, so no die moves and no engine reading changes |
| Players.AxisNormalized | Assets/Scripts/Dice/PlayerDie.cs:79 | a vector on one horizontal axis normalizes to the grid step pointing the same way, scaled back to the vector by its length; zero exactly when the vector is zero |
| Players.MoveDirectionFromInput | Assets/Scripts/Dice/PlayerDie.cs:66-80 | the result is zero or a grid step; it lies along x exactly when the horizontal input passes the 0.01 dead zone and is strictly larger than the vertical, and along z exactly when the vertical passes the dead zone and is at least as large; it points the way the input does |
| Players.PlayerDie.constructor | Assets/Scripts/Dice/PlayerDie.cs:7 | input starts disallowed |
| Players.PlayerDie.Awake | Assets/Scripts/Dice/PlayerDie.cs:9-12 | the stored direction starts at zero |
| Players.PlayerDie.OnTransitionBegin | Assets/Scripts/Dice/PlayerDie.cs:15 | input is disallowed while a level transition runs |
| Players.PlayerDie.OnTransitionEnd | Assets/Scripts/Dice/PlayerDie.cs:16 | input is allowed again once it ends |
| Players.PlayerDie.MovementShouldTakeTurn | Assets/Scripts/Dice/PlayerDie.cs:62-64 | true exactly when the player die, or some golem synced with it, could move in the direction |
| Players.PlayerDie.QueueSyncedMoves | Assets/Scripts/Dice/PlayerDie.cs:47-50 | every golem synced with the player gets the desired direction, the others keep theirs |
| Players.PlayerDie.TryProcessTurn | Assets/Scripts/Dice/PlayerDie.cs:29-54 | nothing happens unless input is allowed and it is the player's idle turn; then the die keeps the input direction if it can move there and zero otherwise; if it or a synced golem can move that way, its move is queued first, synced golems get the raw direction and the turn is taken; otherwise nothing is queued and no golem changes |
| Players.PlayerDie.ProcessInput | Assets/Scripts/Dice/PlayerDie.cs:35-52 | the player's idle turn on a desired direction, as in TryProcessTurn |
| LegacyPlayers.LegacyPlayerDie.constructor | Assets/Scripts/PlayerDie.cs:9-13 | no move is stored at first |
| LegacyPlayers.LegacyPlayerDie.TryProcessTurn | Assets/Scripts/PlayerDie.cs:20-38 | only on the player's idle turn: the input's direction is kept if valid and zeroed otherwise; a non-zero direction, which is then always a valid one, queues the die's move and takes the turn; a zero one leaves the manager untouched |
| LegacyPlayers.LegacyPlayerDie.Move | Assets/Scripts/PlayerDie.cs:40-43 | the die rolls in the stored direction, which is zero afterwards |

## Left out

- Rendering, animation frames, audio, camera targets and debug rays are left out. The model keeps only the end pose of a roll and of a jump's flight; the flight curve and its timing are not modelled.
- Engine readings are not derived from the pose. The up-scores of the sides, the obstacle and floor tiles and the die a raycast finds are engine-owned inputs, so a roll does not update them.
- Orientation is symbolic, not a quaternion: a product of the rolls applied.
- Vectors compare exactly. Unity's approximate `==` on vectors is not modelled.
- `direction.normalized` in the move check is the direction itself. Every direction the game passes is a grid step or zero.
- Discovery of objects is not modelled. `FindObjectsOfType`, the singletons and `GetComponent` lookups are replaced by parameters, and a die without a `Die` component (a null reference) is not modelled.
- The scene's object lists are assumed sane. Each object is assumed found once (`DistinctKeys`), and the player's die is assumed not to be a golem's die.
- Coroutines are referenced by id and not executed. Completion is the explicit `ActionFinished` step, and which object's method an id stands for is left to the reader.
- Turns.TurnManager.Tick: like the source, it does not check that nothing is running, but on that path the model and the source differ. The source replaces `currentAction` while the earlier `Task` keeps running, and that task's `Finished` callback later calls `StartNextAction` again, so two actions can run at once; the model drops the earlier action. Every caller in the model calls `Tick` only with the manager idle, so no modelled caller reaches this path.
- The per-frame `Update` of the player die is `TryProcessTurn` with the frame's input. Input axes are parameters.
- `PlayerDie.GetMoveDirection` is a getter of the stored direction and has no row.
- `WorldController` also lists the dice, the player and the golems in the scene. Only `GolemDie.IsSynced` reads one of them (the player), and the model passes the player die to it directly.
- `GetTurnType` of each object is `TurnObjects.TurnType`. The source declares these with two enums of the same names (`TICK_TYPE` and `TURN_TYPE`); the model has one.
- TurnControllers.TurnController.QueueActions: polling is specified for objects registered for one phase, each found once (`TurnObjects.Independent`). Objects of different phases polled together could see each other's writes, and that case is not specified.
