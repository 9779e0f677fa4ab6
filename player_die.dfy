/**
 * The player's die: on the player's turn it reads the movement input, and
 * takes the turn when it or a golem synced with it can move that way,
 * handing the same direction to every synced golem.
 */
module Players {
  import opened Vectors
  import opened Turns
  import opened Dice
  import opened Golems
  import opened TurnControllers

  /** Input on an axis at or below this magnitude counts as none. */
  const MovementDeadzone: real := 0.01

  function DeadZoned(axis: real): real {
    if Abs(axis) > MovementDeadzone then axis else 0.0
  }

  /** The unit vector along a vector lying on the x or the z axis; zero stays zero. */
  function AxisNormalized(v: Vec3): (unit: Vec3)
    requires v.y == 0.0 && (v.x == 0.0 || v.z == 0.0)
    ensures unit == Zero || IsGridStep(unit)
    ensures unit == Zero <==> v == Zero
    ensures Scale(unit, Abs(v.x) + Abs(v.z)) == v
  {
    if v.x > 0.0 then Right
    else if v.x < 0.0 then Left
    else if v.z > 0.0 then Forward
    else if v.z < 0.0 then Back
    else Zero
  }

  /**
   * The move direction asked for by the two input axes: the axis with more
   * input beyond the dead zone wins, ties going to the vertical one, and the
   * result is a unit step that way, or zero when neither axis has input.
   */
  function MoveDirectionFromInput(horizontal: real, vertical: real): (direction: Vec3)
    ensures direction == Zero || IsGridStep(direction)
    ensures direction.x != 0.0 <==> Abs(horizontal) > MovementDeadzone && Abs(horizontal) > Abs(vertical)
    ensures direction.z != 0.0 <==> Abs(vertical) > MovementDeadzone && Abs(vertical) >= Abs(horizontal)
    ensures direction == Right ==> horizontal > 0.0
    ensures direction == Left ==> horizontal < 0.0
    ensures direction == Forward ==> vertical > 0.0
    ensures direction == Back ==> vertical < 0.0
  {
    var x := DeadZoned(horizontal);
    var z := DeadZoned(vertical);
    // only one direction at a time: keep the axis with the most input
    var input := if Abs(x) > Abs(z) then Vec3(x, 0.0, 0.0) else Vec3(0.0, 0.0, z);
    AxisNormalized(input)
  }

  class PlayerDie {
    /** The die this player is; the source's subclassing of Die becomes composition. */
    const die: Die
    /** Input is taken only between a level transition's end and the next one's beginning. */
    var allowInput: bool

    constructor (die: Die)
      ensures this.die == die && !allowInput
    {
      this.die := die;
      allowInput := false;
    }

    method Awake()
      modifies die`moveDirection
      ensures die.moveDirection == Zero
    {
      die.moveDirection := Zero;
    }

    /** A level transition begins: stop taking input. */
    method OnTransitionBegin()
      modifies this`allowInput
      ensures !allowInput
    {
      allowInput := false;
    }

    /** A level transition ends: take input again. */
    method OnTransitionEnd()
      modifies this`allowInput
      ensures allowInput
    {
      allowInput := true;
    }

    /** This frame's input is processed: input is allowed, it is the player's turn and the manager is idle. */
    predicate Acting(manager: TurnManager)
      requires manager.Valid()
      reads this`allowInput, manager
    {
      allowInput && manager.GetCurrentTurn() == PLAYER && manager.ReadyForNextTurn()
    }

    /** A move in the direction takes the player's turn when this die, or some golem synced with it, could make it. */
    method MovementShouldTakeTurn(desiredMovement: Vec3, golems: GolemController) returns (takeTurn: bool)
      requires golems.Valid()
      ensures takeTurn <==> die.IsValidMoveDirection(desiredMovement) || golems.SyncedGolemCanMove(desiredMovement, die)
    {
      if die.IsValidMoveDirection(desiredMovement) {
        return true;
      }
      takeTurn := golems.AnySyncedGolemHasValidMove(desiredMovement, die);
    }

    /** Hand the desired direction to every golem synced with this die, in order; the others keep theirs. */
    method QueueSyncedMoves(desiredMovement: Vec3, golems: GolemController)
      requires golems.Valid() && die !in golems.GolemDice()
      modifies golems.GolemDice()`moveDirection
      ensures forall i :: 0 <= i < |golems.golems| ==>
                golems.golems[i].die.moveDirection
                  == if golems.golems[i].IsSynced(die) then desiredMovement else old(golems.golems[i].die.moveDirection)
    {
      golems.DistinctDice();
      for k := 0 to |golems.golems|
        invariant forall i :: 0 <= i < k ==>
                    golems.golems[i].die.moveDirection
                      == if golems.golems[i].IsSynced(die) then desiredMovement else old(golems.golems[i].die.moveDirection)
        invariant forall i :: k <= i < |golems.golems| ==>
                    golems.golems[i].die.moveDirection == old(golems.golems[i].die.moveDirection)
      {
        var golem := golems.golems[k];
        if golem.IsSynced(die) {
          golem.QueueMove(desiredMovement);
        }
      }
    }

    /**
     * One frame of the player's turn. While input is allowed, on the player's
     * turn with the manager idle, the die keeps the desired direction if it
     * can move that way and zero otherwise; if it or a synced golem can move
     * that way, it queues its move, hands the direction to the synced golems
     * and takes the turn. Otherwise nothing is queued and no golem changes.
     */
    method TryProcessTurn(horizontal: real, vertical: real, manager: TurnManager, golems: GolemController)
      requires manager.Valid() && golems.Valid() && die !in golems.GolemDice()
      modifies die`moveDirection, golems.GolemDice()`moveDirection, manager
      ensures manager.Valid()
      ensures !old(Acting(manager)) ==>
                && manager.State() == old(manager.State())
                && die.moveDirection == old(die.moveDirection)
                && forall i :: 0 <= i < |golems.golems| ==>
                     golems.golems[i].die.moveDirection == old(golems.golems[i].die.moveDirection)
      ensures old(Acting(manager)) ==>
                var desired := MoveDirectionFromInput(horizontal, vertical);
                && die.moveDirection == (if die.IsValidMoveDirection(desired) then desired else Zero)
                && (die.IsValidMoveDirection(desired) || golems.SyncedGolemCanMove(desired, die) ==>
                      && manager.TookTurnWith([Move(die.id)])
                      && forall i :: 0 <= i < |golems.golems| ==>
                           golems.golems[i].die.moveDirection
                             == if golems.golems[i].IsSynced(die) then desired else old(golems.golems[i].die.moveDirection))
                && (!(die.IsValidMoveDirection(desired) || golems.SyncedGolemCanMove(desired, die)) ==>
                      && manager.State() == old(manager.State())
                      && forall i :: 0 <= i < |golems.golems| ==>
                           golems.golems[i].die.moveDirection == old(golems.golems[i].die.moveDirection))
    {
      if !allowInput {
        return;
      }
      if manager.GetCurrentTurn() == PLAYER && manager.ReadyForNextTurn() {
        ProcessInput(MoveDirectionFromInput(horizontal, vertical), manager, golems);
      }
    }

    /** The player's turn on the desired direction, with the manager idle. */
    method ProcessInput(desiredMoveDirection: Vec3, manager: TurnManager, golems: GolemController)
      requires manager.Valid() && manager.ReadyForNextTurn() && golems.Valid() && die !in golems.GolemDice()
      modifies die`moveDirection, golems.GolemDice()`moveDirection, manager
      ensures manager.Valid()
      ensures die.moveDirection == (if die.IsValidMoveDirection(desiredMoveDirection) then desiredMoveDirection else Zero)
      ensures die.IsValidMoveDirection(desiredMoveDirection) || golems.SyncedGolemCanMove(desiredMoveDirection, die) ==>
                && manager.TookTurnWith([Move(die.id)])
                && forall i :: 0 <= i < |golems.golems| ==>
                     golems.golems[i].die.moveDirection
                       == if golems.golems[i].IsSynced(die) then desiredMoveDirection else old(golems.golems[i].die.moveDirection)
      ensures !(die.IsValidMoveDirection(desiredMoveDirection) || golems.SyncedGolemCanMove(desiredMoveDirection, die)) ==>
                && manager.State() == old(manager.State())
                && forall i :: 0 <= i < |golems.golems| ==>
                     golems.golems[i].die.moveDirection == old(golems.golems[i].die.moveDirection)
    {
      die.moveDirection := desiredMoveDirection;
      // a blocked direction is not kept
      if !die.IsValidMoveDirection(die.moveDirection) {
        die.moveDirection := Zero;
      }
      var takeTurn := MovementShouldTakeTurn(desiredMoveDirection, golems);
      if takeTurn {
        manager.QueueAction(Move(die.id));
        QueueSyncedMoves(desiredMoveDirection, golems);
        manager.Tick();
      }
    }
  }
}
