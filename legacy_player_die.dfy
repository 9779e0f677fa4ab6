/**
 * The earlier player die, written against the first turn manager: it keeps
 * its own move direction, and takes the turn only when that direction is a
 * valid, non-zero move.
 */
module LegacyPlayers {
  import opened Vectors
  import opened Turns
  import opened Dice
  import opened Players

  class LegacyPlayerDie {
    const die: Die
    var moveDirection: Vec3

    /** Awake: no move pending. */
    constructor (die: Die)
      ensures this.die == die && moveDirection == Zero
    {
      this.die := die;
      moveDirection := Zero;
    }

    /**
     * One frame of the player's turn: on the player's turn with the manager
     * idle, keep the input's direction if the die can move that way and zero
     * otherwise; a non-zero direction queues the die's move and takes the turn.
     * A queued move thus always carries a valid direction.
     */
    method TryProcessTurn(horizontal: real, vertical: real, manager: TurnManager)
      requires manager.Valid()
      modifies this`moveDirection, manager
      ensures manager.Valid()
      ensures !old(manager.GetCurrentTurn() == PLAYER && manager.ReadyForNextTurn()) ==>
                manager.State() == old(manager.State()) && moveDirection == old(moveDirection)
      ensures old(manager.GetCurrentTurn() == PLAYER && manager.ReadyForNextTurn()) ==>
                var desired := MoveDirectionFromInput(horizontal, vertical);
                && moveDirection == (if die.IsValidMoveDirection(desired) then desired else Zero)
                && (moveDirection != Zero <==> die.IsValidMoveDirection(moveDirection))
                && (moveDirection != Zero ==> manager.TookTurnWith([Action.Move(die.id)]))
                && (moveDirection == Zero ==> manager.State() == old(manager.State()))
    {
      if manager.GetCurrentTurn() == PLAYER && manager.ReadyForNextTurn() {
        moveDirection := MoveDirectionFromInput(horizontal, vertical);
        if !die.IsValidMoveDirection(moveDirection) {
          moveDirection := Zero;
        }
        if moveDirection != Zero {
          manager.QueueAction(Action.Move(die.id));
          manager.Tick();
        }
      }
    }

    /** The queued move: roll the die in the stored direction, then forget it. */
    method Move()
      modifies die`position, die`rotation, this`moveDirection
      ensures die.CurrentPose() == Rolled(old(die.CurrentPose()), old(moveDirection), die.moveDistance, die.rotationAmount)
      ensures moveDirection == Zero
    {
      die.AnimateMove(moveDirection);
      moveDirection := Zero;
    }
  }
}
