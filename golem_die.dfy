/**
 * Golem dice: dice that take their turn in the golem phase, rolling in a
 * direction the player handed them while the two were synced.
 */
module Golems {
  import opened Vectors
  import opened Turns
  import opened Dice

  class GolemDie {
    /** The die this golem is; the source's subclassing of Die becomes composition. */
    const die: Die

    constructor (die: Die)
      ensures this.die == die
    {
      this.die := die;
    }

    /**
     * Queue the stored move if it is valid; otherwise drop it, so a stale
     * direction is not tried again next turn. Afterwards the stored direction
     * is either zero or a valid move.
     */
    method QueueTurn(manager: TurnManager)
      requires manager.Valid()
      modifies die`moveDirection, manager
      ensures manager.Valid()
      ensures old(die.IsValidMoveDirection(die.moveDirection)) ==>
                manager.Appended([Move(die.id)]) && die.moveDirection == old(die.moveDirection)
      ensures !old(die.IsValidMoveDirection(die.moveDirection)) ==>
                manager.Appended([]) && die.moveDirection == Zero
      ensures die.moveDirection == Zero || die.IsValidMoveDirection(die.moveDirection)
    {
      if die.IsValidMoveDirection(die.moveDirection) {
        manager.QueueAction(Move(die.id));
      } else {
        die.moveDirection := Zero;
      }
    }

    /** Synced with the player: the same number faces up on both. */
    predicate IsSynced(player: Die): (synced: bool)
      reads die`sides, player`sides
      ensures synced <==> UpFace(die.sides) == UpFace(player.sides)
      ensures die.sides == player.sides ==> synced
    {
      die.CurrentFace() == player.CurrentFace()
    }

    /** Store a direction to move in on the next golem turn; no check is made here. */
    method QueueMove(direction: Vec3)
      modifies die`moveDirection
      ensures die.moveDirection == direction
    {
      die.moveDirection := direction;
    }
  }
}
