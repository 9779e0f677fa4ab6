/**
 * Jump pads: a world-turn object that launches the die resting on it to a
 * target tile, then rolls it on along the pad's dominant direction of travel.
 */
module JumpPads {
  import opened Wrappers
  import opened Vectors
  import opened Turns
  import opened Dice

  /** The component of v along a grid step: its dot product with the step. */
  function Along(step: Vec3, v: Vec3): real
    requires IsGridStep(step)
  {
    if step == Right then v.x
    else if step == Left then -v.x
    else if step == Forward then v.z
    else -v.z
  }

  /** The travel from the pad to the target tile, flattened onto the ground. */
  function Travel(pad: Vec3, target: Vec3): Vec3 {
    Vec3(target.x - pad.x, 0.0, target.z - pad.z)
  }

  /** The larger of the two horizontal magnitudes of a vector. */
  function Dominant(v: Vec3): real {
    if Abs(v.x) > Abs(v.z) then Abs(v.x) else Abs(v.z)
  }

  /**
   * JumpPad.GetLandingDirection on the two positions: a unit step along the
   * axis of larger travel, pointing the way the travel goes. The travel's
   * component along it is the dominant magnitude; ties between the axes go
   * to z, and a zero component counts as positive.
   */
  function LandingDirection(pad: Vec3, target: Vec3): (direction: Vec3)
    ensures IsGridStep(direction)
    ensures Along(direction, Travel(pad, target)) == Dominant(Travel(pad, target))
    ensures Abs(Travel(pad, target).x) == Abs(Travel(pad, target).z) ==> direction.x == 0.0
    ensures direction == Right ==> Travel(pad, target).x > 0.0
    ensures direction == Left ==> Travel(pad, target).x < 0.0
    ensures direction == Forward ==> Travel(pad, target).z >= 0.0
    ensures direction == Back ==> Travel(pad, target).z < 0.0
  {
    var travelDirection := Travel(pad, target);
    var xAmount := travelDirection.x;
    var zAmount := travelDirection.z;
    // Vector3.right or Vector3.forward, scaled by the sign of that component
    if Abs(xAmount) > Abs(zAmount) then Vec3(Sign(xAmount), 0.0, 0.0) else Vec3(0.0, 0.0, Sign(zAmount))
  }

  /**
   * The landing direction is the grid step best aligned with the travel on
   * the ground: no other step has a larger component of the travel.
   */
  lemma LandingDirectionBestAligned(pad: Vec3, target: Vec3, step: Vec3)
    requires IsGridStep(step)
    ensures Along(step, Travel(pad, target)) <= Along(LandingDirection(pad, target), Travel(pad, target))
  {
  }

  /** The number of landing rolls the loop makes: the configured count, or none if it is negative. */
  function RollCount(landingRollTileCount: int): nat {
    if landingRollTileCount < 0 then 0 else landingRollTileCount
  }

  class JumpPad {
    const id: nat
    const position: Vec3
    /** The position of the target tile. */
    const targetTile: Vec3
    const landingRollTileCount: int
    /** Owned by the physics engine: the die the upward raycast finds on the pad. */
    var occupant: Option<Die>
    /** The die found on the pad at the last check, launched by the next jump. */
    var projectileTransform: Option<Die>

    constructor (id: nat, position: Vec3, targetTile: Vec3, landingRollTileCount: int)
      ensures this.id == id && this.position == position && this.targetTile == targetTile
      ensures this.landingRollTileCount == landingRollTileCount
      ensures occupant == None && projectileTransform == None
    {
      this.id := id;
      this.position := position;
      this.targetTile := targetTile;
      this.landingRollTileCount := landingRollTileCount;
      occupant := None;
      projectileTransform := None;
    }

    function GetLandingDirection(): Vec3 {
      LandingDirection(position, targetTile)
    }

    /** Remember whatever rests on the pad as the projectile, and say whether anything does. */
    method CheckTrigger() returns (hit: bool)
      modifies this`projectileTransform
      ensures projectileTransform == occupant
      ensures hit <==> occupant.Some?
    {
      if occupant.Some? {
        projectileTransform := occupant;
      } else {
        projectileTransform := None;
      }
      return occupant.Some?;
    }

    /** Queue a jump if a die rests on the pad. */
    method QueueTurn(manager: TurnManager)
      requires manager.Valid()
      modifies this`projectileTransform, manager
      ensures manager.Valid()
      ensures projectileTransform == occupant
      ensures manager.Appended(if occupant.Some? then [Action.Jump(id)] else [])
    {
      var hit := CheckTrigger();
      if hit {
        manager.QueueAction(Action.Jump(id));
      }
    }

    /**
     * The jump: the projectile lands on the target tile at its own height,
     * keeping its orientation, then tries landingRollTileCount forced moves
     * in the landing direction, each of which rolls it on if the scene allows.
     */
    method Jump()
      requires projectileTransform.Some?
      modifies projectileTransform.value`position, projectileTransform.value`rotation
      modifies projectileTransform.value`forcedMoves
      ensures var die := projectileTransform.value;
              var landed := Pose(Vec3(targetTile.x, old(die.position.y), targetTile.z), old(die.rotation));
              die.CurrentPose()
                == ForcedMoves(die.scene, landed, GetLandingDirection(), die.moveDistance, die.rotationAmount,
                               RollCount(landingRollTileCount))
      ensures var die := projectileTransform.value;
              die.forcedMoves == old(die.forcedMoves) + Repeat(GetLandingDirection(), RollCount(landingRollTileCount))
    {
      var die := projectileTransform.value;
      var endPosition := Vec3(targetTile.x, die.position.y, targetTile.z);
      die.position := endPosition;
      ghost var landed := die.CurrentPose();
      var landingDirection := GetLandingDirection();
      var landingTilesMoved := 0;
      while landingTilesMoved < landingRollTileCount
        invariant 0 <= landingTilesMoved <= RollCount(landingRollTileCount)
        invariant die.CurrentPose()
                    == ForcedMoves(die.scene, landed, landingDirection, die.moveDistance, die.rotationAmount, landingTilesMoved)
        invariant die.forcedMoves == old(die.forcedMoves) + Repeat(landingDirection, landingTilesMoved)
      {
        die.ForceExternalMove(landingDirection);
        landingTilesMoved := landingTilesMoved + 1;
      }
    }
  }
}
