/**
 * Dice: which face is up, whether a move is allowed, and the move itself.
 *
 * The physics engine's part is supplied as readings the model never computes:
 * for each side, how far its rotated normal points up (the dot product
 * GetCurrentSide takes), and for each direction, whether the lateral raycast
 * hits an obstacle and whether the downward raycast at the destination finds
 * a floor. Orientation is kept as a symbolic product of the rolls applied.
 */
module Dice {
  import opened Vectors

  /** One face of a die: its number, and how far its rotated normal points up. */
  datatype Side = Side(value: int, upness: real)

  /**
   * The physics scene as a die's raycasts see it, in tile positions: the
   * cells an obstacle occupies, and the cells with a floor tile under them.
   */
  datatype Scene = Scene(obstacles: set<Vec3>, floor: set<Vec3>)

  /** An orientation: the identity, or a roll of `angle` degrees about `axis` applied after `before`. */
  datatype Rotation = Identity | Roll(angle: real, axis: Vec3, before: Rotation)

  /** Where a die is and how it is turned. */
  datatype Pose = Pose(position: Vec3, rotation: Rotation)

  /** The full state of a die, for stating what an operation leaves unchanged. */
  datatype DieState = DieState(
    pose: Pose,
    moveDirection: Vec3,
    sides: seq<Side>,
    scene: Scene,
    forcedMoves: seq<Vec3>)

  /** Side i of the first n has the largest upness, and every earlier side's is strictly smaller. */
  ghost predicate IsFirstMax(sides: seq<Side>, n: nat, i: nat)
    requires n <= |sides|
  {
    && i < n
    && (forall j :: 0 <= j < n ==> sides[j].upness <= sides[i].upness)
    && (forall j :: 0 <= j < i ==> sides[j].upness < sides[i].upness)
  }

  /** The first side of maximal upness among the first n sides: later ties do not win. */
  function FirstMaxIndex(sides: seq<Side>, n: nat): (i: nat)
    requires 0 < n <= |sides|
    ensures IsFirstMax(sides, n, i)
  {
    if n == 1 then 0
    else
      var best := FirstMaxIndex(sides, n - 1);
      if sides[n - 1].upness > sides[best].upness then n - 1 else best
  }

  /** There is only one first maximum, so the two conditions above fix the answer. */
  lemma FirstMaxIsUnique(sides: seq<Side>, n: nat, i: nat, k: nat)
    requires n <= |sides|
    requires IsFirstMax(sides, n, i) && IsFirstMax(sides, n, k)
    ensures i == k
  {
    assert sides[i].upness == sides[k].upness;
  }

  /** The number on the face pointing up, or -1 for a die without sides. */
  function UpFace(sides: seq<Side>): (face: int)
    ensures sides == [] ==> face == -1
    ensures sides != [] ==> exists i: nat :: IsFirstMax(sides, |sides|, i) && face == sides[i].value
  {
    if sides == [] then -1 else sides[FirstMaxIndex(sides, |sides|)].value
  }

  /**
   * Die.GetCurrentSide: scan the sides keeping the best score so far; the
   * initial score of minus infinity is None here, so the first side always
   * takes the lead, and a later side takes it only with a strictly larger score.
   */
  method GetCurrentSide(sides: seq<Side>) returns (bestFitValue: int)
    ensures bestFitValue == UpFace(sides)
    ensures sides == [] ==> bestFitValue == -1
    ensures sides != [] ==> exists i: nat :: IsFirstMax(sides, |sides|, i) && bestFitValue == sides[i].value
  {
    bestFitValue := -1;
    var bestFitDot: real := 0.0;
    var best: nat := 0;
    for k := 0 to |sides|
      invariant k == 0 ==> bestFitValue == -1
      invariant k > 0 ==> best == FirstMaxIndex(sides, k)
      invariant k > 0 ==> bestFitValue == sides[best].value && bestFitDot == sides[best].upness
    {
      var sideDot := sides[k].upness;
      if k == 0 || sideDot > bestFitDot {
        bestFitValue := sides[k].value;
        bestFitDot := sideDot;
        best := k;
      }
    }
  }

  /** Die.isValidMoveDirection on the two raycast outcomes. */
  function ValidMove(direction: Vec3, obstacleHit: bool, floorHit: bool): (valid: bool)
    ensures direction == Zero ==> !valid
    ensures direction != Zero ==> (valid <==> !obstacleHit && floorHit)
  {
    if direction == Zero then false else !obstacleHit && floorHit
  }

  /** The axis a die rolls about when moving in `direction`: x and z swapped, one negated. */
  function RollAxis(direction: Vec3): Vec3 {
    Vec3(direction.z, 0.0, -direction.x)
  }

  /** The tile a die at `position` would move onto. */
  function Destination(position: Vec3, direction: Vec3, distance: real): Vec3 {
    Add(position, Scale(direction, distance))
  }

  /** Whether a die at `position` may roll in `direction`, as the raycasts in the scene decide. */
  predicate CanMove(scene: Scene, position: Vec3, direction: Vec3, distance: real): (can: bool)
    ensures can ==> direction != Zero
    ensures direction != Zero ==>
              (can <==> Destination(position, direction, distance) !in scene.obstacles
                        && Destination(position, direction, distance) in scene.floor)
  {
    var target := Destination(position, direction, distance);
    ValidMove(direction, target in scene.obstacles, target in scene.floor)
  }

  /** The pose after one roll: one tile further on, rolled once more about the axis. */
  function Rolled(pose: Pose, direction: Vec3, distance: real, angle: real): Pose {
    Pose(Destination(pose.position, direction, distance), Roll(angle, RollAxis(direction), pose.rotation))
  }

  /** The pose after k unconditional rolls in the same direction. */
  function RolledTimes(pose: Pose, direction: Vec3, distance: real, angle: real, k: nat): Pose {
    if k == 0 then pose else Rolled(RolledTimes(pose, direction, distance, angle, k - 1), direction, distance, angle)
  }

  /** A forced move: roll if the scene allows it, otherwise stay put. */
  function ForcedMove(scene: Scene, pose: Pose, direction: Vec3, distance: real, angle: real): Pose {
    if CanMove(scene, pose.position, direction, distance) then Rolled(pose, direction, distance, angle) else pose
  }

  /** The pose after k forced moves in the same direction. */
  function ForcedMoves(scene: Scene, pose: Pose, direction: Vec3, distance: real, angle: real, k: nat): Pose {
    if k == 0 then pose
    else ForcedMove(scene, ForcedMoves(scene, pose, direction, distance, angle, k - 1), direction, distance, angle)
  }

  /**
   * k forced moves that made exactly j rolls: they end j rolls along the
   * direction, every tile rolled onto was free and floored, and if some
   * moves were refused, the move after the last roll was refused.
   */
  ghost predicate StraightRun(scene: Scene, pose: Pose, direction: Vec3, distance: real, angle: real, k: nat, j: nat) {
    && j <= k
    && ForcedMoves(scene, pose, direction, distance, angle, k) == RolledTimes(pose, direction, distance, angle, j)
    && (forall i :: 0 <= i < j ==> CanMove(scene, RolledTimes(pose, direction, distance, angle, i).position, direction, distance))
    && (j < k ==> !CanMove(scene, RolledTimes(pose, direction, distance, angle, j).position, direction, distance))
  }

  /** A run of forced moves goes straight, and stops only where the scene refuses a move. */
  lemma {:induction false} ForcedMovesGoStraight(scene: Scene, pose: Pose, direction: Vec3,
                                                 distance: real, angle: real, k: nat)
    ensures exists j: nat :: StraightRun(scene, pose, direction, distance, angle, k, j)
  {
    if k == 0 {
      assert StraightRun(scene, pose, direction, distance, angle, k, 0);
    } else {
      ForcedMovesGoStraight(scene, pose, direction, distance, angle, k - 1);
      var j: nat :| StraightRun(scene, pose, direction, distance, angle, k - 1, j);
      var here := RolledTimes(pose, direction, distance, angle, j);
      if CanMove(scene, here.position, direction, distance) {
        assert StraightRun(scene, pose, direction, distance, angle, k, j + 1);
      } else {
        assert StraightRun(scene, pose, direction, distance, angle, k, j);
      }
    }
  }

  /** Once a forced move is refused, every later one in the same direction is refused too. */
  lemma {:induction false} BlockedStaysBlocked(scene: Scene, pose: Pose, direction: Vec3,
                                               distance: real, angle: real, k: nat)
    requires !CanMove(scene, pose.position, direction, distance)
    ensures ForcedMoves(scene, pose, direction, distance, angle, k) == pose
  {
    if k > 0 {
      BlockedStaysBlocked(scene, pose, direction, distance, angle, k - 1);
    }
  }

  /** k copies of a direction. */
  function Repeat(direction: Vec3, k: nat): (r: seq<Vec3>)
    ensures |r| == k && forall i :: 0 <= i < k ==> r[i] == direction
  {
    if k == 0 then [] else Repeat(direction, k - 1) + [direction]
  }

  class Die {
    const id: nat
    const moveDistance: real
    const rotationAmount: real
    /** Half the size of the die's collider box along each axis. */
    const extents: Vec3
    var position: Vec3
    var rotation: Rotation
    var moveDirection: Vec3
    /** Owned by the physics engine: the sides with their current upness. */
    var sides: seq<Side>
    /** Owned by the physics engine: what the raycasts hit. */
    var scene: Scene
    /** Every direction ForceExternalMove was asked to move in, in order. */
    ghost var forcedMoves: seq<Vec3>

    constructor (id: nat, pose: Pose, sides: seq<Side>, scene: Scene,
                 moveDistance: real, rotationAmount: real, extents: Vec3)
      ensures this.id == id && CurrentPose() == pose && this.sides == sides && this.scene == scene
      ensures this.moveDistance == moveDistance && this.rotationAmount == rotationAmount
      ensures this.extents == extents
      ensures moveDirection == Zero && forcedMoves == []
    {
      this.id := id;
      position := pose.position;
      rotation := pose.rotation;
      this.sides := sides;
      this.scene := scene;
      this.moveDistance := moveDistance;
      this.rotationAmount := rotationAmount;
      this.extents := extents;
      moveDirection := Zero;
      forcedMoves := [];
    }

    function CurrentPose(): Pose
      reads this`position, this`rotation
    {
      Pose(position, rotation)
    }

    ghost function State(): DieState
      reads this
    {
      DieState(CurrentPose(), moveDirection, sides, scene, forcedMoves)
    }

    /** The number on the face now pointing up. */
    function CurrentFace(): (face: int)
      reads this`sides
      ensures sides == [] ==> face == -1
      ensures sides != [] ==> exists i: nat :: IsFirstMax(sides, |sides|, i) && face == sides[i].value
    {
      UpFace(sides)
    }

    /** Die.isValidMoveDirection: a non-zero step onto a floor tile with no obstacle on it. */
    predicate IsValidMoveDirection(direction: Vec3): (valid: bool)
      reads this`scene, this`position
      ensures valid <==> && direction != Zero
                         && Add(position, Scale(direction, moveDistance)) !in scene.obstacles
                         && Add(position, Scale(direction, moveDistance)) in scene.floor
    {
      CanMove(scene, position, direction, moveDistance)
    }

    /**
     * The point the die pivots about when rolling: on its bottom face, pushed
     * out to the leading edge along each horizontal axis of the direction.
     */
    function GetPivotPointForDirection(direction: Vec3): (pivot: Vec3)
      ensures pivot.y == -extents.y
      ensures pivot.x == extents.x * direction.x && pivot.z == extents.z * direction.z
    {
      Add(Vec3(0.0, -extents.y, 0.0), Mul(Vec3(extents.x, 0.0, extents.z), direction))
    }

    /**
     * Roll one tile. The per-frame rotation about the pivot is engine
     * animation; whatever it did, the die is snapped to the target pose.
     */
    method AnimateMove(direction: Vec3)
      modifies this`position, this`rotation
      ensures CurrentPose() == Rolled(old(CurrentPose()), direction, moveDistance, rotationAmount)
      ensures position == Add(old(position), Scale(direction, moveDistance))
      ensures rotation == Roll(rotationAmount, RollAxis(direction), old(rotation))
    {
      var rotationAxis := RollAxis(direction);
      var targetPosition := Add(position, Scale(direction, moveDistance));
      var targetRotation := Roll(rotationAmount, rotationAxis, rotation);
      position := targetPosition;
      rotation := targetRotation;
    }

    /** Die.Move: roll in the stored direction, then clear it. No validity check here. */
    method Move()
      modifies this`position, this`rotation, this`moveDirection
      ensures CurrentPose() == Rolled(old(CurrentPose()), old(moveDirection), moveDistance, rotationAmount)
      ensures moveDirection == Zero
    {
      AnimateMove(moveDirection);
      moveDirection := Zero;
    }

    /** Move at once, outside the turn system, if the move is valid; otherwise stay put. */
    method ForceExternalMove(direction: Vec3)
      modifies this`position, this`rotation, this`forcedMoves
      ensures CurrentPose() == ForcedMove(scene, old(CurrentPose()), direction, moveDistance, rotationAmount)
      ensures forcedMoves == old(forcedMoves) + [direction]
    {
      if IsValidMoveDirection(direction) {
        AnimateMove(direction);
      }
      forcedMoves := forcedMoves + [direction];
    }
  }
}
