/**
 * Turn controllers: one per non-player phase. On its phase's turn, when the
 * manager is idle, a controller queues the actions left over for retry, polls
 * every turn object registered for its phase in order, and takes the turn.
 */
module TurnControllers {
  import opened Vectors
  import opened Turns
  import opened Dice
  import opened Golems
  import opened TurnObjects

  /** The objects a controller registers for a phase: those whose turn type is that phase, in the order found. */
  function Registered(found: seq<TurnObject>, phase: Phase): (objs: seq<TurnObject>)
    ensures forall i :: 0 <= i < |objs| ==> objs[i] in found && TurnType(objs[i]) == phase
    ensures forall j :: 0 <= j < |found| && TurnType(found[j]) == phase ==> found[j] in objs
    ensures |objs| <= |found|
  {
    if found == [] then []
    else
      var rest := Registered(found[..|found| - 1], phase);
      var last := found[|found| - 1];
      assert found == found[..|found| - 1] + [last];
      if TurnType(last) == phase then rest + [last] else rest
  }

  /**
   * Registering the objects found (each found once) for one phase gives
   * objects whose turns cannot see each other.
   */
  lemma {:induction false} RegisteredIndependent(found: seq<TurnObject>, phase: Phase)
    requires DistinctKeys(found)
    ensures Independent(Registered(found, phase))
  {
    if found != [] {
      var prefix := found[..|found| - 1];
      var last := found[|found| - 1];
      var rest := Registered(prefix, phase);
      RegisteredIndependent(prefix, phase);
      if TurnType(last) == phase {
        forall i | 0 <= i < |rest|
          ensures Key(rest[i]) != Key(last)
        {
          assert rest[i] in prefix;
          var j :| 0 <= j < |prefix| && prefix[j] == rest[i];
          assert found[j] == rest[i];
        }
        assert (rest + [last])[..|rest|] == rest;
      }
    }
  }

  /** Neither a controller nor the manager is among the objects a poll reads. */
  lemma NotPolled(controller: TurnController, manager: TurnManager, objs: seq<TurnObject>)
    ensures controller !in Keys(objs) + Occupants(objs)
    ensures manager !in Keys(objs) + Occupants(objs)
  {
  }

  class TurnController {
    const turnType: Phase
    const turnObjects: seq<TurnObject>
    /** Actions that failed and are queued again at the start of the next turn. */
    var retryActions: seq<Action>

    /** The registered objects take their turn in this controller's phase and cannot see each other. */
    ghost predicate Valid() {
      && Independent(turnObjects)
      && (forall i :: 0 <= i < |turnObjects| ==> TurnType(turnObjects[i]) == turnType)
    }

    /** Awake: register the turn objects found for this phase, with nothing to retry. */
    constructor (turnType: Phase, found: seq<TurnObject>)
      requires DistinctKeys(found)
      ensures this.turnType == turnType && turnObjects == Registered(found, turnType)
      ensures retryActions == []
      ensures Valid()
    {
      this.turnType := turnType;
      turnObjects := Registered(found, turnType);
      retryActions := [];
      new;
      RegisteredIndependent(found, turnType);
    }

    /** What a turn of this controller queues now: the retries, then each object's actions. */
    ghost function PendingTurn(): seq<Action>
      reads this, Keys(turnObjects), Occupants(turnObjects)
    {
      retryActions + EffectsOf(turnObjects, Snaps(turnObjects))
    }

    /** Queue the actions left for retry, in the order they were kept. */
    method QueueRetries(manager: TurnManager)
      requires manager.Valid()
      modifies manager
      ensures manager.Valid()
      ensures manager.Appended(retryActions)
    {
      ghost var entry := manager.State();
      for k := 0 to |retryActions|
        invariant manager.Valid()
        invariant manager.State() == Enqueue(entry, retryActions[..k])
      {
        manager.QueueAction(retryActions[k]);
        EnqueueTwice(entry, retryActions[..k], [retryActions[k]]);
        assert retryActions[..k + 1] == retryActions[..k] + [retryActions[k]];
      }
      assert retryActions[..|retryActions|] == retryActions;
    }

    /** Queue the retries and forget them, then poll every registered object in order. */
    method QueueActions(manager: TurnManager)
      requires manager.Valid() && Valid()
      modifies this`retryActions, ButtonsOf(turnObjects)`triggered, PadsOf(turnObjects)`projectileTransform
      modifies GolemDiceOf(turnObjects)`moveDirection, manager
      ensures manager.Valid()
      ensures retryActions == []
      ensures manager.Appended(old(PendingTurn()))
      ensures forall i :: 0 <= i < |turnObjects| ==> Settled(turnObjects[i], old(Snaps(turnObjects))[i])
    {
      ghost var entry := manager.State();
      ghost var snaps := Snaps(turnObjects);
      ghost var retried := retryActions;
      NotPolled(this, manager, turnObjects);
      QueueRetries(manager);
      retryActions := [];
      assert Snaps(turnObjects) == snaps;
      PollAll(turnObjects, manager);
      EnqueueTwice(entry, retried, EffectsOf(turnObjects, snaps));
    }

    /** Keep a failed action to be queued again at the start of the next turn. */
    method RequeueActionForNextTurn(action: Action)
      modifies this`retryActions
      ensures retryActions == old(retryActions) + [action]
    {
      retryActions := retryActions + [action];
    }

    /**
     * Each frame: on this controller's phase, with the manager idle, queue the
     * turn's actions and take the turn; at any other time do nothing.
     */
    method Update(manager: TurnManager)
      requires manager.Valid() && Valid()
      modifies this`retryActions, ButtonsOf(turnObjects)`triggered, PadsOf(turnObjects)`projectileTransform
      modifies GolemDiceOf(turnObjects)`moveDirection, manager
      ensures manager.Valid()
      ensures old(manager.GetCurrentTurn() == turnType && manager.ReadyForNextTurn()) ==>
                && manager.TookTurnWith(old(PendingTurn()))
                && retryActions == []
                && (forall i :: 0 <= i < |turnObjects| ==> Settled(turnObjects[i], old(Snaps(turnObjects))[i]))
      ensures !old(manager.GetCurrentTurn() == turnType && manager.ReadyForNextTurn()) ==>
                && manager.State() == old(manager.State())
                && retryActions == old(retryActions)
                && unchanged(Keys(turnObjects))
    {
      if manager.GetCurrentTurn() == turnType && manager.ReadyForNextTurn() {
        QueueActions(manager);
        manager.Tick();
      }
    }
  }

  /** The golem phase's controller: a turn controller whose objects are all golems. */
  class GolemController {
    const controller: TurnController
    /** The registered turn objects, as golems, in the same order. */
    const golems: seq<GolemDie>

    ghost predicate Valid() {
      && controller.Valid()
      && controller.turnType == GOLEM
      && |golems| == |controller.turnObjects|
      && (forall i :: 0 <= i < |golems| ==> controller.turnObjects[i] == GolemObject(golems[i]))
    }

    /** Awake: register the golem-phase objects found, and view each of them as a golem. */
    constructor (found: seq<TurnObject>)
      requires DistinctKeys(found)
      ensures controller.turnObjects == Registered(found, GOLEM)
      ensures Valid()
    {
      var registered := new TurnController(GOLEM, found);
      var objs := registered.turnObjects;
      controller := registered;
      golems := seq(|objs|, i requires 0 <= i < |objs| => objs[i].golem);
    }

    /** The golems' dice, the objects a golem turn writes. */
    function GolemDice(): set<Die> {
      set i | 0 <= i < |golems| :: golems[i].die
    }

    /** Some golem is synced with the player and could move in the direction. */
    ghost predicate SyncedGolemCanMove(direction: Vec3, player: Die)
      reads GolemDice()`sides, GolemDice()`scene, GolemDice()`position, player`sides
    {
      exists i :: 0 <= i < |golems| && golems[i].IsSynced(player) && golems[i].die.IsValidMoveDirection(direction)
    }

    /** No two golems share a die. */
    lemma DistinctDice()
      requires Valid()
      ensures forall i, j :: 0 <= i < j < |golems| ==> golems[i].die != golems[j].die
    {
      forall i, j | 0 <= i < j < |golems|
        ensures golems[i].die != golems[j].die
      {
        assert Key(controller.turnObjects[i]) != Key(controller.turnObjects[j]);
      }
    }

    /** Search the golems in order for one synced with the player that could move in the direction. */
    method AnySyncedGolemHasValidMove(direction: Vec3, player: Die) returns (found: bool)
      requires Valid()
      ensures found == SyncedGolemCanMove(direction, player)
      ensures golems == [] ==> !found
    {
      for k := 0 to |controller.turnObjects|
        invariant forall i :: 0 <= i < k ==>
                    !(golems[i].IsSynced(player) && golems[i].die.IsValidMoveDirection(direction))
      {
        var golem := controller.turnObjects[k].golem;
        if golem.IsSynced(player) && golem.die.IsValidMoveDirection(direction) {
          return true;
        }
      }
      return false;
    }
  }

  /** The world phase's controller: it polls the world objects and keeps no retries. */
  class WorldController {
    const worldObjects: seq<TurnObject>

    ghost predicate Valid() {
      && Independent(worldObjects)
      && (forall i :: 0 <= i < |worldObjects| ==> TurnType(worldObjects[i]) == WORLD)
    }

    /** Awake: register the world-phase objects found. */
    constructor (found: seq<TurnObject>)
      requires DistinctKeys(found)
      ensures worldObjects == Registered(found, WORLD)
      ensures Valid()
    {
      worldObjects := Registered(found, WORLD);
      new;
      RegisteredIndependent(found, WORLD);
    }

    /** Poll every world object in order. */
    method QueueActions(manager: TurnManager)
      requires manager.Valid() && Valid()
      modifies ButtonsOf(worldObjects)`triggered, PadsOf(worldObjects)`projectileTransform
      modifies GolemDiceOf(worldObjects)`moveDirection, manager
      ensures manager.Valid()
      ensures manager.Appended(EffectsOf(worldObjects, old(Snaps(worldObjects))))
      ensures forall i :: 0 <= i < |worldObjects| ==> Settled(worldObjects[i], old(Snaps(worldObjects))[i])
    {
      PollAll(worldObjects, manager);
    }

    /** Each frame: on the world's turn, with the manager idle, poll the world objects and take the turn. */
    method Update(manager: TurnManager)
      requires manager.Valid() && Valid()
      modifies ButtonsOf(worldObjects)`triggered, PadsOf(worldObjects)`projectileTransform
      modifies GolemDiceOf(worldObjects)`moveDirection, manager
      ensures manager.Valid()
      ensures old(manager.GetCurrentTurn() == WORLD && manager.ReadyForNextTurn()) ==>
                && |old(Snaps(worldObjects))| == |worldObjects|
                && manager.TookTurnWith(EffectsOf(worldObjects, old(Snaps(worldObjects))))
                && (forall i :: 0 <= i < |worldObjects| ==> Settled(worldObjects[i], old(Snaps(worldObjects))[i]))
      ensures !old(manager.GetCurrentTurn() == WORLD && manager.ReadyForNextTurn()) ==>
                manager.State() == old(manager.State()) && unchanged(Keys(worldObjects))
    {
      if manager.GetCurrentTurn() == WORLD && manager.ReadyForNextTurn() {
        QueueActions(manager);
        manager.Tick();
      }
    }
  }
}
