/**
 * Buttons: a world-turn object that fires its doors' trigger actions when a
 * die with the required face up rests on it, and, for a hold-down button,
 * their release actions once the die leaves.
 */
module Buttons {
  import opened Wrappers
  import opened Turns
  import opened Dice
  import opened Doors

  /**
   * One world turn of a button: the new triggered flag, and the Trigger call
   * made, if any (Some(true) queues the trigger actions, Some(false) the
   * release actions).
   */
  datatype Step = Step(triggered: bool, emission: Option<bool>)

  /** Button.QueueTurn's three checks in order, on the flag and on whether the button is pressed. */
  function ButtonStep(triggered: bool, pressed: bool, requireHeldDown: bool): (r: Step)
    ensures r.triggered == (pressed || (triggered && !requireHeldDown))
    ensures r.emission == Some(true) <==> pressed && !triggered
    ensures r.emission == Some(false) <==> !pressed && triggered && requireHeldDown
  {
    var fired := if pressed && !triggered then Some(true) else None;
    var released := !pressed && triggered && requireHeldDown;
    var emission := if released then Some(false) else fired;
    var afterRelease := if released then false else triggered;
    Step(if !afterRelease then pressed else afterRelease, emission)
  }

  /** The action a Trigger call queues for one door. */
  function DoorAction(door: Door, isHeld: bool): Action {
    if isHeld then TriggerAction(door.id) else ReleaseTriggerAction(door.id)
  }

  /** The actions a Trigger call queues: one per door, in the doors' order. */
  function DoorActions(doors: seq<Door>, isHeld: bool): (actions: seq<Action>)
    ensures |actions| == |doors|
    ensures forall i :: 0 <= i < |doors| ==> actions[i] == DoorAction(doors[i], isHeld)
  {
    if doors == [] then [] else DoorActions(doors[..|doors| - 1], isHeld) + [DoorAction(doors[|doors| - 1], isHeld)]
  }

  /** The actions one world turn of a button queues. */
  function Emitted(emission: Option<bool>, doors: seq<Door>): seq<Action> {
    if emission.Some? then DoorActions(doors, emission.value) else []
  }

  class Button {
    const id: nat
    const triggerObjects: seq<Door>
    const requiredValue: int
    const requireHeldDown: bool
    var triggered: bool
    /** Owned by the physics engine: the die the upward raycast finds resting on the button. */
    var occupant: Option<Die>

    constructor (id: nat, triggerObjects: seq<Door>, requiredValue: int, requireHeldDown: bool)
      ensures this.id == id && this.triggerObjects == triggerObjects
      ensures this.requiredValue == requiredValue && this.requireHeldDown == requireHeldDown
      ensures !triggered && occupant == None
    {
      this.id := id;
      this.triggerObjects := triggerObjects;
      this.requiredValue := requiredValue;
      this.requireHeldDown := requireHeldDown;
      triggered := false;
      occupant := None;
    }

    /** Button.CheckTrigger: a die rests on the button with the required face up. */
    predicate CheckTrigger(): (pressed: bool)
      reads this`occupant, if occupant.Some? then {occupant.value} else {}
      ensures occupant == None ==> !pressed
      ensures occupant.Some? && occupant.value.sides == [] ==> (pressed <==> requiredValue == -1)
      ensures occupant.Some? && occupant.value.sides != [] ==>
                (pressed <==> exists i: nat :: IsFirstMax(occupant.value.sides, |occupant.value.sides|, i)
                                              && occupant.value.sides[i].value == requiredValue)
    {
      occupant.Some? && occupant.value.CurrentFace() == requiredValue
    }

    /** Queue this button's turn: fire, release or nothing, as ButtonStep decides. */
    method QueueTurn(manager: TurnManager)
      requires manager.Valid()
      modifies this`triggered, manager
      ensures manager.Valid()
      ensures var step := ButtonStep(old(triggered), CheckTrigger(), requireHeldDown);
              triggered == step.triggered && manager.Appended(Emitted(step.emission, triggerObjects))
    {
      if CheckTrigger() && !triggered {
        Trigger(true, manager);
      }
      if !CheckTrigger() && triggered && requireHeldDown {
        Trigger(false, manager);
        triggered := false;
      }
      if !triggered {
        triggered := CheckTrigger();
      }
    }

    /** Queue the trigger (or release) action of every door, in order. */
    method Trigger(isHeld: bool, manager: TurnManager)
      requires manager.Valid()
      modifies manager
      ensures manager.Valid()
      ensures manager.Appended(DoorActions(triggerObjects, isHeld))
    {
      ghost var entry := manager.State();
      for k := 0 to |triggerObjects|
        invariant manager.Valid()
        invariant manager.State() == Enqueue(entry, DoorActions(triggerObjects[..k], isHeld))
      {
        var triggerObj := triggerObjects[k];
        assert triggerObjects[..k + 1][..k] == triggerObjects[..k];
        EnqueueTwice(entry, DoorActions(triggerObjects[..k], isHeld), [DoorAction(triggerObj, isHeld)]);
        if isHeld {
          manager.QueueAction(TriggerAction(triggerObj.id));
        } else {
          manager.QueueAction(ReleaseTriggerAction(triggerObj.id));
        }
      }
      assert triggerObjects[..|triggerObjects|] == triggerObjects;
    }
  }

  /** A button over a run of world turns: the final flag, and the Trigger calls made, in order. */
  datatype Run = Run(triggered: bool, emissions: seq<bool>)

  function RunButton(triggered: bool, presses: seq<bool>, requireHeldDown: bool): Run
    decreases presses
  {
    if presses == [] then Run(triggered, [])
    else
      var step := ButtonStep(triggered, presses[0], requireHeldDown);
      var rest := RunButton(step.triggered, presses[1..], requireHeldDown);
      Run(rest.triggered, (if step.emission.Some? then [step.emission.value] else []) + rest.emissions)
  }

  /** Each Trigger call flips the state it starts from: trigger when released, release when triggered. */
  predicate Alternates(state: bool, emissions: seq<bool>)
    decreases emissions
  {
    emissions == [] || (emissions[0] == !state && Alternates(emissions[0], emissions[1..]))
  }

  /** Whether a door is shown after the given Trigger calls: a trigger hides it, a release shows it. */
  function DoorAfter(active: bool, emissions: seq<bool>): bool
    decreases emissions
  {
    if emissions == [] then active else DoorAfter(!emissions[0], emissions[1..])
  }

  /**
   * A hold-down button ends triggered exactly when the last turn found it
   * pressed, and its trigger and release calls alternate, so it never queues
   * the same kind twice in a row; its last call matches its final flag.
   */
  lemma {:induction false} HoldDownTracksPresses(triggered: bool, presses: seq<bool>)
    ensures var run := RunButton(triggered, presses, true);
            && (presses != [] ==> run.triggered == presses[|presses| - 1])
            && Alternates(triggered, run.emissions)
            && run.triggered == (if run.emissions == [] then triggered else run.emissions[|run.emissions| - 1])
    decreases presses
  {
    if presses != [] {
      var step := ButtonStep(triggered, presses[0], true);
      var rest := RunButton(step.triggered, presses[1..], true);
      HoldDownTracksPresses(step.triggered, presses[1..]);
      if |presses| > 1 {
        assert presses[1..][|presses[1..]| - 1] == presses[|presses| - 1];
      }
      if step.emission.Some? {
        var emissions := [step.emission.value] + rest.emissions;
        assert emissions[1..] == rest.emissions;
        assert Alternates(triggered, emissions);
      } else {
        assert step.triggered == triggered;
        assert [] + rest.emissions == rest.emissions;
      }
    }
  }

  /** A door's state after a run of Trigger calls is fixed by the last call alone. */
  lemma {:induction false} DoorFollowsLastCall(active: bool, emissions: seq<bool>)
    ensures DoorAfter(active, emissions) == (if emissions == [] then active else !emissions[|emissions| - 1])
    decreases emissions
  {
    if emissions != [] {
      DoorFollowsLastCall(!emissions[0], emissions[1..]);
    }
  }

  /**
   * A door behind a hold-down button that starts in agreement with it (shown
   * while the button is released) stays in agreement: after any run of turns
   * it is open exactly when the last turn found the button pressed.
   */
  lemma HoldDownDoorOpenWhilePressed(triggered: bool, active: bool, presses: seq<bool>)
    requires active == !triggered
    ensures var run := RunButton(triggered, presses, true);
            && DoorAfter(active, run.emissions) == !run.triggered
            && (presses != [] ==> DoorAfter(active, run.emissions) == !presses[|presses| - 1])
  {
    var run := RunButton(triggered, presses, true);
    HoldDownTracksPresses(triggered, presses);
    DoorFollowsLastCall(active, run.emissions);
  }

  /**
   * A one-shot button never queues a release, and queues the trigger actions
   * at most once: on the first pressed turn, unless it started triggered.
   * Once triggered it stays triggered.
   */
  lemma {:induction false} OneShotFiresOnce(triggered: bool, presses: seq<bool>)
    ensures var run := RunButton(triggered, presses, false);
            && run.emissions == (if !triggered && true in presses then [true] else [])
            && run.triggered == (triggered || true in presses)
    decreases presses
  {
    if presses != [] {
      var step := ButtonStep(triggered, presses[0], false);
      OneShotFiresOnce(step.triggered, presses[1..]);
      assert true in presses <==> presses[0] || true in presses[1..] by {
        assert presses == [presses[0]] + presses[1..];
      }
    }
  }
}
