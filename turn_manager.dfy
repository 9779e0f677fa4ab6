/**
 * The turn manager: a phase pointer cycling over a fixed turn order, and a FIFO
 * queue of actions drained one at a time, each action's completion starting the
 * next. Actions are opaque to the manager; the asynchronous completion of a
 * running coroutine is the explicit step ActionFinished.
 */
module Turns {
  import opened Wrappers

  /** The turn phases (TURN_TYPE, formerly TICK_TYPE). */
  datatype Phase = PLAYER | WORLD | GOLEM

  /**
   * A queued coroutine, named by what it does and by the id of the object
   * that owns it: a die's Move, a triggerable's triggerAction or
   * releaseTriggerAction, a jump pad's Jump.
   */
  datatype Action =
    | Move(die: nat)
    | TriggerAction(target: nat)
    | ReleaseTriggerAction(target: nat)
    | Jump(pad: nat)

  /** One tick from p: the next index, wrapping to 0 past the end. */
  function NextPointer(p: nat, n: nat): (q: nat)
    requires p < n
    ensures q < n
  {
    if p + 1 == n then 0 else p + 1
  }

  /** The source's modular increment is that wrap-around. */
  lemma TickWraps(p: nat, n: nat)
    requires p < n
    ensures (p + 1) % n == NextPointer(p, n)
  {
  }

  /** The tick pointer after k ticks starting from p, over a turn order of length n. */
  function PointerAfter(p: nat, k: nat, n: nat): (q: nat)
    requires p < n
    ensures q < n
  {
    if k == 0 then p else NextPointer(PointerAfter(p, k - 1, n), n)
  }

  /** Within one cycle the pointer walks forward and wraps past the end exactly once. */
  lemma {:induction false} PointerAfterWithinCycle(p: nat, k: nat, n: nat)
    requires p < n && k <= n
    ensures PointerAfter(p, k, n) == if p + k < n then p + k else p + k - n
  {
    if k > 0 {
      PointerAfterWithinCycle(p, k - 1, n);
    }
  }

  /** Ticking a times and then b times is ticking a + b times. */
  lemma {:induction false} PointerAfterCompose(p: nat, a: nat, b: nat, n: nat)
    requires p < n
    ensures PointerAfter(p, a + b, n) == PointerAfter(PointerAfter(p, a, n), b, n)
  {
    if b > 0 {
      PointerAfterCompose(p, a, b - 1, n);
      var q := PointerAfter(PointerAfter(p, a, n), b - 1, n);
      calc {
        PointerAfter(p, a + b, n);
        NextPointer(PointerAfter(p, a + b - 1, n), n);
        NextPointer(q, n);
        PointerAfter(PointerAfter(p, a, n), b, n);
      }
    }
  }

  /**
   * Round robin: from the first phase, the first |order| ticks visit the
   * phases in order, and after that the walk repeats with period |order|.
   */
  lemma RoundRobin(order: seq<Phase>, k: nat)
    requires |order| > 0
    ensures k < |order| ==> order[PointerAfter(0, k, |order|)] == order[k]
    ensures order[PointerAfter(0, k + |order|, |order|)] == order[PointerAfter(0, k, |order|)]
  {
    var n := |order|;
    if k < n {
      PointerAfterWithinCycle(0, k, n);
    }
    PointerAfterCompose(0, n, k, n);
    PointerAfterWithinCycle(0, n, n);
    assert k + n == n + k;
  }

  /** No phase is skipped: from any pointer, every phase index is reached within one cycle. */
  lemma EveryPhaseWithinOneCycle(p: nat, j: nat, n: nat)
    requires p < n && j < n
    ensures exists k :: 0 <= k < n && PointerAfter(p, k, n) == j
  {
    var k := if p <= j then j - p else j + n - p;
    PointerAfterWithinCycle(p, k, n);
    assert PointerAfter(p, k, n) == j;
  }

  /** A turn manager's state as a value: its queue, running action, pointer and history. */
  datatype ManagerState = ManagerState(
    actionQueue: seq<Action>,
    currentAction: Option<Action>,
    currentTickPointer: nat,
    enqueued: seq<Action>,
    started: seq<Action>)

  /** The state after queueing a batch of actions at the tail, one by one. */
  function Enqueue(s: ManagerState, batch: seq<Action>): ManagerState {
    s.(actionQueue := s.actionQueue + batch, enqueued := s.enqueued + batch)
  }

  /** Queueing two batches in a row is queueing them joined. */
  lemma EnqueueTwice(s: ManagerState, a: seq<Action>, b: seq<Action>)
    ensures Enqueue(Enqueue(s, a), b) == Enqueue(s, a + b)
  {
    assert s.actionQueue + a + b == s.actionQueue + (a + b);
    assert s.enqueued + a + b == s.enqueued + (a + b);
  }

  class TurnManager {
    /** The phases in the order they take turns; fixed at configuration time. */
    const turnOrder: seq<Phase>
    var actionQueue: seq<Action>
    /** The coroutine now running, if any (the source's null Task). */
    var currentAction: Option<Action>
    var currentTickPointer: nat
    /** Every action ever queued, in queueing order. */
    ghost var enqueued: seq<Action>
    /** Every action ever started, in starting order. */
    ghost var started: seq<Action>

    /**
     * The pointer stays inside the turn order, and the actions started so far
     * followed by those still queued are exactly the actions queued so far:
     * actions start one by one, in queueing order, each once.
     */
    ghost predicate Valid()
      reads this
    {
      && |turnOrder| > 0
      && currentTickPointer < |turnOrder|
      && enqueued == started + actionQueue
      && (currentAction.Some? ==> started != [] && currentAction.value == started[|started| - 1])
    }

    constructor (order: seq<Phase>)
      requires |order| > 0
      ensures Valid()
      ensures turnOrder == order && currentTickPointer == 0
      ensures actionQueue == [] && currentAction == None
      ensures enqueued == [] && started == []
    {
      turnOrder := order;
      actionQueue := [];
      currentAction := None;
      currentTickPointer := 0;
      enqueued := [];
      started := [];
    }

    function QueueComplete(): (complete: bool)
      reads this
      ensures complete <==> actionQueue == []
    {
      |actionQueue| == 0
    }

    function ReadyForNextTurn(): (ready: bool)
      reads this
      ensures ready <==> actionQueue == [] && currentAction == None
    {
      QueueComplete() && currentAction == None
    }

    function GetCurrentTurn(): (phase: Phase)
      requires Valid()
      reads this
      ensures phase in turnOrder
    {
      turnOrder[currentTickPointer]
    }

    ghost function State(): ManagerState
      reads this
    {
      ManagerState(actionQueue, currentAction, currentTickPointer, enqueued, started)
    }

    /** The batch was added at the tail of the queue, and nothing else changed. */
    twostate predicate Appended(batch: seq<Action>)
      reads this
    {
      State() == Enqueue(old(State()), batch)
    }

    /** What StartNextAction does: run the front of the queue, or record that nothing runs. */
    twostate predicate StartedNext()
      reads this
    {
      && enqueued == old(enqueued)
      && (old(actionQueue) == [] ==>
            currentAction == None && actionQueue == [] && started == old(started))
      && (old(actionQueue) != [] ==>
            && currentAction == Some(old(actionQueue)[0])
            && actionQueue == old(actionQueue)[1..]
            && started == old(started) + [old(actionQueue)[0]])
    }

    /**
     * What a phase's turn does from an idle manager: the batch is queued, the
     * pointer advances once, and the first action of the batch starts.
     */
    twostate predicate TookTurnWith(batch: seq<Action>)
      requires old(currentTickPointer) < |turnOrder|
      reads this
    {
      && enqueued == old(enqueued) + batch
      && currentTickPointer == PointerAfter(old(currentTickPointer), 1, |turnOrder|)
      && (batch == [] ==>
            currentAction == None && actionQueue == [] && started == old(started))
      && (batch != [] ==>
            && currentAction == Some(batch[0])
            && actionQueue == batch[1..]
            && started == old(started) + [batch[0]])
    }

    /** TurnManager.QueueAction: add an action at the tail of the queue. */
    method QueueAction(action: Action)
      requires Valid()
      modifies this
      ensures Valid()
      ensures Appended([action])
      ensures !ReadyForNextTurn()
    {
      actionQueue := actionQueue + [action];
      enqueued := enqueued + [action];
    }

    method StartNextAction()
      requires Valid()
      modifies this
      ensures Valid()
      ensures StartedNext()
      ensures currentTickPointer == old(currentTickPointer)
    {
      if QueueComplete() {
        currentAction := None;
        return;
      }
      var nextAction := actionQueue[0];
      actionQueue := actionQueue[1..];
      currentAction := Some(nextAction);
      started := started + [nextAction];
    }

    /** The running coroutine has finished: its completion callback starts the next action. */
    method ActionFinished()
      requires Valid() && currentAction.Some?
      modifies this
      ensures Valid()
      ensures StartedNext()
      ensures currentTickPointer == old(currentTickPointer)
    {
      StartNextAction();
    }

    /** Advance the phase pointer, then start draining the queue. */
    method Tick()
      requires Valid()
      modifies this
      ensures Valid()
      ensures currentTickPointer == PointerAfter(old(currentTickPointer), 1, |turnOrder|)
      ensures StartedNext()
    {
      TickWraps(currentTickPointer, |turnOrder|);
      currentTickPointer := (currentTickPointer + 1) % |turnOrder|;
      StartNextAction();
    }

    /**
     * Let the chain of completion callbacks run to its end. Once a drain is
     * under way, every action queued before it starts exactly once, in queue
     * order, and the manager ends ready for the next turn.
     */
    method RunUntilIdle()
      requires Valid()
      modifies this
      ensures Valid()
      ensures enqueued == old(enqueued) && currentTickPointer == old(currentTickPointer)
      ensures old(currentAction).Some? ==>
                started == old(started) + old(actionQueue) && ReadyForNextTurn()
      ensures old(currentAction) == None ==>
                started == old(started) && actionQueue == old(actionQueue) && currentAction == None
    {
      while currentAction.Some?
        invariant Valid()
        invariant enqueued == old(enqueued) && currentTickPointer == old(currentTickPointer)
        invariant started + actionQueue == old(started) + old(actionQueue)
        invariant old(currentAction).Some? ==> currentAction == None ==> actionQueue == []
        invariant old(currentAction) == None ==> actionQueue == old(actionQueue) && started == old(started)
        decreases |actionQueue| + (if currentAction.Some? then 1 else 0)
      {
        ActionFinished();
      }
    }
  }
}
