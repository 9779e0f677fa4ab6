/**
 * Turn objects: the objects that queue actions on their phase's turn
 * (buttons, jump pads, golem dice), dispatched by kind, and a turn's poll
 * of all of them in order.
 */
module TurnObjects {
  import opened Wrappers
  import opened Vectors
  import opened Turns
  import opened Dice
  import opened Buttons
  import opened JumpPads
  import opened Golems

  /** An object taking part in the turn system, by kind. */
  datatype TurnObject =
    | ButtonObject(button: Button)
    | JumpPadObject(pad: JumpPad)
    | GolemObject(golem: GolemDie)

  /** The phase in which an object queues its turn: golems in theirs, tiles in the world's. */
  function TurnType(o: TurnObject): (phase: Phase)
    ensures phase != PLAYER
    ensures phase == GOLEM <==> o.GolemObject?
  {
    match o
    case ButtonObject(_) => WORLD
    case JumpPadObject(_) => WORLD
    case GolemObject(_) => GOLEM
  }

  /** The object whose fields an object's turn writes: itself, or a golem's die. */
  function Key(o: TurnObject): object {
    match o
    case ButtonObject(b) => b
    case JumpPadObject(p) => p
    case GolemObject(g) => g.die
  }

  /** The dice resting on the buttons among the objects. */
  function Occupants(objs: seq<TurnObject>): set<object>
    reads Keys(objs)
  {
    set i | 0 <= i < |objs| && objs[i].ButtonObject? && objs[i].button.occupant.Some? :: objs[i].button.occupant.value
  }

  /** The objects an object's turn reads: its key, and for a button the die resting on it. */
  function ReadsOf(o: TurnObject): set<object>
    reads Key(o)
  {
    match o
    case ButtonObject(b) => {b} + (if b.occupant.Some? then {b.occupant.value} else {})
    case JumpPadObject(p) => {p}
    case GolemObject(g) => {g.die}
  }

  /** What an object's turn depends on, taken in the state before the turn. */
  datatype Snapshot =
    | ButtonSnap(triggered: bool, pressed: bool)
    | PadSnap(occupant: Option<Die>)
    | GolemSnap(direction: Vec3, valid: bool)

  function Snap(o: TurnObject): (s: Snapshot)
    reads ReadsOf(o)
  {
    match o
    case ButtonObject(b) => ButtonSnap(b.triggered, b.CheckTrigger())
    case JumpPadObject(p) => PadSnap(p.occupant)
    case GolemObject(g) => GolemSnap(g.die.moveDirection, g.die.IsValidMoveDirection(g.die.moveDirection))
  }

  /** The actions an object's turn queues, from what it saw. */
  function EffectOf(o: TurnObject, s: Snapshot): seq<Action> {
    match o
    case ButtonObject(b) =>
      if s.ButtonSnap? then Emitted(ButtonStep(s.triggered, s.pressed, b.requireHeldDown).emission, b.triggerObjects) else []
    case JumpPadObject(p) =>
      if s.PadSnap? && s.occupant.Some? then [Action.Jump(p.id)] else []
    case GolemObject(g) =>
      if s.GolemSnap? && s.valid then [Move(g.die.id)] else []
  }

  /** What an object's turn leaves behind in the object itself, from what it saw. */
  predicate Settled(o: TurnObject, s: Snapshot)
    reads Key(o)
  {
    match o
    case ButtonObject(b) =>
      s.ButtonSnap? && b.triggered == ButtonStep(s.triggered, s.pressed, b.requireHeldDown).triggered
    case JumpPadObject(p) =>
      s.PadSnap? && p.projectileTransform == s.occupant
    case GolemObject(g) =>
      s.GolemSnap? && g.die.moveDirection == (if s.valid then s.direction else Zero)
  }

  /** The buttons among the objects: a button's turn writes only its `triggered` flag. */
  function ButtonsOf(objs: seq<TurnObject>): set<Button> {
    set i | 0 <= i < |objs| && objs[i].ButtonObject? :: objs[i].button
  }

  /** The jump pads among the objects: a pad's turn writes only the die it will throw. */
  function PadsOf(objs: seq<TurnObject>): set<JumpPad> {
    set i | 0 <= i < |objs| && objs[i].JumpPadObject? :: objs[i].pad
  }

  /** The dice of the golems among the objects: a golem's turn writes only its stored direction. */
  function GolemDiceOf(objs: seq<TurnObject>): set<Die> {
    set i | 0 <= i < |objs| && objs[i].GolemObject? :: objs[i].golem.die
  }

  /**
   * Queue one object's turn, by kind. Only the one field that kind's turn
   * writes may change: no die moves and no engine reading changes.
   */
  method PollObject(o: TurnObject, manager: TurnManager)
    requires manager.Valid()
    modifies ButtonsOf([o])`triggered, PadsOf([o])`projectileTransform, GolemDiceOf([o])`moveDirection, manager
    ensures manager.Valid()
    ensures manager.Appended(EffectOf(o, old(Snap(o))))
    ensures Settled(o, old(Snap(o)))
  {
    assert [o][0] == o;
    match o
    case ButtonObject(b) =>
      assert b in ButtonsOf([o]);
      b.QueueTurn(manager);
    case JumpPadObject(p) =>
      assert p in PadsOf([o]);
      p.QueueTurn(manager);
    case GolemObject(g) =>
      assert g.die in GolemDiceOf([o]);
      g.QueueTurn(manager);
  }

  /**
   * Objects whose turns cannot see each other: no two share a key, and all
   * take their turn in the same phase (so no golem's die is polled alongside
   * a button it might rest on).
   */
  predicate Independent(objs: seq<TurnObject>) {
    && DistinctKeys(objs)
    && (forall i, j :: 0 <= i < |objs| && 0 <= j < |objs| ==> TurnType(objs[i]) == TurnType(objs[j]))
  }

  /** No two of the objects write the same object. */
  predicate DistinctKeys(objs: seq<TurnObject>) {
    forall i, j :: 0 <= i < j < |objs| ==> Key(objs[i]) != Key(objs[j])
  }

  /** The objects polled objects may write. */
  function Keys(objs: seq<TurnObject>): set<object> {
    set i | 0 <= i < |objs| :: Key(objs[i])
  }

  /** In independent objects, one object's turn writes nothing another's turn reads. */
  lemma KeyNotRead(objs: seq<TurnObject>, i: nat, j: nat)
    requires Independent(objs) && i < |objs| && j < |objs| && i != j
    ensures Key(objs[i]) !in ReadsOf(objs[j])
  {
    if i < j {
      assert Key(objs[i]) != Key(objs[j]);
    } else {
      assert Key(objs[j]) != Key(objs[i]);
    }
    assert TurnType(objs[i]) == TurnType(objs[j]);
  }

  /** Every object's snapshot, in order. */
  function Snaps(objs: seq<TurnObject>): (snaps: seq<Snapshot>)
    reads Keys(objs), Occupants(objs)
    ensures |snaps| == |objs|
    ensures forall i :: 0 <= i < |objs| ==> snaps[i] == Snap(objs[i])
  {
    if objs == [] then [] else Snaps(objs[..|objs| - 1]) + [Snap(objs[|objs| - 1])]
  }

  /** The actions a whole poll queues: each object's, in order. */
  function EffectsOf(objs: seq<TurnObject>, snaps: seq<Snapshot>): seq<Action>
    requires |snaps| == |objs|
  {
    if objs == [] then []
    else EffectsOf(objs[..|objs| - 1], snaps[..|objs| - 1]) + EffectOf(objs[|objs| - 1], snaps[|objs| - 1])
  }

  /** Polling one more object queues its actions after the others'. */
  lemma EffectsOfSnoc(objs: seq<TurnObject>, snaps: seq<Snapshot>, k: nat)
    requires |snaps| == |objs| && k < |objs|
    ensures EffectsOf(objs[..k + 1], snaps[..k + 1]) == EffectsOf(objs[..k], snaps[..k]) + EffectOf(objs[k], snaps[k])
  {
    assert objs[..k + 1][..k] == objs[..k];
    assert snaps[..k + 1][..k] == snaps[..k];
  }

  /**
   * One step of a poll: the k-th object takes its turn on what it saw before
   * the poll; the objects before it stay settled, those after it unseen.
   */
  method PollNext(objs: seq<TurnObject>, ghost snaps: seq<Snapshot>, k: nat, manager: TurnManager)
    requires manager.Valid() && Independent(objs) && |snaps| == |objs| && k < |objs|
    requires forall i :: 0 <= i < k ==> Settled(objs[i], snaps[i])
    requires forall j :: k <= j < |objs| ==> Snap(objs[j]) == snaps[j]
    modifies ButtonsOf(objs)`triggered, PadsOf(objs)`projectileTransform, GolemDiceOf(objs)`moveDirection, manager
    ensures manager.Valid()
    ensures manager.Appended(EffectOf(objs[k], snaps[k]))
    ensures forall i :: 0 <= i <= k ==> Settled(objs[i], snaps[i])
    ensures forall j :: k < j < |objs| ==> Snap(objs[j]) == snaps[j]
  {
    forall j | 0 <= j < |objs| && j != k
      ensures Key(objs[k]) !in ReadsOf(objs[j])
    {
      KeyNotRead(objs, k, j);
    }
    PollObject(objs[k], manager);
  }

  /**
   * Queue every object's turn in order. Each object acts on what it saw
   * before the poll began, so the poll queues the objects' actions one object
   * after another, and leaves each object settled as its own turn decides.
   */
  method PollAll(objs: seq<TurnObject>, manager: TurnManager)
    requires manager.Valid() && Independent(objs)
    modifies ButtonsOf(objs)`triggered, PadsOf(objs)`projectileTransform, GolemDiceOf(objs)`moveDirection, manager
    ensures manager.Valid()
    ensures |old(Snaps(objs))| == |objs|
    ensures manager.Appended(EffectsOf(objs, old(Snaps(objs))))
    ensures forall i :: 0 <= i < |objs| ==> Settled(objs[i], old(Snaps(objs))[i])
  {
    ghost var snaps := Snaps(objs);
    ghost var entry := manager.State();
    ghost var queued: seq<Action> := [];
    for k := 0 to |objs|
      invariant manager.Valid()
      invariant queued == EffectsOf(objs[..k], snaps[..k])
      invariant manager.State() == Enqueue(entry, queued)
      invariant forall i :: 0 <= i < k ==> Settled(objs[i], snaps[i])
      invariant forall j :: k <= j < |objs| ==> Snap(objs[j]) == snaps[j]
    {
      PollNext(objs, snaps, k, manager);
      EffectsOfSnoc(objs, snaps, k);
      EnqueueTwice(entry, queued, EffectOf(objs[k], snaps[k]));
      queued := queued + EffectOf(objs[k], snaps[k]);
    }
    assert objs[..|objs|] == objs;
    assert snaps[..|objs|] == snaps;
  }
}
