/**
 * Doors: a triggerable whose two actions hide and show its model, opening
 * and closing the way.
 */
module Doors {

  class Door {
    const id: nat
    /** Whether the door's model is shown: true while the door blocks the way. */
    var active: bool

    constructor (id: nat, active: bool)
      ensures this.id == id && this.active == active
    {
      this.id := id;
      this.active := active;
    }

    /** The trigger action: hide the model, opening the door. */
    method TriggerAction()
      modifies this`active
      ensures !active
    {
      active := false;
    }

    /** The release action: show the model again, closing the door. */
    method ReleaseTriggerAction()
      modifies this`active
      ensures active
    {
      active := true;
    }
  }
}
