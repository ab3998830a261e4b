/** From captured keys to events (crates/ms-daemon/src/input.rs): each key event
    carries a snapshot of the keys held once it has happened. */
module Capture {
  import opened Messages
  import opened EdgeMachine
  import opened Network

  function HeldAfter(held: set<LogicalKey>, key: LogicalKey, pressed: bool): set<LogicalKey> {
    if pressed then held + {key} else held - {key}
  }

  class CaptureAdapter {
    var held: set<LogicalKey>
    const queue: EventQueue

    constructor (queue: EventQueue)
      ensures this.queue == queue && held == {}
    {
      this.queue := queue;
      held := {};
    }

    method OnKeyEvent(key: LogicalKey, pressed: bool, modifiers: Modifiers)
      modifies this, queue
      ensures held == HeldAfter(old(held), key, pressed)
      ensures queue.events == old(queue.events) + [LocalKeyEvent(key, pressed, modifiers, held)]
      ensures key in held <==> pressed
      ensures forall k :: k != key ==> (k in held <==> k in old(held))
    {
      if pressed {
        held := held + {key};
      } else {
        held := held - {key};
      }
      queue.events := queue.events + [LocalKeyEvent(key, pressed, modifiers, held)];
    }
  }
}
