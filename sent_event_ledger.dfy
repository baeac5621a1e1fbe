/**
  The root component's list of events that were published, in the order
  they were sent, for on-screen review.
 */
module Ledger {
  import opened AppBridgeTypes

  class App {
    var sentEvents: seq<TestEvent>

    constructor()
      ensures sentEvents == []
    {
      sentEvents := [];
    }

    /** Appends at the end, keeping every earlier entry in place; no deduplication. */
    method HandleEventSent(event: TestEvent)
      modifies this
      ensures sentEvents == old(sentEvents) + [event]
      ensures |sentEvents| == |old(sentEvents)| + 1 && sentEvents[|sentEvents| - 1] == event
    {
      sentEvents := sentEvents + [event];
    }

    method HandleClearAll()
      modifies this
      ensures sentEvents == []
    {
      sentEvents := [];
    }
  }
}
