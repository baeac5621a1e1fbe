/**
  The no-op stand-in for the bridge: always connected, accepts every
  publish and only counts them. `Logged` is the ghost record of what it was
  handed (the source writes it to the console).
 */
module SimpleService {
  import opened AppBridgeTypes

  class SimpleEventService {
    var eventCounter: nat
    ghost var Logged: seq<(string, TestEvent)>

    ghost predicate Valid()
      reads this
    {
      eventCounter == |Logged|
    }

    constructor()
      ensures Valid() && eventCounter == 0 && Logged == []
    {
      eventCounter := 0;
      Logged := [];
    }

    /** Resolves at once and changes nothing. */
    method Connect() returns (r: Outcome)
      ensures r == Done
    {
      r := Done;
    }

    /** Resolves at once and changes nothing. */
    method Disconnect() returns (r: Outcome)
      ensures r == Done
    {
      r := Done;
    }

    method IsConnected() returns (b: bool)
      ensures b
    {
      b := true;
    }

    /** Never fails: every publish is counted. */
    method AddObjectToSharedStream(streamKey: string, obj: TestEvent) returns (r: Outcome)
      requires Valid()
      modifies this
      ensures Valid()
      ensures r == Done
      ensures eventCounter == old(eventCounter) + 1 && Logged == old(Logged) + [(streamKey, obj)]
    {
      eventCounter := eventCounter + 1;
      Logged := Logged + [(streamKey, obj)];
      r := Done;
    }

    /** The number of publishes so far. */
    method GetEventCount() returns (count: nat)
      requires Valid()
      ensures count == |Logged|
    {
      count := eventCounter;
    }
  }
}
