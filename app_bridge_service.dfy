/**
  The real publisher: a client of the external bridge transport that only
  publishes. The transport is an oracle: every call the service makes to it
  is answered by a `Reply` passed in as a parameter, and the ghost log
  `TransportCalls` records the calls in the order they were made.
 */
module BridgeService {
  import opened AppBridgeTypes

  /** The configuration handed to the transport when the handle is created. */
  datatype AppConfig = AppConfig(remoteAppId: string, remoteAppUrlScheme: string, iosAppGroupId: string)

  const LumiereConfig := AppConfig("com.clinicalink.orion", "lxhost", "group.com.clinicalink.Connector")

  /** The transport handle `AppBridge.getInstance(config)` returns. */
  datatype Handle = Handle(config: AppConfig)

  /** One call from the service into the transport. */
  datatype TransportCall =
    | GetInstance(config: AppConfig)
    | ConnectCall
    | DisconnectCall
    | PublishCall(streamKey: string, obj: TestEvent)

  class AppBridgeService {
    /** The lazily created handle; `None` until the first `connect`. */
    var appBridge: Option<Handle>
    var connected: bool
    /** The number of publishes the transport accepted. */
    var eventCounter: nat
    ghost var TransportCalls: seq<TransportCall>
    /** The (stream key, event) pairs the transport accepted, oldest first. */
    ghost var Published: seq<(string, TestEvent)>

    ghost predicate Valid()
      reads this
    {
      (connected ==> appBridge.Some?) &&
      (appBridge.Some? ==> appBridge.value == Handle(LumiereConfig)) &&
      eventCounter == |Published|
    }

    /** Whether a `connect` answered by these replies resolves. */
    ghost predicate ConnectSucceeds(instanceReply: Reply, connectReply: Reply)
      reads this
    {
      (appBridge.Some? || instanceReply.Resolved?) && connectReply.Resolved?
    }

    /** The handle `connect` leaves: the existing one, or a new one when `getInstance` resolves. */
    ghost function HandleAfterConnect(instanceReply: Reply): Option<Handle>
      reads this
    {
      if appBridge.Some? then appBridge
      else if instanceReply.Resolved? then Some(Handle(LumiereConfig))
      else None
    }

    /** The transport calls `connect` makes: `getInstance` when there is no handle, then `connect` unless that threw. */
    ghost function ConnectCalls(instanceReply: Reply): seq<TransportCall>
      reads this
    {
      if appBridge.Some? then [ConnectCall]
      else if instanceReply.Resolved? then [GetInstance(LumiereConfig), ConnectCall]
      else [GetInstance(LumiereConfig)]
    }

    /** Whether `connected` ends false after a `disconnect` answered by this reply. */
    ghost predicate DisconnectClears(disconnectReply: Reply)
      reads this
    {
      appBridge.None? || disconnectReply.Resolved?
    }

    constructor()
      ensures Valid()
      ensures appBridge == None && !connected && eventCounter == 0
      ensures TransportCalls == [] && Published == []
    {
      appBridge := None;
      connected := false;
      eventCounter := 0;
      TransportCalls := [];
      Published := [];
    }

    /** Creates the handle when there is none; does nothing when there is one. */
    method InitializeAppBridge(instanceReply: Reply) returns (r: Outcome)
      requires Valid()
      modifies this
      ensures Valid()
      ensures connected == old(connected) && eventCounter == old(eventCounter) && Published == old(Published)
      ensures old(appBridge).Some? ==>
        r == Done && appBridge == old(appBridge) && TransportCalls == old(TransportCalls)
      ensures old(appBridge).None? ==>
        TransportCalls == old(TransportCalls) + [GetInstance(LumiereConfig)] &&
        (instanceReply.Resolved? ==> r == Done && appBridge == Some(Handle(LumiereConfig))) &&
        (instanceReply.Rejected? ==> r == Thrown(TransportError(instanceReply.reason)) && appBridge == None)
    {
      r := Done;
      if appBridge.None? {
        TransportCalls := TransportCalls + [GetInstance(LumiereConfig)];
        match instanceReply
        case Resolved =>
          appBridge := Some(Handle(LumiereConfig));
        case Rejected(reason) =>
          r := Thrown(TransportError(reason));
      }
    }

    /**
      Creates the handle if needed, then asks the transport to connect;
      `connected` becomes true only when both resolve. Any error is thrown
      on with `connected` as it was. There is no short cut when already
      connected: the transport is asked again.
     */
    method Connect(instanceReply: Reply, connectReply: Reply) returns (r: Outcome)
      requires Valid()
      modifies this
      ensures Valid()
      ensures r.Done? <==> old(ConnectSucceeds(instanceReply, connectReply))
      ensures connected == (r.Done? || old(connected))
      ensures appBridge.Some? <==> old(appBridge).Some? || instanceReply.Resolved?
      ensures r.Thrown? ==> r.error.TransportError?
      ensures old(appBridge).None? && instanceReply.Rejected? ==> r == Thrown(TransportError(instanceReply.reason))
      ensures (old(appBridge).Some? || instanceReply.Resolved?) && connectReply.Rejected? ==>
        r == Thrown(TransportError(connectReply.reason))
      ensures appBridge == old(HandleAfterConnect(instanceReply))
      ensures TransportCalls == old(TransportCalls) + old(ConnectCalls(instanceReply))
      ensures eventCounter == old(eventCounter) && Published == old(Published)
      ensures old(appBridge).Some? ==> TransportCalls == old(TransportCalls) + [ConnectCall]
      ensures old(appBridge).None? && instanceReply.Resolved? ==>
        TransportCalls == old(TransportCalls) + [GetInstance(LumiereConfig), ConnectCall]
      ensures old(appBridge).None? && instanceReply.Rejected? ==>
        TransportCalls == old(TransportCalls) + [GetInstance(LumiereConfig)]
    {
      r := InitializeAppBridge(instanceReply);
      if r.Thrown? {
        return;
      }
      TransportCalls := TransportCalls + [ConnectCall];
      match connectReply
      case Resolved =>
        connected := true;
      case Rejected(reason) =>
        r := Thrown(TransportError(reason));
    }

    /**
      Never throws. Asks the transport to disconnect when there is a handle;
      `connected` becomes false unless the transport threw, in which case
      the error is swallowed and `connected` stays as it was.
     */
    method Disconnect(disconnectReply: Reply)
      requires Valid()
      modifies this
      ensures Valid()
      ensures connected == (old(connected) && !old(DisconnectClears(disconnectReply)))
      ensures appBridge == old(appBridge) && eventCounter == old(eventCounter) && Published == old(Published)
      ensures TransportCalls == old(TransportCalls) + (if appBridge.Some? then [DisconnectCall] else [])
    {
      if appBridge.Some? {
        TransportCalls := TransportCalls + [DisconnectCall];
        if disconnectReply.Rejected? {
          return;
        }
      }
      connected := false;
    }

    method IsConnected() returns (b: bool)
      requires Valid()
      ensures b == connected
      ensures b ==> appBridge.Some?
    {
      b := connected;
    }

    /**
      Publishes `obj` on stream `streamKey`. Without a connection it throws
      "Not connected" before touching the transport; otherwise the counter
      rises by one exactly when the transport accepts, and a transport error
      is thrown on with the counter unchanged.
     */
    method AddObjectToSharedStream(streamKey: string, obj: TestEvent, publishReply: Reply) returns (r: Outcome)
      requires Valid()
      modifies this
      ensures Valid()
      ensures appBridge == old(appBridge) && connected == old(connected)
      ensures !connected ==>
        r == Thrown(NotConnected) && eventCounter == old(eventCounter) &&
        TransportCalls == old(TransportCalls) && Published == old(Published)
      ensures connected ==> TransportCalls == old(TransportCalls) + [PublishCall(streamKey, obj)]
      ensures connected && publishReply.Resolved? ==>
        r == Done && eventCounter == old(eventCounter) + 1 && Published == old(Published) + [(streamKey, obj)]
      ensures connected && publishReply.Rejected? ==>
        r == Thrown(TransportError(publishReply.reason)) &&
        eventCounter == old(eventCounter) && Published == old(Published)
    {
      if !connected || appBridge.None? {
        r := Thrown(NotConnected);
        return;
      }
      TransportCalls := TransportCalls + [PublishCall(streamKey, obj)];
      match publishReply
      case Resolved =>
        eventCounter := eventCounter + 1;
        Published := Published + [(streamKey, obj)];
        r := Done;
      case Rejected(reason) =>
        r := Thrown(TransportError(reason));
    }

    /** Unsupported in a publisher: always throws, never touches the transport. */
    method GetItemsFromRemoteStream(streamKey: string, params: RemoteStreamParams)
      returns (r: Result<RemoteStreamResponse>)
      ensures r == Err(ReadUnsupported)
      ensures r.error.Message() == "This app only generates events - use Lumiere app to get items"
    {
      r := Err(ReadUnsupported);
    }

    /** Unsupported in a publisher: always throws, never touches the transport. */
    method ListenForChangesToRemoteStream(streamKey: string) returns (r: Result<Subscription>)
      ensures r == Err(ListenUnsupported)
      ensures r.error.Message() == "This app only generates events - use Lumiere app to listen"
    {
      r := Err(ListenUnsupported);
    }

    /** The number of publishes the transport has accepted. */
    method GetEventCount() returns (count: nat)
      requires Valid()
      ensures count == |Published|
    {
      count := eventCounter;
    }
  }

  /** What a stream listener hands back: a way to stop listening to `streamKey`. */
  datatype Subscription = Subscription(streamKey: string)
}
