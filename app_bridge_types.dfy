/**
  The event schema and the bridge vocabulary shared by the generator, the
  two publishing services and the sender component.
 */
module AppBridgeTypes {

  datatype Option<+T> = None | Some(value: T)

  /** The sensor that a glucose reading claims to come from. */
  datatype Sensor = Sensor(manufacturer: string, serial_number: string, model: string)

  /**
    The category-specific payload of an event. Field names are the payload
    keys. Both `hypo_id` and `hyper_id` are optional, so the type admits a
    reading with both; a generated reading carries exactly one of them (see
    `WellFormed`). The index signature that admits further keys is not
    modelled.
   */
  datatype Properties =
    | DataProperties(
        id: string,
        hypo_id: Option<string>,
        hyper_id: Option<string>,
        sensor: Sensor,
        glucose_unit: string,
        glucose: int,
        app_install_unique_id: int,
        transmitter_time: int,
        sequence_number: int,
        reading_time: string)
    | DeviceProperties(
        id: string,
        deviceId: string,
        deviceName: string,
        batteryLevel: int,
        signalStrength: int)
    | AlertProperties(
        id: string,
        alertType: string,
        message: string,
        priority: string)

  /**
    A `TestEvent`: the envelope shared by `DataEvent`, `DeviceEvent` and
    `AlertEvent`, around the payload that decides which of the three it is.
   */
  datatype TestEvent = TestEvent(
    eventId: string,
    timestamp: string,
    eventType: string,
    properties: Properties)
  {
    predicate IsDataEvent() { properties.DataProperties? }
    predicate IsDeviceEvent() { properties.DeviceProperties? }
    predicate IsAlertEvent() { properties.AlertProperties? }
  }

  /** Every event is exactly one of the three variants of the union type. */
  lemma ExactlyOneVariant(e: TestEvent)
    ensures e.IsDataEvent() || e.IsDeviceEvent() || e.IsAlertEvent()
    ensures !(e.IsDataEvent() && e.IsDeviceEvent())
    ensures !(e.IsDataEvent() && e.IsAlertEvent())
    ensures !(e.IsDeviceEvent() && e.IsAlertEvent())
  {
  }

  /** The declared stream keys of the bridge. */
  datatype RemoteStreamKey = DATA | DEVICE | ALERT

  function StreamKeyValue(k: RemoteStreamKey): (s: string)
    ensures s in {"data", "device", "alert"}
  {
    match k
    case DATA => "data"
    case DEVICE => "device"
    case ALERT => "alert"
  }

  const AllStreamKeys: set<RemoteStreamKey> := {DATA, DEVICE, ALERT}

  /**
    The declared keys take exactly the three values "data", "device" and
    "alert", one each; the glucose stream name "dataEvents" that the sender
    publishes to is not among them.
   */
  lemma StreamKeyValues()
    ensures forall k: RemoteStreamKey :: k in AllStreamKeys
    ensures (set k | k in AllStreamKeys :: StreamKeyValue(k)) == {"data", "device", "alert"}
    ensures forall k1, k2 :: StreamKeyValue(k1) == StreamKeyValue(k2) ==> k1 == k2
    ensures forall k :: StreamKeyValue(k) != "dataEvents"
  {
    forall k: RemoteStreamKey ensures k in AllStreamKeys {
      match k
      case DATA =>
      case DEVICE =>
      case ALERT =>
    }
    var values := set k | k in AllStreamKeys :: StreamKeyValue(k);
    assert StreamKeyValue(DATA) in values && StreamKeyValue(DEVICE) in values && StreamKeyValue(ALERT) in values;
  }

  /** Paging parameters of the read query; both optional. */
  datatype RemoteStreamParams = RemoteStreamParams(limit: Option<int>, offset: Option<int>)

  /** A page of items read back from a stream. */
  datatype RemoteStreamResponse = RemoteStreamResponse(items: seq<TestEvent>, hasMore: bool)

  /** The operations of the `AppBridgeMock` interface. */
  datatype BridgeOperation =
    | Connect
    | Disconnect
    | IsConnected
    | AddObjectToSharedStream
    | GetItemsFromRemoteStream
    | ListenForChangesToRemoteStream
  {
    /** The two operations that read a stream rather than publish to it. */
    predicate IsReadQuery() {
      GetItemsFromRemoteStream? || ListenForChangesToRemoteStream?
    }
  }

  const AllOperations: set<BridgeOperation> :=
    {Connect, Disconnect, IsConnected, AddObjectToSharedStream,
     GetItemsFromRemoteStream, ListenForChangesToRemoteStream}

  /** The interface has exactly six operations, two of which are read queries. */
  lemma SixOperations()
    ensures forall op: BridgeOperation :: op in AllOperations
    ensures |AllOperations| == 6
    ensures |set op | op in AllOperations && op.IsReadQuery()| == 2
  {
    forall op: BridgeOperation ensures op in AllOperations {
      match op
      case Connect =>
      case Disconnect =>
      case IsConnected =>
      case AddObjectToSharedStream =>
      case GetItemsFromRemoteStream =>
      case ListenForChangesToRemoteStream =>
    }
    var queries := set op | op in AllOperations && op.IsReadQuery();
    assert queries == {GetItemsFromRemoteStream, ListenForChangesToRemoteStream};
  }

  /** What the transport answered to one call: it resolved, or it threw. */
  datatype Reply = Resolved | Rejected(reason: string)

  /** The errors a bridge operation can throw to its caller. */
  datatype BridgeError =
    | NotConnected
    | ReadUnsupported
    | ListenUnsupported
    | TransportError(reason: string)
  {
    function Message(): string {
      match this
      case NotConnected => "Not connected to Lumiere app"
      case ReadUnsupported => "This app only generates events - use Lumiere app to get items"
      case ListenUnsupported => "This app only generates events - use Lumiere app to listen"
      case TransportError(reason) => reason
    }
  }

  /** How an asynchronous bridge operation settles: resolved, or thrown with an error. */
  datatype Outcome = Done | Thrown(error: BridgeError)

  datatype Result<+T> = Ok(value: T) | Err(error: BridgeError)
}
