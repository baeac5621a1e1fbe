/**
  The sender component without its rendering: the stream-key router, the
  glucose-input fallback, and the handlers that connect, disconnect,
  generate and publish. Its `isConnected` flag is the component's own view
  of the connection, kept apart from the service's. The user-facing alert a
  handler would show is returned as `notice` (its title), and each handler
  runs as one sequential step.
 */
module Sender {
  import opened JsStrings
  import opened AppBridgeTypes
  import opened EventGeneration
  import opened BridgeService
  import opened Ledger

  const DataStream := "dataEvents"
  const DeviceStream := "device"
  const AlertStream := "alert"

  const ConnectionFailedNotice := "Connection Failed"
  const NotConnectedNotice := "Not Connected"
  const SendFailedNotice := "Send Failed"

  /**
    The stream a randomly generated event is published to, chosen from its
    event type alone: glucose types first, then device types, and anything
    else goes to the alert stream.
   */
  function StreamKeyFor(eventType: string): (key: string)
    ensures key in {DataStream, DeviceStream, AlertStream}
    ensures key == DataStream <==> Occurs(eventType, "hypo") || Occurs(eventType, "hyper")
    ensures key == DeviceStream <==>
      !Occurs(eventType, "hypo") && !Occurs(eventType, "hyper") && Occurs(eventType, "device")
    ensures key == AlertStream <==>
      !Occurs(eventType, "hypo") && !Occurs(eventType, "hyper") && !Occurs(eventType, "device")
  {
    if Includes(eventType, "hypo") || Includes(eventType, "hyper") then DataStream
    else if Includes(eventType, "device") then DeviceStream
    else AlertStream
  }

  /** The stream each fixed send handler publishes its kind of event to; the handlers below publish through it. */
  function HandlerStream(c: Category): string {
    match c
    case Hypo => DataStream
    case Hyper => DataStream
    case Device => DeviceStream
    case Alert => AlertStream
  }

  /**
    The router agrees with the fixed handlers on hypo, hyper and device
    events, but sends alert events (type "device_alert", which contains
    "device") to the device stream, where the alert handler uses the alert
    stream.
   */
  lemma RouterAgainstHandlers(c: Category)
    ensures c != Alert ==> StreamKeyFor(EventTypeOf(c)) == HandlerStream(c)
    ensures c == Alert ==> StreamKeyFor(EventTypeOf(c)) == DeviceStream != HandlerStream(c)
  {
    var t := EventTypeOf(c);
    match c
    case Hypo =>
      assert OccursAt(t, "hypo", 4);
      IncludesAt(t, "hypo", 4);
    case Hyper =>
      assert OccursAt(t, "hyper", 4);
      IncludesAt(t, "hyper", 4);
    case Device =>
      AbsentFirstChar(t, "hypo");
      AbsentFirstChar(t, "hyper");
      assert OccursAt(t, "device", 0);
      IncludesAt(t, "device", 0);
    case Alert =>
      AbsentFirstChar(t, "hypo");
      AbsentFirstChar(t, "hyper");
      assert OccursAt(t, "device", 0);
      IncludesAt(t, "device", 0);
  }

  /**
    `parseInt(text) || fallback`: the parsed value unless parsing failed
    (`None`, for NaN) or gave 0, both of which are falsy.
   */
  function GlucoseOrDefault(parsed: Option<int>, fallback: int): (glucose: int)
    ensures parsed.Some? && parsed.value != 0 ==> glucose == parsed.value
    ensures parsed.None? || parsed.value == 0 ==> glucose == fallback
    ensures fallback != 0 ==> glucose != 0
  {
    match parsed
    case Some(v) => if v != 0 then v else fallback
    case None => fallback
  }

  class EventSender {
    var isConnected: bool
    var isConnecting: bool
    /** `parseInt` of the glucose text field; `None` when it is not a number. */
    var customGlucose: Option<int>
    const service: AppBridgeService
    const generator: EventGenerator
    /** The parent whose `handleEventSent` is this component's `onEventSent`. */
    const app: App

    /**
      Between handler runs the component is not connecting, and it shows
      "connected" only while the service is connected.
     */
    ghost predicate Valid()
      reads this, service, generator
    {
      service.Valid() && generator.Valid() && !isConnecting &&
      (isConnected ==> service.connected)
    }

    constructor(service: AppBridgeService, generator: EventGenerator, app: App)
      requires service.Valid() && generator.Valid()
      ensures Valid()
      ensures !isConnected && customGlucose == Some(55)
      ensures this.service == service && this.generator == generator && this.app == app
    {
      isConnected := false;
      isConnecting := false;
      customGlucose := Some(55);
      this.service := service;
      this.generator := generator;
      this.app := app;
    }

    /** The glucose text field changed; `parsed` is what `parseInt` makes of the new text. */
    method SetCustomGlucose(parsed: Option<int>)
      modifies this
      ensures customGlucose == parsed
      ensures isConnected == old(isConnected) && isConnecting == old(isConnecting)
    {
      customGlucose := parsed;
    }

    /**
      Does nothing when already connected. Otherwise asks the service to
      connect and shows "connected" only if that resolves; on failure the
      user is told. Always ends not connecting.
     */
    method HandleConnect(instanceReply: Reply, connectReply: Reply) returns (notice: Option<string>)
      requires Valid()
      modifies this, service
      ensures Valid()
      ensures customGlucose == old(customGlucose)
      ensures old(isConnected) ==> isConnected && notice == None && unchanged(service)
      ensures !old(isConnected) ==>
        (isConnected <==> old(service.ConnectSucceeds(instanceReply, connectReply))) &&
        (notice == if isConnected then None else Some(ConnectionFailedNotice)) &&
        service.connected == (isConnected || old(service.connected)) &&
        service.appBridge == old(service.HandleAfterConnect(instanceReply)) &&
        service.TransportCalls == old(service.TransportCalls) + old(service.ConnectCalls(instanceReply)) &&
        service.Published == old(service.Published)
    {
      notice := None;
      if isConnected {
        return;
      }
      isConnecting := true;
      var r := service.Connect(instanceReply, connectReply);
      if r.Done? {
        isConnected := true;
      } else {
        notice := Some(ConnectionFailedNotice);
      }
      isConnecting := false;
    }

    /**
      Does nothing when not connected. Otherwise asks the service to
      disconnect; as the service never throws, the component always shows
      "disconnected" afterwards, even when the service stayed connected
      because the transport threw.
     */
    method HandleDisconnect(disconnectReply: Reply)
      requires Valid()
      modifies this, service
      ensures Valid()
      ensures !isConnected && customGlucose == old(customGlucose)
      ensures !old(isConnected) ==> unchanged(service)
      ensures old(isConnected) ==>
        service.connected == !old(service.DisconnectClears(disconnectReply)) &&
        service.appBridge == old(service.appBridge) &&
        service.TransportCalls == old(service.TransportCalls) + [DisconnectCall] &&
        service.Published == old(service.Published)
    {
      if !isConnected {
        return;
      }
      service.Disconnect(disconnectReply);
      isConnected := false;
    }

    /**
      Publishes `event` on `streamKey` and, only once the publish resolves,
      hands it to the parent's ledger. When the component is not connected
      neither happens. Because the component shows "connected" only while
      the service is connected, a publish from a connected component always
      reaches the transport.
     */
    method SendEvent(event: TestEvent, streamKey: string, publishReply: Reply) returns (notice: Option<string>)
      requires Valid()
      modifies service, app
      ensures Valid()
      ensures !isConnected ==> unchanged(service, app)
      ensures Sent(old(app.sentEvents), app.sentEvents, old(service.Published), service.Published,
                   isConnected, publishReply, streamKey, event, notice)
      ensures isConnected ==>
        service.TransportCalls == old(service.TransportCalls) + [PublishCall(streamKey, event)] &&
        service.connected == old(service.connected)
    {
      if !isConnected {
        notice := Some(NotConnectedNotice);
        return;
      }
      var r := service.AddObjectToSharedStream(streamKey, event, publishReply);
      if r.Done? {
        app.HandleEventSent(event);
        notice := None;
      } else {
        notice := Some(SendFailedNotice);
      }
    }

    /**
      Generates a hypo event from the glucose field (55 when the field does
      not parse or parses to 0) and publishes it to the glucose stream.
      The event is generated, and numbered, even when not connected.
     */
    method HandleSendHypoEvent(timestamp: string, nowMs: nat, publishReply: Reply) returns (notice: Option<string>)
      requires Valid()
      modifies service, generator, app
      ensures Valid()
      ensures generator.History ==
        old(generator.History) + [HypoEvent(generator.eventCounter, GlucoseOrDefault(customGlucose, DefaultHypoGlucose), timestamp, nowMs)]
      ensures Sent(old(app.sentEvents), app.sentEvents, old(service.Published), service.Published,
                   isConnected, publishReply, HandlerStream(Hypo), Last(generator.History), notice)
      ensures !isConnected ==> unchanged(service, app)
      ensures isConnected ==>
        service.TransportCalls == old(service.TransportCalls) + [PublishCall(HandlerStream(Hypo), Last(generator.History))]
    {
      var glucose := GlucoseOrDefault(customGlucose, DefaultHypoGlucose);
      var event := generator.GenerateHypoEvent(timestamp, nowMs, glucose);
      notice := SendEvent(event, HandlerStream(Hypo), publishReply);
    }

    /** As the hypo handler, with a hyper event and the default 300. */
    method HandleSendHyperEvent(timestamp: string, nowMs: nat, publishReply: Reply) returns (notice: Option<string>)
      requires Valid()
      modifies service, generator, app
      ensures Valid()
      ensures generator.History ==
        old(generator.History) + [HyperEvent(generator.eventCounter, GlucoseOrDefault(customGlucose, DefaultHyperGlucose), timestamp, nowMs)]
      ensures Sent(old(app.sentEvents), app.sentEvents, old(service.Published), service.Published,
                   isConnected, publishReply, HandlerStream(Hyper), Last(generator.History), notice)
      ensures !isConnected ==> unchanged(service, app)
      ensures isConnected ==>
        service.TransportCalls == old(service.TransportCalls) + [PublishCall(HandlerStream(Hyper), Last(generator.History))]
    {
      var glucose := GlucoseOrDefault(customGlucose, DefaultHyperGlucose);
      var event := generator.GenerateHyperEvent(timestamp, nowMs, glucose);
      notice := SendEvent(event, HandlerStream(Hyper), publishReply);
    }

    /** Generates a device event for the default device and publishes it to the device stream. */
    method HandleSendDeviceEvent(timestamp: string, batteryDraw: nat, signalDraw: nat, publishReply: Reply)
      returns (notice: Option<string>)
      requires Valid()
      requires batteryDraw < 100 && signalDraw < 5
      modifies service, generator, app
      ensures Valid()
      ensures generator.History ==
        old(generator.History) + [DeviceEvent(generator.eventCounter, DefaultDeviceId, timestamp, batteryDraw, signalDraw)]
      ensures Sent(old(app.sentEvents), app.sentEvents, old(service.Published), service.Published,
                   isConnected, publishReply, HandlerStream(Device), Last(generator.History), notice)
      ensures !isConnected ==> unchanged(service, app)
      ensures isConnected ==>
        service.TransportCalls == old(service.TransportCalls) + [PublishCall(HandlerStream(Device), Last(generator.History))]
    {
      var event := generator.GenerateDeviceEvent(timestamp, batteryDraw, signalDraw);
      notice := SendEvent(event, HandlerStream(Device), publishReply);
    }

    /** Generates an alert of the default type and publishes it to the alert stream. */
    method HandleSendAlertEvent(timestamp: string, publishReply: Reply) returns (notice: Option<string>)
      requires Valid()
      modifies service, generator, app
      ensures Valid()
      ensures generator.History ==
        old(generator.History) + [AlertEvent(generator.eventCounter, DefaultAlertType, timestamp)]
      ensures Sent(old(app.sentEvents), app.sentEvents, old(service.Published), service.Published,
                   isConnected, publishReply, HandlerStream(Alert), Last(generator.History), notice)
      ensures !isConnected ==> unchanged(service, app)
      ensures isConnected ==>
        service.TransportCalls == old(service.TransportCalls) + [PublishCall(HandlerStream(Alert), Last(generator.History))]
    {
      var event := generator.GenerateAlertEvent(timestamp);
      notice := SendEvent(event, HandlerStream(Alert), publishReply);
    }

    /** Generates a random event and publishes it to the stream the router picks from its type. */
    method HandleSendRandomEvent(
      timestamp: string, nowMs: nat, typeDraw: nat, valueDraw: nat, batteryDraw: nat, signalDraw: nat,
      publishReply: Reply)
      returns (notice: Option<string>)
      requires Valid()
      requires typeDraw < 4 && valueDraw < RandomValueRange(typeDraw)
      requires batteryDraw < 100 && signalDraw < 5
      modifies service, generator, app
      ensures Valid()
      ensures |generator.History| == |old(generator.History)| + 1
      ensures generator.History[..|generator.History| - 1] == old(generator.History)
      ensures CategoryOf(Last(generator.History)) == Some(RandomCategories[typeDraw])
      ensures Sent(old(app.sentEvents), app.sentEvents, old(service.Published), service.Published,
                   isConnected, publishReply, StreamKeyFor(EventTypeOf(RandomCategories[typeDraw])), Last(generator.History), notice)
      ensures !isConnected ==> unchanged(service, app)
      ensures isConnected ==>
        service.TransportCalls == old(service.TransportCalls) + [PublishCall(StreamKeyFor(EventTypeOf(RandomCategories[typeDraw])), Last(generator.History))]
    {
      var event := generator.GenerateRandomEvent(timestamp, nowMs, typeDraw, valueDraw, batteryDraw, signalDraw);
      assert event.eventType == EventTypeOf(RandomCategories[typeDraw]);
      var streamKey := StreamKeyFor(event.eventType);
      notice := SendEvent(event, streamKey, publishReply);
    }
  }

  function Last(h: seq<TestEvent>): TestEvent
    requires |h| >= 1
  {
    h[|h| - 1]
  }

  /**
    What one send leaves behind: `event` is recorded in the ledger and
    accepted by the transport on `streamKey` exactly when the component was
    connected and the publish resolved; otherwise both are as they were.
    The user is told "Not Connected" or "Send Failed" in the two other cases.
   */
  ghost predicate Sent(
    ledgerBefore: seq<TestEvent>, ledgerAfter: seq<TestEvent>,
    publishedBefore: seq<(string, TestEvent)>, publishedAfter: seq<(string, TestEvent)>,
    connected: bool, publishReply: Reply, streamKey: string, event: TestEvent, notice: Option<string>)
  {
    var delivered := connected && publishReply.Resolved?;
    ledgerAfter == (if delivered then ledgerBefore + [event] else ledgerBefore) &&
    publishedAfter == (if delivered then publishedBefore + [(streamKey, event)] else publishedBefore) &&
    notice == (if !connected then Some(NotConnectedNotice) else if delivered then None else Some(SendFailedNotice))
  }
}
