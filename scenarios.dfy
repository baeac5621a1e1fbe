/**
  Clients that drive the generator, the services, the sender and the
  ledger through their contracts alone, each from freshly constructed
  objects, and state what the user of the app sees.
 */
module Scenarios {
  import opened AppBridgeTypes
  import opened EventGeneration
  import opened BridgeService
  import opened SimpleService
  import opened Ledger
  import opened Sender

  /** Two alerts of the same type from a fresh generator are numbered 1 and 2 and share the message. */
  method TwoAlertsFromFreshGenerator(timestamp: string) returns (first: TestEvent, second: TestEvent)
    ensures first.eventId == "alert-event-1" && second.eventId == "alert-event-2"
    ensures first.IsAlertEvent() && first.properties.message == "Test alert: sensor_error"
    ensures second.IsAlertEvent() && second.properties.message == "Test alert: sensor_error"
  {
    var generator := new EventGenerator();
    first := generator.GenerateAlertEvent(timestamp, "sensor_error");
    second := generator.GenerateAlertEvent(timestamp, "sensor_error");
  }

  /** After a reset the numbering starts again at 1, whatever was generated before. */
  method ResetThenDeviceEvent(timestamp: string, nowMs: nat, batteryDraw: nat, signalDraw: nat)
    returns (before: TestEvent, after: TestEvent, count: nat)
    requires batteryDraw < 100 && signalDraw < 5
    ensures before.eventId == "hyper-event-2"
    ensures after.eventId == "device-event-1" && after.IsDeviceEvent() && after.properties.deviceId == "test-device-123"
    ensures count == 1
  {
    var generator := new EventGenerator();
    before := generator.GenerateHypoEvent(timestamp, nowMs);
    before := generator.GenerateHyperEvent(timestamp, nowMs);
    generator.ResetCounter();
    after := generator.GenerateDeviceEvent(timestamp, batteryDraw, signalDraw);
    count := generator.GetEventCount();
  }

  /** Without arguments the glucose generators use 55 and 300 mg/dL. */
  method DefaultGlucose(timestamp: string, nowMs: nat) returns (hypo: TestEvent, hyper: TestEvent)
    ensures hypo.IsDataEvent() && hyper.IsDataEvent()
    ensures hypo.properties.glucose == 55 && hypo.eventType == "cgm_hypo_low"
    ensures hyper.properties.glucose == 300 && hyper.eventType == "cgm_hyper_high"
    ensures hypo.properties.glucose_unit == "mg/dL" && hyper.properties.glucose_unit == "mg/dL"
    ensures hypo.eventId == "hypo-event-1" && hyper.eventId == "hyper-event-2"
  {
    var generator := new EventGenerator();
    hypo := generator.GenerateHypoEvent(timestamp, nowMs);
    hyper := generator.GenerateHyperEvent(timestamp, nowMs);
  }

  /** A publish before any connect throws "Not connected" and never reaches the transport. */
  method PublishBeforeConnect(streamKey: string, obj: TestEvent, publishReply: Reply)
    returns (r: Outcome, count: nat)
    ensures r == Thrown(NotConnected) && r.error.Message() == "Not connected to Lumiere app"
    ensures count == 0
  {
    var service := new AppBridgeService();
    r := service.AddObjectToSharedStream(streamKey, obj, publishReply);
    count := service.GetEventCount();
  }

  /** Disconnecting a service that never connected leaves it disconnected and calls nothing. */
  method DisconnectBeforeConnect(disconnectReply: Reply)
    returns (connected: bool, count: nat, ghost calls: seq<TransportCall>)
    ensures !connected && count == 0 && calls == []
  {
    var service := new AppBridgeService();
    service.Disconnect(disconnectReply);
    calls := service.TransportCalls;
    connected := service.IsConnected();
    count := service.GetEventCount();
  }

  /**
    A failed transport disconnect is swallowed: the service stays
    connected and a publish afterwards still goes through.
   */
  method FailedDisconnectKeepsConnection(streamKey: string, obj: TestEvent)
    returns (connected: bool, r: Outcome)
    ensures connected && r == Done
  {
    var service := new AppBridgeService();
    var c := service.Connect(Resolved, Resolved);
    service.Disconnect(Rejected("bridge busy"));
    connected := service.IsConnected();
    r := service.AddObjectToSharedStream(streamKey, obj, Resolved);
  }

  /**
    Connect, send a hypo event with 40 typed into the glucose field: the
    ledger then holds exactly that one event, published on "dataEvents".
   */
  method ConnectAndSendHypo(timestamp: string, nowMs: nat)
    returns (ledger: seq<TestEvent>, count: nat, ghost published: seq<(string, TestEvent)>)
    ensures |ledger| == 1 && ledger[0].IsDataEvent() && ledger[0].properties.glucose == 40 && ledger[0].eventType == "cgm_hypo_low"
    ensures ledger[0].eventId == "hypo-event-1"
    ensures count == 1 && published == [("dataEvents", ledger[0])]
  {
    var service := new AppBridgeService();
    var generator := new EventGenerator();
    var app := new App();
    var sender := new EventSender(service, generator, app);
    var notice := sender.HandleConnect(Resolved, Resolved);
    sender.SetCustomGlucose(Some(40));
    notice := sender.HandleSendHypoEvent(timestamp, nowMs, Resolved);
    ledger := app.sentEvents;
    published := service.Published;
    count := service.GetEventCount();
  }

  /**
    Pressing send while disconnected still numbers an event, but publishes
    nothing and records nothing.
   */
  method SendWhileDisconnected(timestamp: string) returns (ledger: seq<TestEvent>, count: nat, notice: Option<string>)
    ensures ledger == [] && count == 1 && notice == Some("Not Connected")
  {
    var service := new AppBridgeService();
    var generator := new EventGenerator();
    var app := new App();
    var sender := new EventSender(service, generator, app);
    notice := sender.HandleSendAlertEvent(timestamp, Resolved);
    ledger := app.sentEvents;
    count := generator.GetEventCount();
  }

  /** A random alert is published on the device stream, not the alert stream. */
  method RandomAlertGoesToDeviceStream(timestamp: string, nowMs: nat, valueDraw: nat)
    returns (ledger: seq<TestEvent>, ghost published: seq<(string, TestEvent)>)
    requires valueDraw < 4
    ensures |ledger| == 1 && ledger[0].eventType == "device_alert" && ledger[0].IsAlertEvent()
    ensures published == [("device", ledger[0])]
  {
    var service := new AppBridgeService();
    var generator := new EventGenerator();
    var app := new App();
    var sender := new EventSender(service, generator, app);
    var notice := sender.HandleConnect(Resolved, Resolved);
    RouterAgainstHandlers(Alert);
    notice := sender.HandleSendRandomEvent(timestamp, nowMs, 3, valueDraw, 0, 0, Resolved);
    ledger := app.sentEvents;
    published := service.Published;
  }

  /** The stand-in accepts every publish, connected or not, and counts each one. */
  method StandInCountsPublishes(obj: TestEvent) returns (connected: bool, r: Outcome, count: nat)
    ensures connected && r == Done && count == 2
  {
    var service := new SimpleEventService();
    r := service.Disconnect();
    connected := service.IsConnected();
    r := service.AddObjectToSharedStream("device", obj);
    r := service.AddObjectToSharedStream("alert", obj);
    count := service.GetEventCount();
  }
}
