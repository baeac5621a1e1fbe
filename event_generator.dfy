/**
  Synthetic event generation. One counter, shared by the four kinds of
  event, numbers every event since construction or the last reset; the
  event's ids are derived from that number. Wall-clock reads and random
  draws are parameters: `timestamp` stands for `new Date().toISOString()`,
  `nowMs` for `Date.now()`, and every `...Draw` for `Math.floor(Math.random() * k)`,
  hence an integer in `[0, k)`.
 */
module EventGeneration {
  import opened JsStrings
  import opened AppBridgeTypes

  /** The four kinds of event the generator makes. */
  datatype Category = Hypo | Hyper | Device | Alert

  function IdPrefix(c: Category): string {
    match c
    case Hypo => "hypo-event-"
    case Hyper => "hyper-event-"
    case Device => "device-event-"
    case Alert => "alert-event-"
  }

  function EventTypeOf(c: Category): string {
    match c
    case Hypo => "cgm_hypo_low"
    case Hyper => "cgm_hyper_high"
    case Device => "device_status"
    case Alert => "device_alert"
  }

  /** `{prefix}-event-{n}` */
  function EventId(c: Category, n: nat): string {
    IdPrefix(c) + NatToString(n)
  }

  /** `event-{n}`, the payload id */
  function PayloadId(n: nat): string {
    "event-" + NatToString(n)
  }

  /** What an event id says: its kind and its number. */
  datatype EventTag = EventTag(category: Category, number: nat)

  predicate HasPrefix(s: string, p: string) {
    |p| <= |s| && s[..|p|] == p
  }

  /**
    The number after prefix `p`, when `s` is `p` followed by a decimal
    numeral as `${n}` writes it: digits only, and no leading zero unless the
    numeral is "0" itself.
   */
  function NumberAfter(s: string, p: string): Option<nat> {
    if HasPrefix(s, p) && |s| > |p| && AllDigits(s[|p|..]) && (s[|p|] != '0' || |s| == |p| + 1)
    then Some(DigitsValue(s[|p|..]))
    else None
  }

  /** Reads an event id back into its kind and number; `None` for anything not of the form `{prefix}-event-{digits}`. */
  function ParseEventId(id: string): Option<EventTag> {
    match NumberAfter(id, IdPrefix(Hypo))
    case Some(n) => Some(EventTag(Hypo, n))
    case None =>
      match NumberAfter(id, IdPrefix(Hyper))
      case Some(n) => Some(EventTag(Hyper, n))
      case None =>
        match NumberAfter(id, IdPrefix(Device))
        case Some(n) => Some(EventTag(Device, n))
        case None =>
          match NumberAfter(id, IdPrefix(Alert))
          case Some(n) => Some(EventTag(Alert, n))
          case None => None
  }

  lemma NumberAfterOwnPrefix(c: Category, n: nat)
    ensures NumberAfter(EventId(c, n), IdPrefix(c)) == Some(n)
  {
    var s := EventId(c, n);
    assert s[..|IdPrefix(c)|] == IdPrefix(c);
    assert s[|IdPrefix(c)|..] == NatToString(n);
    DigitsValueOfNatToString(n);
  }

  /** The four prefixes differ within their first four characters, so no id starts with two of them. */
  lemma NoOtherPrefix(c: Category, d: Category, n: nat)
    requires c != d
    ensures NumberAfter(EventId(c, n), IdPrefix(d)) == None
  {
    var s, p := EventId(c, n), IdPrefix(d);
    assert s[..4] == IdPrefix(c)[..4];
    assert IdPrefix(c)[..4] != p[..4] by {
      assert IdPrefix(Hypo)[..4] == "hypo";
      assert IdPrefix(Hyper)[..4] == "hype";
      assert IdPrefix(Device)[..4] == "devi";
      assert IdPrefix(Alert)[..4] == "aler";
    }
    assert |s| >= |p| ==> s[..|p|][..4] == s[..4];
  }

  /** Round trip: an id built from a kind and a number reads back as that kind and number. */
  lemma ParseEventIdOfEventId(c: Category, n: nat)
    ensures ParseEventId(EventId(c, n)) == Some(EventTag(c, n))
  {
    NumberAfterOwnPrefix(c, n);
    forall d | d != c ensures NumberAfter(EventId(c, n), IdPrefix(d)) == None {
      NoOtherPrefix(c, d, n);
    }
  }

  /** Read-back fixes the id: whatever parses as a kind and a number is the id built from them. */
  lemma EventIdOfParsed(id: string)
    ensures ParseEventId(id).Some? ==> id == EventId(ParseEventId(id).value.category, ParseEventId(id).value.number)
  {
    forall c: Category | NumberAfter(id, IdPrefix(c)).Some?
      ensures id == EventId(c, NumberAfter(id, IdPrefix(c)).value)
    {
      var p := IdPrefix(c);
      NatToStringOfDigitsValue(id[|p|..]);
      assert id == p + id[|p|..];
    }
  }

  /** Two ids are equal only when they were built from the same kind and the same number. */
  lemma EventIdInjective(c1: Category, n1: nat, c2: Category, n2: nat)
    requires EventId(c1, n1) == EventId(c2, n2)
    ensures c1 == c2 && n1 == n2
  {
    ParseEventIdOfEventId(c1, n1);
    ParseEventIdOfEventId(c2, n2);
  }

  // Fixed values of the generated payloads.
  const DefaultHypoGlucose := 55
  const DefaultHyperGlucose := 300
  const DefaultDeviceId := "test-device-123"
  const DefaultAlertType := "low_battery"
  const GlucoseUnit := "mg/dL"
  const TestSensor := Sensor("Dexcom", "E06819507836", "Dexcom-G7-Emulator")
  const AppInstallUniqueId := 12345
  const TestDeviceName := "Test Glucose Monitor"
  const AlertMessagePrefix := "Test alert: "
  const AlertPriority := "high"
  /** The alert types `generateRandomEvent` picks from. */
  const RandomAlertTypes: seq<string> := ["low_battery", "connection_lost", "calibration_needed", "sensor_error"]

  /** `Math.floor(Date.now() / 1000)`: whole seconds of a non-negative millisecond clock. */
  function TransmitterTime(nowMs: nat): (t: nat)
    ensures t * 1000 <= nowMs < (t + 1) * 1000
  {
    nowMs / 1000
  }

  /** The kind of an event, as its id says; `None` for an id the generator never makes. */
  function CategoryOf(e: TestEvent): Option<Category> {
    match ParseEventId(e.eventId)
    case Some(tag) => Some(tag.category)
    case None => None
  }

  /** The counter value an event was made with, as its id says (0 for a foreign id). */
  function Serial(e: TestEvent): nat {
    match ParseEventId(e.eventId)
    case Some(tag) => tag.number
    case None => 0
  }

  /**
    The shape every generated event has, stated from its id outwards: the id
    names a kind and a number `n`; the event type is that kind's; the payload
    id is `event-{n}`; and the payload is the kind's variant with its fixed
    fields, a glucose reading numbered `n` and read at the envelope's
    timestamp, a device status with battery in [0,100) and signal in [1,5],
    or an alert whose message names its type.
   */
  predicate WellFormed(e: TestEvent) {
    match ParseEventId(e.eventId)
    case None => false
    case Some(tag) =>
      var n := tag.number;
      e.eventType == EventTypeOf(tag.category) &&
      e.properties.id == PayloadId(n) &&
      match tag.category
      case Hypo =>
        WellFormedReading(e, n) &&
        e.properties.hypo_id == Some("hypo-" + NatToString(n + 456)) && e.properties.hyper_id == None
      case Hyper =>
        WellFormedReading(e, n) &&
        e.properties.hyper_id == Some("hyper-" + NatToString(n + 789)) && e.properties.hypo_id == None
      case Device =>
        e.properties.DeviceProperties? &&
        e.properties.deviceName == TestDeviceName &&
        0 <= e.properties.batteryLevel < 100 &&
        1 <= e.properties.signalStrength <= 5
      case Alert =>
        e.properties.AlertProperties? &&
        e.properties.message == AlertMessagePrefix + e.properties.alertType &&
        e.properties.priority == AlertPriority
  }

  predicate WellFormedReading(e: TestEvent, n: nat) {
    e.properties.DataProperties? &&
    e.properties.sensor == TestSensor &&
    e.properties.glucose_unit == GlucoseUnit &&
    e.properties.app_install_unique_id == AppInstallUniqueId &&
    e.properties.sequence_number == n &&
    e.properties.reading_time == e.timestamp
  }

  /** The record `generateHypoEvent` returns once the counter reads `n`. */
  function HypoEvent(n: nat, glucose: int, timestamp: string, nowMs: nat): (e: TestEvent)
    ensures WellFormed(e) && ParseEventId(e.eventId) == Some(EventTag(Hypo, n))
    ensures e.IsDataEvent() && e.properties.glucose == glucose && e.timestamp == timestamp
    ensures e.properties.transmitter_time * 1000 <= nowMs < (e.properties.transmitter_time + 1) * 1000
  {
    ParseEventIdOfEventId(Hypo, n);
    TestEvent(
      EventId(Hypo, n), timestamp, EventTypeOf(Hypo),
      DataProperties(
        PayloadId(n), Some("hypo-" + NatToString(n + 456)), None, TestSensor, GlucoseUnit, glucose,
        AppInstallUniqueId, TransmitterTime(nowMs), n, timestamp))
  }

  /** The record `generateHyperEvent` returns once the counter reads `n`. */
  function HyperEvent(n: nat, glucose: int, timestamp: string, nowMs: nat): (e: TestEvent)
    ensures WellFormed(e) && ParseEventId(e.eventId) == Some(EventTag(Hyper, n))
    ensures e.IsDataEvent() && e.properties.glucose == glucose && e.timestamp == timestamp
    ensures e.properties.transmitter_time * 1000 <= nowMs < (e.properties.transmitter_time + 1) * 1000
  {
    ParseEventIdOfEventId(Hyper, n);
    TestEvent(
      EventId(Hyper, n), timestamp, EventTypeOf(Hyper),
      DataProperties(
        PayloadId(n), None, Some("hyper-" + NatToString(n + 789)), TestSensor, GlucoseUnit, glucose,
        AppInstallUniqueId, TransmitterTime(nowMs), n, timestamp))
  }

  /** The record `generateDeviceEvent` returns once the counter reads `n`. */
  function DeviceEvent(n: nat, deviceId: string, timestamp: string, batteryDraw: nat, signalDraw: nat): (e: TestEvent)
    requires batteryDraw < 100 && signalDraw < 5
    ensures WellFormed(e) && ParseEventId(e.eventId) == Some(EventTag(Device, n))
    ensures e.IsDeviceEvent() && e.properties.deviceId == deviceId && e.timestamp == timestamp
  {
    ParseEventIdOfEventId(Device, n);
    TestEvent(
      EventId(Device, n), timestamp, EventTypeOf(Device),
      DeviceProperties(PayloadId(n), deviceId, TestDeviceName, batteryDraw, signalDraw + 1))
  }

  /** The record `generateAlertEvent` returns once the counter reads `n`. */
  function AlertEvent(n: nat, alertType: string, timestamp: string): (e: TestEvent)
    ensures WellFormed(e) && ParseEventId(e.eventId) == Some(EventTag(Alert, n))
    ensures e.IsAlertEvent() && e.properties.alertType == alertType && e.timestamp == timestamp
  {
    ParseEventIdOfEventId(Alert, n);
    TestEvent(
      EventId(Alert, n), timestamp, EventTypeOf(Alert),
      AlertProperties(PayloadId(n), alertType, AlertMessagePrefix + alertType, AlertPriority))
  }

  /** How many values the second draw of `generateRandomEvent` ranges over, per kind drawn first. */
  function RandomValueRange(typeDraw: nat): nat
    requires typeDraw < 4
  {
    [40, 200, 1000, |RandomAlertTypes|][typeDraw]
  }

  /** The kinds in the order `generateRandomEvent` lists them. */
  const RandomCategories: seq<Category> := [Hypo, Hyper, Device, Alert]

  /**
    A history of events numbered 1, 2, ... in order, as the generator keeps
    between resets, never repeats an event id.
   */
  lemma HistoryIdsDistinct(h: seq<TestEvent>)
    requires forall i :: 0 <= i < |h| ==> Serial(h[i]) == i + 1
    ensures forall i, j :: 0 <= i < j < |h| ==> h[i].eventId != h[j].eventId
  {
  }

  class EventGenerator {
    var eventCounter: nat
    /** The events generated since construction or the last reset, oldest first. */
    ghost var History: seq<TestEvent>

    ghost predicate Valid()
      reads this
    {
      eventCounter == |History| &&
      forall i :: 0 <= i < |History| ==> WellFormed(History[i]) && Serial(History[i]) == i + 1
    }

    constructor()
      ensures Valid() && eventCounter == 0 && History == []
    {
      eventCounter := 0;
      History := [];
    }

    method GenerateHypoEvent(timestamp: string, nowMs: nat, glucoseValue: int := DefaultHypoGlucose)
      returns (e: TestEvent)
      requires Valid()
      modifies this
      ensures Valid()
      ensures eventCounter == old(eventCounter) + 1 && History == old(History) + [e]
      ensures e == HypoEvent(eventCounter, glucoseValue, timestamp, nowMs)
    {
      eventCounter := eventCounter + 1;
      e := HypoEvent(eventCounter, glucoseValue, timestamp, nowMs);
      History := History + [e];
    }

    method GenerateHyperEvent(timestamp: string, nowMs: nat, glucoseValue: int := DefaultHyperGlucose)
      returns (e: TestEvent)
      requires Valid()
      modifies this
      ensures Valid()
      ensures eventCounter == old(eventCounter) + 1 && History == old(History) + [e]
      ensures e == HyperEvent(eventCounter, glucoseValue, timestamp, nowMs)
    {
      eventCounter := eventCounter + 1;
      e := HyperEvent(eventCounter, glucoseValue, timestamp, nowMs);
      History := History + [e];
    }

    method GenerateDeviceEvent(timestamp: string, batteryDraw: nat, signalDraw: nat, deviceId: string := DefaultDeviceId)
      returns (e: TestEvent)
      requires Valid()
      requires batteryDraw < 100 && signalDraw < 5
      modifies this
      ensures Valid()
      ensures eventCounter == old(eventCounter) + 1 && History == old(History) + [e]
      ensures e == DeviceEvent(eventCounter, deviceId, timestamp, batteryDraw, signalDraw)
    {
      eventCounter := eventCounter + 1;
      e := DeviceEvent(eventCounter, deviceId, timestamp, batteryDraw, signalDraw);
      History := History + [e];
    }

    method GenerateAlertEvent(timestamp: string, alertType: string := DefaultAlertType)
      returns (e: TestEvent)
      requires Valid()
      modifies this
      ensures Valid()
      ensures eventCounter == old(eventCounter) + 1 && History == old(History) + [e]
      ensures e == AlertEvent(eventCounter, alertType, timestamp)
    {
      eventCounter := eventCounter + 1;
      e := AlertEvent(eventCounter, alertType, timestamp);
      History := History + [e];
    }

    /**
      Draws a kind, then a value for it, and delegates to exactly one of the
      four generators, so the counter rises by one.
     */
    method GenerateRandomEvent(
      timestamp: string, nowMs: nat, typeDraw: nat, valueDraw: nat, batteryDraw: nat, signalDraw: nat)
      returns (e: TestEvent)
      requires Valid()
      requires typeDraw < 4 && valueDraw < RandomValueRange(typeDraw)
      requires batteryDraw < 100 && signalDraw < 5
      modifies this
      ensures Valid()
      ensures eventCounter == old(eventCounter) + 1 && History == old(History) + [e]
      ensures CategoryOf(e) == Some(RandomCategories[typeDraw])
      ensures typeDraw == 0 ==> e == HypoEvent(eventCounter, 30 + valueDraw, timestamp, nowMs)
      ensures typeDraw == 1 ==> e == HyperEvent(eventCounter, 250 + valueDraw, timestamp, nowMs)
      ensures typeDraw == 2 ==>
        e == DeviceEvent(eventCounter, "device-" + NatToString(valueDraw), timestamp, batteryDraw, signalDraw)
      ensures typeDraw == 3 ==> e == AlertEvent(eventCounter, RandomAlertTypes[valueDraw], timestamp)
      ensures e.IsDataEvent() && CategoryOf(e) == Some(Hypo) ==> 30 <= e.properties.glucose < 70
      ensures e.IsDataEvent() && CategoryOf(e) == Some(Hyper) ==> 250 <= e.properties.glucose < 450
      ensures e.IsDeviceEvent() ==>
        exists k :: 0 <= k < 1000 && e.properties.deviceId == "device-" + NatToString(k)
      ensures e.IsAlertEvent() ==> e.properties.alertType in RandomAlertTypes
    {
      if typeDraw == 0 {
        e := GenerateHypoEvent(timestamp, nowMs, 30 + valueDraw);
      } else if typeDraw == 1 {
        e := GenerateHyperEvent(timestamp, nowMs, 250 + valueDraw);
      } else if typeDraw == 2 {
        e := GenerateDeviceEvent(timestamp, batteryDraw, signalDraw, "device-" + NatToString(valueDraw));
      } else {
        e := GenerateAlertEvent(timestamp, RandomAlertTypes[valueDraw]);
      }
    }

    /** The number of events generated since construction or the last reset. */
    method GetEventCount() returns (count: nat)
      requires Valid()
      ensures count == |History|
    {
      count := eventCounter;
    }

    /** Starts the numbering again: the next event is number 1. Events already made keep their ids. */
    method ResetCounter()
      requires Valid()
      modifies this
      ensures Valid() && eventCounter == 0 && History == []
    {
      eventCounter := 0;
      History := [];
    }

    /** Between resets the generator never hands out the same event id twice. */
    lemma IdsDistinctSinceReset()
      requires Valid()
      ensures forall i, j :: 0 <= i < j < |History| ==> History[i].eventId != History[j].eventId
    {
      HistoryIdsDistinct(History);
    }
  }
}
