/**
 * Pipeline events (pkg/pipeline/event*.go): the kind tags, the three
 * built-in variants with their accessors and renderings, and the
 * non-blocking send every stage uses to report them.
 */
module Events {
  import opened Wrappers
  import opened Channels

  type uint8 = x: int | 0 <= x < 256

  /** EventType is a uint8 tag; the three built-in kinds come from iota. */
  type EventType = uint8

  const EventLog: EventType := 0
  const EventError: EventType := 1
  const EventMetric: EventType := 2

  /** LogLevel is a uint8 starting at iota + 3, with the Notice slot (5) left blank. */
  type LogLevel = uint8

  const LevelError: LogLevel := 3
  const LevelWarn: LogLevel := 4
  const LevelInfo: LogLevel := 6
  const LevelDebug: LogLevel := 7

  /** MetricType is a string type; four values are named. */
  type MetricType = string

  const MetricTypeCounter: MetricType := "counter"
  const MetricTypeGauge: MetricType := "gauge"
  const MetricTypeHistogram: MetricType := "histogram"
  const MetricTypeSummary: MetricType := "summary"

  /**
   * An event. An error cause is the message of a Go error value, None for nil.
   * Other stands for any further implementation of the Event interface,
   * such as the mock event the tests send, with its own kind and text.
   */
  datatype Event =
    | Log(source: string, level: LogLevel, msg: string)
    | Error(msg: string, cause: Option<string>, temporary: bool)
    | Metric(name: string, labels: map<string, string>, metricType: MetricType)
    | Other(kind: EventType, text: string)

  /** Event.Type() */
  function Type(e: Event): EventType
  {
    match e
    case Log(_, _, _) => EventLog
    case Error(_, _, _) => EventError
    case Metric(_, _, _) => EventMetric
    case Other(kind, _) => kind
  }

  /** Only an error event with a nil cause cannot be rendered: ErrorEvent.String dereferences it. */
  predicate Renderable(e: Event)
  {
    e.Error? ==> e.cause.Some?
  }

  /** Event.String() */
  function String(e: Event): string
    requires Renderable(e)
  {
    match e
    case Log(source, _, msg) => source + ": " + msg
    case Error(msg, cause, _) => msg + ": " + cause.value
    case Metric(name, _, _) => name
    case Other(_, text) => text
  }

  /** The kind tag tells the built-in variants apart; only other events may reuse a tag. */
  lemma TypeIdentifiesVariant(e: Event)
    ensures Type(e) == EventLog <==> e.Log? || (e.Other? && e.kind == EventLog)
    ensures Type(e) == EventError <==> e.Error? || (e.Other? && e.kind == EventError)
    ensures Type(e) == EventMetric <==> e.Metric? || (e.Other? && e.kind == EventMetric)
  {
  }

  // ---------------------------------------------------------------- log events

  /** The four named levels; 5 is not one of them. */
  predicate IsNamedLevel(l: int)
  {
    l == LevelError || l == LevelWarn || l == LevelInfo || l == LevelDebug
  }

  lemma LevelNumbering()
    ensures LevelError == 3 && LevelWarn == 4 && LevelInfo == 6 && LevelDebug == 7
    ensures LevelError < LevelWarn < LevelInfo < LevelDebug
    ensures !IsNamedLevel(5) && LevelWarn + 2 == LevelInfo
  {
  }

  function NewLogEvent(source: string, level: LogLevel, msg: string): (e: Event)
    ensures Type(e) == EventLog && Renderable(e)
    ensures e.Log? && Level(e) == level
    ensures String(e) == source + ": " + msg
  {
    Log(source, level, msg)
  }

  /** LogEvent.Level() */
  function Level(e: Event): LogLevel
    requires e.Log?
  {
    e.level
  }

  /**
   * LogEvent.Send: a plain (blocking) send of this event on the event channel.
   * The model describes the send once it completes.
   */
  method SendLog(e: Event, eventC: Channel<Event>)
    requires e.Log?
    requires eventC.Valid() && !eventC.closed && eventC.Ready()
    modifies eventC
    ensures eventC.Valid() && !eventC.closed
    ensures eventC.Sent() == old(eventC.Sent()) + [e]
    ensures old(eventC.waiting) > 0 ==>
              eventC.received == old(eventC.received) + [e] && eventC.buffer == old(eventC.buffer)
              && eventC.waiting == old(eventC.waiting) - 1
    ensures old(eventC.waiting) == 0 ==>
              eventC.buffer == old(eventC.buffer) + [e] && eventC.received == old(eventC.received)
              && eventC.waiting == 0
  {
    eventC.Send(e);
  }

  // -------------------------------------------------------------- error events

  function NewErrorEvent(msg: string, err: Option<string>, temporary: bool): (e: Event)
    ensures Type(e) == EventError && e.Error?
    ensures IsTemporary(e) == temporary && Unwrap(e) == err
    ensures Renderable(e) <==> err.Some?
    ensures err.Some? ==> String(e) == msg + ": " + err.value && ErrorText(e) == String(e)
  {
    Error(msg, err, temporary)
  }

  /** ErrorEvent.Error(): the error interface's text, which is the rendering. */
  function ErrorText(e: Event): string
    requires e.Error? && Renderable(e)
  {
    String(e)
  }

  /** ErrorEvent.IsTemporary() */
  function IsTemporary(e: Event): bool
    requires e.Error?
  {
    e.temporary
  }

  /** ErrorEvent.Unwrap() */
  function Unwrap(e: Event): Option<string>
    requires e.Error?
  {
    e.cause
  }

  // ------------------------------------------------------------- metric events

  function NewMetricEvent(name: string, labels: map<string, string>, metricType: MetricType): (e: Event)
    ensures Type(e) == EventMetric && e.Metric? && Renderable(e)
    ensures String(e) == name && Name(e) == name
    ensures Labels(e).Keys == labels.Keys
    ensures forall k :: k in labels ==> Labels(e)[k] == labels[k]
    ensures MetricTypeName(e) == metricType
  {
    Metric(name, labels, metricType)
  }

  /** MetricEvent.Name() */
  function Name(e: Event): string
    requires e.Metric?
  {
    e.name
  }

  /** MetricEvent.Labels() */
  function Labels(e: Event): map<string, string>
    requires e.Metric?
  {
    e.labels
  }

  /** MetricEvent.MetricType(): the kind as a plain string. */
  function MetricTypeName(e: Event): string
    requires e.Metric?
  {
    e.metricType
  }

  /** The four named metric kinds are four different strings. */
  lemma MetricTypeNames()
    ensures MetricTypeCounter == "counter" && MetricTypeGauge == "gauge"
    ensures MetricTypeHistogram == "histogram" && MetricTypeSummary == "summary"
    ensures |{MetricTypeCounter, MetricTypeGauge, MetricTypeHistogram, MetricTypeSummary}| == 4
  {
  }

  // ------------------------------------------------------------ non-blocking send

  /**
   * SendEvent: a nil channel (null) refuses the event; otherwise the event
   * goes through only if a receiver is waiting or the buffer has room.
   * It never waits, and a refused event leaves the channel as it was.
   */
  method SendEvent(eventC: Channel?<Event>, event: Event) returns (sent: bool)
    requires eventC != null ==> eventC.Valid() && !eventC.closed
    modifies eventC
    ensures eventC == null ==> !sent
    ensures eventC != null ==> eventC.Valid() && !eventC.closed && sent == old(eventC.Ready())
    ensures eventC != null && sent ==> eventC.Sent() == old(eventC.Sent()) + [event]
    ensures eventC != null && sent && old(eventC.waiting) == 0 ==>
              eventC.buffer == old(eventC.buffer) + [event] && eventC.received == old(eventC.received) && eventC.waiting == 0
    ensures eventC != null && sent && old(eventC.waiting) > 0 ==>
              eventC.buffer == old(eventC.buffer) && eventC.received == old(eventC.received) + [event]
              && eventC.waiting == old(eventC.waiting) - 1
    ensures eventC != null && !sent ==> unchanged(eventC)
  {
    if eventC == null {
      return false;
    }
    sent := eventC.TrySend(event);
  }

  /**
   * The five cases of the SendEvent test table, with the mock event of the
   * tests: nil refuses; a buffered channel with room queues; a full one
   * refuses and keeps its buffer; an unbuffered channel with a waiting
   * receiver hands over; an unbuffered one without refuses.
   */
  method SendEventCases() returns (results: seq<bool>, fullBuffer: seq<Event>, handedOver: seq<Event>)
    ensures results == [false, true, false, true, false]
    ensures fullBuffer == [Other(EventLog, "filling event")]
    ensures handedOver == [Other(EventLog, "test event")]
  {
    var event := Other(EventLog, "test event");

    var nilSent := SendEvent(null, event);

    var withSpace := new Channel<Event>(1);
    var spaceSent := SendEvent(withSpace, event);
    assert withSpace.buffer == [event];

    var full := new Channel<Event>(1);
    full.Send(Other(EventLog, "filling event"));
    var fullSent := SendEvent(full, event);
    fullBuffer := full.buffer;

    var unbufferedWithReceiver := new Channel<Event>(0);
    unbufferedWithReceiver.Await();
    var receiverSent := SendEvent(unbufferedWithReceiver, event);
    handedOver := unbufferedWithReceiver.received;

    var unbuffered := new Channel<Event>(0);
    var unbufferedSent := SendEvent(unbuffered, event);
    assert unbuffered.Sent() == [];

    results := [nilSent, spaceSent, fullSent, receiverSent, unbufferedSent];
  }
}
