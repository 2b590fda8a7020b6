/**
 * The EventCollector (pkg/pipeline/event_collector.go): configuration by
 * functional options, the Collect/Close lifecycle around a buffered event
 * channel, and the rule by which a worker hands one event to the
 * registered callbacks.
 *
 * Callbacks are named by ids; a nil callback is None. Running a callback
 * is observed as its id being appended to the collector's `invoked` log.
 * The worker goroutines are modelled sequentially: each worker step takes
 * the oldest buffered event and dispatches it, and Close drains the
 * channel in FIFO order before it returns.
 */
module Collector {
  import opened Wrappers
  import opened Channels
  import opened Events

  type CallbackId = nat

  /** TypedEventCallback: a callback registered for one event type. */
  datatype TypedCallback = TypedCallback(eventType: EventType, callback: CallbackId)

  /** EventCollectorOption: the four option constructors, by their arguments. */
  datatype CollectorOption =
    | WithWorkers(workers: int)
    | WithBufferSize(size: int)
    | WithCallback(callback: Option<CallbackId>)
    | WithTypedCallback(eventType: EventType, callback: Option<CallbackId>)

  /** The configurable fields of a collector. */
  datatype Config = Config(workers: int, bufferSize: int, callbacks: seq<CallbackId>, typedCallbacks: seq<TypedCallback>)

  const DefaultWorkers: int := 1
  const DefaultBufferSize: int := 100

  /** What NewEventCollector starts from before any option is applied. */
  const DefaultConfig: Config := Config(DefaultWorkers, DefaultBufferSize, [], [])

  predicate WellFormed(c: Config)
  {
    c.workers >= 1 && c.bufferSize >= 1
  }

  /** The effect of one option: invalid values and nil callbacks are ignored silently. */
  function ApplyOption(c: Config, opt: CollectorOption): Config
  {
    match opt
    case WithWorkers(n) => if n > 0 then c.(workers := n) else c
    case WithBufferSize(n) => if n > 0 then c.(bufferSize := n) else c
    case WithCallback(cb) =>
      if cb.Some? then c.(callbacks := c.callbacks + [cb.value]) else c
    case WithTypedCallback(t, cb) =>
      if cb.Some? then c.(typedCallbacks := c.typedCallbacks + [TypedCallback(t, cb.value)]) else c
  }

  /** The options applied to c in argument order. */
  function ApplyAll(c: Config, opts: seq<CollectorOption>): Config
  {
    if opts == [] then c else ApplyOption(ApplyAll(c, opts[..|opts| - 1]), opts[|opts| - 1])
  }

  /** The configuration NewEventCollector(opts...) produces. */
  function Configure(opts: seq<CollectorOption>): Config
  {
    ApplyAll(DefaultConfig, opts)
  }

  /** With no options the collector has one worker and a buffer of 100. */
  lemma ConfigureDefaults()
    ensures Configure([]) == Config(1, 100, [], [])
  {
  }

  /** Applying a + b is applying a, then b. */
  lemma {:induction false} ApplyAllAppend(c: Config, a: seq<CollectorOption>, b: seq<CollectorOption>)
    ensures ApplyAll(c, a + b) == ApplyAll(ApplyAll(c, a), b)
    decreases |b|
  {
    if b == [] {
      assert a + b == a;
    } else {
      var b' := b[..|b| - 1];
      assert (a + b)[..|a + b| - 1] == a + b';
      ApplyAllAppend(c, a, b');
    }
  }

  /** No sequence of options can make the worker count or the buffer size less than 1. */
  lemma {:induction false} ConfigureWellFormed(opts: seq<CollectorOption>)
    ensures WellFormed(Configure(opts))
  {
    if opts != [] {
      ConfigureWellFormed(opts[..|opts| - 1]);
    }
  }

  predicate SetsWorkers(opt: CollectorOption)
  {
    opt.WithWorkers? && opt.workers > 0
  }

  predicate SetsBufferSize(opt: CollectorOption)
  {
    opt.WithBufferSize? && opt.size > 0
  }

  /** The last valid WithWorkers wins; invalid ones after it change nothing. */
  lemma {:induction false} LastValidWorkersWins(opts: seq<CollectorOption>, i: nat)
    requires i < |opts| && SetsWorkers(opts[i])
    requires forall j :: i < j < |opts| ==> !SetsWorkers(opts[j])
    ensures Configure(opts).workers == opts[i].workers
    decreases |opts|
  {
    if i < |opts| - 1 {
      LastValidWorkersWins(opts[..|opts| - 1], i);
    }
  }

  /** Without a valid WithWorkers the worker count stays at its default. */
  lemma {:induction false} WorkersDefault(opts: seq<CollectorOption>)
    requires forall j :: 0 <= j < |opts| ==> !SetsWorkers(opts[j])
    ensures Configure(opts).workers == DefaultWorkers
  {
    if opts != [] {
      WorkersDefault(opts[..|opts| - 1]);
    }
  }

  /** The last valid WithBufferSize wins; invalid ones after it change nothing. */
  lemma {:induction false} LastValidBufferSizeWins(opts: seq<CollectorOption>, i: nat)
    requires i < |opts| && SetsBufferSize(opts[i])
    requires forall j :: i < j < |opts| ==> !SetsBufferSize(opts[j])
    ensures Configure(opts).bufferSize == opts[i].size
    decreases |opts|
  {
    if i < |opts| - 1 {
      LastValidBufferSizeWins(opts[..|opts| - 1], i);
    }
  }

  /** Without a valid WithBufferSize the buffer size stays at its default. */
  lemma {:induction false} BufferSizeDefault(opts: seq<CollectorOption>)
    requires forall j :: 0 <= j < |opts| ==> !SetsBufferSize(opts[j])
    ensures Configure(opts).bufferSize == DefaultBufferSize
  {
    if opts != [] {
      BufferSizeDefault(opts[..|opts| - 1]);
    }
  }

  /** The non-nil general callbacks among opts, in argument order (read from the front). */
  function Registered(opts: seq<CollectorOption>): seq<CallbackId>
  {
    if opts == [] then []
    else (if opts[0].WithCallback? && opts[0].callback.Some? then [opts[0].callback.value] else [])
         + Registered(opts[1..])
  }

  /** The non-nil typed callbacks among opts, in argument order (read from the front). */
  function RegisteredTyped(opts: seq<CollectorOption>): seq<TypedCallback>
  {
    if opts == [] then []
    else (if opts[0].WithTypedCallback? && opts[0].callback.Some?
          then [TypedCallback(opts[0].eventType, opts[0].callback.value)] else [])
         + RegisteredTyped(opts[1..])
  }

  lemma {:induction false} RegisteredSnoc(opts: seq<CollectorOption>, opt: CollectorOption)
    ensures Registered(opts + [opt]) == Registered(opts) + Registered([opt])
    ensures RegisteredTyped(opts + [opt]) == RegisteredTyped(opts) + RegisteredTyped([opt])
  {
    if opts != [] {
      assert (opts + [opt])[1..] == opts[1..] + [opt];
      RegisteredSnoc(opts[1..], opt);
    }
  }

  /**
   * Registration keeps every non-nil callback, drops every nil one, and keeps
   * argument order, for general and typed callbacks alike.
   */
  lemma {:induction false} ConfigureCallbacks(opts: seq<CollectorOption>)
    ensures Configure(opts).callbacks == Registered(opts)
    ensures Configure(opts).typedCallbacks == RegisteredTyped(opts)
  {
    if opts != [] {
      var init := opts[..|opts| - 1];
      ConfigureCallbacks(init);
      RegisteredSnoc(init, opts[|opts| - 1]);
      assert init + [opts[|opts| - 1]] == opts;
    }
  }

  // --------------------------------------------------------------- dispatch

  /** The typed callbacks registered for type t, in registration order. */
  function MatchingTyped(typed: seq<TypedCallback>, t: EventType): seq<CallbackId>
  {
    if typed == [] then []
    else MatchingTyped(typed[..|typed| - 1], t)
         + (if typed[|typed| - 1].eventType == t then [typed[|typed| - 1].callback] else [])
  }

  /** processEvent's rule: every general callback, then the typed ones for the event's type. */
  function DispatchTrace(callbacks: seq<CallbackId>, typed: seq<TypedCallback>, e: Event): seq<CallbackId>
  {
    callbacks + MatchingTyped(typed, Type(e))
  }

  /** The callbacks run for a sequence of events processed one after another. */
  function DispatchAll(callbacks: seq<CallbackId>, typed: seq<TypedCallback>, events: seq<Event>): seq<CallbackId>
  {
    if events == [] then []
    else DispatchTrace(callbacks, typed, events[0]) + DispatchAll(callbacks, typed, events[1..])
  }

  /** A typed callback runs once for each registration of it under the event's type, and never otherwise. */
  lemma {:induction false} MatchingTypedCount(typed: seq<TypedCallback>, t: EventType, id: CallbackId)
    ensures multiset(MatchingTyped(typed, t))[id] == multiset(typed)[TypedCallback(t, id)]
  {
    if typed != [] {
      var init, last := typed[..|typed| - 1], typed[|typed| - 1];
      MatchingTypedCount(init, t, id);
      assert typed == init + [last];
      var picked := if last.eventType == t then [last.callback] else [];
      assert MatchingTyped(typed, t) == MatchingTyped(init, t) + picked;
      assert multiset(picked)[id] == if last == TypedCallback(t, id) then 1 else 0;
    }
  }

  /** Typed callbacks run in registration order: the selection distributes over concatenation. */
  lemma {:induction false} MatchingTypedAppend(a: seq<TypedCallback>, b: seq<TypedCallback>, t: EventType)
    ensures MatchingTyped(a + b, t) == MatchingTyped(a, t) + MatchingTyped(b, t)
    decreases |b|
  {
    if b == [] {
      assert a + b == a;
    } else {
      var b' := b[..|b| - 1];
      assert (a + b)[..|a + b| - 1] == a + b';
      MatchingTypedAppend(a, b', t);
    }
  }

  /**
   * For one event: the general callbacks come first, in order; then each
   * callback runs as many times as it is registered generally plus as many
   * times as it is registered for the event's type, and no other callback runs.
   */
  lemma DispatchRule(callbacks: seq<CallbackId>, typed: seq<TypedCallback>, e: Event, id: CallbackId)
    ensures DispatchTrace(callbacks, typed, e)[..|callbacks|] == callbacks
    ensures multiset(DispatchTrace(callbacks, typed, e))[id]
            == multiset(callbacks)[id] + multiset(typed)[TypedCallback(Type(e), id)]
    ensures id in DispatchTrace(callbacks, typed, e) <==> id in callbacks || TypedCallback(Type(e), id) in typed
  {
    MatchingTypedCount(typed, Type(e), id);
    var trace := DispatchTrace(callbacks, typed, e);
    assert trace[..|callbacks|] == callbacks;
    assert id in trace <==> multiset(trace)[id] > 0;
    assert TypedCallback(Type(e), id) in typed <==> multiset(typed)[TypedCallback(Type(e), id)] > 0;
  }

  lemma {:induction false} DispatchAllSnoc(callbacks: seq<CallbackId>, typed: seq<TypedCallback>, events: seq<Event>, e: Event)
    ensures DispatchAll(callbacks, typed, events + [e])
            == DispatchAll(callbacks, typed, events) + DispatchTrace(callbacks, typed, e)
  {
    if events == [] {
      assert DispatchAll(callbacks, typed, [e][1..]) == [];
    } else {
      assert (events + [e])[1..] == events[1..] + [e];
      DispatchAllSnoc(callbacks, typed, events[1..], e);
    }
  }

  // -------------------------------------------------------------- collector

  class EventCollector {
    var workers: int
    var bufferSize: int
    var callbacks: seq<CallbackId>
    var typedCallbacks: seq<TypedCallback>
    var eventChan: Channel?<Event>
    var isOpen: bool
    /** Worker goroutines started and not yet finished (the WaitGroup's counter). */
    var running: nat
    /** Every callback invocation so far, in the order they ran. */
    var invoked: seq<CallbackId>

    function Settings(): Config
      reads this
    {
      Config(workers, bufferSize, callbacks, typedCallbacks)
    }

    /**
     * Both sizes are at least 1; an open collector owns an open channel of
     * capacity bufferSize drained by `workers` running workers; a closed one
     * has no running worker.
     */
    ghost predicate Valid()
      reads this, eventChan
    {
      && WellFormed(Settings())
      && (isOpen ==>
            && eventChan != null && eventChan.Valid() && !eventChan.closed
            && eventChan.capacity == bufferSize && eventChan.waiting == 0
            && running == workers)
      && (!isOpen ==> running == 0)
    }

    /** NewEventCollector: the defaults, then each option in argument order. */
    constructor (opts: seq<CollectorOption>)
      ensures Valid() && Settings() == Configure(opts)
      ensures !isOpen && eventChan == null && invoked == []
    {
      workers, bufferSize := DefaultWorkers, DefaultBufferSize;
      callbacks, typedCallbacks := [], [];
      eventChan, isOpen, running, invoked := null, false, 0, [];
      new;
      for i := 0 to |opts|
        invariant Settings() == ApplyAll(DefaultConfig, opts[..i]) && WellFormed(Settings())
        invariant !isOpen && eventChan == null && running == 0 && invoked == []
      {
        assert opts[..i + 1][..i] == opts[..i];
        Apply(opts[i]);
      }
      assert opts[..|opts|] == opts;
    }

    /** One option applied to the collector. */
    method Apply(opt: CollectorOption)
      requires WellFormed(Settings())
      modifies this
      ensures Settings() == ApplyOption(old(Settings()), opt) && WellFormed(Settings())
      ensures eventChan == old(eventChan) && isOpen == old(isOpen)
      ensures running == old(running) && invoked == old(invoked)
    {
      match opt
      case WithWorkers(n) =>
        if n > 0 {
          workers := n;
        }
      case WithBufferSize(n) =>
        if n > 0 {
          bufferSize := n;
        }
      case WithCallback(cb) =>
        if cb.Some? {
          callbacks := callbacks + [cb.value];
        }
      case WithTypedCallback(t, cb) =>
        if cb.Some? {
          typedCallbacks := typedCallbacks + [TypedCallback(t, cb.value)];
        }
    }

    /**
     * Collect: while open, the existing channel and nothing else; otherwise a
     * new channel of capacity bufferSize, the collector open, and exactly
     * `workers` workers started.
     */
    method Collect() returns (ch: Channel<Event>)
      requires Valid()
      modifies this
      ensures Valid() && isOpen && ch == eventChan
      ensures old(isOpen) ==> ch == old(eventChan) && unchanged(this)
      ensures !old(isOpen) ==> fresh(ch) && ch.capacity == bufferSize && ch.Sent() == []
      ensures !old(isOpen) ==> running == workers
      ensures Settings() == old(Settings()) && invoked == old(invoked)
    {
      if isOpen {
        return eventChan;
      }
      ch := new Channel<Event>(bufferSize);
      isOpen := true;
      eventChan := ch;
      for w := 0 to workers
        invariant running == w && eventChan == ch && isOpen
        invariant ch.capacity == bufferSize && ch.buffer == [] && ch.received == [] && ch.waiting == 0 && !ch.closed
        invariant Settings() == old(Settings()) && invoked == old(invoked)
      {
        running := running + 1;
      }
    }

    /** processEvent: the ids of the callbacks run for e, in the order they run. */
    method ProcessEvent(e: Event) returns (trace: seq<CallbackId>)
      ensures trace == DispatchTrace(callbacks, typedCallbacks, e)
    {
      trace := [];
      for i := 0 to |callbacks|
        invariant trace == callbacks[..i]
      {
        assert callbacks[..i + 1] == callbacks[..i] + [callbacks[i]];
        trace := trace + [callbacks[i]];
      }
      assert callbacks[..|callbacks|] == callbacks;
      var eventType := Type(e);
      for i := 0 to |typedCallbacks|
        invariant trace == callbacks + MatchingTyped(typedCallbacks[..i], eventType)
      {
        assert typedCallbacks[..i + 1][..i] == typedCallbacks[..i];
        if typedCallbacks[i].eventType == eventType {
          trace := trace + [typedCallbacks[i].callback];
        }
      }
      assert typedCallbacks[..|typedCallbacks|] == typedCallbacks;
    }

    /**
     * One step of a worker: take the oldest buffered event, if any, and run
     * its callbacks. Nothing is lost: the callbacks already run plus those
     * owed to buffered events stay the same.
     */
    method WorkerStep() returns (handled: bool)
      requires Valid() && isOpen
      modifies this, eventChan
      ensures Valid() && isOpen && eventChan == old(eventChan) && Settings() == old(Settings())
      ensures handled == (old(eventChan.buffer) != [])
      ensures handled ==> eventChan.buffer == old(eventChan.buffer)[1..]
                          && invoked == old(invoked) + DispatchTrace(callbacks, typedCallbacks, old(eventChan.buffer)[0])
      ensures !handled ==> unchanged(this) && unchanged(eventChan)
      ensures invoked + DispatchAll(callbacks, typedCallbacks, eventChan.buffer)
              == old(invoked) + DispatchAll(callbacks, typedCallbacks, old(eventChan.buffer))
      ensures eventChan.Sent() == old(eventChan.Sent())
    {
      if eventChan.buffer == [] {
        return false;
      }
      var ev := eventChan.Receive();
      var trace := ProcessEvent(ev.value);
      invoked := invoked + trace;
      handled := true;
    }

    /**
     * The workers finishing their range loops after close: every buffered
     * event is received, in order, and its callbacks run.
     */
    method Drain(ch: Channel<Event>) returns (trace: seq<CallbackId>)
      requires ch.Valid() && ch.closed
      modifies ch
      ensures ch.Valid() && ch.closed && ch.buffer == []
      ensures ch.received == old(ch.received) + old(ch.buffer)
      ensures trace == DispatchAll(callbacks, typedCallbacks, old(ch.buffer))
    {
      ghost var drained: seq<Event> := [];
      trace := [];
      while ch.buffer != []
        invariant ch.Valid() && ch.closed
        invariant old(ch.buffer) == drained + ch.buffer
        invariant ch.received == old(ch.received) + drained
        invariant trace == DispatchAll(callbacks, typedCallbacks, drained)
        decreases |ch.buffer|
      {
        var ev := ch.Receive();
        var step := ProcessEvent(ev.value);
        DispatchAllSnoc(callbacks, typedCallbacks, drained, ev.value);
        drained := drained + [ev.value];
        trace := trace + step;
      }
      assert drained == old(ch.buffer);
    }

    /**
     * Close: a no-op unless open. Otherwise the collector is marked closed,
     * the channel is closed, and the workers drain every buffered event, in
     * order, before Close returns.
     */
    method Close()
      requires Valid()
      modifies this, eventChan
      ensures Valid() && !isOpen && eventChan == old(eventChan) && Settings() == old(Settings())
      ensures !old(isOpen) ==> unchanged(this) && (eventChan != null ==> unchanged(eventChan))
      ensures old(isOpen) ==> eventChan.closed && eventChan.buffer == []
                              && eventChan.received == old(eventChan.received) + old(eventChan.buffer)
                              && invoked == old(invoked) + DispatchAll(callbacks, typedCallbacks, old(eventChan.buffer))
    {
      if !isOpen {
        return;
      }
      eventChan.Close();
      var trace := Drain(eventChan);
      isOpen, running := false, 0;
      invoked := invoked + trace;
    }
  }

  /** The options of the typed-callback test register two typed callbacks, in order, and nothing else. */
  lemma TypedTestConfig()
    ensures Configure([WithTypedCallback(10, Some(1)), WithTypedCallback(11, Some(2))])
            == Config(1, 100, [], [TypedCallback(10, 1), TypedCallback(11, 2)])
  {
    var opts := [WithTypedCallback(10, Some(1)), WithTypedCallback(11, Some(2))];
    assert opts[..1] == [opts[0]] && opts[..1][..0] == [];
    assert ApplyAll(DefaultConfig, opts[..1]) == Config(1, 100, [], [TypedCallback(10, 1)]);
  }

  /** An event of type 10, then one of type 11, run callback 1 once, then callback 2 once. */
  lemma TypedTestDispatch()
    ensures DispatchAll([], [TypedCallback(10, 1), TypedCallback(11, 2)], [Other(10, "test-data-a"), Other(11, "test-data-b")])
            == [1, 2]
  {
    var typed := [TypedCallback(10, 1), TypedCallback(11, 2)];
    var events := [Other(10, "test-data-a"), Other(11, "test-data-b")];
    assert typed[..1] == [typed[0]] && typed[..1][..0] == [];
    assert MatchingTyped(typed[..1], 10) == [1] && MatchingTyped(typed[..1], 11) == [];
    assert MatchingTyped(typed, 10) == [1] && MatchingTyped(typed, 11) == [2];
    assert events[1..] == [events[1]] && events[1..][1..] == [];
    assert DispatchAll([], typed, events[1..]) == [2];
  }

  /**
   * The collector tests: with callback 1 typed for kind 10 and callback 2 for
   * kind 11, an event of each kind sent with a plain send has run [1, 2] by
   * the time Close returns, and a second Close changes nothing.
   */
  method CollectorCases() returns (afterClose: seq<CallbackId>, afterSecondClose: seq<CallbackId>, open: bool)
    ensures afterClose == [1, 2]
    ensures afterSecondClose == [1, 2] && !open
  {
    TypedTestConfig();
    var c := new EventCollector([WithTypedCallback(10, Some(1)), WithTypedCallback(11, Some(2))]);
    var ch := c.Collect();
    var eventA, eventB := Other(10, "test-data-a"), Other(11, "test-data-b");
    ch.Send(eventA);
    ch.Send(eventB);
    assert ch.buffer == [eventA, eventB];
    TypedTestDispatch();
    c.Close();
    afterClose := c.invoked;
    c.Close();
    afterSecondClose, open := c.invoked, c.isOpen;
  }
}
