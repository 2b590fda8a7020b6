/**
 * The flow combinators (pkg/pipeline/flow). Each Transform reads its input
 * channel to exhaustion, pushes what it forwards onto a new output channel
 * and reports item failures on the event channel, then closes the output.
 * Seen sequentially, the input and output channels of Filter, Map and
 * FilterMap are the sequences of items that pass through them, and
 * `emitted` is what the stage sent on the event channel; Buffer and
 * Passthrough, whose point is the output channel itself, push onto a
 * Channel that a reader drains. Each Transform is a loop proved equal to a
 * specification function; the properties the package promises are lemmas
 * about those functions.
 */
module Flow {
  import opened Wrappers
  import opened Channels
  import opened Events

  // ================================================================= Filter

  const NilPredicateMsg: string := "predicate func is nil"
  const NilTransformMsg: string := "transform func is nil"

  datatype Filter<!I> = Filter(pred: I -> bool)

  /** NewFilter: a nil predicate fails construction; otherwise it is stored. */
  function NewFilter<I>(pred: Option<I -> bool>): (r: Result<Filter<I>, string>)
    ensures r.Failure? <==> pred == None
    ensures r.Failure? ==> r.error == NilPredicateMsg
    ensures r.Success? ==> r.value.pred == pred.value
  {
    match pred
    case None => Failure(NilPredicateMsg)
    case Some(p) => Success(Filter(p))
  }

  /** The items of s satisfying p, in order; built from the end to follow the loop. */
  function Filtered<I>(p: I -> bool, s: seq<I>): seq<I>
  {
    if s == [] then []
    else Filtered(p, s[..|s| - 1]) + (if p(s[|s| - 1]) then [s[|s| - 1]] else [])
  }

  /** Filter.Transform: forwards exactly the items satisfying the predicate and emits no event. */
  method FilterTransform<I>(f: Filter<I>, input: seq<I>) returns (output: seq<I>, emitted: seq<Event>)
    ensures output == Filtered(f.pred, input)
    ensures emitted == []
  {
    output, emitted := [], [];
    for i := 0 to |input|
      invariant output == Filtered(f.pred, input[..i])
    {
      assert input[..i + 1][..i] == input[..i];
      if f.pred(input[i]) {
        output := output + [input[i]];
      }
    }
    assert input[..|input|] == input;
  }

  /** Filtering distributes over concatenation: surviving items keep their relative order. */
  lemma {:induction false} FilteredAppend<I>(p: I -> bool, a: seq<I>, b: seq<I>)
    ensures Filtered(p, a + b) == Filtered(p, a) + Filtered(p, b)
    decreases |b|
  {
    if b == [] {
      assert a + b == a;
    } else {
      var b' := b[..|b| - 1];
      assert (a + b)[..|a + b| - 1] == a + b';
      FilteredAppend(p, a, b');
    }
  }

  /** Every output item satisfies p; the output is never longer than the input. */
  lemma {:induction false} FilteredSound<I>(p: I -> bool, s: seq<I>)
    ensures |Filtered(p, s)| <= |s|
    ensures forall x :: x in Filtered(p, s) ==> p(x) && x in s
  {
    if s != [] {
      FilteredSound(p, s[..|s| - 1]);
    }
  }

  /** Nothing is lost but what p rejects: each item occurs as often as in the input if p holds, else never. */
  lemma {:induction false} FilteredCounts<I>(p: I -> bool, s: seq<I>, x: I)
    ensures multiset(Filtered(p, s))[x] == if p(x) then multiset(s)[x] else 0
  {
    if s != [] {
      var s' := s[..|s| - 1];
      FilteredCounts(p, s', x);
      assert s == s' + [s[|s| - 1]];
    }
  }

  /** An item is forwarded iff it is in the input and satisfies p. */
  lemma FilteredMembership<I>(p: I -> bool, s: seq<I>, x: I)
    ensures x in Filtered(p, s) <==> x in s && p(x)
  {
    FilteredCounts(p, s, x);
    assert x in Filtered(p, s) <==> multiset(Filtered(p, s))[x] > 0;
  }

  /** Filtering the output again with the same predicate changes nothing. */
  lemma {:induction false} FilteredIdempotent<I>(p: I -> bool, s: seq<I>)
    ensures Filtered(p, Filtered(p, s)) == Filtered(p, s)
  {
    if s != [] {
      var s' := s[..|s| - 1];
      var last := s[|s| - 1];
      FilteredIdempotent(p, s');
      var tail := if p(last) then [last] else [];
      FilteredAppend(p, Filtered(p, s'), tail);
      assert Filtered(p, tail) == tail by {
        if p(last) {
          assert tail[..0] == [];
        }
      }
    }
  }

  /** A predicate that accepts everything forwards the input unchanged. */
  lemma {:induction false} FilteredAll<I>(p: I -> bool, s: seq<I>)
    requires forall x :: x in s ==> p(x)
    ensures Filtered(p, s) == s
  {
    if s != [] {
      var s', last := s[..|s| - 1], s[|s| - 1];
      assert s == s' + [last];
      FilteredAll(p, s');
      assert p(last);
    }
  }

  /** The package test: Filter(even) over [1,2,3,4] yields [2,4]. */
  lemma FilterEvenExample()
    ensures Filtered((n: int) => n % 2 == 0, [1, 2, 3, 4]) == [2, 4]
  {
    var even := (n: int) => n % 2 == 0;
    assert [1, 2, 3, 4][..3] == [1, 2, 3];
    assert [1, 2, 3][..2] == [1, 2];
    assert [1, 2][..1] == [1];
    assert [1][..0] == [];
  }

  // ==================================================================== Map

  /** MapFunc[I, O]: a transform that yields a value or an error (its message). */
  type MapFunc<!I, O> = I -> Result<O, string>

  const MapErrorMsg: string := "map transform error"

  datatype Map<!I, O> = Map(transform: MapFunc<I, O>)

  /** NewMap: a nil transform fails construction and yields no Map. */
  function NewMap<I, O>(transform: Option<MapFunc<I, O>>): (r: Result<Map<I, O>, string>)
    ensures r.Failure? <==> transform == None
    ensures r.Failure? ==> r.error == NilTransformMsg
    ensures r.Success? ==> r.value.transform == transform.value
  {
    match transform
    case None => Failure(NilTransformMsg)
    case Some(t) => Success(Map(t))
  }

  /** The successful transforms of s, in order; failing items are dropped. */
  function Mapped<I, O>(f: MapFunc<I, O>, s: seq<I>): seq<O>
  {
    if s == [] then []
    else Mapped(f, s[..|s| - 1]) + (match f(s[|s| - 1]) case Success(v) => [v] case Failure(_) => [])
  }

  /** One temporary error event per failing item of s, in order, carrying its error as cause. */
  function TransformErrors<I, O>(f: MapFunc<I, O>, s: seq<I>, msg: string): seq<Event>
  {
    if s == [] then []
    else TransformErrors(f, s[..|s| - 1], msg)
         + (match f(s[|s| - 1]) case Success(_) => [] case Failure(err) => [NewErrorEvent(msg, Some(err), true)])
  }

  /** Map.Transform: forwards each successful transform and reports each failure as an error event. */
  method MapTransform<I, O>(m: Map<I, O>, input: seq<I>) returns (output: seq<O>, emitted: seq<Event>)
    ensures output == Mapped(m.transform, input)
    ensures emitted == TransformErrors(m.transform, input, MapErrorMsg)
  {
    output, emitted := [], [];
    for i := 0 to |input|
      invariant output == Mapped(m.transform, input[..i])
      invariant emitted == TransformErrors(m.transform, input[..i], MapErrorMsg)
    {
      assert input[..i + 1][..i] == input[..i];
      var r := m.transform(input[i]);
      if r.Failure? {
        emitted := emitted + [NewErrorEvent(MapErrorMsg, Some(r.error), true)];
        continue;
      }
      output := output + [r.value];
    }
    assert input[..|input|] == input;
  }

  /** Conservation: every input item becomes exactly one output or exactly one error event. */
  lemma {:induction false} MappedConserves<I, O>(f: MapFunc<I, O>, s: seq<I>, msg: string)
    ensures |Mapped(f, s)| + |TransformErrors(f, s, msg)| == |s|
  {
    if s != [] {
      MappedConserves(f, s[..|s| - 1], msg);
    }
  }

  /** A transform that never fails is applied elementwise: same length, same order. */
  lemma {:induction false} MappedTotal<I, O>(f: MapFunc<I, O>, s: seq<I>, msg: string)
    requires forall x :: x in s ==> f(x).Success?
    ensures |Mapped(f, s)| == |s|
    ensures forall k :: 0 <= k < |s| ==> Mapped(f, s)[k] == f(s[k]).value
    ensures TransformErrors(f, s, msg) == []
  {
    if s != [] {
      var s' := s[..|s| - 1];
      MappedTotal(f, s', msg);
      assert forall k :: 0 <= k < |s'| ==> s'[k] == s[k];
    }
  }

  /** Mapping distributes over concatenation: successful outputs keep their inputs' order. */
  lemma {:induction false} MappedAppend<I, O>(f: MapFunc<I, O>, a: seq<I>, b: seq<I>, msg: string)
    ensures Mapped(f, a + b) == Mapped(f, a) + Mapped(f, b)
    ensures TransformErrors(f, a + b, msg) == TransformErrors(f, a, msg) + TransformErrors(f, b, msg)
    decreases |b|
  {
    if b == [] {
      assert a + b == a;
    } else {
      var b' := b[..|b| - 1];
      assert (a + b)[..|a + b| - 1] == a + b';
      MappedAppend(f, a, b', msg);
    }
  }

  /**
   * Every output is the successful transform of some input, and every event
   * is a temporary error event with the given message whose cause is the
   * error some input's transform returned.
   */
  lemma {:induction false} MappedProvenance<I, O>(f: MapFunc<I, O>, s: seq<I>, msg: string)
    ensures forall v :: v in Mapped(f, s) ==> exists x :: x in s && f(x) == Success(v)
    ensures forall e :: e in TransformErrors(f, s, msg) ==>
              e.Error? && e.msg == msg && e.temporary && e.cause.Some? &&
              exists x :: x in s && f(x) == Failure(e.cause.value)
  {
    if s != [] {
      var s' := s[..|s| - 1];
      MappedProvenance(f, s', msg);
      assert forall x :: x in s' ==> x in s;
    }
  }

  /** Decimal digits of n: the strconv.Itoa the package tests map with. */
  function Itoa(n: nat): (r: string)
    ensures |r| >= 1
    decreases n
  {
    var digit := ['0', '1', '2', '3', '4', '5', '6', '7', '8', '9'][n % 10];
    if n < 10 then [digit] else Itoa(n / 10) + [digit]
  }

  /** The package test: Map(itoa) over [1,2,3] yields ["1","2","3"] and no event. */
  lemma MapItoaExample()
    ensures Mapped((n: nat) => Success(Itoa(n)), [1, 2, 3]) == ["1", "2", "3"]
    ensures TransformErrors((n: nat) => Success(Itoa(n)), [1, 2, 3], MapErrorMsg) == []
  {
    var f: MapFunc<nat, string> := (n: nat) => Success(Itoa(n));
    MappedTotal(f, [1, 2, 3], MapErrorMsg);
  }

  // ============================================================== FilterMap

  const FilterMapErrorMsg: string := "filtermap error transforming data"

  datatype FilterMap<!I, O> = FilterMap(pred: I -> bool, transform: MapFunc<I, O>)

  /** NewFilterMap: a nil predicate fails first, then a nil transform. */
  function NewFilterMap<I, O>(pred: Option<I -> bool>, transform: Option<MapFunc<I, O>>)
    : (r: Result<FilterMap<I, O>, string>)
    ensures r.Success? <==> pred.Some? && transform.Some?
    ensures pred == None ==> r == Failure(NilPredicateMsg)
    ensures pred.Some? && transform == None ==> r == Failure(NilTransformMsg)
    ensures r.Success? ==> r.value.pred == pred.value && r.value.transform == transform.value
  {
    if pred == None then Failure(NilPredicateMsg)
    else if transform == None then Failure(NilTransformMsg)
    else Success(FilterMap(pred.value, transform.value))
  }

  /**
   * FilterMap.Transform, in one pass: an item failing the predicate is dropped
   * silently; a passing item is forwarded if its transform succeeds and
   * reported as an error event otherwise. The result is Map applied to the
   * Filter output, with FilterMap's own error message.
   */
  method FilterMapTransform<I, O>(fm: FilterMap<I, O>, input: seq<I>) returns (output: seq<O>, emitted: seq<Event>)
    ensures output == Mapped(fm.transform, Filtered(fm.pred, input))
    ensures emitted == TransformErrors(fm.transform, Filtered(fm.pred, input), FilterMapErrorMsg)
  {
    output, emitted := [], [];
    for i := 0 to |input|
      invariant output == Mapped(fm.transform, Filtered(fm.pred, input[..i]))
      invariant emitted == TransformErrors(fm.transform, Filtered(fm.pred, input[..i]), FilterMapErrorMsg)
    {
      assert input[..i + 1][..i] == input[..i];
      ghost var passed := Filtered(fm.pred, input[..i]);
      if fm.pred(input[i]) {
        assert Filtered(fm.pred, input[..i + 1]) == passed + [input[i]];
        assert (passed + [input[i]])[..|passed|] == passed;
        var r := fm.transform(input[i]);
        if r.Failure? {
          emitted := emitted + [NewErrorEvent(FilterMapErrorMsg, Some(r.error), true)];
        } else {
          output := output + [r.value];
        }
      } else {
        assert Filtered(fm.pred, input[..i + 1]) == passed;
      }
    }
    assert input[..|input|] == input;
  }

  /** FilterMap conservation: outputs plus error events account for exactly the items passing the predicate. */
  lemma FilterMapConserves<I, O>(fm: FilterMap<I, O>, s: seq<I>)
    ensures |Mapped(fm.transform, Filtered(fm.pred, s))|
            + |TransformErrors(fm.transform, Filtered(fm.pred, s), FilterMapErrorMsg)|
            == |Filtered(fm.pred, s)| <= |s|
  {
    MappedConserves(fm.transform, Filtered(fm.pred, s), FilterMapErrorMsg);
    FilteredSound(fm.pred, s);
  }

  /**
   * Map is FilterMap with a predicate that accepts everything: the same
   * output, and as many error events (they differ only in their message).
   */
  lemma MapIsFilterMapOfTrue<I, O>(f: MapFunc<I, O>, s: seq<I>)
    ensures Mapped(f, Filtered((x: I) => true, s)) == Mapped(f, s)
    ensures |TransformErrors(f, Filtered((x: I) => true, s), FilterMapErrorMsg)| == |TransformErrors(f, s, MapErrorMsg)|
  {
    FilteredAll((x: I) => true, s);
    MappedConserves(f, s, FilterMapErrorMsg);
    MappedConserves(f, s, MapErrorMsg);
  }

  predicate Even(n: nat)
  {
    n % 2 == 0
  }

  /** The items of [1..5] passing the even predicate of the FilterMap test. */
  lemma FilterEvenFive()
    ensures Filtered(Even, [1, 2, 3, 4, 5]) == [2, 4]
  {
    var s: seq<nat> := [1, 2, 3, 4, 5];
    assert s[..5] == s;
    assert forall k :: 0 <= k < 5 ==> s[..k + 1][..k] == s[..k];
    assert Filtered(Even, s[..1]) == [];
    assert Filtered(Even, s[..2]) == [2];
    assert Filtered(Even, s[..3]) == [2];
    assert Filtered(Even, s[..4]) == [2, 4];
  }

  /** The package test: FilterMap(even, itoa) over [1..5] yields ["2","4"]. */
  lemma FilterMapExample()
    ensures Mapped((n: nat) => Success(Itoa(n)), Filtered(Even, [1, 2, 3, 4, 5])) == ["2", "4"]
  {
    FilterEvenFive();
    var f: MapFunc<nat, string> := (n: nat) => Success(Itoa(n));
    MappedTotal(f, [2, 4], FilterMapErrorMsg);
    assert Itoa(2) == "2" && Itoa(4) == "4";
  }

  // ================================================================= Buffer

  type Positive = n: int | n >= 1 witness 1

  /** Buffer carries only the capacity of the output channel it creates. */
  datatype Buffer = Buffer(size: Positive)

  /** NewBuffer: a size of zero or less is coerced to 1; any other size is kept. */
  function NewBuffer(size: int): (b: Buffer)
    ensures size > 0 ==> b.size == size
    ensures size <= 0 ==> b.size == 1
  {
    if size <= 0 then Buffer(1) else Buffer(size)
  }

  /** A Buffer asked for a size of zero or less is the Buffer of size 1. */
  lemma NewBufferCoerces(size: int)
    requires size <= 0
    ensures NewBuffer(size) == NewBuffer(1)
  {
  }

  /**
   * Buffer.Transform against a reader that runs at its own pace. Before the
   * k-th item is pushed the reader takes up to schedule[k] items from the
   * output channel (none when the schedule is shorter); a push to a full
   * channel waits, which is modelled by the reader taking one more item
   * first. After the input is exhausted the output is closed and the
   * reader drains it. Whatever the schedule, the reader receives exactly
   * the input, and the channel, of capacity size, never holds more.
   */
  method BufferTransform<I>(b: Buffer, input: seq<I>, schedule: seq<nat>)
    returns (out: Channel<I>, emitted: seq<Event>)
    ensures fresh(out) && out.Valid() && out.capacity == b.size
    ensures out.closed && out.buffer == [] && out.received == input
    ensures emitted == []
  {
    out := new Channel<I>(b.size);
    emitted := [];
    for i := 0 to |input|
      invariant out.Valid() && !out.closed && out.capacity == b.size && out.waiting == 0
      invariant out.Sent() == input[..i]
    {
      var take := if i < |schedule| then schedule[i] else 0;
      var j := 0;
      while j < take && out.buffer != []
        invariant j <= take
        invariant out.Valid() && !out.closed && out.capacity == b.size && out.waiting == 0
        invariant out.Sent() == input[..i]
        decreases take - j
      {
        var _ := out.Receive();
        j := j + 1;
      }
      if !out.Ready() {
        var _ := out.Receive();
      }
      out.Send(input[i]);
      assert input[..i + 1] == input[..i] + [input[i]];
    }
    assert input[..|input|] == input;
    out.Close();
    while out.buffer != []
      invariant out.Valid() && out.closed && out.Sent() == input
      decreases |out.buffer|
    {
      var _ := out.Receive();
    }
  }

  // ============================================================ Passthrough

  /** Passthrough holds no state. */
  datatype Passthrough = Passthrough

  function NewPassthrough(): Passthrough
  {
    Passthrough
  }

  /**
   * Passthrough.Transform: the output channel is unbuffered, so each push
   * completes only once the reader is waiting for it and hands the item
   * straight over; nothing is ever queued, and after the input is
   * exhausted the output is closed. The reader receives exactly the input.
   */
  method PassthroughTransform<I>(pt: Passthrough, input: seq<I>) returns (out: Channel<I>, emitted: seq<Event>)
    ensures fresh(out) && out.Valid() && out.capacity == 0
    ensures out.closed && out.buffer == [] && out.received == input
    ensures emitted == []
  {
    out := new Channel<I>(0);
    emitted := [];
    for i := 0 to |input|
      invariant out.Valid() && !out.closed && out.capacity == 0 && out.waiting == 0
      invariant out.buffer == [] && out.received == input[..i]
    {
      out.Await();
      out.Send(input[i]);
      assert input[..i + 1] == input[..i] + [input[i]];
    }
    assert input[..|input|] == input;
    out.Close();
  }
}
