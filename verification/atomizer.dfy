/** The event atomizer (src/pipes.rs, `EventAtomizer`): it wraps a sequence of
    (timestamp, event) pairs and yields one optional event per call.

    As written, the atomizer never compares a timestamp with the number of
    calls made: the `index` field is never read or advanced and the stored
    timestamp is thrown away. Call k therefore yields the k-th event of the
    sequence, and every call after the last event yields `None`. Nothing is
    dropped for having a stale or repeated timestamp. */
module Atomizer {
  import opened Events

  /** What call number `k` (counting from 0) of a fresh atomizer over `events` yields. */
  function Emit<T>(events: seq<(nat, T)>, k: nat): (r: Option<T>)
    ensures r.Some? <==> k < |events|
    ensures r.Some? ==> r.value == events[k].1
  {
    if k < |events| then Some(events[k].1) else None
  }

  /** The outputs of the first `n` calls of a fresh atomizer, in call order. */
  function Atomize<T>(events: seq<(nat, T)>, n: nat): (r: seq<Option<T>>)
    ensures |r| == n
    ensures forall k :: 0 <= k < n ==> r[k] == Emit(events, k)
    decreases n
  {
    if n == 0 then [] else Atomize(events, n - 1) + [Emit(events, n - 1)]
  }

  /** The payloads of a sequence of events, timestamps dropped. */
  function Payloads<T>(events: seq<(nat, T)>): (r: seq<T>)
    decreases |events|
  {
    if |events| == 0 then [] else Payloads(events[..|events| - 1]) + [events[|events| - 1].1]
  }

  /** The values present in a stream of optional values, in order. */
  function Present<T>(outputs: seq<Option<T>>): (r: seq<T>)
    decreases |outputs|
  {
    if |outputs| == 0 then []
    else
      var last := outputs[|outputs| - 1];
      Present(outputs[..|outputs| - 1]) + (if last.Some? then [last.value] else [])
  }

  lemma {:induction false} PayloadsAt<T>(events: seq<(nat, T)>)
    ensures |Payloads(events)| == |events|
    ensures forall k :: 0 <= k < |events| ==> Payloads(events)[k] == events[k].1
    decreases |events|
  {
    if |events| > 0 {
      PayloadsAt(events[..|events| - 1]);
    }
  }

  lemma PresentSnoc<T>(outputs: seq<Option<T>>, x: Option<T>)
    ensures Present(outputs + [x]) == Present(outputs) + (if x.Some? then [x.value] else [])
  {
    assert (outputs + [x])[..|outputs|] == outputs;
  }

  /** Each event is emitted exactly once and in the order of the sequence:
      while events remain, the values present in the first `n` outputs are
      the payloads of the first `n` events ... */
  lemma {:induction false} AtomizeEmitsPrefix<T>(events: seq<(nat, T)>, n: nat)
    requires n <= |events|
    ensures Present(Atomize(events, n)) == Payloads(events[..n])
    decreases n
  {
    if n > 0 {
      AtomizeEmitsPrefix(events, n - 1);
      PresentSnoc(Atomize(events, n - 1), Emit(events, n - 1));
      var e := events[..n];
      assert e[..n - 1] == events[..n - 1];
    }
  }

  /** ... and once the sequence is used up, every payload has been emitted
      and later calls add nothing. */
  lemma {:induction false} AtomizeEmitsAll<T>(events: seq<(nat, T)>, n: nat)
    requires n >= |events|
    ensures Present(Atomize(events, n)) == Payloads(events)
    decreases n
  {
    if n == |events| {
      AtomizeEmitsPrefix(events, n);
      assert events[..n] == events;
    } else {
      var before := Atomize(events, n - 1);
      calc {
        Present(Atomize(events, n));
        { assert Atomize(events, n) == before + [None]; }
        Present(before + [None]);
        { PresentSnoc(before, None); }
        Present(before);
        { AtomizeEmitsAll(events, n - 1); }
        Payloads(events);
      }
    }
  }

  /** The timestamps are never consulted: two sequences with the same payloads
      give the same outputs, call for call. */
  lemma {:induction false} AtomizeIgnoresTimestamps<T>(e1: seq<(nat, T)>, e2: seq<(nat, T)>, n: nat)
    requires Payloads(e1) == Payloads(e2)
    ensures Atomize(e1, n) == Atomize(e2, n)
  {
    PayloadsAt(e1);
    PayloadsAt(e2);
    forall k | 0 <= k < n
      ensures Atomize(e1, n)[k] == Atomize(e2, n)[k]
    {
      if k < |e1| {
        assert Payloads(e1)[k] == Payloads(e2)[k];
      }
    }
  }

  /** Events at timestamps 4 and 10 come out on calls 0 and 1, not on calls 4
      and 10; events that share or go back on a timestamp are all kept. */
  lemma AtomizerExamples()
    ensures var out := Atomize([(4, 1), (10, 5)], 15);
              out[0] == Some(1) && out[1] == Some(5) && out[4] == None && out[10] == None
    ensures Atomize([(3, 'a'), (3, 'b'), (1, 'c')], 4) == [Some('a'), Some('b'), Some('c'), None]
  {
    var out := Atomize([(3, 'a'), (3, 'b'), (1, 'c')], 4);
    assert out[0] == Some('a') && out[1] == Some('b') && out[2] == Some('c') && out[3] == None;
  }

  /** `EventAtomizer`: the source sequence with its read position, the one
      pending event, and the (unused) frame counter. */
  class EventAtomizer<T> {
    const sequence: seq<(nat, T)>
    var position: nat
    var nextEvent: Option<(nat, T)>
    var index: nat
    /** How many times `Next` has been called. */
    ghost var calls: nat

    ghost predicate Valid()
      reads this
    {
      && index == 0
      && (calls < |sequence| ==> nextEvent == Some(sequence[calls]) && position == calls + 1)
      && (calls >= |sequence| ==> nextEvent == None && position == |sequence|)
    }

    /** `EventAtomizer::new`: prime the pending slot with the first event. */
    constructor (sequence: seq<(nat, T)>)
      ensures Valid()
      ensures this.sequence == sequence && calls == 0
    {
      this.sequence := sequence;
      position := 0;
      nextEvent := None;
      index := 0;
      calls := 0;
      new;
      RetrieveNextEvent();
    }

    /** Empty the pending slot, then refill it from the source if it has more. */
    method RetrieveNextEvent()
      modifies this`nextEvent, this`position
      ensures old(position) < |sequence| ==>
                nextEvent == Some(sequence[old(position)]) && position == old(position) + 1
      ensures old(position) >= |sequence| ==> nextEvent == None && position == old(position)
    {
      nextEvent := None;
      if position < |sequence| {
        nextEvent := Some(sequence[position]);
        position := position + 1;
      }
    }

    /** `Pipe::next`: yield the pending event's payload, if any, and refill. */
    method Next() returns (r: Option<T>)
      requires Valid()
      modifies this`nextEvent, this`position, this`calls
      ensures Valid() && calls == old(calls) + 1
      ensures old(calls) < |sequence| ==> r == Some(sequence[old(calls)].1)
      ensures old(calls) >= |sequence| ==> r == None
    {
      match nextEvent {
        case Some(pending) =>
          RetrieveNextEvent();
          r := Some(pending.1);
        case None =>
          r := None;
      }
      calls := calls + 1;
    }
  }
}
