/**
 * Collecting a stream into one in-memory buffer (`streamToBuffer`): data
 * chunks are kept in arrival order; the first end-of-stream resolves the
 * promise with their concatenation, the first error rejects it, and a
 * promise that has settled never changes.
 */
module Buffering {
  import opened Values
  import opened Streams

  type Chunk = seq<byte>

  /** What a readable stream emits. */
  datatype Event = Data(chunk: Chunk) | End | Error(error: Value)

  /** The state of the returned promise. */
  datatype Settlement = Pending | Resolved(buffer: seq<byte>) | Rejected(error: Value)

  /** `Buffer.concat(bufs)`: the chunks joined in order. */
  function Concat(bufs: seq<Chunk>): (r: seq<byte>)
    ensures bufs == [] ==> r == []
    ensures |bufs| == 1 ==> r == bufs[0]
    ensures forall i :: 0 <= i < |bufs| ==> |bufs[i]| <= |r|
  {
    if bufs == [] then [] else Concat(bufs[..|bufs| - 1]) + bufs[|bufs| - 1]
  }

  lemma {:induction false} ConcatAppend(a: seq<Chunk>, b: seq<Chunk>)
    ensures Concat(a + b) == Concat(a) + Concat(b)
    decreases |b|
  {
    if b != [] {
      var last := |b| - 1;
      assert (a + b)[..|a + b| - 1] == a + b[..last];
      ConcatAppend(a, b[..last]);
    } else {
      assert a + b == a;
    }
  }

  /** The chunks received so far and the promise's state. */
  datatype Snapshot = Snapshot(bufs: seq<Chunk>, settlement: Settlement)

  /** Before any event: nothing buffered, promise pending. */
  const Idle := Snapshot([], Pending)

  /** The handlers' reaction to one event. */
  function Step(s: Snapshot, e: Event): (t: Snapshot)
    ensures !s.settlement.Pending? ==> t.settlement == s.settlement
  {
    match e
    case Data(chunk) => s.(bufs := s.bufs + [chunk])
    case End => if s.settlement.Pending? then s.(settlement := Resolved(Concat(s.bufs))) else s
    case Error(err) => if s.settlement.Pending? then s.(settlement := Rejected(err)) else s
  }

  /** The state after a sequence of events, delivered in order. */
  function Run(s: Snapshot, events: seq<Event>): (r: Snapshot)
    ensures s.bufs <= r.bufs
    ensures r.settlement != s.settlement ==> s.settlement.Pending?
    ensures r.settlement != s.settlement && r.settlement.Resolved? ==> End in events
    ensures r.settlement != s.settlement && r.settlement.Rejected? ==> Error(r.settlement.error) in events
    decreases |events|
  {
    if events == [] then s else Step(Run(s, events[..|events| - 1]), events[|events| - 1])
  }

  /** How the promise stands after the stream emitted events. */
  function Settle(events: seq<Event>): (r: Settlement)
    ensures r.Resolved? ==> End in events
    ensures r.Rejected? ==> Error(r.error) in events
  {
    Run(Idle, events).settlement
  }

  /** A stream that emits the chunks cs, one data event each. */
  function DataEvents(cs: seq<Chunk>): (events: seq<Event>)
    ensures |events| == |cs|
    ensures forall i :: 0 <= i < |cs| ==> events[i] == Data(cs[i])
  {
    seq(|cs|, i requires 0 <= i < |cs| => Data(cs[i]))
  }

  lemma {:induction false} RunAppend(s: Snapshot, a: seq<Event>, b: seq<Event>)
    ensures Run(s, a + b) == Run(Run(s, a), b)
    decreases |b|
  {
    if b == [] {
      assert a + b == a;
    } else {
      var last := |b| - 1;
      assert (a + b)[..|a + b| - 1] == a + b[..last];
      RunAppend(s, a, b[..last]);
    }
  }

  /** Once the promise has settled, no later event changes it. */
  lemma {:induction false} RunSettledIsFinal(s: Snapshot, events: seq<Event>)
    requires !s.settlement.Pending?
    ensures Run(s, events).settlement == s.settlement
    decreases |events|
  {
    if events != [] {
      RunSettledIsFinal(s, events[..|events| - 1]);
    }
  }

  /** Data events only add their chunks, in order, and never settle the promise. */
  lemma {:induction false} DataOnly(s: Snapshot, cs: seq<Chunk>)
    ensures Run(s, DataEvents(cs)) == Snapshot(s.bufs + cs, s.settlement)
    decreases |cs|
  {
    if cs == [] {
      assert s.bufs + cs == s.bufs;
    } else {
      var last := |cs| - 1;
      assert DataEvents(cs)[..last] == DataEvents(cs[..last]);
      DataOnly(s, cs[..last]);
      assert s.bufs + cs[..last] + [cs[last]] == s.bufs + cs;
    }
  }

  /** A stream that only sends data leaves the promise pending. */
  lemma PendingWithoutSignal(cs: seq<Chunk>)
    ensures Settle(DataEvents(cs)) == Pending
  {
    DataOnly(Idle, cs);
  }

  /** Chunks then end: the promise resolves to the chunks joined in arrival order, whatever follows. */
  lemma ResolvesWithConcat(cs: seq<Chunk>, rest: seq<Event>)
    ensures Settle(DataEvents(cs) + [End] + rest) == Resolved(Concat(cs))
  {
    RunAppend(Idle, DataEvents(cs), [End]);
    RunAppend(Idle, DataEvents(cs) + [End], rest);
    DataOnly(Idle, cs);
    assert Idle.bufs + cs == cs;
    RunSettledIsFinal(Run(Idle, DataEvents(cs) + [End]), rest);
  }

  /** Chunks then an error: the promise rejects with that error and the chunks are dropped, whatever follows. */
  lemma RejectsWithError(cs: seq<Chunk>, err: Value, rest: seq<Event>)
    ensures Settle(DataEvents(cs) + [Error(err)] + rest) == Rejected(err)
  {
    RunAppend(Idle, DataEvents(cs), [Error(err)]);
    RunAppend(Idle, DataEvents(cs) + [Error(err)], rest);
    DataOnly(Idle, cs);
    RunSettledIsFinal(Run(Idle, DataEvents(cs) + [Error(err)]), rest);
  }

  /** A settled promise stays settled with the same outcome whatever the stream emits later. */
  lemma SettleIsFinal(events: seq<Event>, later: seq<Event>)
    requires Settle(events) != Pending
    ensures Settle(events + later) == Settle(events)
  {
    RunAppend(Idle, events, later);
    RunSettledIsFinal(Run(Idle, events), later);
  }

  /** How a stream cuts its bytes into chunks does not change the buffer. */
  lemma ChunkingInvariance(cs: seq<Chunk>, ds: seq<Chunk>)
    requires Concat(cs) == Concat(ds)
    ensures Settle(DataEvents(cs) + [End]) == Settle(DataEvents(ds) + [End])
  {
    ResolvesWithConcat(cs, []);
    ResolvesWithConcat(ds, []);
    assert DataEvents(cs) + [End] + [] == DataEvents(cs) + [End];
    assert DataEvents(ds) + [End] + [] == DataEvents(ds) + [End];
  }

  /**
   * The promise `streamToBuffer(source)` returns, together with the chunk
   * list its handlers share. Events arrive through OnData, OnEnd and OnError.
   */
  class StreamBuffer {
    const source: Stream
    /** Whether source was an archive already finalized when the handlers were attached. */
    ghost const sourceFinalized: bool
    var bufs: seq<Chunk>
    var settlement: Settlement

    function State(): (s: Snapshot)
      reads this
    {
      Snapshot(bufs, settlement)
    }

    constructor (source: Stream)
      ensures this.source == source
      ensures sourceFinalized == (source.Zip? && source.archive.finalized)
      ensures State() == Idle
    {
      this.source := source;
      sourceFinalized := source.Zip? && source.archive.finalized;
      bufs := [];
      settlement := Pending;
    }

    /** The 'data' handler: keeps the chunk even after the promise settled. */
    method OnData(chunk: Chunk)
      modifies this
      ensures State() == Step(old(State()), Data(chunk))
    {
      bufs := bufs + [chunk];
    }

    /** The 'end' handler: resolves with the joined chunks unless already settled. */
    method OnEnd()
      modifies this
      ensures State() == Step(old(State()), End)
    {
      if settlement.Pending? {
        settlement := Resolved(Concat(bufs));
      }
    }

    /** The 'error' handler: rejects unless already settled. */
    method OnError(err: Value)
      modifies this
      ensures State() == Step(old(State()), Error(err))
    {
      if settlement.Pending? {
        settlement := Rejected(err);
      }
    }
  }

  /** Buffers a stream that emits events, delivering them one by one to a fresh promise. */
  method BufferEvents(source: Stream, events: seq<Event>) returns (settlement: Settlement)
    ensures settlement == Settle(events)
  {
    var buffer := new StreamBuffer(source);
    for i := 0 to |events|
      invariant buffer.State() == Run(Idle, events[..i])
    {
      assert events[..i + 1][..i] == events[..i];
      match events[i]
      case Data(chunk) => buffer.OnData(chunk);
      case End => buffer.OnEnd();
      case Error(err) => buffer.OnError(err);
    }
    assert events[..|events|] == events;
    settlement := buffer.settlement;
  }
}
