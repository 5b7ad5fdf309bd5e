/** The reader's frame batches (`reader_frame_batch_size`) change nothing but when the reader yields. */
module H2Batching {
  import opened Bytes
  import opened Optional
  import opened FrameBudgetSplitter
  import opened H2State
  import opened H2Invariant
  import opened H2Safety
  import opened H2Operations
  import opened H2Runs

  /** What the connection loop has after one received chunk of bytes: cancellations collected in order. */
  datatype Reading<E> =
    | Stopped(s: H2<E>, cancelled: seq<int>)
    | Finished(frames: Splitter, s: H2<E>, cancelled: seq<int>, requests: seq<Ready>)

  /** One turn of the loop: `receive_data`, then `take_cancelled_streams`; again with no data while frames are left. */
  function ReadOn<E>(ops: Ops<E>, cfg: Config, batch: nat, frames: Splitter, s: H2<E>, cancelled: seq<int>): Reading<E>
    requires batch > 0
    decreases |frames.ready|
  {
    match ReceiveBatch(ops, cfg, batch, frames, s, [])
    case Failed(t) => Stopped(t.(cancelled := []), cancelled + t.cancelled)
    case Read(left, t, requests) =>
      var taken := cancelled + t.cancelled;
      if left.ready != [] then ReadOn(ops, cfg, batch, left, t.(cancelled := []), taken)
      else Finished(left, t.(cancelled := []), taken, requests)
  }

  /** The reader loop for one chunk of received bytes (`smallserver/app.py`, the inner loop of the reader). */
  function ReadInBatches<E>(ops: Ops<E>, cfg: Config, batch: nat, frames: Splitter, s: H2<E>, data: bytes): Reading<E>
    requires batch > 0
  {
    match ReceiveBatch(ops, cfg, batch, frames, s, data)
    case Failed(t) => Stopped(t.(cancelled := []), t.cancelled)
    case Read(left, t, requests) =>
      if left.ready != [] then ReadOn(ops, cfg, batch, left, t.(cancelled := []), t.cancelled)
      else Finished(left, t.(cancelled := []), t.cancelled, requests)
  }

  /** The same bytes with every frame handled at once. */
  function ReadAtOnce<E>(ops: Ops<E>, cfg: Config, frames: Splitter, s: H2<E>, data: bytes): Reading<E>
  {
    match Absorb(cfg.limits, frames, data)
    case None => Stopped(s.(cancelled := []), s.cancelled)
    case Some(fed) => AllOf(ops, cfg, fed, s, [])
  }

  function AllOf<E>(ops: Ops<E>, cfg: Config, frames: Splitter, s: H2<E>, cancelled: seq<int>): Reading<E>
  {
    match ReadChunks(ops, cfg, s, frames.ready)
    case Raised(t) => Stopped(t.(cancelled := []), cancelled + t.cancelled)
    case Ok(t) => Finished(frames.(ready := []), t.(ready := [], cancelled := []), cancelled + t.cancelled, t.ready)
  }

  // ---------------------------------------------------------------- cancellations are write-only

  /** The state with earlier cancellations not yet taken. */
  function Untaken<E>(c: seq<int>, s: H2<E>): H2<E>
  {
    s.(cancelled := c + s.cancelled)
  }

  function UntakenOutcome<E>(c: seq<int>, r: Outcome<H2<E>>): Outcome<H2<E>>
  {
    match r
    case Ok(s) => Ok(Untaken(c, s))
    case Raised(s) => Raised(Untaken(c, s))
  }

  lemma ResetUntaken<E>(ops: Ops<E>, c: seq<int>, s: H2<E>, id: int, code: ErrorCode)
    ensures ResetStream(ops, Untaken(c, s), id, code) == Untaken(c, ResetStream(ops, s, id, code))
  {
  }

  lemma RequestUntaken<E>(ops: Ops<E>, cfg: Config, c: seq<int>, s: H2<E>, id: int, head: Option<Head>)
    ensures RequestArrived(ops, cfg, Untaken(c, s), id, head) == Untaken(c, RequestArrived(ops, cfg, s, id, head))
  {
    ResetUntaken(ops, c, s, id, RefusedStream);
    ResetUntaken(ops, c, s, id, ProtocolError);
  }

  lemma ChargeUntaken<E>(ops: Ops<E>, cfg: Config, c: seq<int>, s: H2<E>, id: int, data: bytes)
    ensures ChargeData(ops, cfg, Untaken(c, s), id, data) == Untaken(c, ChargeData(ops, cfg, s, id, data))
  {
    ResetUntaken(ops, c, s, id, EnhanceYourCalm);
    ResetUntaken(ops, c, s, id, StreamClosed);
  }

  lemma DataUntaken<E>(ops: Ops<E>, cfg: Config, c: seq<int>, s: H2<E>, id: int, data: bytes, flow: nat)
    ensures DataArrived(ops, cfg, Untaken(c, s), id, data, flow) == UntakenOutcome(c, DataArrived(ops, cfg, s, id, data, flow))
  {
    var u := s.(conn := ops.acknowledge(s.conn, id, flow).0, log := s.log + [Got(DataReceived(id, data, flow))]);
    ChargeUntaken(ops, cfg, c, u, id, data);
  }

  lemma FinishUntaken<E>(ops: Ops<E>, c: seq<int>, s: H2<E>, id: int)
    ensures StreamFinished(ops, Untaken(c, s), id) == Untaken(c, StreamFinished(ops, s, id))
  {
    ResetUntaken(ops, c, s, id, ProtocolError);
  }

  lemma CancelUntaken<E>(c: seq<int>, s: H2<E>, id: int)
    ensures DropStream(Untaken(c, s).(cancelled := Untaken(c, s).cancelled + [id]), id)
            == Untaken(c, DropStream(s.(cancelled := s.cancelled + [id]), id))
  {
    assert c + (s.cancelled + [id]) == c + s.cancelled + [id];
  }

  lemma EventUntaken<E>(ops: Ops<E>, cfg: Config, c: seq<int>, s: H2<E>, e: Event)
    ensures HandleEvent(ops, cfg, Untaken(c, s), e) == UntakenOutcome(c, HandleEvent(ops, cfg, s, e))
  {
    var t := s.(log := s.log + [Got(e)]);
    match e
    case RequestReceived(id, head) => RequestUntaken(ops, cfg, c, t, id, head);
    case DataReceived(id, data, flow) => DataUntaken(ops, cfg, c, s, id, data, flow);
    case StreamEnded(id) => FinishUntaken(ops, c, t, id);
    case StreamReset(id) => CancelUntaken(c, t, id);
    case TrailersReceived(id) => ResetUntaken(ops, c, t, id, ProtocolError);
    case ConnectionTerminated =>
    case WindowOrSettings =>
  }

  lemma {:induction false} EventsUntaken<E>(ops: Ops<E>, cfg: Config, c: seq<int>, s: H2<E>, es: seq<Event>)
    ensures HandleEvents(ops, cfg, Untaken(c, s), es) == UntakenOutcome(c, HandleEvents(ops, cfg, s, es))
    decreases |es|
  {
    if es != [] {
      EventUntaken(ops, cfg, c, s, es[0]);
      var t := HandleEvent(ops, cfg, s, es[0]);
      if t.Ok? {
        EventsUntaken(ops, cfg, c, t.s, es[1..]);
      }
    }
  }

  lemma ChunkUntaken<E>(ops: Ops<E>, cfg: Config, c: seq<int>, s: H2<E>, chunk: bytes)
    ensures ReadChunk(ops, cfg, Untaken(c, s), chunk) == UntakenOutcome(c, ReadChunk(ops, cfg, s, chunk))
  {
    var (e, events) := ops.receive(s.conn, chunk);
    if events.Some? {
      EventsUntaken(ops, cfg, c, s.(conn := e, log := s.log + [Given(chunk)]), events.value);
    }
  }

  lemma {:induction false} ChunksUntaken<E>(ops: Ops<E>, cfg: Config, c: seq<int>, s: H2<E>, chunks: seq<bytes>)
    ensures ReadChunks(ops, cfg, Untaken(c, s), chunks) == UntakenOutcome(c, ReadChunks(ops, cfg, s, chunks))
    decreases |chunks|
  {
    if chunks != [] {
      ChunkUntaken(ops, cfg, c, s, chunks[0]);
      var t := ReadChunk(ops, cfg, s, chunks[0]);
      if t.Ok? {
        ChunksUntaken(ops, cfg, c, t.s, chunks[1..]);
      }
    }
  }

  // ---------------------------------------------------------------- batches compose

  lemma {:induction false} ChunksCompose<E>(ops: Ops<E>, cfg: Config, s: H2<E>, a: seq<bytes>, b: seq<bytes>)
    ensures ReadChunks(ops, cfg, s, a + b) ==
            match ReadChunks(ops, cfg, s, a)
            case Raised(t) => Raised(t)
            case Ok(t) => ReadChunks(ops, cfg, t, b)
    decreases |a|
  {
    if a == [] {
      assert a + b == b;
    } else {
      assert (a + b)[1..] == a[1..] + b;
      var t := ReadChunk(ops, cfg, s, a[0]);
      if t.Ok? {
        ChunksCompose(ops, cfg, t.s, a[1..], b);
      }
    }
  }

  /** Reading the first n chunks, taking the cancellations, and reading the rest is reading them all. */
  lemma SplitOff<E>(ops: Ops<E>, cfg: Config, frames: Splitter, s: H2<E>, n: nat, cancelled: seq<int>)
    requires n <= |frames.ready|
    ensures AllOf(ops, cfg, frames, s, cancelled) ==
            match ReadChunks(ops, cfg, s, frames.ready[..n])
            case Raised(t) => Stopped(t.(cancelled := []), cancelled + t.cancelled)
            case Ok(t) =>
              AllOf(ops, cfg, frames.(ready := frames.ready[n..]), t.(cancelled := []), cancelled + t.cancelled)
  {
    var a, b := frames.ready[..n], frames.ready[n..];
    assert a + b == frames.ready;
    ChunksCompose(ops, cfg, s, a, b);
    var r := ReadChunks(ops, cfg, s, a);
    if r.Ok? {
      var clean := r.s.(cancelled := []);
      assert Untaken(r.s.cancelled, clean) == r.s by {
        assert r.s.cancelled + [] == r.s.cancelled;
      }
      ChunksUntaken(ops, cfg, r.s.cancelled, clean, b);
      var rest := ReadChunks(ops, cfg, clean, b);
      assert cancelled + (r.s.cancelled + rest.s.cancelled) == cancelled + r.s.cancelled + rest.s.cancelled;
    }
  }

  /** One batch that ends the input hands out the whole ready list: the filters have nothing to remove. */
  lemma LastBatch<E(!new)>(ops: Ops<E>, cfg: Config, s: H2<E>, g: Story, chunks: seq<bytes>)
    requires Lawful(ops) && Inv(cfg, s, g) && Synced(ops, s.conn, g)
    ensures var t := ReadChunks(ops, cfg, s, chunks);
            t.Ok? ==> Deliverable(t.s, t.s.ready) == t.s.ready
  {
    var h := ReadChunksInv(ops, cfg, s, g, chunks);
    var t := ReadChunks(ops, cfg, s, chunks);
    if t.Ok? {
      ReadyIsDeliverable(cfg, t.s, h);
    }
  }

  lemma NothingLeft<E>(ops: Ops<E>, cfg: Config, frames: Splitter, s: H2<E>, cancelled: seq<int>)
    requires frames.ready == []
    ensures AllOf(ops, cfg, frames, s.(cancelled := []), cancelled)
            == Finished(frames, s.(ready := [], cancelled := []), cancelled, s.ready)
  {
    assert cancelled + [] == cancelled;
  }

  /** One batch, when the filters remove nothing and what follows it already agrees. */
  lemma BatchThenRest<E>(ops: Ops<E>, cfg: Config, batch: nat, frames: Splitter, s: H2<E>, cancelled: seq<int>)
    requires batch > 0
    requires var r := ReadChunks(ops, cfg, s, frames.ready[..Min(batch, |frames.ready|)]);
             r.Ok? ==> Deliverable(r.s, r.s.ready) == r.s.ready
    requires var n := Min(batch, |frames.ready|);
             var r := ReadChunks(ops, cfg, s, frames.ready[..n]);
             var left := frames.(ready := frames.ready[n..]);
             r.Ok? && left.ready != [] ==>
               ReadOn(ops, cfg, batch, left, r.s.(cancelled := []), cancelled + r.s.cancelled)
               == AllOf(ops, cfg, left, r.s.(cancelled := []), cancelled + r.s.cancelled)
    ensures ReadOn(ops, cfg, batch, frames, s, cancelled) == AllOf(ops, cfg, frames, s, cancelled)
  {
    var n := Min(batch, |frames.ready|);
    var r := ReadChunks(ops, cfg, s, frames.ready[..n]);
    SplitOff(ops, cfg, frames, s, n, cancelled);
    if r.Ok? && n == |frames.ready| {
      NothingLeft(ops, cfg, frames.(ready := []), r.s, cancelled + r.s.cancelled);
    }
  }

  lemma {:induction false} ReadOnIsAllOf<E(!new)>(ops: Ops<E>, cfg: Config, batch: nat, frames: Splitter, s: H2<E>, g: Story,
                                                  cancelled: seq<int>)
    requires batch > 0 && Lawful(ops) && Inv(cfg, s, g) && Synced(ops, s.conn, g)
    ensures ReadOn(ops, cfg, batch, frames, s, cancelled) == AllOf(ops, cfg, frames, s, cancelled)
    decreases |frames.ready|
  {
    var n := Min(batch, |frames.ready|);
    var r := ReadChunks(ops, cfg, s, frames.ready[..n]);
    LastBatch(ops, cfg, s, g, frames.ready[..n]);
    if r.Ok? && n < |frames.ready| {
      var left := frames.(ready := frames.ready[n..]);
      var h := ReadChunksInv(ops, cfg, s, g, frames.ready[..n]);
      TakeCancelledInv(cfg, r.s, h);
      ReadOnIsAllOf(ops, cfg, batch, left, r.s.(cancelled := []), h, cancelled + r.s.cancelled);
    }
    BatchThenRest(ops, cfg, batch, frames, s, cancelled);
  }

  /**
   Batching is invisible.  For every batch size of at least one, the reader loop ends with the same
   protocol state, the same cancellations in the same order and the same requests in the same order as
   handling every frame at once; and it stops with an exception in the same state.
   */
  lemma BatchingIsInvisible<E(!new)>(ops: Ops<E>, cfg: Config, batch: nat, frames: Splitter, s: H2<E>, g: Story, data: bytes)
    requires batch > 0 && Lawful(ops) && Inv(cfg, s, g) && Synced(ops, s.conn, g)
    ensures ReadInBatches(ops, cfg, batch, frames, s, data) == ReadAtOnce(ops, cfg, frames, s, data)
  {
    match Absorb(cfg.limits, frames, data)
    case None =>
    case Some(fed) =>
      ReadOnIsAllOf(ops, cfg, batch, fed, s, g, []);
      assert Absorb(cfg.limits, fed, []) == Some(fed);
      assert ReceiveBatch(ops, cfg, batch, frames, s, data) == ReceiveBatch(ops, cfg, batch, fed, s, []);
      var t := ReceiveBatch(ops, cfg, batch, fed, s, []).s;
      assert [] + t.cancelled == t.cancelled;
  }

  /** The same for every connection a run can reach, whatever batch size the run itself used. */
  lemma BatchingIsInvisibleOnEveryRun<E(!new)>(ops: Ops<E>, cfg: Config, batch: nat, conn: E, steps: seq<Step>, data: bytes)
    requires batch > 0 && Lawful(ops) && ValidConfig(cfg) && Newborn(ops, conn)
    requires !Run(ops, cfg, Start(conn), steps).raised
    ensures var s := Run(ops, cfg, Start(conn), steps);
            ReadInBatches(ops, cfg, batch, s.frames, s.h, data) == ReadAtOnce(ops, cfg, s.frames, s.h, data)
  {
    var g := FromStart(ops, cfg, conn, steps);
    var s := Run(ops, cfg, Start(conn), steps);
    BatchingIsInvisible(ops, cfg, batch, s.frames, s.h, g, data);
  }
}
