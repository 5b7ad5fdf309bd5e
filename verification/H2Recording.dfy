/**
 Any engine can be made one that remembers its calls, without a connection noticing: the two runs are the same but for
 the memory.  So what `H2Output` says of engines that remember holds of every engine.
 */
module H2Recording {
  import opened Bytes
  import opened Optional
  import opened FrameBudgetSplitter
  import opened H2State
  import opened H2Invariant
  import opened H2Safety
  import opened H2Runs
  import opened H2Calls
  import opened H2Output

  type Remembering<E> = (E, seq<EngineCall>)

  function Noted(calls: seq<EngineCall>, c: EngineCall, went: bool): seq<EngineCall>
  {
    calls + if went then [c] else []
  }

  function Recording<E>(ops: Ops<E>): Ops<Remembering<E>>
  {
    Ops(
      (e: Remembering<E>, w) => var r := ops.receive(e.0, w); ((r.0, Noted(e.1, WasGiven(w, r.1), true)), r.1),
      (e: Remembering<E>, id, n) => var r := ops.acknowledge(e.0, id, n); ((r.0, Noted(e.1, Acknowledged(id, n), r.1)), r.1),
      (e: Remembering<E>, id, c) => var r := ops.reset(e.0, id, c); ((r.0, Noted(e.1, WasReset(id, c), r.1)), r.1),
      (e: Remembering<E>, id, a: Response, fin) =>
        var r := ops.sendHeaders(e.0, id, a, fin); ((r.0, Noted(e.1, SentHead(id, a.body, fin), r.1)), r.1),
      (e: Remembering<E>, id, d, fin) => var r := ops.sendData(e.0, id, d, fin); ((r.0, Noted(e.1, SentData(id, d, fin), r.1)), r.1),
      (e: Remembering<E>, id) => ops.window(e.0, id),
      (e: Remembering<E>) => ops.frameSize(e.0),
      (e: Remembering<E>) => var r := ops.drain(e.0); ((r.0, Noted(e.1, HandedOver(r.1), true)), r.1),
      (e: Remembering<E>, c, l) => var r := ops.goaway(e.0, c, l); ((r.0, Noted(e.1, SaidGoaway(c, l), r.1)), r.1),
      (e: Remembering<E>) => ops.lastOpened(e.0),
      (e: Remembering<E>) => ops.halfClosed(e.0))
  }

  /** The connection without the engine's memory. */
  function Plain<E>(s: H2<Remembering<E>>): H2<E>
  {
    H2(s.conn.0, s.log, s.inbound, s.active, s.outbound, s.commands, s.buffered, s.pending, s.control, s.cancelled, s.ready,
       s.last, s.remoteClosed, s.localClosed)
  }

  function PlainOutcome<E>(r: Outcome<H2<Remembering<E>>>): Outcome<H2<E>>
  {
    match r
    case Ok(s) => Ok(Plain(s))
    case Raised(s) => Raised(Plain(s))
  }

  function PlainFlushed<E>(f: Flushed<Remembering<E>>): Flushed<E> { Flushed(Plain(f.s), f.output) }

  function PlainFlush<E>(r: Outcome<Flushed<Remembering<E>>>): Outcome<Flushed<E>>
  {
    match r
    case Ok(f) => Ok(PlainFlushed(f))
    case Raised(f) => Raised(PlainFlushed(f))
  }

  function PlainSys<E>(s: Sys<Remembering<E>>): Sys<E>
  {
    Sys(s.frames, Plain(s.h), s.waiting, s.answered, s.delivered, s.sent, s.cancelledOut, s.raised)
  }

  function Memory<E>(): Remembering<E> -> seq<EngineCall> { (e: Remembering<E>) => e.1 }

  lemma ReceiveRecords<E>(ops: Ops<E>, e: Remembering<E>, w: bytes)
    ensures Memory<E>()(Recording(ops).receive(e, w).0) == Memory<E>()(e) + [WasGiven(w, ops.receive(e.0, w).1)]
    ensures Recording(ops).receive(e, w).1 == ops.receive(e.0, w).1 && Recording(ops).receive(e, w).0.0 == ops.receive(e.0, w).0
  {
    var r := Recording(ops).receive(e, w);
    assert r.0.1 == Noted(e.1, WasGiven(w, r.1), true);
  }

  lemma AcknowledgeRecords<E>(ops: Ops<E>, e: Remembering<E>, id: int, n: nat)
    ensures var r := Recording(ops).acknowledge(e, id, n);
            && Memory<E>()(r.0) == Memory<E>()(e) + (if r.1 then [Acknowledged(id, n)] else [])
            && r.0.0 == ops.acknowledge(e.0, id, n).0 && r.1 == ops.acknowledge(e.0, id, n).1
  {
    var r := Recording(ops).acknowledge(e, id, n);
    assert r.0.1 == Noted(e.1, Acknowledged(id, n), r.1);
  }

  lemma ResetRecords<E>(ops: Ops<E>, e: Remembering<E>, id: int, c: ErrorCode)
    ensures var r := Recording(ops).reset(e, id, c);
            && Memory<E>()(r.0) == Memory<E>()(e) + (if r.1 then [WasReset(id, c)] else [])
            && r.0.0 == ops.reset(e.0, id, c).0 && r.1 == ops.reset(e.0, id, c).1
  {
    var r := Recording(ops).reset(e, id, c);
    assert r.0.1 == Noted(e.1, WasReset(id, c), r.1);
  }

  lemma HeadersRecord<E>(ops: Ops<E>, e: Remembering<E>, id: int, a: Response, fin: bool)
    ensures var r := Recording(ops).sendHeaders(e, id, a, fin);
            && Memory<E>()(r.0) == Memory<E>()(e) + (if r.1 then [SentHead(id, a.body, fin)] else [])
            && r.0.0 == ops.sendHeaders(e.0, id, a, fin).0 && r.1 == ops.sendHeaders(e.0, id, a, fin).1
  {
    var r := Recording(ops).sendHeaders(e, id, a, fin);
    assert r.0.1 == Noted(e.1, SentHead(id, a.body, fin), r.1);
  }

  lemma DataRecords<E>(ops: Ops<E>, e: Remembering<E>, id: int, d: bytes, fin: bool)
    ensures var r := Recording(ops).sendData(e, id, d, fin);
            && Memory<E>()(r.0) == Memory<E>()(e) + (if r.1 then [SentData(id, d, fin)] else [])
            && r.0.0 == ops.sendData(e.0, id, d, fin).0 && r.1 == ops.sendData(e.0, id, d, fin).1
  {
    var r := Recording(ops).sendData(e, id, d, fin);
    assert r.0.1 == Noted(e.1, SentData(id, d, fin), r.1);
  }

  lemma DrainRecords<E>(ops: Ops<E>, e: Remembering<E>)
    ensures var r := Recording(ops).drain(e);
            Memory<E>()(r.0) == Memory<E>()(e) + [HandedOver(r.1)] && r.0.0 == ops.drain(e.0).0 && r.1 == ops.drain(e.0).1
  {
    var r := Recording(ops).drain(e);
    assert r.0.1 == Noted(e.1, HandedOver(r.1), true);
  }

  lemma GoawayRecords<E>(ops: Ops<E>, e: Remembering<E>, c: int, l: int)
    ensures var r := Recording(ops).goaway(e, c, l);
            && Memory<E>()(r.0) == Memory<E>()(e) + (if r.1 then [SaidGoaway(c, l)] else [])
            && r.0.0 == ops.goaway(e.0, c, l).0 && r.1 == ops.goaway(e.0, c, l).1
  {
    var r := Recording(ops).goaway(e, c, l);
    assert r.0.1 == Noted(e.1, SaidGoaway(c, l), r.1);
  }

  lemma StreamsRecord<E>(ops: Ops<E>, e: Remembering<E>)
    ensures Recording(ops).lastOpened(e) == ops.lastOpened(e.0) && Recording(ops).halfClosed(e) == ops.halfClosed(e.0)
  {
  }

  lemma StreamsStay<E>(ops: Ops<E>, e: Remembering<E>, e': Remembering<E>)
    requires SameStreams(ops, e.0, e'.0)
    ensures SameStreams(Recording(ops), e, e')
  {
    StreamsRecord(ops, e);
    StreamsRecord(ops, e');
  }

  lemma RecordingRecords<E(!new)>(ops: Ops<E>)
    ensures Records(Recording(ops), Memory<E>())
  {
    var rec := Recording(ops);
    var calls := Memory<E>();
    forall e, w ensures var r := rec.receive(e, w); calls(r.0) == calls(e) + [WasGiven(w, r.1)] { ReceiveRecords(ops, e, w); }
    forall e, id, n
      ensures var r := rec.acknowledge(e, id, n); calls(r.0) == calls(e) + if r.1 then [Acknowledged(id, n)] else []
    {
      AcknowledgeRecords(ops, e, id, n);
    }
    forall e, id, c ensures var r := rec.reset(e, id, c); calls(r.0) == calls(e) + if r.1 then [WasReset(id, c)] else [] {
      ResetRecords(ops, e, id, c);
    }
    forall e, id, a, fin
      ensures var r := rec.sendHeaders(e, id, a, fin); calls(r.0) == calls(e) + if r.1 then [SentHead(id, a.body, fin)] else []
    {
      HeadersRecord(ops, e, id, a, fin);
    }
    forall e, id, d, fin
      ensures var r := rec.sendData(e, id, d, fin); calls(r.0) == calls(e) + if r.1 then [SentData(id, d, fin)] else []
    {
      DataRecords(ops, e, id, d, fin);
    }
    forall e ensures var r := rec.drain(e); calls(r.0) == calls(e) + [HandedOver(r.1)] { DrainRecords(ops, e); }
    forall e, c, l ensures var r := rec.goaway(e, c, l); calls(r.0) == calls(e) + if r.1 then [SaidGoaway(c, l)] else [] {
      GoawayRecords(ops, e, c, l);
    }
  }

  lemma RecordingIsLawful<E(!new)>(ops: Ops<E>)
    requires Lawful(ops)
    ensures Lawful(Recording(ops))
  {
    var rec := Recording(ops);
    forall e, w
      ensures var r := rec.receive(e, w);
              r.1.Some? ==> AfterEvents(r.1.value, rec.lastOpened(e), rec.halfClosed(e))
                            == Some((rec.lastOpened(r.0), rec.halfClosed(r.0)))
    {
      ReceiveRecords(ops, e, w);
      StreamsRecord(ops, e);
      StreamsRecord(ops, rec.receive(e, w).0);
    }
    forall e, id, n ensures SameStreams(rec, e, rec.acknowledge(e, id, n).0) {
      AcknowledgeRecords(ops, e, id, n);
      StreamsStay(ops, e, rec.acknowledge(e, id, n).0);
    }
    forall e, id, c ensures SameStreams(rec, e, rec.reset(e, id, c).0) {
      ResetRecords(ops, e, id, c);
      StreamsStay(ops, e, rec.reset(e, id, c).0);
    }
    forall e, id, a, fin ensures SameStreams(rec, e, rec.sendHeaders(e, id, a, fin).0) {
      HeadersRecord(ops, e, id, a, fin);
      StreamsStay(ops, e, rec.sendHeaders(e, id, a, fin).0);
    }
    forall e, id, d, fin ensures SameStreams(rec, e, rec.sendData(e, id, d, fin).0) {
      DataRecords(ops, e, id, d, fin);
      StreamsStay(ops, e, rec.sendData(e, id, d, fin).0);
    }
    forall e ensures SameStreams(rec, e, rec.drain(e).0) {
      DrainRecords(ops, e);
      StreamsStay(ops, e, rec.drain(e).0);
    }
    forall e, c, l ensures SameStreams(rec, e, rec.goaway(e, c, l).0) {
      GoawayRecords(ops, e, c, l);
      StreamsStay(ops, e, rec.goaway(e, c, l).0);
    }
  }

  // ---------------------------------------------------------------- the same operations

  lemma SameDrop<E>(s: H2<Remembering<E>>, id: int)
    ensures Plain(DropStream(s, id)) == DropStream(Plain(s), id)
  {
  }

  lemma SameReset<E>(ops: Ops<E>, s: H2<Remembering<E>>, id: int, code: ErrorCode)
    ensures Plain(ResetStream(Recording(ops), s, id, code)) == ResetStream(ops, Plain(s), id, code)
  {
  }

  lemma SameRequest<E>(ops: Ops<E>, cfg: Config, s: H2<Remembering<E>>, id: int, head: Option<Head>)
    ensures Plain(RequestArrived(Recording(ops), cfg, s, id, head)) == RequestArrived(ops, cfg, Plain(s), id, head)
  {
    SameReset(ops, s, id, RefusedStream);
    SameReset(ops, s, id, ProtocolError);
  }

  lemma SameData<E>(ops: Ops<E>, cfg: Config, s: H2<Remembering<E>>, id: int, data: bytes, flow: nat)
    ensures PlainOutcome(DataArrived(Recording(ops), cfg, s, id, data, flow)) == DataArrived(ops, cfg, Plain(s), id, data, flow)
  {
    var (e, ok) := Recording(ops).acknowledge(s.conn, id, flow);
    AcknowledgeRecords(ops, s.conn, id, flow);
    SameCharge(ops, cfg, s.(conn := e, log := s.log + [Got(DataReceived(id, data, flow))]), id, data);
  }

  lemma SameCharge<E>(ops: Ops<E>, cfg: Config, s: H2<Remembering<E>>, id: int, data: bytes)
    ensures Plain(ChargeData(Recording(ops), cfg, s, id, data)) == ChargeData(ops, cfg, Plain(s), id, data)
  {
    SameReset(ops, s, id, EnhanceYourCalm);
    SameReset(ops, s, id, StreamClosed);
  }

  lemma SameEnd<E>(ops: Ops<E>, s: H2<Remembering<E>>, id: int)
    ensures Plain(StreamFinished(Recording(ops), s, id)) == StreamFinished(ops, Plain(s), id)
  {
    SameReset(ops, s, id, ProtocolError);
  }

  lemma SameEvent<E>(ops: Ops<E>, cfg: Config, s: H2<Remembering<E>>, e: Event)
    ensures PlainOutcome(HandleEvent(Recording(ops), cfg, s, e)) == HandleEvent(ops, cfg, Plain(s), e)
  {
    var t := s.(log := s.log + [Got(e)]);
    match e
    case RequestReceived(id, head) => SameRequest(ops, cfg, t, id, head);
    case DataReceived(id, data, flow) => SameData(ops, cfg, s, id, data, flow);
    case StreamEnded(id) => SameEnd(ops, t, id);
    case StreamReset(id) => SameDrop(t.(cancelled := t.cancelled + [id]), id);
    case TrailersReceived(id) => SameReset(ops, t, id, ProtocolError);
    case ConnectionTerminated =>
    case WindowOrSettings =>
  }

  lemma {:induction false} SameEvents<E>(ops: Ops<E>, cfg: Config, s: H2<Remembering<E>>, es: seq<Event>)
    ensures PlainOutcome(HandleEvents(Recording(ops), cfg, s, es)) == HandleEvents(ops, cfg, Plain(s), es)
    decreases |es|
  {
    if es != [] {
      SameEvent(ops, cfg, s, es[0]);
      var t := HandleEvent(Recording(ops), cfg, s, es[0]);
      if t.Ok? {
        SameEvents(ops, cfg, t.s, es[1..]);
      }
    }
  }

  lemma SameCapture<E>(ops: Ops<E>, cfg: Config, s: H2<Remembering<E>>)
    ensures PlainOutcome(Capture(Recording(ops), cfg, s)) == Capture(ops, cfg, Plain(s))
  {
  }

  lemma SameChunk<E>(ops: Ops<E>, cfg: Config, s: H2<Remembering<E>>, chunk: bytes)
    ensures PlainOutcome(ReadChunk(Recording(ops), cfg, s, chunk)) == ReadChunk(ops, cfg, Plain(s), chunk)
  {
    var (e, events) := Recording(ops).receive(s.conn, chunk);
    var t := s.(conn := e, log := s.log + [Given(chunk)]);
    if events.Some? {
      SameEvents(ops, cfg, t, events.value);
      var u := HandleEvents(Recording(ops), cfg, t, events.value);
      if u.Ok? {
        SameCapture(ops, cfg, u.s);
      }
    }
  }

  lemma {:induction false} SameChunks<E>(ops: Ops<E>, cfg: Config, s: H2<Remembering<E>>, chunks: seq<bytes>)
    ensures PlainOutcome(ReadChunks(Recording(ops), cfg, s, chunks)) == ReadChunks(ops, cfg, Plain(s), chunks)
    decreases |chunks|
  {
    if chunks != [] {
      SameChunk(ops, cfg, s, chunks[0]);
      var t := ReadChunk(Recording(ops), cfg, s, chunks[0]);
      if t.Ok? {
        SameChunks(ops, cfg, t.s, chunks[1..]);
      }
    }
  }

  lemma {:induction false} SameDeliverable<E>(s: H2<Remembering<E>>, ready: seq<Ready>)
    ensures Deliverable(s, ready) == Deliverable(Plain(s), ready)
  {
    if ready != [] {
      SameDeliverable(s, ready[..|ready| - 1]);
    }
  }

  function PlainReceived<E>(r: Received<Remembering<E>>): Received<E>
  {
    match r
    case Failed(s) => Failed(Plain(s))
    case Read(frames, s, requests) => Read(frames, Plain(s), requests)
  }

  lemma SameReceive<E>(ops: Ops<E>, cfg: Config, frames: Splitter, s: H2<Remembering<E>>, data: bytes)
    ensures PlainReceived(ReceiveData(Recording(ops), cfg, frames, s, data)) == ReceiveData(ops, cfg, frames, Plain(s), data)
  {
    var fed := Absorb(cfg.limits, frames, data);
    if fed.Some? {
      var chunks := fed.value.ready[..Min(cfg.batch, |fed.value.ready|)];
      SameChunks(ops, cfg, s, chunks);
      var t := ReadChunks(Recording(ops), cfg, s, chunks);
      if t.Ok? {
        SameDeliverable(t.s, t.s.ready);
      }
    }
  }

  lemma SameAnswer<E>(ops: Ops<E>, cfg: Config, s: H2<Remembering<E>>, id: int, response: Response)
    ensures var r := QueueResponse(Recording(ops), cfg, s, id, response);
            (Plain(r.0), r.1) == QueueResponse(ops, cfg, Plain(s), id, response)
  {
    assert Plain(ReleaseInbound(s, id)) == ReleaseInbound(Plain(s), id);
    SameEnqueue(ops, cfg, ReleaseInbound(s, id), id, response);
  }

  lemma SameEnqueue<E>(ops: Ops<E>, cfg: Config, s: H2<Remembering<E>>, id: int, response: Response)
    ensures var r := Enqueue(Recording(ops), cfg, s, id, response); (Plain(r.0), r.1) == Enqueue(ops, cfg, Plain(s), id, response)
  {
    SameReset(ops, s, id, EnhanceYourCalm);
  }

  lemma SameHead<E>(ops: Ops<E>, s: H2<Remembering<E>>, id: int, response: Response)
    ensures Plain(SendHead(Recording(ops), s, id, response)) == SendHead(ops, Plain(s), id, response)
  {
    var (e, ok) := Recording(ops).sendHeaders(s.conn, id, response, response.body == []);
    SameDrop(s.(conn := e, pending := s.pending - |response.body|), id);
  }

  lemma SameStart<E>(ops: Ops<E>, cfg: Config, s: H2<Remembering<E>>, id: int, response: Response)
    ensures Plain(StartResponse(Recording(ops), cfg, s, id, response)) == StartResponse(ops, cfg, Plain(s), id, response)
  {
    if response.headerSize > cfg.maxHeaderBytes {
      SameReset(ops, s.(pending := s.pending - |response.body|), id, InternalError);
    } else {
      SameHead(ops, s, id, response);
    }
  }

  lemma SameCommand<E>(ops: Ops<E>, cfg: Config, s: H2<Remembering<E>>, c: Command)
    ensures PlainOutcome(RunCommand(Recording(ops), cfg, s, c)) == RunCommand(ops, cfg, Plain(s), c)
  {
    match c
    case ResetCommand(id) =>
      SameReset(ops, s, id, EnhanceYourCalm);
      SameCapture(ops, cfg, ResetStream(Recording(ops), s, id, EnhanceYourCalm));
    case ResponseCommand(id, response) =>
      SameStart(ops, cfg, s, id, response);
      SameCapture(ops, cfg, StartResponse(Recording(ops), cfg, s, id, response));
  }

  lemma {:induction false} SameCommands<E>(ops: Ops<E>, cfg: Config, s: H2<Remembering<E>>, commands: seq<Command>)
    ensures PlainOutcome(RunCommands(Recording(ops), cfg, s, commands)) == RunCommands(ops, cfg, Plain(s), commands)
    decreases |commands|
  {
    if commands != [] {
      SameCommand(ops, cfg, s, commands[0]);
      var t := RunCommand(Recording(ops), cfg, s, commands[0]);
      if t.Ok? {
        SameCommands(ops, cfg, t.s, commands[1..]);
      }
    }
  }

  lemma SameSend<E>(ops: Ops<E>, cfg: Config, f: Flushed<Remembering<E>>, o: Outbound, n: nat, window: int)
    requires o.offset + n <= |o.body|
    ensures PlainFlush(SendChunk(Recording(ops), cfg, f, o, n, window)) == SendChunk(ops, cfg, PlainFlushed(f), o, n, window)
  {
    var (e, ok) := Recording(ops).sendData(f.s.conn, o.id, o.body[o.offset..o.offset + n], n == Remaining(o));
    SameDrop(f.s.(conn := e), o.id);
  }

  lemma SameStream<E>(ops: Ops<E>, cfg: Config, f: Flushed<Remembering<E>>, o: Outbound)
    ensures PlainFlush(FlushStream(Recording(ops), cfg, f, o)) == FlushStream(ops, cfg, PlainFlushed(f), o)
  {
    var window := ops.window(f.s.conn.0, o.id);
    if Remaining(o) > 0 {
      if window == None {
        SameDrop(f.s, o.id);
      } else {
        var n := ChunkSize(o, window.value, ops.frameSize(f.s.conn.0));
        if n > 0 {
          SameSend(ops, cfg, f, o, n, window.value);
        }
      }
    }
  }

  lemma {:induction false} SameStreamsFlush<E>(ops: Ops<E>, cfg: Config, f: Flushed<Remembering<E>>, todo: seq<Outbound>)
    ensures PlainFlush(FlushStreams(Recording(ops), cfg, f, todo)) == FlushStreams(ops, cfg, PlainFlushed(f), todo)
    decreases |todo|
  {
    if todo != [] {
      SameStream(ops, cfg, f, todo[0]);
      var r := FlushStream(Recording(ops), cfg, f, todo[0]);
      if r.Ok? {
        SameStreamsFlush(ops, cfg, r.s, todo[1..]);
      }
    }
  }

  lemma SameFlush<E>(ops: Ops<E>, cfg: Config, s: H2<Remembering<E>>)
    ensures PlainFlush(Flush(Recording(ops), cfg, s)) == Flush(ops, cfg, Plain(s))
  {
    var u := s.(commands := []);
    SameCommands(ops, cfg, u, s.commands);
    var t := RunCommands(Recording(ops), cfg, u, s.commands);
    if t.Ok? {
      SameStreamsFlush(ops, cfg, Flushed(t.s.(control := []), t.s.control), t.s.outbound);
    }
  }

  lemma SameClose<E>(ops: Ops<E>, cfg: Config, s: H2<Remembering<E>>, code: int)
    ensures var r := Close(Recording(ops), cfg, s, code); (Plain(r.0), r.1) == Close(ops, cfg, Plain(s), code)
    ensures CloseLoses(Recording(ops), cfg, s, code) == CloseLoses(ops, cfg, Plain(s), code)
  {
    assert Plain(SayGoaway(Recording(ops), s, code)) == SayGoaway(ops, Plain(s), code);
  }

  lemma SameStep<E>(ops: Ops<E>, cfg: Config, s: Sys<Remembering<E>>, step: Step)
    ensures PlainSys(Next(Recording(ops), cfg, s, step)) == Next(ops, cfg, PlainSys(s), step)
    ensures StepLoses(Recording(ops), cfg, s, step) == StepLoses(ops, cfg, PlainSys(s), step)
  {
    match step
    case Receive(data) => SameReceive(ops, cfg, s.frames, s.h, data);
    case TakeCancelled =>
    case Respond(id, response) => SameAnswer(ops, cfg, s.h, id, response);
    case Abandon(id) => SameDrop(s.h, id);
    case FlushOutput => SameFlush(ops, cfg, s.h);
    case CloseConnection(code) => SameClose(ops, cfg, s.h, code);
  }

  lemma {:induction false} SameRun<E>(ops: Ops<E>, cfg: Config, s: Sys<Remembering<E>>, steps: seq<Step>)
    ensures PlainSys(Run(Recording(ops), cfg, s, steps)) == Run(ops, cfg, PlainSys(s), steps)
    ensures Lossless(Recording(ops), cfg, s, steps) == Lossless(ops, cfg, PlainSys(s), steps)
    decreases |steps|
  {
    if steps != [] {
      SameStep(ops, cfg, s, steps[0]);
      SameRun(ops, cfg, Next(Recording(ops), cfg, s, steps[0]), steps[1..]);
    }
  }

  /**
   On every engine: some list of calls is what the engine was asked and has handed over in the run, and it is the
   log and the output: what the log says was asked, in order, and what was returned, then held back, byte for byte.
   */
  lemma OutputOnEveryEngine<E(!new)>(ops: Ops<E>, cfg: Config, conn: E, steps: seq<Step>) returns (calls: seq<EngineCall>)
    requires Lawful(ops) && ValidConfig(cfg) && Newborn(ops, conn)
    ensures var s := Run(ops, cfg, Start(conn), steps);
            && Run(Recording(ops), cfg, Start((conn, [])), steps).h.conn == (s.h.conn, calls)
            && Asks(calls) == CallsOf(s.h.log) && EventsOf(s.h.log) <= Reported(calls)
            && (!s.raised ==> (s.sent + s.h.control == Handed(calls) <==> Lossless(ops, cfg, Start(conn), steps)))
  {
    RecordingRecords(ops);
    RecordingIsLawful(ops);
    var start := Start<Remembering<E>>((conn, []));
    assert PlainSys(start) == Start(conn);
    SameRun(ops, cfg, start, steps);
    var memory := Memory<E>();
    calls := Run(Recording(ops), cfg, start, steps).h.conn.1;
    TheLogIsWhatTheEngineSaw(Recording(ops), cfg, memory, (conn, []), steps);
    if !Run(ops, cfg, Start(conn), steps).raised {
      EveryByteLeavesOnce(Recording(ops), cfg, memory, (conn, []), steps);
    }
  }
}
