/**
 What the engine is given over whole runs: the preface and then whole, legal frames of the received bytes,
 in order, none left out and none twice (`receive_data` feeds the splitter and takes one batch from it).
 */
module H2Wire {
  import opened Bytes
  import opened Optional
  import opened FrameBudgetSplitter
  import opened H2State
  import opened H2Invariant
  import opened H2Runs
  import opened H2Sending

  /** Nothing was given to the engine in between. */
  ghost predicate Silent<E>(s: H2<E>, t: H2<E>)
  {
    GivenTo(t.log) == GivenTo(s.log)
  }

  lemma GivenGrows(log: seq<Entry>, e: Entry)
    ensures GivenTo(log + [e]) == GivenTo(log) + if e.Given? then [e.chunk] else []
  {
    assert (log + [e])[..|log|] == log;
  }

  lemma ResetSilent<E>(ops: Ops<E>, s: H2<E>, id: int, code: ErrorCode)
    ensures Silent(s, ResetStream(ops, s, id, code)) && Silent(s, DropStream(s, id))
  {
    GivenGrows(s.log, DidReset(id, code));
    GivenGrows(s.log, Dropped(id));
    GivenGrows(s.log + [DidReset(id, code)], Dropped(id));
  }

  // ---------------------------------------------------------------- receiving

  lemma RequestSilent<E>(ops: Ops<E>, cfg: Config, s: H2<E>, id: int, head: Option<Head>)
    ensures Silent(s, RequestArrived(ops, cfg, s, id, head))
  {
    ResetSilent(ops, s, id, RefusedStream);
    ResetSilent(ops, s, id, ProtocolError);
  }

  lemma DataSilent<E>(ops: Ops<E>, cfg: Config, s: H2<E>, id: int, data: bytes, flow: nat)
    ensures Silent(s, DataArrived(ops, cfg, s, id, data, flow).s)
  {
    var e := Got(DataReceived(id, data, flow));
    var u := s.(conn := ops.acknowledge(s.conn, id, flow).0, log := s.log + [e]);
    GivenGrows(s.log, e);
    ResetSilent(ops, u, id, EnhanceYourCalm);
    ResetSilent(ops, u, id, StreamClosed);
  }

  lemma EndSilent<E>(ops: Ops<E>, s: H2<E>, id: int)
    ensures Silent(s, StreamFinished(ops, s, id))
  {
    ResetSilent(ops, s, id, ProtocolError);
  }

  lemma EventSilent<E>(ops: Ops<E>, cfg: Config, s: H2<E>, e: Event)
    ensures Silent(s, HandleEvent(ops, cfg, s, e).s)
  {
    var t := s.(log := s.log + [Got(e)]);
    GivenGrows(s.log, Got(e));
    match e
    case RequestReceived(id, head) => RequestSilent(ops, cfg, t, id, head);
    case DataReceived(id, data, flow) => DataSilent(ops, cfg, s, id, data, flow);
    case StreamEnded(id) => EndSilent(ops, t, id);
    case StreamReset(id) => ResetSilent(ops, t.(cancelled := t.cancelled + [id]), id, ProtocolError);
    case TrailersReceived(id) => ResetSilent(ops, t, id, ProtocolError);
    case ConnectionTerminated =>
    case WindowOrSettings =>
  }

  lemma {:induction false} EventsSilent<E>(ops: Ops<E>, cfg: Config, s: H2<E>, es: seq<Event>)
    ensures Silent(s, HandleEvents(ops, cfg, s, es).s)
    decreases |es|
  {
    if es != [] {
      EventSilent(ops, cfg, s, es[0]);
      var t := HandleEvent(ops, cfg, s, es[0]);
      if t.Ok? {
        EventsSilent(ops, cfg, t.s, es[1..]);
      }
    }
  }

  lemma ChunkGiven<E>(ops: Ops<E>, cfg: Config, s: H2<E>, chunk: bytes)
    ensures GivenTo(ReadChunk(ops, cfg, s, chunk).s.log) == GivenTo(s.log) + [chunk]
  {
    var (e, events) := ops.receive(s.conn, chunk);
    GivenGrows(s.log, Given(chunk));
    if events.Some? {
      EventsSilent(ops, cfg, s.(conn := e, log := s.log + [Given(chunk)]), events.value);
    }
  }

  lemma OneMoreChunk(given: seq<bytes>, chunks: seq<bytes>, m: nat)
    requires chunks != [] && m < |chunks|
    ensures given + [chunks[0]] + chunks[1..][..m] == given + chunks[..m + 1]
  {
  }

  /** All the chunks are given to the engine, or, when one of them raises, those up to it. */
  lemma {:induction false} ChunksGiven<E>(ops: Ops<E>, cfg: Config, s: H2<E>, chunks: seq<bytes>) returns (n: nat)
    ensures n <= |chunks| && (ReadChunks(ops, cfg, s, chunks).Ok? ==> n == |chunks|)
    ensures GivenTo(ReadChunks(ops, cfg, s, chunks).s.log) == GivenTo(s.log) + chunks[..n]
    decreases |chunks|
  {
    n := 0;
    if chunks != [] {
      n := 1;
      ChunkGiven(ops, cfg, s, chunks[0]);
      var t := ReadChunk(ops, cfg, s, chunks[0]);
      if t.Ok? {
        var m := ChunksGiven(ops, cfg, t.s, chunks[1..]);
        n := m + 1;
        OneMoreChunk(GivenTo(s.log), chunks, m);
      }
    }
  }

  // ---------------------------------------------------------------- answering, flushing, closing

  lemma EnqueueSilent<E>(ops: Ops<E>, cfg: Config, s: H2<E>, id: int, response: Response)
    ensures Silent(s, Enqueue(ops, cfg, s, id, response).0)
  {
    ResetSilent(ops, s, id, EnhanceYourCalm);
  }

  lemma AnswerSilent<E>(ops: Ops<E>, cfg: Config, s: H2<E>, id: int, response: Response)
    ensures Silent(s, QueueResponse(ops, cfg, s, id, response).0)
  {
    EnqueueSilent(ops, cfg, ReleaseInbound(s, id), id, response);
    assert ReleaseInbound(s, id).log == s.log;
  }

  lemma HeadSilent<E>(ops: Ops<E>, s: H2<E>, id: int, response: Response)
    ensures Silent(s, SendHead(ops, s, id, response))
  {
    var (e, ok) := ops.sendHeaders(s.conn, id, response, response.body == []);
    ResetSilent(ops, s.(conn := e, pending := s.pending - |response.body|), id, InternalError);
    GivenGrows(s.log, DidHeaders(id, response.body, response.body == []));
  }

  lemma StartSilent<E>(ops: Ops<E>, cfg: Config, s: H2<E>, id: int, response: Response)
    ensures Silent(s, StartResponse(ops, cfg, s, id, response))
  {
    if response.headerSize > cfg.maxHeaderBytes {
      ResetSilent(ops, s.(pending := s.pending - |response.body|), id, InternalError);
    } else {
      HeadSilent(ops, s, id, response);
    }
  }

  lemma CaptureSilent<E>(ops: Ops<E>, cfg: Config, s: H2<E>)
    ensures Silent(s, Capture(ops, cfg, s).s)
  {
  }

  lemma CommandSilent<E>(ops: Ops<E>, cfg: Config, s: H2<E>, c: Command)
    ensures Silent(s, RunCommand(ops, cfg, s, c).s)
  {
    match c
    case ResetCommand(id) =>
      ResetSilent(ops, s, id, EnhanceYourCalm);
      CaptureSilent(ops, cfg, ResetStream(ops, s, id, EnhanceYourCalm));
    case ResponseCommand(id, response) =>
      StartSilent(ops, cfg, s, id, response);
      CaptureSilent(ops, cfg, StartResponse(ops, cfg, s, id, response));
  }

  lemma {:induction false} CommandsSilent<E>(ops: Ops<E>, cfg: Config, s: H2<E>, commands: seq<Command>)
    ensures Silent(s, RunCommands(ops, cfg, s, commands).s)
    decreases |commands|
  {
    if commands != [] {
      CommandSilent(ops, cfg, s, commands[0]);
      var t := RunCommand(ops, cfg, s, commands[0]);
      if t.Ok? {
        CommandsSilent(ops, cfg, t.s, commands[1..]);
      }
    }
  }

  lemma SentSilent<E>(s: H2<E>, conn: E, o: Outbound, n: nat, window: int, frameSize: int)
    requires o.offset + n <= |o.body|
    ensures Silent(s, Sent(s, conn, o, n, window, frameSize))
  {
    GivenGrows(s.log, DidData(o.id, o.body[o.offset..o.offset + n], n == Remaining(o), window, frameSize));
  }

  lemma AfterSilent<E>(cfg: Config, f: Flushed<E>, t: H2<E>, generated: bytes, id: int, fin: bool)
    ensures Silent(t, AfterChunk(cfg, f, t, generated, id, fin).s.s)
  {
  }

  lemma SendSilent<E>(ops: Ops<E>, cfg: Config, f: Flushed<E>, o: Outbound, n: nat, window: int)
    requires 0 < n <= Remaining(o)
    ensures Silent(f.s, SendChunk(ops, cfg, f, o, n, window).s.s)
  {
    var fin := n == Remaining(o);
    var (e, ok) := ops.sendData(f.s.conn, o.id, o.body[o.offset..o.offset + n], fin);
    SendChunkShape(ops, cfg, f, o, n, window);
    if ok {
      var (e', generated) := ops.drain(e);
      var frameSize := ops.frameSize(f.s.conn);
      SentSilent(f.s, e', o, n, window, frameSize);
      AfterSilent(cfg, f, Sent(f.s, e', o, n, window, frameSize), generated, o.id, fin);
    } else {
      ResetSilent(ops, f.s.(conn := e), o.id, InternalError);
    }
  }

  lemma StreamSilent<E>(ops: Ops<E>, cfg: Config, f: Flushed<E>, o: Outbound)
    ensures Silent(f.s, FlushStream(ops, cfg, f, o).s.s)
  {
    var window := ops.window(f.s.conn, o.id);
    if Remaining(o) > 0 && window.Some? {
      var n := ChunkSize(o, window.value, ops.frameSize(f.s.conn));
      if n > 0 {
        SendSilent(ops, cfg, f, o, n, window.value);
      }
    } else {
      ResetSilent(ops, f.s, o.id, InternalError);
    }
  }

  lemma {:induction false} StreamsSilent<E>(ops: Ops<E>, cfg: Config, f: Flushed<E>, todo: seq<Outbound>)
    ensures Silent(f.s, FlushStreams(ops, cfg, f, todo).s.s)
    decreases |todo|
  {
    if todo != [] {
      StreamSilent(ops, cfg, f, todo[0]);
      var r := FlushStream(ops, cfg, f, todo[0]);
      if r.Ok? {
        StreamsSilent(ops, cfg, r.s, todo[1..]);
      }
    }
  }

  lemma FlushSilent<E>(ops: Ops<E>, cfg: Config, s: H2<E>)
    ensures Silent(s, Flush(ops, cfg, s).s.s)
  {
    CommandsSilent(ops, cfg, s.(commands := []), s.commands);
    var t := RunCommands(ops, cfg, s.(commands := []), s.commands);
    if t.Ok? {
      StreamsSilent(ops, cfg, Flushed(t.s.(control := []), t.s.control), t.s.outbound);
    }
  }

  lemma CloseSilent<E>(ops: Ops<E>, cfg: Config, s: H2<E>, code: int)
    ensures Silent(s, Close(ops, cfg, s, code).0)
  {
    GivenGrows(s.log, DidGoaway(code, s.last));
  }

  // ---------------------------------------------------------------- every run

  function BytesOf(step: Step): bytes { if step.Receive? then step.data else [] }

  /** Every byte received by a list of steps, in order. */
  function ReceivedBytes(steps: seq<Step>): bytes
    decreases |steps|
  {
    if steps == [] then []
    else BytesOf(steps[0]) + ReceivedBytes(steps[1..])
  }

  /** The splitter of a connection with the chunks put back that the engine was given. */
  function Whole<E>(s: Sys<E>): Splitter
  {
    PutBack(Usage(s.frames, GivenTo(s.h.log)))
  }

  /**
   The engine was given the chunks of the received bytes: together with those still ready, all of them;
   after an exception, the first ones of some part of the bytes.
   */
  ghost predicate Split<E>(cfg: Config, s: Sys<E>, data: bytes)
  {
    if !s.raised then Absorb(cfg.limits, EMPTY, data) == Some(Whole(s))
    else exists part :: part <= data && Absorb(cfg.limits, EMPTY, part).Some?
                        && GivenTo(s.h.log) <= Absorb(cfg.limits, EMPTY, part).value.ready
  }

  lemma AllGiven(given: seq<bytes>, ready: seq<bytes>, k: nat)
    requires k <= |ready|
    ensures given + ready[..k] + ready[k..] == given + ready
  {
  }

  lemma SomeGiven(given: seq<bytes>, ready: seq<bytes>, k: nat, n: nat)
    requires n <= k <= |ready|
    ensures given + ready[..k][..n] <= given + ready
  {
  }

  /** The splitter takes the bytes; the batch goes to the engine, all of it or up to the chunk that raises. */
  lemma BatchGiven<E>(ops: Ops<E>, cfg: Config, s: Sys<E>, data: bytes, fed: Splitter)
    requires !s.raised && Absorb(cfg.limits, s.frames, data) == Some(fed)
    ensures var t := Next(ops, cfg, s, Receive(data));
            && (!t.raised ==> PutBack(Usage(t.frames, GivenTo(t.h.log))) == PutBack(Usage(fed, GivenTo(s.h.log))))
            && GivenTo(t.h.log) <= GivenTo(s.h.log) + fed.ready
  {
    var k := Min(cfg.batch, |fed.ready|);
    var n := ChunksGiven(ops, cfg, s.h, fed.ready[..k]);
    SomeGiven(GivenTo(s.h.log), fed.ready, k, n);
    AllGiven(GivenTo(s.h.log), fed.ready, k);
    assert fed.ready[..k][..k] == fed.ready[..k];
  }

  lemma ReceiveSplits<E>(ops: Ops<E>, cfg: Config, s: Sys<E>, before: bytes, data: bytes)
    requires Split(cfg, s, before) && !s.raised
    ensures Split(cfg, Next(ops, cfg, s, Receive(data)), before + data)
  {
    ChunkingIsInvisible(cfg.limits, EMPTY, before, data);
    ReadyIsWriteOnly(cfg.limits, Usage(s.frames, GivenTo(s.h.log)), data);
    match Absorb(cfg.limits, s.frames, data)
    case None =>
      assert before <= before + data;
    case Some(fed) =>
      BatchGiven(ops, cfg, s, data, fed);
      assert before + data <= before + data;
  }

  lemma OtherStepSplits<E>(ops: Ops<E>, cfg: Config, s: Sys<E>, step: Step, data: bytes)
    requires Split(cfg, s, data) && !step.Receive?
    ensures Split(cfg, Next(ops, cfg, s, step), data)
  {
    match step
    case TakeCancelled =>
    case Respond(id, response) => AnswerSilent(ops, cfg, s.h, id, response);
    case Abandon(id) => ResetSilent(ops, s.h, id, InternalError);
    case FlushOutput => FlushSilent(ops, cfg, s.h);
      assert data <= data;
    case CloseConnection(code) => CloseSilent(ops, cfg, s.h, code);
  }

  lemma MoreBytes<E>(cfg: Config, s: Sys<E>, data: bytes, more: bytes)
    requires Split(cfg, s, data) && s.raised
    ensures Split(cfg, s, data + more)
  {
    var part :| part <= data && Absorb(cfg.limits, EMPTY, part).Some?
                && GivenTo(s.h.log) <= Absorb(cfg.limits, EMPTY, part).value.ready;
    assert part <= data + more;
  }

  lemma StepSplits<E>(ops: Ops<E>, cfg: Config, s: Sys<E>, before: bytes, step: Step)
    requires Split(cfg, s, before)
    ensures Split(cfg, Next(ops, cfg, s, step), before + BytesOf(step))
  {
    if !step.Receive? {
      assert before + BytesOf(step) == before;
      OtherStepSplits(ops, cfg, s, step, before);
    } else if s.raised {
      MoreBytes(cfg, s, before, step.data);
    } else {
      ReceiveSplits(ops, cfg, s, before, step.data);
    }
  }

  lemma {:induction false} RunSplits<E>(ops: Ops<E>, cfg: Config, s: Sys<E>, before: bytes, steps: seq<Step>)
    requires Split(cfg, s, before)
    ensures Split(cfg, Run(ops, cfg, s, steps), before + ReceivedBytes(steps))
    decreases |steps|
  {
    if steps == [] {
      assert before + [] == before;
    } else {
      StepSplits(ops, cfg, s, before, steps[0]);
      RunSplits(ops, cfg, Next(ops, cfg, s, steps[0]), before + BytesOf(steps[0]), steps[1..]);
      Rejoin(before, BytesOf(steps[0]), ReceivedBytes(steps[1..]));
    }
  }

  lemma Rejoin(a: bytes, b: bytes, c: bytes)
    ensures a + b + c == a + (b + c)
  {
  }

  /**
   Sections 3.4, 4.1 and 6.10 of RFC 9113, for every run over any engine: the engine is given the chunks of
   a legal stream, the preface first and then whole frames in order.  Without an exception that stream is all
   the bytes received, and the chunks given, those still ready and the partial buffers are those bytes.
   */
  lemma EngineSeesLegalFrames<E>(ops: Ops<E>, cfg: Config, conn: E, steps: seq<Step>) returns (d: Stream)
    ensures var s := Run(ops, cfg, Start(conn), steps);
            && LegalStream(cfg.limits, d) && Octets(d) <= ReceivedBytes(steps)
            && GivenTo(s.h.log) <= Chunks(d)
            && (!s.raised ==>
                  && Octets(d) == ReceivedBytes(steps)
                  && GivenTo(s.h.log) + s.frames.ready == Chunks(d)
                  && Concat(GivenTo(s.h.log) + s.frames.ready) + s.frames.preface + s.frames.header + s.frames.payload
                     == ReceivedBytes(steps))
  {
    var s := Run(ops, cfg, Start(conn), steps);
    assert PutBack(UNUSED) == EMPTY;
    RunSplits(ops, cfg, Start(conn), [], steps);
    assert [] + ReceivedBytes(steps) == ReceivedBytes(steps);
    if s.raised {
      var part :| part <= ReceivedBytes(steps) && Absorb(cfg.limits, EMPTY, part).Some?
                  && GivenTo(s.h.log) <= Absorb(cfg.limits, EMPTY, part).value.ready;
      d := Accepted(cfg.limits, part);
      ChunksAreTheOctets(cfg.limits, Absorb(cfg.limits, EMPTY, part).value, d);
    } else {
      d := Accepted(cfg.limits, ReceivedBytes(steps));
      ChunksAreTheOctets(cfg.limits, Whole(s), d);
    }
  }
}
