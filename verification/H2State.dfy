/**
 The state of one HTTP/2 connection (`H2Protocol`) and what each operation makes of it.

 hyper-h2 is foreign code: `Ops<E>` is an arbitrary engine, a state of type E and one total function
 for each call the source makes.  Everything below, and every lemma about it, holds for all engines;
 `H2Laws` names what an engine has to respect for the properties that need it.
 */
module H2State {
  import opened Bytes
  import opened Optional
  import opened FrameBudgetSplitter

  datatype ErrorCode = RefusedStream | ProtocolError | EnhanceYourCalm | StreamClosed | InternalError

  /** A decoded request head: method, path and headers, and the content-length it declares. */
  datatype Head = Head(fields: seq<(string, string)>, contentLength: Option<nat>)

  /** An engine event.  `head` is None where `_decode_request_headers` raises. */
  datatype Event =
    | RequestReceived(id: int, head: Option<Head>)
    | DataReceived(id: int, data: bytes, flow: nat)
    | StreamEnded(id: int)
    | StreamReset(id: int)
    | TrailersReceived(id: int)
    | ConnectionTerminated
    | WindowOrSettings

  /** A response body and the size of the header list sent with it. */
  datatype Response = Response(body: bytes, headerSize: nat)

  /** The engine's calls.  A bool is false, and an Option None, where the call raises. */
  datatype Ops<!E> = Ops(
    receive: (E, bytes) -> (E, Option<seq<Event>>),
    acknowledge: (E, int, nat) -> (E, bool),
    reset: (E, int, ErrorCode) -> (E, bool),
    sendHeaders: (E, int, Response, bool) -> (E, bool),
    sendData: (E, int, bytes, bool) -> (E, bool),
    window: (E, int) -> Option<int>,
    frameSize: E -> int,
    drain: E -> (E, bytes),
    goaway: (E, int, int) -> (E, bool),
    lastOpened: E -> int,        // highest stream id the client has opened
    halfClosed: E -> set<int>)   // streams the client has ended

  datatype Config = Config(
    maxStreams: nat, maxBody: nat, maxConnectionBuffer: nat, maxPendingOutput: nat,
    maxResponseBody: nat, maxControlOutput: nat, maxHeaderBytes: nat, batch: nat, limits: Limits)

  datatype Inbound = Inbound(head: Head, body: bytes, dispatched: bool)

  datatype Outbound = Outbound(id: int, body: bytes, offset: nat)

  datatype Command =
    | ResetCommand(id: int)
    | ResponseCommand(id: int, response: Response)

  datatype Ready = Ready(id: int, head: Head, body: bytes)

  /**
   What happened on the connection, in order: chunks given to the engine, events handled, engine calls that
   went through, streams dropped.
   */
  datatype Entry =
    | Given(chunk: bytes)
    | Got(event: Event)
    | DidReset(id: int, reason: ErrorCode)
    | DidHeaders(id: int, body: bytes, fin: bool)
    | DidData(id: int, chunk: bytes, fin: bool, window: int, frameSize: int)
    | DidGoaway(code: int, last: int)
    | Dropped(id: int)

  datatype H2<E> = H2(
    conn: E, log: seq<Entry>,
    inbound: map<int, Inbound>, active: set<int>, outbound: seq<Outbound>, commands: seq<Command>,
    buffered: int, pending: int, control: bytes, cancelled: seq<int>, ready: seq<Ready>,
    last: int, remoteClosed: bool, localClosed: bool)

  /** Raised carries the state the exception leaves behind. */
  datatype Outcome<+S> = Ok(s: S) | Raised(s: S)

  function Fresh<E>(conn: E): H2<E>
  {
    H2(conn, [], map[], {}, [], [], 0, 0, [], [], [], 0, false, false)
  }

  // ---------------------------------------------------------------- tables

  function Lookup(outs: seq<Outbound>, id: int): Option<Outbound>
  {
    if outs == [] then None
    else if outs[0].id == id then Some(outs[0])
    else Lookup(outs[1..], id)
  }

  /** The outbound table with one stream popped. */
  function Without(outs: seq<Outbound>, id: int): seq<Outbound>
  {
    if outs == [] then []
    else if outs[0].id == id then Without(outs[1..], id)
    else [outs[0]] + Without(outs[1..], id)
  }

  /** The outbound table with one stream's offset moved on. */
  function Advance(outs: seq<Outbound>, id: int, n: nat): seq<Outbound>
  {
    if outs == [] then []
    else if outs[0].id == id then [outs[0].(offset := outs[0].offset + n)] + Advance(outs[1..], id, n)
    else [outs[0]] + Advance(outs[1..], id, n)
  }

  /** `table[id] = stream`: in place for a known stream, at the end for a new one. */
  function Placed(outs: seq<Outbound>, o: Outbound): seq<Outbound>
  {
    if outs == [] then [o]
    else if outs[0].id == o.id then [o] + outs[1..]
    else [outs[0]] + Placed(outs[1..], o)
  }

  /** `drop_stream` keeps every command but the stream's responses. */
  function Kept(commands: seq<Command>, id: int): seq<Command>
  {
    if commands == [] then []
    else
      var c := commands[|commands| - 1];
      Kept(commands[..|commands| - 1], id) + if c.ResponseCommand? && c.id == id then [] else [c]
  }

  function QueuedFor(commands: seq<Command>, id: int): nat
  {
    if commands == [] then 0
    else
      var c := commands[|commands| - 1];
      QueuedFor(commands[..|commands| - 1], id) + if c.ResponseCommand? && c.id == id then |c.response.body| else 0
  }

  function Others(ready: seq<Ready>, id: int): seq<Ready>
  {
    if ready == [] then []
    else
      var r := ready[|ready| - 1];
      Others(ready[..|ready| - 1], id) + if r.id == id then [] else [r]
  }

  function Remaining(o: Outbound): int { |o.body| - o.offset }

  // ---------------------------------------------------------------- dropping and resetting

  function ReleaseInbound<E>(s: H2<E>, id: int): H2<E>
  {
    if id in s.inbound
    then s.(inbound := s.inbound - {id}, buffered := s.buffered - |s.inbound[id].body|)
    else s
  }

  function DropStream<E>(s: H2<E>, id: int): H2<E>
  {
    var t := ReleaseInbound(s, id);
    var sent := Lookup(s.outbound, id);
    t.(ready := Others(s.ready, id),
       outbound := Without(s.outbound, id),
       pending := s.pending - (if sent.Some? then Remaining(sent.value) else 0) - QueuedFor(s.commands, id),
       commands := Kept(s.commands, id),
       active := s.active - {id},
       log := s.log + [Dropped(id)])
  }

  function ResetStream<E>(ops: Ops<E>, s: H2<E>, id: int, code: ErrorCode): H2<E>
  {
    var (e, ok) := ops.reset(s.conn, id, code);
    DropStream(s.(conn := e, log := if ok then s.log + [DidReset(id, code)] else s.log), id)
  }

  // ---------------------------------------------------------------- receiving

  function RequestArrived<E>(ops: Ops<E>, cfg: Config, s: H2<E>, id: int, head: Option<Head>): H2<E>
  {
    if |s.active| >= cfg.maxStreams then ResetStream(ops, s, id, RefusedStream)
    else match head
    case None => ResetStream(ops, s, id, ProtocolError)
    case Some(h) => s.(active := s.active + {id}, inbound := s.inbound[id := Inbound(h, [], false)])
  }

  /** Would these bytes take the stream past a limit or past the length it declared? */
  predicate TooMuch<E>(cfg: Config, s: H2<E>, stream: Inbound, data: bytes)
  {
    || |stream.body| + |data| > cfg.maxBody
    || (stream.head.contentLength.Some? && |stream.body| + |data| > stream.head.contentLength.value)
    || s.buffered + |data| > cfg.maxConnectionBuffer
  }

  function ChargeData<E>(ops: Ops<E>, cfg: Config, s: H2<E>, id: int, data: bytes): H2<E>
  {
    if id !in s.inbound then s
    else
      var stream := s.inbound[id];
      if TooMuch(cfg, s, stream, data) then ResetStream(ops, s, id, EnhanceYourCalm)
      else if stream.dispatched then ResetStream(ops, s, id, StreamClosed)
      else s.(inbound := s.inbound[id := stream.(body := stream.body + data)], buffered := s.buffered + |data|)
  }

  function DataArrived<E>(ops: Ops<E>, cfg: Config, s: H2<E>, id: int, data: bytes, flow: nat): Outcome<H2<E>>
  {
    var (e, ok) := ops.acknowledge(s.conn, id, flow);
    if !ok then Raised(s.(conn := e))
    else Ok(ChargeData(ops, cfg, s.(conn := e, log := s.log + [Got(DataReceived(id, data, flow))]), id, data))
  }

  function StreamFinished<E>(ops: Ops<E>, s: H2<E>, id: int): H2<E>
  {
    if id !in s.inbound then s
    else
      var stream := s.inbound[id];
      if stream.head.contentLength.Some? && |stream.body| != stream.head.contentLength.value
      then ResetStream(ops, s, id, ProtocolError)
      else s.(inbound := s.inbound[id := stream.(dispatched := true)],
              last := Max(s.last, id),
              ready := s.ready + [Ready(id, stream.head, stream.body)])
  }

  function HandleEvent<E>(ops: Ops<E>, cfg: Config, before: H2<E>, event: Event): Outcome<H2<E>>
  {
    var s := before.(log := before.log + [Got(event)]);
    match event
    case RequestReceived(id, head) => Ok(RequestArrived(ops, cfg, s, id, head))
    case DataReceived(id, data, flow) => DataArrived(ops, cfg, before, id, data, flow)
    case StreamEnded(id) => Ok(StreamFinished(ops, s, id))
    case StreamReset(id) => Ok(DropStream(s.(cancelled := s.cancelled + [id]), id))
    case TrailersReceived(id) => Ok(ResetStream(ops, s, id, ProtocolError))
    case ConnectionTerminated => Ok(s.(remoteClosed := true))
    case WindowOrSettings => Ok(s)
  }

  function HandleEvents<E>(ops: Ops<E>, cfg: Config, s: H2<E>, events: seq<Event>): Outcome<H2<E>>
    decreases |events|
  {
    if events == [] then Ok(s) else
    match HandleEvent(ops, cfg, s, events[0])
    case Raised(t) => Raised(t)
    case Ok(t) => HandleEvents(ops, cfg, t, events[1..])
  }

  function Capture<E>(ops: Ops<E>, cfg: Config, s: H2<E>): Outcome<H2<E>>
  {
    var (e, produced) := ops.drain(s.conn);
    var size := |s.control| + |produced|;
    if size > cfg.maxControlOutput || size + s.pending > cfg.maxPendingOutput
    then Raised(s.(conn := e))
    else Ok(s.(conn := e, control := s.control + produced))
  }

  /** One wire chunk: the engine reads it, its events are handled, its output is captured. */
  function ReadChunk<E>(ops: Ops<E>, cfg: Config, s: H2<E>, chunk: bytes): Outcome<H2<E>>
  {
    var (e, events) := ops.receive(s.conn, chunk);
    var t := s.(conn := e, log := s.log + [Given(chunk)]);
    match events
    case None => Raised(t)
    case Some(list) =>
      match HandleEvents(ops, cfg, t, list)
      case Raised(u) => Raised(u)
      case Ok(u) => Capture(ops, cfg, u)
  }

  function ReadChunks<E>(ops: Ops<E>, cfg: Config, s: H2<E>, chunks: seq<bytes>): Outcome<H2<E>>
    decreases |chunks|
  {
    if chunks == [] then Ok(s) else
    match ReadChunk(ops, cfg, s, chunks[0])
    case Raised(t) => Raised(t)
    case Ok(t) => ReadChunks(ops, cfg, t, chunks[1..])
  }

  /** The ready requests `receive_data` hands out: not cancelled by the peer and still active. */
  function Deliverable<E>(s: H2<E>, ready: seq<Ready>): seq<Ready>
  {
    if ready == [] then []
    else
      var r := ready[|ready| - 1];
      Deliverable(s, ready[..|ready| - 1]) + if r.id !in s.cancelled && r.id in s.active then [r] else []
  }

  datatype Received<E> =
    | Failed(s: H2<E>)
    | Read(frames: Splitter, s: H2<E>, requests: seq<Ready>)

  /** `receive_data` with a given `reader_frame_batch_size`. */
  function ReceiveBatch<E>(ops: Ops<E>, cfg: Config, batch: nat, frames: Splitter, s: H2<E>, data: bytes): Received<E>
  {
    match Absorb(cfg.limits, frames, data)
    case None => Failed(s)
    case Some(fed) =>
      var n := Min(batch, |fed.ready|);
      var left := fed.(ready := fed.ready[n..]);
      match ReadChunks(ops, cfg, s, fed.ready[..n])
      case Raised(t) => Failed(t)
      case Ok(t) =>
        if left.ready != [] then Read(left, t, [])
        else Read(left, t.(ready := []), Deliverable(t, t.ready))
  }

  function ReceiveData<E>(ops: Ops<E>, cfg: Config, frames: Splitter, s: H2<E>, data: bytes): Received<E>
  {
    ReceiveBatch(ops, cfg, cfg.batch, frames, s, data)
  }

  // ---------------------------------------------------------------- responding

  predicate HasCommand(commands: seq<Command>, id: int)
  {
    exists i | 0 <= i < |commands| :: commands[i].id == id
  }

  /** The part of `queue_response` after the request body was released. */
  function Enqueue<E>(ops: Ops<E>, cfg: Config, s: H2<E>, id: int, response: Response): (H2<E>, bool)
  {
    var size := |response.body|;
    if size > cfg.maxResponseBody || |s.control| + s.pending + size > cfg.maxPendingOutput then
      (if HasCommand(s.commands, id) then s else s.(commands := s.commands + [ResetCommand(id)]), false)
    else if |s.commands| >= cfg.maxStreams * 2 then
      (ResetStream(ops, s, id, EnhanceYourCalm), false)
    else
      (s.(pending := s.pending + size, commands := s.commands + [ResponseCommand(id, response)]), true)
  }

  /** `queue_response`: the new state and whether the response was accepted. */
  function QueueResponse<E>(ops: Ops<E>, cfg: Config, s: H2<E>, id: int, response: Response): (H2<E>, bool)
  {
    if id !in s.active then (s, false) else Enqueue(ops, cfg, ReleaseInbound(s, id), id, response)
  }

  /** `_start_response` once the headers are known to fit. */
  function SendHead<E>(ops: Ops<E>, s: H2<E>, id: int, response: Response): H2<E>
  {
    var (e, ok) := ops.sendHeaders(s.conn, id, response, response.body == []);
    var t := s.(conn := e);
    if !ok then DropStream(t.(pending := t.pending - |response.body|), id)
    else
      var u := t.(log := t.log + [DidHeaders(id, response.body, response.body == [])]);
      if response.body != []
      then u.(outbound := Placed(u.outbound, Outbound(id, response.body, 0)))
      else u.(active := u.active - {id})
  }

  function StartResponse<E>(ops: Ops<E>, cfg: Config, s: H2<E>, id: int, response: Response): H2<E>
  {
    if response.headerSize > cfg.maxHeaderBytes
    then ResetStream(ops, s.(pending := s.pending - |response.body|), id, InternalError)
    else SendHead(ops, s, id, response)
  }

  function RunCommand<E>(ops: Ops<E>, cfg: Config, s: H2<E>, c: Command): Outcome<H2<E>>
  {
    match c
    case ResetCommand(id) => Capture(ops, cfg, ResetStream(ops, s, id, EnhanceYourCalm))
    case ResponseCommand(id, response) => Capture(ops, cfg, StartResponse(ops, cfg, s, id, response))
  }

  /** The command loop of `flush`; the commands are a local list, already gone from the state. */
  function RunCommands<E>(ops: Ops<E>, cfg: Config, s: H2<E>, commands: seq<Command>): Outcome<H2<E>>
    decreases |commands|
  {
    if commands == [] then Ok(s) else
    match RunCommand(ops, cfg, s, commands[0])
    case Raised(t) => Raised(t)
    case Ok(t) => RunCommands(ops, cfg, t, commands[1..])
  }

  datatype Flushed<E> = Flushed(s: H2<E>, output: bytes)

  /** How much of a stream may go out now. */
  function ChunkSize(o: Outbound, window: int, frameSize: int): int
  {
    Min(Min(Remaining(o), Max(0, window)), frameSize)
  }

  /** The state after `send_data` went through, before a finished stream is taken off the table. */
  function Sent<E>(s: H2<E>, conn: E, o: Outbound, n: nat, window: int, frameSize: int): H2<E>
    requires o.offset + n <= |o.body|
  {
    s.(conn := conn, log := s.log + [DidData(o.id, o.body[o.offset..o.offset + n], n == Remaining(o), window, frameSize)],
       outbound := Advance(s.outbound, o.id, n), pending := s.pending - n)
  }

  /** The tables once a stream has nothing left to send. */
  function Done<E>(s: H2<E>, id: int): H2<E>
  {
    s.(outbound := Without(s.outbound, id), active := s.active - {id})
  }

  /** The wire-output check after a chunk, and the end of its stream. */
  function AfterChunk<E>(cfg: Config, f: Flushed<E>, t: H2<E>, generated: bytes, id: int, fin: bool): Outcome<Flushed<E>>
  {
    if |generated| + |f.output| + t.pending > cfg.maxPendingOutput then Raised(f.(s := t))
    else Ok(Flushed(if fin then Done(t, id) else t, f.output + generated))
  }

  function SendChunk<E>(ops: Ops<E>, cfg: Config, f: Flushed<E>, o: Outbound, n: nat, window: int): Outcome<Flushed<E>>
    requires o.offset + n <= |o.body|
  {
    var s := f.s;
    var fin := n == Remaining(o);
    var (e, ok) := ops.sendData(s.conn, o.id, o.body[o.offset..o.offset + n], fin);
    if !ok then Ok(f.(s := DropStream(s.(conn := e), o.id)))
    else
      var (e', generated) := ops.drain(e);
      AfterChunk(cfg, f, Sent(s, e', o, n, window, ops.frameSize(s.conn)), generated, o.id, fin)
  }

  function FlushStream<E>(ops: Ops<E>, cfg: Config, f: Flushed<E>, o: Outbound): Outcome<Flushed<E>>
  {
    if Remaining(o) <= 0 then Ok(f.(s := Done(f.s, o.id)))
    else match ops.window(f.s.conn, o.id)
    case None => Ok(f.(s := DropStream(f.s, o.id)))
    case Some(window) =>
      var n := ChunkSize(o, window, ops.frameSize(f.s.conn));
      if n <= 0 then Ok(f) else SendChunk(ops, cfg, f, o, n, window)
  }

  /** The stream loop of `flush`, over a snapshot of the outbound table. */
  function FlushStreams<E>(ops: Ops<E>, cfg: Config, f: Flushed<E>, todo: seq<Outbound>): Outcome<Flushed<E>>
    decreases |todo|
  {
    if todo == [] then Ok(f) else
    match FlushStream(ops, cfg, f, todo[0])
    case Raised(g) => Raised(g)
    case Ok(g) => FlushStreams(ops, cfg, g, todo[1..])
  }

  function FinishFlush<E>(ops: Ops<E>, cfg: Config, f: Flushed<E>): Outcome<Flushed<E>>
  {
    var (e, generated) := ops.drain(f.s.conn);
    var t := f.s.(conn := e);
    if |generated| + |f.output| + t.pending > cfg.maxPendingOutput then Raised(f.(s := t))
    else Ok(Flushed(t, f.output + generated))
  }

  /** `flush` after its command loop: control output first, then the streams, then what the engine still has. */
  function FlushTable<E>(ops: Ops<E>, cfg: Config, s: H2<E>): Outcome<Flushed<E>>
  {
    match FlushStreams(ops, cfg, Flushed(s.(control := []), s.control), s.outbound)
    case Raised(f) => Raised(f)
    case Ok(f) => FinishFlush(ops, cfg, f)
  }

  function Flush<E>(ops: Ops<E>, cfg: Config, s: H2<E>): Outcome<Flushed<E>>
  {
    match RunCommands(ops, cfg, s.(commands := []), s.commands)
    case Raised(t) => Raised(Flushed(t, []))
    case Ok(t) => FlushTable(ops, cfg, t)
  }

  function SayGoaway<E>(ops: Ops<E>, s: H2<E>, code: int): H2<E>
  {
    if s.localClosed then s
    else
      var (e, ok) := ops.goaway(s.conn, code, s.last);
      s.(localClosed := true, conn := e, log := if ok then s.log + [DidGoaway(code, s.last)] else s.log)
  }

  function Cleared<E>(s: H2<E>, conn: E): H2<E>
  {
    s.(conn := conn, inbound := map[], outbound := [], commands := [], ready := [], active := {},
       buffered := 0, pending := 0, control := [])
  }

  function Close<E>(ops: Ops<E>, cfg: Config, s: H2<E>, code: int): (H2<E>, bytes)
  {
    var t := SayGoaway(ops, s, code);
    var (e, generated) := ops.drain(t.conn);
    var output := t.control + generated;
    (Cleared(t, e), if |output| > cfg.maxPendingOutput || |output| > cfg.maxControlOutput then [] else output)
  }
}
