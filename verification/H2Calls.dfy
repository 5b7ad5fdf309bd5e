/**
 The engine's side of a connection.  `Records` is an engine that remembers the calls made to it; any engine can be
 made one (`H2Recording`).  Over such an engine: the log is exactly what the engine was asked, and the bytes the
 engine has handed over are exactly what was returned for the transport, in order, and what is still held back.
 */
module H2Calls {
  import opened Bytes
  import opened Optional
  import opened FrameBudgetSplitter
  import opened H2State
  import opened H2Invariant
  import opened H2Safety
  import opened H2Operations
  import opened H2Sending
  import opened H2Runs

  /** A call that went through.  `HandedOver` is what draining the engine has given. */
  datatype EngineCall =
    | WasGiven(chunk: bytes, events: Option<seq<Event>>)
    | Acknowledged(id: int, flow: nat)
    | WasReset(id: int, reason: ErrorCode)
    | SentHead(id: int, body: bytes, fin: bool)
    | SentData(id: int, chunk: bytes, fin: bool)
    | SaidGoaway(code: int, last: int)
    | HandedOver(output: bytes)

  ghost predicate Records<E(!new)>(ops: Ops<E>, calls: E -> seq<EngineCall>)
  {
    && (forall e, w :: var r := ops.receive(e, w); calls(r.0) == calls(e) + [WasGiven(w, r.1)])
    && (forall e, id, n :: var r := ops.acknowledge(e, id, n); calls(r.0) == calls(e) + if r.1 then [Acknowledged(id, n)] else [])
    && (forall e, id, c :: var r := ops.reset(e, id, c); calls(r.0) == calls(e) + if r.1 then [WasReset(id, c)] else [])
    && (forall e, id, r, fin ::
          var a := ops.sendHeaders(e, id, r, fin); calls(a.0) == calls(e) + if a.1 then [SentHead(id, r.body, fin)] else [])
    && (forall e, id, d, fin ::
          var a := ops.sendData(e, id, d, fin); calls(a.0) == calls(e) + if a.1 then [SentData(id, d, fin)] else [])
    && (forall e :: var r := ops.drain(e); calls(r.0) == calls(e) + [HandedOver(r.1)])
    && (forall e, c, l :: var r := ops.goaway(e, c, l); calls(r.0) == calls(e) + if r.1 then [SaidGoaway(c, l)] else [])
  }

  /** The bytes handed over, joined in order. */
  function Handed(calls: seq<EngineCall>): bytes
  {
    if calls == [] then []
    else
      var c := calls[|calls| - 1];
      Handed(calls[..|calls| - 1]) + if c.HandedOver? then c.output else []
  }

  /** What a call asks the engine for. */
  function AskOf(c: EngineCall): seq<EngineCall>
  {
    if c.HandedOver? then [] else if c.WasGiven? then [c.(events := None)] else [c]
  }

  function Asks(calls: seq<EngineCall>): seq<EngineCall>
  {
    if calls == [] then [] else Asks(calls[..|calls| - 1]) + AskOf(calls[|calls| - 1])
  }

  /** The events the engine has reported, in order. */
  function Reported(calls: seq<EngineCall>): seq<Event>
  {
    if calls == [] then []
    else
      var c := calls[|calls| - 1];
      Reported(calls[..|calls| - 1]) + if c.WasGiven? && c.events.Some? then c.events.value else []
  }

  /** What an entry of the log says the engine was asked. */
  function CallOf(e: Entry): seq<EngineCall>
  {
    match e
    case Given(chunk) => [WasGiven(chunk, None)]
    case Got(event) => if event.DataReceived? then [Acknowledged(event.id, event.flow)] else []
    case DidReset(id, code) => [WasReset(id, code)]
    case DidHeaders(id, body, fin) => [SentHead(id, body, fin)]
    case DidData(id, chunk, fin, _, _) => [SentData(id, chunk, fin)]
    case DidGoaway(code, last) => [SaidGoaway(code, last)]
    case Dropped(_) => []
  }

  function CallsOf(log: seq<Entry>): seq<EngineCall>
  {
    if log == [] then [] else CallsOf(log[..|log| - 1]) + CallOf(log[|log| - 1])
  }

  /** The events that were handled, in order. */
  function EventsOf(log: seq<Entry>): seq<Event>
  {
    if log == [] then []
    else
      var e := log[|log| - 1];
      EventsOf(log[..|log| - 1]) + if e.Got? then [e.event] else []
  }

  /** The streams the peer has reset, in order. */
  function PeerResets(log: seq<Entry>): seq<int>
  {
    if log == [] then []
    else
      var e := log[|log| - 1];
      PeerResets(log[..|log| - 1]) + if e.Got? && e.event.StreamReset? then [e.event.id] else []
  }

  lemma CallMore(calls: seq<EngineCall>, c: EngineCall)
    ensures Handed(calls + [c]) == Handed(calls) + if c.HandedOver? then c.output else []
    ensures Asks(calls + [c]) == Asks(calls) + AskOf(c)
    ensures Reported(calls + [c]) == Reported(calls) + if c.WasGiven? && c.events.Some? then c.events.value else []
    ensures calls + [] == calls && Asks(calls) + [] == Asks(calls)
    ensures Handed(calls) + [] == Handed(calls) && Reported(calls) + [] == Reported(calls)
  {
    assert (calls + [c])[..|calls|] == calls;
  }

  lemma EntryMore(log: seq<Entry>, e: Entry)
    ensures CallsOf(log + [e]) == CallsOf(log) + CallOf(e)
    ensures EventsOf(log + [e]) == EventsOf(log) + if e.Got? then [e.event] else []
    ensures CallsOf(log) + [] == CallsOf(log) && PeerResets(log) + [] == PeerResets(log) && EventsOf(log) + [] == EventsOf(log)
    ensures PeerResets(log + [e]) == PeerResets(log) + if e.Got? && e.event.StreamReset? then [e.event.id] else []
    ensures Got(ConnectionTerminated) in log + [e] <==> Got(ConnectionTerminated) in log || e == Got(ConnectionTerminated)
  {
    assert (log + [e])[..|log|] == log;
  }

  /** Cancellations handed out, whether the connection was closed here, and events reported but not yet handled. */
  datatype Tab = Tab(gone: seq<int>, closed: bool, due: seq<Event>)

  /**
   The books of a connection: the log is what the engine was asked, and the events it has reported but for those
   still due; what was returned, then what is held back, is what the engine has handed over; the cancellations
   handed out and those to come are the peer's resets; and both closed flags say what has happened.
   */
  ghost predicate Books<E>(calls: E -> seq<EngineCall>, s: H2<E>, out: bytes, tab: Tab)
  {
    && Witnessed(calls, s, tab)
    && out + s.control == Handed(calls(s.conn))
  }

  /** The part an exception leaves. */
  ghost predicate Witnessed<E>(calls: E -> seq<EngineCall>, s: H2<E>, tab: Tab)
  {
    && Asks(calls(s.conn)) == CallsOf(s.log)
    && EventsOf(s.log) + tab.due == Reported(calls(s.conn))
    && tab.gone + s.cancelled == PeerResets(s.log)
    && (s.remoteClosed <==> Got(ConnectionTerminated) in s.log)
    && s.localClosed == tab.closed
  }

  /** More was handed over and not yet returned than the limits allow. */
  ghost predicate Overdrawn<E>(cfg: Config, calls: E -> seq<EngineCall>, s: H2<E>, out: bytes)
  {
    var owed := |Handed(calls(s.conn))| - |out|;
    owed > cfg.maxControlOutput || owed + s.pending > cfg.maxPendingOutput
  }

  // ---------------------------------------------------------------- one call at a time

  /** The engine has handed over nothing in between, and as much is held back. */
  ghost predicate SameOutput<E>(calls: E -> seq<EngineCall>, s: H2<E>, t: H2<E>)
  {
    Handed(calls(t.conn)) == Handed(calls(s.conn)) && t.control == s.control
  }

  lemma DropKept<E>(calls: E -> seq<EngineCall>, s: H2<E>, tab: Tab, id: int)
    requires Witnessed(calls, s, tab)
    ensures Witnessed(calls, DropStream(s, id), tab) && SameOutput(calls, s, DropStream(s, id))
  {
    EntryMore(s.log, Dropped(id));
    assert CallsOf(s.log) + [] == CallsOf(s.log) && PeerResets(s.log) + [] == PeerResets(s.log);
  }

  lemma ResetKept<E(!new)>(ops: Ops<E>, calls: E -> seq<EngineCall>, s: H2<E>, tab: Tab, id: int, code: ErrorCode)
    requires Records(ops, calls) && Witnessed(calls, s, tab)
    ensures var t := ResetStream(ops, s, id, code); Witnessed(calls, t, tab) && SameOutput(calls, s, t)
  {
    var (e, ok) := ops.reset(s.conn, id, code);
    CallMore(calls(s.conn), WasReset(id, code));
    EntryMore(s.log, DidReset(id, code));
    assert PeerResets(s.log) + [] == PeerResets(s.log) && Handed(calls(s.conn)) + [] == Handed(calls(s.conn));
    DropKept(calls, s.(conn := e, log := if ok then s.log + [DidReset(id, code)] else s.log), tab, id);
  }

  lemma ResetBooks<E(!new)>(ops: Ops<E>, calls: E -> seq<EngineCall>, s: H2<E>, out: bytes, tab: Tab, id: int, code: ErrorCode)
    requires Records(ops, calls) && Books(calls, s, out, tab)
    ensures Books(calls, ResetStream(ops, s, id, code), out, tab)
  {
    ResetKept(ops, calls, s, tab, id, code);
  }

  lemma DropBooks<E>(calls: E -> seq<EngineCall>, s: H2<E>, out: bytes, tab: Tab, id: int)
    requires Books(calls, s, out, tab)
    ensures Books(calls, DropStream(s, id), out, tab)
  {
    DropKept(calls, s, tab, id);
  }

  /** The first event that is due is handled; it stands for no call and no reset by the peer. */
  lemma EventBooks<E>(calls: E -> seq<EngineCall>, s: H2<E>, out: bytes, tab: Tab, e: Event)
    requires Books(calls, s, out, Before(tab, e)) && !e.DataReceived? && !e.StreamReset? && !e.ConnectionTerminated?
    ensures Books(calls, s.(log := s.log + [Got(e)]), out, tab)
  {
    EntryMore(s.log, Got(e));
    NextDue(EventsOf(s.log), e, tab.due);
  }

  /** With one event more still due. */
  function Before(tab: Tab, e: Event): Tab { tab.(due := [e] + tab.due) }

  lemma NextDue(handled: seq<Event>, e: Event, due: seq<Event>)
    ensures handled + [e] + due == handled + ([e] + due)
  {
  }

  /** An entry with the call it stands for. */
  lemma EntryBooks<E>(calls: E -> seq<EngineCall>, s: H2<E>, t: H2<E>, out: bytes, after: bytes, tab: Tab, e: Entry)
    requires Books(calls, s, out, tab) && t.log == s.log + [e] && !e.Got?
    requires Asks(calls(t.conn)) == Asks(calls(s.conn)) + CallOf(e) && after + t.control == Handed(calls(t.conn))
    requires Reported(calls(t.conn)) == Reported(calls(s.conn))
    requires t.cancelled == s.cancelled && t.remoteClosed == s.remoteClosed && t.localClosed == s.localClosed
    ensures Books(calls, t, after, tab)
  {
    EntryMore(s.log, e);
  }

  // ---------------------------------------------------------------- receiving

  lemma RequestBooks<E(!new)>(ops: Ops<E>, cfg: Config, calls: E -> seq<EngineCall>, s: H2<E>, out: bytes, tab: Tab,
                              id: int, head: Option<Head>)
    requires Records(ops, calls) && Books(calls, s, out, tab)
    ensures Books(calls, RequestArrived(ops, cfg, s, id, head), out, tab)
  {
    ResetBooks(ops, calls, s, out, tab, id, RefusedStream);
    ResetBooks(ops, calls, s, out, tab, id, ProtocolError);
  }

  /** DATA: acknowledged and logged, or refused by the engine and still due. */
  lemma DataBooks<E(!new)>(ops: Ops<E>, cfg: Config, calls: E -> seq<EngineCall>, s: H2<E>, out: bytes, tab: Tab,
                           id: int, data: bytes, flow: nat)
    requires Records(ops, calls) && Books(calls, s, out, Before(tab, DataReceived(id, data, flow)))
    ensures var r := DataArrived(ops, cfg, s, id, data, flow);
            Books(calls, r.s, out, if r.Ok? then tab else Before(tab, DataReceived(id, data, flow)))
  {
    var (e, ok) := ops.acknowledge(s.conn, id, flow);
    CallMore(calls(s.conn), Acknowledged(id, flow));
    if ok {
      DataLogged(calls, s, e, out, tab, id, data, flow);
      ChargeBooks(ops, cfg, calls, s.(conn := e, log := s.log + [Got(DataReceived(id, data, flow))]), out, tab, id, data);
    }
  }

  lemma DataLogged<E>(calls: E -> seq<EngineCall>, s: H2<E>, conn: E, out: bytes, tab: Tab, id: int, data: bytes, flow: nat)
    requires Books(calls, s, out, Before(tab, DataReceived(id, data, flow)))
    requires Asks(calls(conn)) == Asks(calls(s.conn)) + [Acknowledged(id, flow)]
    requires Handed(calls(conn)) == Handed(calls(s.conn)) && Reported(calls(conn)) == Reported(calls(s.conn))
    ensures Books(calls, s.(conn := conn, log := s.log + [Got(DataReceived(id, data, flow))]), out, tab)
  {
    var e := DataReceived(id, data, flow);
    EntryMore(s.log, Got(e));
    NextDue(EventsOf(s.log), e, tab.due);
  }

  lemma ChargeBooks<E(!new)>(ops: Ops<E>, cfg: Config, calls: E -> seq<EngineCall>, s: H2<E>, out: bytes, tab: Tab,
                             id: int, data: bytes)
    requires Records(ops, calls) && Books(calls, s, out, tab)
    ensures Books(calls, ChargeData(ops, cfg, s, id, data), out, tab)
  {
    ResetBooks(ops, calls, s, out, tab, id, EnhanceYourCalm);
    ResetBooks(ops, calls, s, out, tab, id, StreamClosed);
  }

  lemma EndBooks<E(!new)>(ops: Ops<E>, calls: E -> seq<EngineCall>, s: H2<E>, out: bytes, tab: Tab, id: int)
    requires Records(ops, calls) && Books(calls, s, out, tab)
    ensures Books(calls, StreamFinished(ops, s, id), out, tab)
  {
    ResetBooks(ops, calls, s, out, tab, id, ProtocolError);
  }

  lemma PeerResetBooks<E>(calls: E -> seq<EngineCall>, s: H2<E>, out: bytes, tab: Tab, id: int)
    requires Books(calls, s, out, Before(tab, StreamReset(id)))
    ensures Books(calls, s.(log := s.log + [Got(StreamReset(id))], cancelled := s.cancelled + [id]), out, tab)
  {
    EntryMore(s.log, Got(StreamReset(id)));
    NextDue(EventsOf(s.log), StreamReset(id), tab.due);
    assert tab.gone + (s.cancelled + [id]) == tab.gone + s.cancelled + [id];
  }

  lemma TerminatedBooks<E>(calls: E -> seq<EngineCall>, s: H2<E>, out: bytes, tab: Tab)
    requires Books(calls, s, out, Before(tab, ConnectionTerminated))
    ensures Books(calls, s.(log := s.log + [Got(ConnectionTerminated)], remoteClosed := true), out, tab)
  {
    EntryMore(s.log, Got(ConnectionTerminated));
    NextDue(EventsOf(s.log), ConnectionTerminated, tab.due);
  }

  lemma HandleBooks<E(!new)>(ops: Ops<E>, cfg: Config, calls: E -> seq<EngineCall>, s: H2<E>, out: bytes, tab: Tab, e: Event)
    requires Records(ops, calls) && Books(calls, s, out, Before(tab, e))
    ensures var r := HandleEvent(ops, cfg, s, e); Books(calls, r.s, out, if r.Ok? then tab else Before(tab, e))
  {
    var t := s.(log := s.log + [Got(e)]);
    if !e.DataReceived? && !e.StreamReset? && !e.ConnectionTerminated? {
      EventBooks(calls, s, out, tab, e);
    }
    match e
    case RequestReceived(id, head) => RequestBooks(ops, cfg, calls, t, out, tab, id, head);
    case DataReceived(id, data, flow) => DataBooks(ops, cfg, calls, s, out, tab, id, data, flow);
    case StreamEnded(id) => EndBooks(ops, calls, t, out, tab, id);
    case StreamReset(id) =>
      PeerResetBooks(calls, s, out, tab, id);
      DropBooks(calls, t.(cancelled := t.cancelled + [id]), out, tab, id);
    case TrailersReceived(id) => ResetBooks(ops, calls, t, out, tab, id, ProtocolError);
    case ConnectionTerminated => TerminatedBooks(calls, s, out, tab);
    case WindowOrSettings =>
  }

  /** All events that are due; where one raises, it and those behind it stay due. */
  lemma {:induction false} HandleAllBooks<E(!new)>(ops: Ops<E>, cfg: Config, calls: E -> seq<EngineCall>, s: H2<E>,
                                                   out: bytes, tab: Tab) returns (left: seq<Event>)
    requires Records(ops, calls) && Books(calls, s, out, tab)
    ensures var r := HandleEvents(ops, cfg, s, tab.due);
            Books(calls, r.s, out, tab.(due := left)) && (r.Ok? ==> left == [])
    decreases |tab.due|
  {
    left := tab.due;
    if left != [] {
      var rest := tab.(due := left[1..]);
      assert Before(rest, left[0]) == tab;
      HandleBooks(ops, cfg, calls, s, out, rest, left[0]);
      var t := HandleEvent(ops, cfg, s, left[0]);
      if t.Ok? {
        left := HandleAllBooks(ops, cfg, calls, t.s, out, rest);
      }
    }
  }

  /** Draining into the control output; where that raises, too much is owed. */
  lemma CaptureBooks<E(!new)>(ops: Ops<E>, cfg: Config, calls: E -> seq<EngineCall>, s: H2<E>, out: bytes, tab: Tab)
    requires Records(ops, calls) && Books(calls, s, out, tab)
    ensures match Capture(ops, cfg, s)
            case Ok(t) => Books(calls, t, out, tab) && !Overdrawn(cfg, calls, t, out)
            case Raised(t) => Witnessed(calls, t, tab) && Overdrawn(cfg, calls, t, out)
  {
    var (e, produced) := ops.drain(s.conn);
    CallMore(calls(s.conn), HandedOver(produced));
    assert Asks(calls(s.conn)) + [] == Asks(calls(s.conn));
    assert out + (s.control + produced) == out + s.control + produced;
  }

  /** What is left where reading a chunk raises: some of the events it stands for may still be due. */
  ghost predicate Stopped<E>(calls: E -> seq<EngineCall>, s: H2<E>, tab: Tab)
  {
    exists due :: Witnessed(calls, s, tab.(due := due))
  }

  lemma GivenBooks<E(!new)>(ops: Ops<E>, calls: E -> seq<EngineCall>, s: H2<E>, out: bytes, tab: Tab, chunk: bytes)
    requires Records(ops, calls) && Books(calls, s, out, tab) && tab.due == []
    ensures var (e, events) := ops.receive(s.conn, chunk);
            Books(calls, s.(conn := e, log := s.log + [Given(chunk)]), out, tab.(due := if events.Some? then events.value else []))
  {
    var (e, events) := ops.receive(s.conn, chunk);
    CallMore(calls(s.conn), WasGiven(chunk, events));
    EntryMore(s.log, Given(chunk));
    assert EventsOf(s.log) + [] == EventsOf(s.log);
  }

  lemma ChunkBooks<E(!new)>(ops: Ops<E>, cfg: Config, calls: E -> seq<EngineCall>, s: H2<E>, out: bytes, tab: Tab, chunk: bytes)
    requires Records(ops, calls) && Books(calls, s, out, tab) && tab.due == []
    ensures match ReadChunk(ops, cfg, s, chunk)
            case Ok(t) => Books(calls, t, out, tab) && !Overdrawn(cfg, calls, t, out)
            case Raised(t) => Stopped(calls, t, tab) && (Obliging(ops) ==> Overdrawn(cfg, calls, t, out))
  {
    var (e, events) := ops.receive(s.conn, chunk);
    var t := s.(conn := e, log := s.log + [Given(chunk)]);
    GivenBooks(ops, calls, s, out, tab, chunk);
    if events.Some? {
      var left := HandleAllBooks(ops, cfg, calls, t, out, tab.(due := events.value));
      ObligedEvents(ops, cfg, t, events.value);
      var u := HandleEvents(ops, cfg, t, events.value);
      assert tab.(due := events.value).(due := left) == tab.(due := left);
      if u.Ok? {
        assert tab.(due := left) == tab;
        CaptureBooks(ops, cfg, calls, u.s, out, tab);
        StoppedHere(calls, Capture(ops, cfg, u.s).s, tab, []);
      } else {
        StoppedHere(calls, u.s, tab, left);
      }
    } else {
      StoppedHere(calls, t, tab, []);
    }
  }

  lemma StoppedHere<E>(calls: E -> seq<EngineCall>, s: H2<E>, tab: Tab, due: seq<Event>)
    ensures Witnessed(calls, s, tab.(due := due)) ==> Stopped(calls, s, tab)
  {
  }

  /** An engine that refuses neither a frame nor an acknowledgement. */
  ghost predicate Obliging<E(!new)>(ops: Ops<E>)
  {
    && (forall e, w :: ops.receive(e, w).1.Some?)
    && (forall e, id, n :: ops.acknowledge(e, id, n).1)
  }

  lemma {:induction false} ObligedEvents<E(!new)>(ops: Ops<E>, cfg: Config, s: H2<E>, es: seq<Event>)
    ensures Obliging(ops) ==> HandleEvents(ops, cfg, s, es).Ok?
    decreases |es|
  {
    if es != [] && Obliging(ops) {
      var t := HandleEvent(ops, cfg, s, es[0]);
      assert t.Ok?;
      ObligedEvents(ops, cfg, t.s, es[1..]);
    }
  }

  lemma {:induction false} ChunksBooks<E(!new)>(ops: Ops<E>, cfg: Config, calls: E -> seq<EngineCall>, s: H2<E>,
                                                out: bytes, tab: Tab, chunks: seq<bytes>)
    requires Records(ops, calls) && Books(calls, s, out, tab) && tab.due == [] && !Overdrawn(cfg, calls, s, out)
    ensures match ReadChunks(ops, cfg, s, chunks)
            case Ok(t) => Books(calls, t, out, tab) && !Overdrawn(cfg, calls, t, out)
            case Raised(t) => Stopped(calls, t, tab) && (Obliging(ops) ==> Overdrawn(cfg, calls, t, out))
    decreases |chunks|
  {
    if chunks != [] {
      ChunkBooks(ops, cfg, calls, s, out, tab, chunks[0]);
      var t := ReadChunk(ops, cfg, s, chunks[0]);
      if t.Ok? {
        ChunksBooks(ops, cfg, calls, t.s, out, tab, chunks[1..]);
      }
    }
  }

  // ---------------------------------------------------------------- responding

  lemma EnqueueKept<E(!new)>(ops: Ops<E>, cfg: Config, calls: E -> seq<EngineCall>, s: H2<E>, tab: Tab, id: int, response: Response)
    requires Records(ops, calls) && Witnessed(calls, s, tab)
    ensures var t := Enqueue(ops, cfg, s, id, response).0; Witnessed(calls, t, tab) && SameOutput(calls, s, t)
  {
    ResetKept(ops, calls, s, tab, id, EnhanceYourCalm);
  }

  lemma AnswerKept<E(!new)>(ops: Ops<E>, cfg: Config, calls: E -> seq<EngineCall>, s: H2<E>, tab: Tab, id: int, response: Response)
    requires Records(ops, calls) && Witnessed(calls, s, tab)
    ensures var t := QueueResponse(ops, cfg, s, id, response).0; Witnessed(calls, t, tab) && SameOutput(calls, s, t)
  {
    EnqueueKept(ops, cfg, calls, ReleaseInbound(s, id), tab, id, response);
  }

  /** The engine was asked to send HEADERS. */
  lemma HeadCalls<E(!new)>(ops: Ops<E>, calls: E -> seq<EngineCall>, conn: E, id: int, response: Response, fin: bool)
    requires Records(ops, calls)
    ensures var (e, ok) := ops.sendHeaders(conn, id, response, fin);
            if !ok then calls(e) == calls(conn)
            else Asks(calls(e)) == Asks(calls(conn)) + [SentHead(id, response.body, fin)]
                 && Handed(calls(e)) == Handed(calls(conn)) && Reported(calls(e)) == Reported(calls(conn))
  {
    CallMore(calls(conn), SentHead(id, response.body, fin));
  }

  lemma HeadBooks<E(!new)>(ops: Ops<E>, calls: E -> seq<EngineCall>, s: H2<E>, out: bytes, tab: Tab, id: int, response: Response)
    requires Records(ops, calls) && Books(calls, s, out, tab)
    ensures Books(calls, SendHead(ops, s, id, response), out, tab)
  {
    HeadCalls(ops, calls, s.conn, id, response, response.body == []);
    HeadKept(ops, calls, s, out, tab, id, response);
  }

  lemma HeadKept<E>(ops: Ops<E>, calls: E -> seq<EngineCall>, s: H2<E>, out: bytes, tab: Tab, id: int, response: Response)
    requires Books(calls, s, out, tab)
    requires var (e, ok) := ops.sendHeaders(s.conn, id, response, response.body == []);
             if !ok then calls(e) == calls(s.conn)
             else Asks(calls(e)) == Asks(calls(s.conn)) + [SentHead(id, response.body, response.body == [])]
                  && Handed(calls(e)) == Handed(calls(s.conn)) && Reported(calls(e)) == Reported(calls(s.conn))
    ensures Books(calls, SendHead(ops, s, id, response), out, tab)
  {
    var (e, ok) := ops.sendHeaders(s.conn, id, response, response.body == []);
    if ok {
      HeadForm(ops, s, id, response);
      EntryBooks(calls, s, SendHead(ops, s, id, response), out, out, tab, DidHeaders(id, response.body, response.body == []));
    } else {
      RefusedBooks(calls, s, e, out, tab, s.pending - |response.body|, id);
    }
  }

  lemma HeadForm<E>(ops: Ops<E>, s: H2<E>, id: int, response: Response)
    requires ops.sendHeaders(s.conn, id, response, response.body == []).1
    ensures var t := SendHead(ops, s, id, response);
            && t.conn == ops.sendHeaders(s.conn, id, response, response.body == []).0
            && t.log == s.log + [DidHeaders(id, response.body, response.body == [])] && t.control == s.control
            && t.cancelled == s.cancelled && t.remoteClosed == s.remoteClosed && t.localClosed == s.localClosed
  {
  }

  /** A call the engine has refused. */
  lemma RefusedBooks<E>(calls: E -> seq<EngineCall>, s: H2<E>, e: E, out: bytes, tab: Tab, pending: int, id: int)
    requires Books(calls, s, out, tab) && calls(e) == calls(s.conn)
    ensures Books(calls, DropStream(s.(conn := e, pending := pending), id), out, tab)
  {
    DropBooks(calls, s.(conn := e, pending := pending), out, tab, id);
  }

  lemma StartBooks<E(!new)>(ops: Ops<E>, cfg: Config, calls: E -> seq<EngineCall>, s: H2<E>, out: bytes, tab: Tab,
                            id: int, response: Response)
    requires Records(ops, calls) && Books(calls, s, out, tab)
    ensures Books(calls, StartResponse(ops, cfg, s, id, response), out, tab)
  {
    if response.headerSize > cfg.maxHeaderBytes {
      var u := Uncounted(s, ResponseCommand(id, response));
      UncountedBooks(calls, s, out, tab, u.pending);
      ResetBooks(ops, calls, u, out, tab, id, InternalError);
      TooLargeIsReset(ops, cfg, s, id, response);
    } else {
      HeadBooks(ops, calls, s, out, tab, id, response);
    }
  }

  lemma UncountedBooks<E>(calls: E -> seq<EngineCall>, s: H2<E>, out: bytes, tab: Tab, pending: int)
    requires Books(calls, s, out, tab)
    ensures Books(calls, s.(pending := pending), out, tab)
  {
  }

  lemma CommandBooks<E(!new)>(ops: Ops<E>, cfg: Config, calls: E -> seq<EngineCall>, s: H2<E>, out: bytes, tab: Tab, c: Command)
    requires Records(ops, calls) && Books(calls, s, out, tab)
    ensures match RunCommand(ops, cfg, s, c)
            case Ok(t) => Books(calls, t, out, tab) && !Overdrawn(cfg, calls, t, out)
            case Raised(t) => Witnessed(calls, t, tab) && Overdrawn(cfg, calls, t, out)
  {
    match c
    case ResetCommand(id) =>
      ResetBooks(ops, calls, s, out, tab, id, EnhanceYourCalm);
      CaptureBooks(ops, cfg, calls, ResetStream(ops, s, id, EnhanceYourCalm), out, tab);
    case ResponseCommand(id, response) =>
      StartBooks(ops, cfg, calls, s, out, tab, id, response);
      CaptureBooks(ops, cfg, calls, StartResponse(ops, cfg, s, id, response), out, tab);
  }

  lemma {:induction false} CommandsBooks<E(!new)>(ops: Ops<E>, cfg: Config, calls: E -> seq<EngineCall>, s: H2<E>,
                                                  out: bytes, tab: Tab, commands: seq<Command>)
    requires Records(ops, calls) && Books(calls, s, out, tab)
    ensures match RunCommands(ops, cfg, s, commands)
            case Ok(t) => Books(calls, t, out, tab)
            case Raised(t) => Witnessed(calls, t, tab) && Overdrawn(cfg, calls, t, out)
    decreases |commands|
  {
    if commands != [] {
      CommandBooks(ops, cfg, calls, s, out, tab, commands[0]);
      var t := RunCommand(ops, cfg, s, commands[0]);
      if t.Ok? {
        CommandsBooks(ops, cfg, calls, t.s, out, tab, commands[1..]);
      }
    }
  }

  // ---------------------------------------------------------------- flushing

  /** In the middle of a flush: what it is about to return counts as returned, and nothing is held back. */
  ghost predicate FlushBooks<E>(calls: E -> seq<EngineCall>, f: Flushed<E>, out: bytes, tab: Tab)
  {
    Books(calls, f.s, out + f.output, tab) && f.s.control == []
  }

  /** What a part of a flush leaves, or a flush that raises. */
  ghost predicate FlushedBooks<E>(cfg: Config, calls: E -> seq<EngineCall>, r: Outcome<Flushed<E>>, out: bytes, tab: Tab)
  {
    match r
    case Ok(f) => FlushBooks(calls, f, out, tab)
    case Raised(f) => Witnessed(calls, f.s, tab) && Overdrawn(cfg, calls, f.s, out)
  }

  /** The engine took a chunk and was drained. */
  lemma SentCalls<E(!new)>(ops: Ops<E>, calls: E -> seq<EngineCall>, conn: E, id: int, chunk: bytes, fin: bool)
    requires Records(ops, calls) && ops.sendData(conn, id, chunk, fin).1
    ensures var (e, generated) := ops.drain(ops.sendData(conn, id, chunk, fin).0);
            && Asks(calls(e)) == Asks(calls(conn)) + [SentData(id, chunk, fin)]
            && Handed(calls(e)) == Handed(calls(conn)) + generated && Reported(calls(e)) == Reported(calls(conn))
  {
    var e := ops.sendData(conn, id, chunk, fin).0;
    CallMore(calls(conn), SentData(id, chunk, fin));
    CallMore(calls(e), HandedOver(ops.drain(e).1));
    assert Asks(calls(e)) + [] == Asks(calls(e)) && Handed(calls(conn)) + [] == Handed(calls(conn));
  }

  lemma SentBooks<E>(calls: E -> seq<EngineCall>, f: Flushed<E>, out: bytes, tab: Tab, o: Outbound, n: nat,
                     window: int, frameSize: int, e: E, generated: bytes)
    requires FlushBooks(calls, f, out, tab) && o.offset + n <= |o.body|
    requires var chunk, fin := o.body[o.offset..o.offset + n], n == Remaining(o);
             && Asks(calls(e)) == Asks(calls(f.s.conn)) + [SentData(o.id, chunk, fin)]
             && Handed(calls(e)) == Handed(calls(f.s.conn)) + generated && Reported(calls(e)) == Reported(calls(f.s.conn))
    ensures var t := Sent(f.s, e, o, n, window, frameSize);
            Books(calls, t, out + f.output + generated, tab) && t.control == []
  {
    var t := Sent(f.s, e, o, n, window, frameSize);
    assert out + f.output + [] == out + f.output && out + f.output + generated + [] == out + f.output + generated;
    EntryBooks(calls, f.s, t, out + f.output, out + f.output + generated, tab,
               DidData(o.id, o.body[o.offset..o.offset + n], n == Remaining(o), window, frameSize));
  }

  /** The output check behind a chunk. */
  lemma CheckedBooks<E>(cfg: Config, calls: E -> seq<EngineCall>, f: Flushed<E>, t: H2<E>, generated: bytes, id: int, fin: bool, out: bytes,
                        tab: Tab)
    requires Books(calls, t, out + f.output + generated, tab) && t.control == []
    ensures FlushedBooks(cfg, calls, AfterChunk(cfg, f, t, generated, id, fin), out, tab)
  {
    assert out + (f.output + generated) == out + f.output + generated;
    assert out + f.output + generated + [] == out + f.output + generated;
  }

  /** The engine refused a chunk. */
  lemma RefusedCalls<E(!new)>(ops: Ops<E>, calls: E -> seq<EngineCall>, conn: E, id: int, chunk: bytes, fin: bool)
    requires Records(ops, calls) && !ops.sendData(conn, id, chunk, fin).1
    ensures calls(ops.sendData(conn, id, chunk, fin).0) == calls(conn)
  {
    CallMore(calls(conn), HandedOver([]));
  }

  lemma RefusedChunk<E>(cfg: Config, calls: E -> seq<EngineCall>, f: Flushed<E>, out: bytes, tab: Tab, id: int, e: E)
    requires FlushBooks(calls, f, out, tab) && calls(e) == calls(f.s.conn)
    ensures FlushedBooks(cfg, calls, Ok(f.(s := DropStream(f.s.(conn := e), id))), out, tab)
  {
    RefusedBooks(calls, f.s, e, out + f.output, tab, f.s.pending, id);
    assert f.s.(conn := e, pending := f.s.pending) == f.s.(conn := e);
  }

  lemma TakenChunk<E>(cfg: Config, calls: E -> seq<EngineCall>, f: Flushed<E>, out: bytes, tab: Tab, o: Outbound, n: nat,
                      window: int, frameSize: int, e: E, generated: bytes)
    requires FlushBooks(calls, f, out, tab) && o.offset + n <= |o.body|
    requires var chunk, fin := o.body[o.offset..o.offset + n], n == Remaining(o);
             && Asks(calls(e)) == Asks(calls(f.s.conn)) + [SentData(o.id, chunk, fin)]
             && Handed(calls(e)) == Handed(calls(f.s.conn)) + generated && Reported(calls(e)) == Reported(calls(f.s.conn))
    ensures FlushedBooks(cfg, calls, AfterChunk(cfg, f, Sent(f.s, e, o, n, window, frameSize), generated, o.id, n == Remaining(o)),
                         out, tab)
  {
    SentBooks(calls, f, out, tab, o, n, window, frameSize, e, generated);
    CheckedBooks(cfg, calls, f, Sent(f.s, e, o, n, window, frameSize), generated, o.id, n == Remaining(o), out, tab);
  }

  lemma SendBooks<E(!new)>(ops: Ops<E>, cfg: Config, calls: E -> seq<EngineCall>, f: Flushed<E>, out: bytes, tab: Tab,
                           o: Outbound, n: nat, window: int)
    requires Records(ops, calls) && FlushBooks(calls, f, out, tab) && o.offset + n <= |o.body|
    ensures FlushedBooks(cfg, calls, SendChunk(ops, cfg, f, o, n, window), out, tab)
  {
    var chunk, fin := o.body[o.offset..o.offset + n], n == Remaining(o);
    var (e, ok) := ops.sendData(f.s.conn, o.id, chunk, fin);
    SendChunkShape(ops, cfg, f, o, n, window);
    if ok {
      var (e', generated) := ops.drain(e);
      SentCalls(ops, calls, f.s.conn, o.id, chunk, fin);
      TakenChunk(cfg, calls, f, out, tab, o, n, window, ops.frameSize(f.s.conn), e', generated);
    } else {
      RefusedCalls(ops, calls, f.s.conn, o.id, chunk, fin);
      RefusedChunk(cfg, calls, f, out, tab, o.id, e);
    }
  }

  lemma StreamBooks<E(!new)>(ops: Ops<E>, cfg: Config, calls: E -> seq<EngineCall>, f: Flushed<E>, out: bytes, tab: Tab, o: Outbound)
    requires Records(ops, calls) && FlushBooks(calls, f, out, tab)
    ensures FlushedBooks(cfg, calls, FlushStream(ops, cfg, f, o), out, tab)
  {
    var window := ops.window(f.s.conn, o.id);
    if Remaining(o) > 0 {
      if window == None {
        DropBooks(calls, f.s, out + f.output, tab, o.id);
      } else {
        var n := ChunkSize(o, window.value, ops.frameSize(f.s.conn));
        if n > 0 {
          SendBooks(ops, cfg, calls, f, out, tab, o, n, window.value);
        }
      }
    }
  }

  lemma {:induction false} StreamsBooks<E(!new)>(ops: Ops<E>, cfg: Config, calls: E -> seq<EngineCall>, f: Flushed<E>,
                                                 out: bytes, tab: Tab, todo: seq<Outbound>)
    requires Records(ops, calls) && FlushBooks(calls, f, out, tab)
    ensures FlushedBooks(cfg, calls, FlushStreams(ops, cfg, f, todo), out, tab)
    decreases |todo|
  {
    if todo != [] {
      StreamBooks(ops, cfg, calls, f, out, tab, todo[0]);
      var r := FlushStream(ops, cfg, f, todo[0]);
      if r.Ok? {
        StreamsBooks(ops, cfg, calls, r.s, out, tab, todo[1..]);
      }
    }
  }

  lemma FinishBooks<E(!new)>(ops: Ops<E>, cfg: Config, calls: E -> seq<EngineCall>, f: Flushed<E>, out: bytes, tab: Tab)
    requires Records(ops, calls) && FlushBooks(calls, f, out, tab)
    ensures FlushedBooks(cfg, calls, FinishFlush(ops, cfg, f), out, tab)
  {
    var (e, generated) := ops.drain(f.s.conn);
    CallMore(calls(f.s.conn), HandedOver(generated));
    assert Asks(calls(f.s.conn)) + [] == Asks(calls(f.s.conn));
    assert out + f.output + [] == out + f.output && out + (f.output + generated) + [] == out + f.output + generated;
  }

  /** A flush: nothing that was held back is left out, nothing is returned twice. */
  lemma FlushesBooks<E(!new)>(ops: Ops<E>, cfg: Config, calls: E -> seq<EngineCall>, s: H2<E>, out: bytes, tab: Tab)
    requires Records(ops, calls) && Books(calls, s, out, tab)
    ensures FlushedBooks(cfg, calls, Flush(ops, cfg, s), out, tab)
    ensures Flush(ops, cfg, s).Ok? ==> |Flush(ops, cfg, s).s.output| + Flush(ops, cfg, s).s.s.pending <= cfg.maxPendingOutput
  {
    CommandsBooks(ops, cfg, calls, s.(commands := []), out, tab, s.commands);
    var t := RunCommands(ops, cfg, s.(commands := []), s.commands);
    if t.Ok? {
      var f := Flushed(t.s.(control := []), t.s.control);
      assert out + t.s.control + [] == out + t.s.control;
      StreamsBooks(ops, cfg, calls, f, out, tab, t.s.outbound);
      var r := FlushStreams(ops, cfg, f, t.s.outbound);
      if r.Ok? {
        FinishBooks(ops, cfg, calls, r.s, out, tab);
      }
    }
  }

  // ---------------------------------------------------------------- closing

  lemma DrainCalls<E(!new)>(ops: Ops<E>, calls: E -> seq<EngineCall>, conn: E)
    requires Records(ops, calls)
    ensures var (e, produced) := ops.drain(conn);
            && Asks(calls(e)) == Asks(calls(conn)) && Handed(calls(e)) == Handed(calls(conn)) + produced
            && Reported(calls(e)) == Reported(calls(conn))
  {
    CallMore(calls(conn), HandedOver(ops.drain(conn).1));
    assert Asks(calls(conn)) + [] == Asks(calls(conn));
  }

  lemma GoawayCalls<E(!new)>(ops: Ops<E>, calls: E -> seq<EngineCall>, conn: E, code: int, last: int)
    requires Records(ops, calls)
    ensures var (e, ok) := ops.goaway(conn, code, last);
            && Asks(calls(e)) == Asks(calls(conn)) + (if ok then [SaidGoaway(code, last)] else [])
            && Handed(calls(e)) == Handed(calls(conn)) && Reported(calls(e)) == Reported(calls(conn))
  {
    CallMore(calls(conn), SaidGoaway(code, last));
    assert Handed(calls(conn)) + [] == Handed(calls(conn)) && Asks(calls(conn)) + [] == Asks(calls(conn));
  }

  lemma GoawayKept<E(!new)>(ops: Ops<E>, calls: E -> seq<EngineCall>, s: H2<E>, tab: Tab, code: int)
    requires Records(ops, calls) && Witnessed(calls, s, tab)
    ensures Witnessed(calls, SayGoaway(ops, s, code), tab.(closed := true)) && SameOutput(calls, s, SayGoaway(ops, s, code))
  {
    GoawayCalls(ops, calls, s.conn, code, s.last);
    EntryMore(s.log, DidGoaway(code, s.last));
    assert PeerResets(s.log) + [] == PeerResets(s.log) && Asks(calls(s.conn)) + [] == Asks(calls(s.conn));
  }

  lemma ClearedKept<E>(calls: E -> seq<EngineCall>, s: H2<E>, conn: E, tab: Tab)
    requires Witnessed(calls, s, tab) && Asks(calls(conn)) == Asks(calls(s.conn)) && Reported(calls(conn)) == Reported(calls(s.conn))
    ensures Witnessed(calls, Cleared(s, conn), tab)
  {
  }

  lemma CloseKept<E(!new)>(ops: Ops<E>, cfg: Config, calls: E -> seq<EngineCall>, s: H2<E>, tab: Tab, code: int)
    requires Records(ops, calls) && Witnessed(calls, s, tab)
    ensures var t := Close(ops, cfg, s, code).0; Witnessed(calls, t, tab.(closed := true)) && t.control == [] && t.pending == 0
  {
    GoawayKept(ops, calls, s, tab, code);
    var u := SayGoaway(ops, s, code);
    DrainCalls(ops, calls, u.conn);
    ClearedKept(calls, u, ops.drain(u.conn).0, tab.(closed := true));
  }

  /** A close returns what is held back and what the engine still has, unless that is over a limit; then it is lost. */
  lemma CloseReturns<E(!new)>(ops: Ops<E>, cfg: Config, calls: E -> seq<EngineCall>, s: H2<E>, out: bytes, tab: Tab, code: int)
    requires Records(ops, calls) && Books(calls, s, out, tab)
    ensures var (t, output) := Close(ops, cfg, s, code);
            && Books(calls, t, Handed(calls(t.conn)), tab.(closed := true)) && t.pending == 0
            && if CloseLoses(ops, cfg, s, code) then output == [] && |Handed(calls(t.conn))| > |out|
               else Handed(calls(t.conn)) == out + output
  {
    var (t, output) := Close(ops, cfg, s, code);
    CloseKept(ops, cfg, calls, s, tab, code);
    ClosedOutput(ops, cfg, calls, s, tab, code);
    assert Handed(calls(t.conn)) + [] == Handed(calls(t.conn));
    var generated := ops.drain(SayGoaway(ops, s, code).conn).1;
    assert out + (s.control + generated) == out + s.control + generated;
  }

  lemma CloseShape<E>(ops: Ops<E>, cfg: Config, s: H2<E>, code: int)
    ensures var u := SayGoaway(ops, s, code);
            var (t, output) := Close(ops, cfg, s, code);
            && t.conn == ops.drain(u.conn).0 && u.control == s.control
            && output == (if CloseLoses(ops, cfg, s, code) then [] else s.control + ops.drain(u.conn).1)
            && (CloseLoses(ops, cfg, s, code) ==> |s.control + ops.drain(u.conn).1| > 0)
  {
  }

  /** What the engine has handed over once the connection is closed. */
  lemma ClosedOutput<E(!new)>(ops: Ops<E>, cfg: Config, calls: E -> seq<EngineCall>, s: H2<E>, tab: Tab, code: int)
    requires Records(ops, calls) && Witnessed(calls, s, tab)
    ensures var generated := ops.drain(SayGoaway(ops, s, code).conn).1;
            var (t, output) := Close(ops, cfg, s, code);
            && Handed(calls(t.conn)) == Handed(calls(s.conn)) + generated
            && output == (if CloseLoses(ops, cfg, s, code) then [] else s.control + generated)
            && (CloseLoses(ops, cfg, s, code) ==> |s.control + generated| > 0)
  {
    GoawayKept(ops, calls, s, tab, code);
    DrainCalls(ops, calls, SayGoaway(ops, s, code).conn);
    CloseShape(ops, cfg, s, code);
  }

  /** Is what a close would return over a limit? */
  predicate CloseLoses<E>(ops: Ops<E>, cfg: Config, s: H2<E>, code: int)
  {
    var size := |s.control| + |ops.drain(SayGoaway(ops, s, code).conn).1|;
    size > cfg.maxPendingOutput || size > cfg.maxControlOutput
  }
}
