/**
 When a stream is dropped: on the receiving side said from the event, the log and the limits alone, with the reset
 code the peer is told; and for accepted responses never without a cause.
 */
module H2Drops {
  import opened Bytes
  import opened Optional
  import opened FrameBudgetSplitter
  import opened H2State
  import opened H2Invariant
  import opened H2Safety
  import opened H2Operations
  import opened H2Sending
  import opened H2Runs
  import opened H2Complete

  // ---------------------------------------------------------------- receiving

  lemma IdleIsNotDropped(log: seq<Entry>, id: int, body: bytes)
    requires Replay(log, id, body) == Idle || Replay(log, id, body).Sending?
    ensures Dropped(id) !in log
  {
    if Dropped(id) in log {
      DroppedIsGone(log, id, body);
    }
  }

  lemma HeldReplays<E>(s: H2<E>, g: Story, id: int)
    requires Responses(s, g, {}) && id in s.active
    requires forall o | o in s.outbound :: Body(g, o.id) == o.body
    ensures Replay(s.log, id, Body(g, id)) == Idle || Replay(s.log, id, Body(g, id)).Sending?
  {
    if id in OutIds(s.outbound) {
      var o :| o in s.outbound && o.id == id;
      assert Replay(s.log, o.id, o.body) == Sending(o.body[..o.offset]);
    }
  }

  /** A stream that is held was not dropped. */
  lemma HeldIsNotDropped<E>(cfg: Config, s: H2<E>, g: Story, id: int)
    requires Inv(cfg, s, g) && id in s.active
    ensures Dropped(id) !in s.log && Replay(s.log, id, Body(g, id)) != Complete
  {
    HeldReplays(s, g, id);
    IdleIsNotDropped(s.log, id, Body(g, id));
  }

  lemma {:induction false} DroppedIsGone(log: seq<Entry>, id: int, body: bytes)
    requires Dropped(id) in log
    ensures Replay(log, id, body) == Gone || Replay(log, id, body) == Broken
  {
    var n := |log| - 1;
    if log[n] != Dropped(id) {
      assert log == log[..n] + [log[n]];
      DroppedIsGone(log[..n], id, body);
    }
  }

  /** The active streams are those the client has asked for that were neither dropped nor answered in full. */
  lemma ActiveIsOpen<E>(cfg: Config, s: H2<E>, g: Story, id: int)
    requires Inv(cfg, s, g) && Whole(s, g, {})
    ensures id in s.active <==> WasAsked(s.log, id) && Dropped(id) !in s.log && Replay(s.log, id, Body(g, id)) != Complete
  {
    if id in s.active {
      HeldIsNotDropped(cfg, s, g, id);
    } else if WasAsked(s.log, id) && Dropped(id) !in s.log {
      var head :| Asked(s.log, id, head);
      assert ActiveHere(s, g, id);
    }
  }

  /** Would these bytes be too many: for any body, for the length declared, or for the connection? */
  predicate OverLimits(cfg: Config, head: Head, size: nat, held: int)
  {
    size > cfg.maxBody || (head.contentLength.Some? && size > head.contentLength.value) || held > cfg.maxConnectionBuffer
  }

  /**
   Does the event cost its stream its life, and what is the peer told?  Too many streams, an unreadable head, a body
   over a limit or of another length than declared, trailers, a reset by the peer.
   */
  ghost predicate Costs<E>(cfg: Config, s: H2<E>, e: Event, code: Option<ErrorCode>)
  {
    match e
    case RequestReceived(_, head) =>
      if |s.active| >= cfg.maxStreams then code == Some(RefusedStream) else head == None && code == Some(ProtocolError)
    case DataReceived(id, data, _) =>
      code == Some(EnhanceYourCalm) && Dropped(id) !in s.log
      && exists head :: Asked(s.log, id, head) && OverLimits(cfg, head, |DataOf(s.log, id)| + |data|, s.buffered + |data|)
    case StreamEnded(id) =>
      code == Some(ProtocolError) && Dropped(id) !in s.log
      && exists head :: Asked(s.log, id, head) && head.contentLength.Some? && |DataOf(s.log, id)| != head.contentLength.value
    case StreamReset(_) => code == None
    case TrailersReceived(_) => code == Some(ProtocolError)
    case ConnectionTerminated => false
    case WindowOrSettings => false
  }

  /** The log behind the event: the stream is dropped, and the peer is told exactly if the engine lets it. */
  ghost predicate DroppedWith<E>(ops: Ops<E>, conn: E, log: seq<Entry>, before: seq<Entry>, id: int, code: Option<ErrorCode>)
  {
    log == before + (if code.Some? && ops.reset(conn, id, code.value).1 then [DidReset(id, code.value)] else []) + [Dropped(id)]
  }

  lemma ResetLog<E>(ops: Ops<E>, s: H2<E>, id: int, code: ErrorCode)
    ensures DroppedWith(ops, s.conn, ResetStream(ops, s, id, code).log, s.log, id, Some(code))
  {
    assert s.log + [] == s.log;
  }

  /** The engine when the event is dealt with: DATA was acknowledged first. */
  function Acted<E>(ops: Ops<E>, conn: E, e: Event): E
  {
    if e.DataReceived? then ops.acknowledge(conn, e.id, e.flow).0 else conn
  }

  lemma AskedIsHeld<E>(s: H2<E>, g: Story, id: int)
    requires Whole(s, g, {}) && !Ended(s.log, id) && WasAsked(s.log, id) && Dropped(id) !in s.log
    ensures id in s.inbound
  {
    var head :| Asked(s.log, id, head);
    assert RequestHere(s, g, id, head);
  }

  lemma HeldIsAsked<E>(cfg: Config, s: H2<E>, g: Story, id: int)
    requires Inv(cfg, s, g) && id in s.inbound && id !in g.ended
    ensures Asked(s.log, id, s.inbound[id].head) && Dropped(id) !in s.log
    ensures !s.inbound[id].dispatched && s.inbound[id].body == DataOf(s.log, id)
  {
    HeldIsNotDropped(cfg, s, g, id);
  }

  /** A request that is still coming in. */
  lemma ComingIn<E>(cfg: Config, s: H2<E>, g: Story, id: int)
    requires Inv(cfg, s, g) && Whole(s, g, {}) && id !in g.ended
    ensures id in s.inbound <==> WasAsked(s.log, id) && Dropped(id) !in s.log
    ensures id in s.inbound ==>
              && !s.inbound[id].dispatched && |s.inbound[id].body| == |DataOf(s.log, id)|
              && Asked(s.log, id, s.inbound[id].head)
              && forall head | Asked(s.log, id, head) :: head == s.inbound[id].head
  {
    assert !Ended(s.log, id);
    if id in s.inbound {
      HeldIsAsked(cfg, s, g, id);
      OnlyHead(s, g, id);
    } else if WasAsked(s.log, id) {
      NotHeldIsDropped(s, g, id);
    }
  }

  lemma NotHeldIsDropped<E>(s: H2<E>, g: Story, id: int)
    requires Whole(s, g, {}) && !Ended(s.log, id) && WasAsked(s.log, id) && id !in s.inbound
    ensures Dropped(id) in s.log
  {
    if Dropped(id) !in s.log {
      AskedIsHeld(s, g, id);
    }
  }

  lemma OnlyHead<E>(s: H2<E>, g: Story, id: int)
    requires Whole(s, g, {}) && !Ended(s.log, id) && Dropped(id) !in s.log && id in s.inbound
    ensures forall head | Asked(s.log, id, head) :: head == s.inbound[id].head
  {
    forall head | Asked(s.log, id, head) ensures head == s.inbound[id].head {
      assert RequestHere(s, g, id, head);
    }
  }

  ghost predicate Follows<E>(ops: Ops<E>, cfg: Config, s: H2<E>, e: Event, log: seq<Entry>)
    requires !e.ConnectionTerminated? && !e.WindowOrSettings?
  {
    && (forall code | Costs(cfg, s, e, code) :: DroppedWith(ops, Acted(ops, s.conn, e), log, s.log + [Got(e)], e.id, code))
    && ((forall code :: !Costs(cfg, s, e, code)) ==> log == s.log + [Got(e)])
  }

  lemma DataFollows<E>(ops: Ops<E>, cfg: Config, s: H2<E>, g: Story, id: int, data: bytes, flow: nat)
    requires Inv(cfg, s, g) && Whole(s, g, {}) && id !in g.ended && DataArrived(ops, cfg, s, id, data, flow).Ok?
    ensures Follows(ops, cfg, s, DataReceived(id, data, flow), DataArrived(ops, cfg, s, id, data, flow).s.log)
  {
    var e := DataReceived(id, data, flow);
    var t := s.(conn := ops.acknowledge(s.conn, id, flow).0, log := s.log + [Got(e)]);
    ComingIn(cfg, s, g, id);
    if id in s.inbound && OverLimits(cfg, s.inbound[id].head, |DataOf(s.log, id)| + |data|, s.buffered + |data|) {
      assert Costs(cfg, s, e, Some(EnhanceYourCalm));
      ResetLog(ops, t, id, EnhanceYourCalm);
    } else {
      assert forall code :: !Costs(cfg, s, e, code);
    }
  }

  lemma EndFollows<E>(ops: Ops<E>, cfg: Config, s: H2<E>, g: Story, id: int)
    requires Inv(cfg, s, g) && Whole(s, g, {}) && id !in g.ended
    ensures Follows(ops, cfg, s, StreamEnded(id), StreamFinished(ops, s.(log := s.log + [Got(StreamEnded(id))]), id).log)
  {
    var e := StreamEnded(id);
    ComingIn(cfg, s, g, id);
    if id in s.inbound && s.inbound[id].head.contentLength.Some? && |DataOf(s.log, id)| != s.inbound[id].head.contentLength.value {
      assert Costs(cfg, s, e, Some(ProtocolError));
      ResetLog(ops, s.(log := s.log + [Got(e)]), id, ProtocolError);
    } else {
      assert forall code :: !Costs(cfg, s, e, code);
    }
  }

  lemma RequestFollows<E>(ops: Ops<E>, cfg: Config, s: H2<E>, id: int, head: Option<Head>)
    ensures var e := RequestReceived(id, head);
            Follows(ops, cfg, s, e, RequestArrived(ops, cfg, s.(log := s.log + [Got(e)]), id, head).log)
  {
    var e := RequestReceived(id, head);
    var t := s.(log := s.log + [Got(e)]);
    ResetLog(ops, t, id, RefusedStream);
    ResetLog(ops, t, id, ProtocolError);
    if |s.active| >= cfg.maxStreams {
      assert Costs(cfg, s, e, Some(RefusedStream));
    } else if head == None {
      assert Costs(cfg, s, e, Some(ProtocolError));
    } else {
      assert forall code :: !Costs(cfg, s, e, code);
    }
  }

  /**
   Every event of a lawful engine, in every state of the invariants: its stream is dropped if and only if the event,
   the log and the limits say so, the peer is told the code they call for, and nothing else is dropped or reset.
   */
  lemma EventDropsExactly<E>(ops: Ops<E>, cfg: Config, s: H2<E>, g: Story, e: Event)
    requires Inv(cfg, s, g) && Whole(s, g, {}) && AfterEvent(e, g.hi, g.ended).Some? && HandleEvent(ops, cfg, s, e).Ok?
    requires !e.ConnectionTerminated? && !e.WindowOrSettings?
    ensures Follows(ops, cfg, s, e, HandleEvent(ops, cfg, s, e).s.log)
  {
    var t := s.(log := s.log + [Got(e)]);
    match e
    case RequestReceived(id, head) => RequestFollows(ops, cfg, s, id, head);
    case DataReceived(id, data, flow) => DataFollows(ops, cfg, s, g, id, data, flow);
    case StreamEnded(id) => EndFollows(ops, cfg, s, g, id);
    case StreamReset(id) =>
      assert Costs(cfg, s, e, None);
      assert t.log + [] == t.log;
    case TrailersReceived(id) =>
      assert Costs(cfg, s, e, Some(ProtocolError));
      ResetLog(ops, t, id, ProtocolError);
    case ConnectionTerminated =>
    case WindowOrSettings =>
  }

  // ---------------------------------------------------------------- responding

  /**
   What a queued command does to its stream, and only to it: a refused response is reset as too much, one with too
   large a header list as the server's fault, one the engine does not take is dropped, and for any other the HEADERS
   go out.
   */
  ghost predicate Carries<E>(ops: Ops<E>, cfg: Config, conn: E, before: seq<Entry>, c: Command, log: seq<Entry>)
  {
    match c
    case ResetCommand(id) => DroppedWith(ops, conn, log, before, id, Some(EnhanceYourCalm))
    case ResponseCommand(id, response) =>
      if response.headerSize > cfg.maxHeaderBytes then DroppedWith(ops, conn, log, before, id, Some(InternalError))
      else if !ops.sendHeaders(conn, id, response, response.body == []).1 then log == before + [Dropped(id)]
      else log == before + [DidHeaders(id, response.body, response.body == [])]
  }

  lemma CommandsCarry<E>(ops: Ops<E>, cfg: Config, s: H2<E>, c: Command)
    ensures Carries(ops, cfg, s.conn, s.log, c, RunCommand(ops, cfg, s, c).s.log)
  {
    match c
    case ResetCommand(id) => ResetLog(ops, s, id, EnhanceYourCalm);
    case ResponseCommand(id, response) => ResetLog(ops, s.(pending := s.pending - |response.body|), id, InternalError);
  }
}
