/** The remaining operations keep the invariant: reading whole batches, responding, flushing, closing. */
module H2Operations {
  import opened Bytes
  import opened Optional
  import opened FrameBudgetSplitter
  import opened H2State
  import opened H2Invariant
  import opened H2Safety

  /** The story and the engine agree on which streams were opened and ended. */
  ghost predicate Synced<E>(ops: Ops<E>, e: E, g: Story)
  {
    ops.lastOpened(e) == g.hi && ops.halfClosed(e) == g.ended
  }

  // ---------------------------------------------------------------- receiving

  lemma ResetKeepsStreams<E(!new)>(ops: Ops<E>, s: H2<E>, id: int, code: ErrorCode)
    requires Lawful(ops)
    ensures SameStreams(ops, s.conn, ResetStream(ops, s, id, code).conn)
  {
  }

  lemma EventKeepsStreams<E(!new)>(ops: Ops<E>, cfg: Config, s: H2<E>, e: Event)
    requires Lawful(ops)
    ensures SameStreams(ops, s.conn, HandleEvent(ops, cfg, s, e).s.conn)
  {
    var t := s.(log := s.log + [Got(e)]);
    match e
    case RequestReceived(id, head) =>
      ResetKeepsStreams(ops, t, id, RefusedStream);
      ResetKeepsStreams(ops, t, id, ProtocolError);
    case DataReceived(id, data, flow) =>
      var (c, ok) := ops.acknowledge(s.conn, id, flow);
      assert SameStreams(ops, s.conn, c);
      var u := s.(conn := c, log := s.log + [Got(DataReceived(id, data, flow))]);
      ResetKeepsStreams(ops, u, id, EnhanceYourCalm);
      ResetKeepsStreams(ops, u, id, StreamClosed);
    case StreamEnded(id) => ResetKeepsStreams(ops, t, id, ProtocolError);
    case StreamReset(id) =>
    case TrailersReceived(id) => ResetKeepsStreams(ops, t, id, ProtocolError);
    case ConnectionTerminated =>
    case WindowOrSettings =>
  }

  lemma {:induction false} HandleEventsInv<E(!new)>(ops: Ops<E>, cfg: Config, s: H2<E>, g: Story, es: seq<Event>) returns (h: Story)
    requires Lawful(ops) && Inv(cfg, s, g) && AfterEvents(es, g.hi, g.ended).Some?
    ensures h == g.(hi := h.hi, ended := h.ended) && Inv(cfg, HandleEvents(ops, cfg, s, es).s, h)
    ensures HandleEvents(ops, cfg, s, es).Ok? ==>
              AfterEvents(es, g.hi, g.ended) == Some((h.hi, h.ended))
              && SameStreams(ops, s.conn, HandleEvents(ops, cfg, s, es).s.conn)
    decreases |es|
  {
    h := g;
    if es != [] {
      HandleEventInv(ops, cfg, s, g, es[0]);
      EventKeepsStreams(ops, cfg, s, es[0]);
      var (hi, ended) := AfterEvent(es[0], g.hi, g.ended).value;
      h := g.(hi := hi, ended := ended);
      var t := HandleEvent(ops, cfg, s, es[0]);
      if t.Ok? {
        h := HandleEventsInv(ops, cfg, t.s, h, es[1..]);
      }
    }
  }

  lemma CaptureInv<E>(ops: Ops<E>, cfg: Config, s: H2<E>, g: Story)
    requires Inv(cfg, s, g)
    ensures Inv(cfg, Capture(ops, cfg, s).s, g)
  {
    var t := Capture(ops, cfg, s).s;
    OtherConn(cfg, s, g, {}, t.conn);
    var u := s.(conn := t.conn);
    RequestsFrame(u, g, {}, t, g, {});
    ResponsesFrame(u, g, {}, t, g, {});
  }

  /** A chunk the engine made these events of. */
  lemma EventsReadInv<E(!new)>(ops: Ops<E>, cfg: Config, s: H2<E>, g: Story, events: seq<Event>) returns (h: Story)
    requires Lawful(ops) && Inv(cfg, s, g)
    requires AfterEvents(events, g.hi, g.ended) == Some((ops.lastOpened(s.conn), ops.halfClosed(s.conn)))
    ensures h == g.(hi := h.hi, ended := h.ended)
    ensures var r := HandleEvents(ops, cfg, s, events);
            && Inv(cfg, r.s, h)
            && (r.Ok? ==> Inv(cfg, Capture(ops, cfg, r.s).s, h) && Synced(ops, Capture(ops, cfg, r.s).s.conn, h))
  {
    h := HandleEventsInv(ops, cfg, s, g, events);
    var r := HandleEvents(ops, cfg, s, events);
    if r.Ok? {
      CaptureInv(ops, cfg, r.s, h);
      assert SameStreams(ops, r.s.conn, ops.drain(r.s.conn).0);
    }
  }

  lemma ReadChunkInv<E(!new)>(ops: Ops<E>, cfg: Config, s: H2<E>, g: Story, chunk: bytes) returns (h: Story)
    requires Lawful(ops) && Inv(cfg, s, g) && Synced(ops, s.conn, g)
    ensures h == g.(hi := h.hi, ended := h.ended) && Inv(cfg, ReadChunk(ops, cfg, s, chunk).s, h)
    ensures ReadChunk(ops, cfg, s, chunk).Ok? ==> Synced(ops, ReadChunk(ops, cfg, s, chunk).s.conn, h)
  {
    var (e, events) := ops.receive(s.conn, chunk);
    Neutral(cfg, s, g, {}, e, Given(chunk));
    h := g;
    if events.Some? {
      h := EventsReadInv(ops, cfg, s.(conn := e, log := s.log + [Given(chunk)]), g, events.value);
    }
  }

  lemma {:induction false} ReadChunksInv<E(!new)>(ops: Ops<E>, cfg: Config, s: H2<E>, g: Story, chunks: seq<bytes>) returns (h: Story)
    requires Lawful(ops) && Inv(cfg, s, g) && Synced(ops, s.conn, g)
    ensures h == g.(hi := h.hi, ended := h.ended) && Inv(cfg, ReadChunks(ops, cfg, s, chunks).s, h)
    ensures ReadChunks(ops, cfg, s, chunks).Ok? ==> Synced(ops, ReadChunks(ops, cfg, s, chunks).s.conn, h)
    decreases |chunks|
  {
    h := g;
    if chunks != [] {
      h := ReadChunkInv(ops, cfg, s, g, chunks[0]);
      var t := ReadChunk(ops, cfg, s, chunks[0]);
      if t.Ok? {
        h := ReadChunksInv(ops, cfg, t.s, h, chunks[1..]);
      }
    }
  }

  /** The two filters of `receive_data` never remove anything: dropping a stream already has. */
  lemma {:induction false} NothingFiltered<E>(s: H2<E>, ready: seq<Ready>)
    requires forall r | r in ready :: r.id !in s.cancelled && r.id in s.active
    ensures Deliverable(s, ready) == ready
  {
    if ready != [] {
      var n := |ready| - 1;
      assert ready == ready[..n] + [ready[n]];
      NothingFiltered(s, ready[..n]);
    }
  }

  lemma ReadyIsDeliverable<E>(cfg: Config, s: H2<E>, g: Story)
    requires Inv(cfg, s, g)
    ensures Deliverable(s, s.ready) == s.ready
  {
    NothingFiltered(s, s.ready);
  }

  ghost function HandedOut(g: Story, requests: seq<Ready>): Story
  {
    g.(delivered := g.delivered + requests, waiting := g.waiting + ReadyIds(requests))
  }

  lemma HandOutLinked<E>(cfg: Config, s: H2<E>, g: Story)
    requires Linked(s, g) && Tables(cfg, s, {})
    ensures Linked(s.(ready := []), HandedOut(g, s.ready))
  {
    var h := HandedOut(g, s.ready);
    assert h.delivered + [] == g.delivered + s.ready;
    assert ReadyIds(h.delivered) == ReadyIds(g.delivered) + ReadyIds(s.ready) by {
      assert forall r :: r in h.delivered <==> r in g.delivered || r in s.ready;
    }
    HandedOutOnce(g.delivered, s.ready);
    assert forall r | r in s.ready :: r.id in s.inbound;
  }

  lemma HandOut<E>(cfg: Config, s: H2<E>, g: Story)
    requires Inv(cfg, s, g)
    ensures Inv(cfg, s.(ready := []), HandedOut(g, s.ready))
  {
    var t, h := s.(ready := []), HandedOut(g, s.ready);
    HandOutLinked(cfg, s, g);
    RequestsFrame(s, g, {}, t, h, {});
    ResponsesFrame(s, g, {}, t, h, {});
    assert Tables(cfg, t, {}) && Accounts(cfg, t);
  }

  lemma HandedOutOnce(a: seq<Ready>, b: seq<Ready>)
    requires DistinctReady(a + b)
    ensures ReadyIds(a) !! ReadyIds(b)
  {
    forall x, y | x in a && y in b ensures x.id != y.id {
      var i :| 0 <= i < |a| && a[i] == x;
      var j :| 0 <= j < |b| && b[j] == y;
      assert (a + b)[i] == x && (a + b)[|a| + j] == y;
    }
  }

  /** `receive_data` keeps the invariant; what it returns is added to what was handed out. */
  lemma ReceiveDataInv<E(!new)>(ops: Ops<E>, cfg: Config, frames: Splitter, s: H2<E>, g: Story, data: bytes) returns (h: Story)
    requires Lawful(ops) && Inv(cfg, s, g) && Synced(ops, s.conn, g)
    ensures var r := ReceiveData(ops, cfg, frames, s, data);
            Inv(cfg, r.s, h) && h.answered == g.answered
            && (r.Failed? ==> h == g.(hi := h.hi, ended := h.ended))
            && (r.Read? ==> Synced(ops, r.s.conn, h) && h == HandedOut(g.(hi := h.hi, ended := h.ended), r.requests))
  {
    h := g;
    var fed := Absorb(cfg.limits, frames, data);
    if fed.Some? {
      var n := Min(cfg.batch, |fed.value.ready|);
      h := ReadChunksInv(ops, cfg, s, g, fed.value.ready[..n]);
      var t := ReadChunks(ops, cfg, s, fed.value.ready[..n]);
      if t.Ok? {
        if fed.value.ready[n..] == [] {
          ReadyIsDeliverable(cfg, t.s, h);
          HandOut(cfg, t.s, h);
          h := HandedOut(h, t.s.ready);
        } else {
          assert g.delivered + [] == g.delivered && g.waiting + ReadyIds([]) == g.waiting;
        }
      }
    }
  }

  lemma TakeCancelledInv<E>(cfg: Config, s: H2<E>, g: Story)
    requires Inv(cfg, s, g)
    ensures Inv(cfg, s.(cancelled := []), g)
  {
    RequestsFrame(s, g, {}, s.(cancelled := []), g, {});
    ResponsesFrame(s, g, {}, s.(cancelled := []), g, {});
  }

  // ---------------------------------------------------------------- responding

  lemma NotReady(delivered: seq<Ready>, ready: seq<Ready>, id: int)
    requires DistinctReady(delivered + ready) && id in ReadyIds(delivered)
    ensures forall r | r in ready :: r.id != id
  {
    HandedOutOnce(delivered, ready);
  }

  /** A handler answers: its request body is released, and the stream is in no table for a moment. */
  lemma ReleasePlacement<E>(cfg: Config, s: H2<E>, id: int)
    requires Tables(cfg, s, {}) && Accounts(cfg, s)
    requires forall r | r in s.ready :: r.id != id
    ensures Tables(cfg, ReleaseInbound(s, id), {id}) && Accounts(cfg, ReleaseInbound(s, id))
  {
    if id in s.inbound {
      BufferedRemove(s.inbound, id);
      var t := ReleaseInbound(s, id);
      assert t.inbound.Keys == s.inbound.Keys - {id};
    }
  }

  lemma ReleaseInv<E>(cfg: Config, s: H2<E>, g: Story, id: int)
    requires Inv(cfg, s, g) && id in g.waiting
    ensures var t, h := ReleaseInbound(s, id), g.(waiting := g.waiting - {id});
            InvExcept(cfg, t, h, {id}) && Past(t, h, {})
  {
    var t, h := ReleaseInbound(s, id), g.(waiting := g.waiting - {id});
    NotReady(g.delivered, s.ready, id);
    ReleasePlacement(cfg, s, id);
    RequestsFrame(s, g, {}, t, h, {});
    ResponsesFrame(s, g, {}, t, h, {});
    RequestsFrame(s, g, {}, t, h, {id});
    ResponsesFrame(s, g, {}, t, h, {id});
  }

  lemma AppendIds(commands: seq<Command>, c: Command)
    ensures CommandIds(commands + [c]) == CommandIds(commands) + {c.id}
    ensures Queued(commands + [c]) == Queued(commands) + if c.ResponseCommand? then |c.response.body| else 0
    ensures DistinctCommands(commands) && c.id !in CommandIds(commands) ==> DistinctCommands(commands + [c])
  {
    assert (commands + [c])[..|commands|] == commands;
    assert forall x :: x in commands + [c] <==> x in commands || x == c;
  }

  /** A command for the stream gives it a place again. */
  lemma AppendPlacement<E>(cfg: Config, s: H2<E>, c: Command)
    requires Tables(cfg, s, {c.id})
    requires c.id in s.active && c.id !in Holders(s)
    ensures Tables(cfg, s.(commands := s.commands + [c]), {})
  {
    AppendIds(s.commands, c);
  }

  lemma AppendReset<E>(cfg: Config, s: H2<E>, g: Story, id: int)
    requires InvExcept(cfg, s, g, {id}) && Past(s, g, {})
    requires id in s.active && id !in Holders(s) && id !in g.waiting
    ensures Inv(cfg, s.(commands := s.commands + [ResetCommand(id)]), g)
  {
    var t := s.(commands := s.commands + [ResetCommand(id)]);
    AppendPlacement(cfg, s, ResetCommand(id));
    AppendIds(s.commands, ResetCommand(id));
    RequestsFrame(s, g, {}, t, g, {});
    ResponsesFrame(s, g, {}, t, g, {});
  }

  lemma AnswerResponses<E>(s: H2<E>, g: Story, id: int, body: bytes)
    requires Responses(s, g, {}) && id !in g.answered && id !in OutIds(s.outbound)
    ensures Responses(s, g.(answered := g.answered[id := body]), {})
  {
    var h := g.(answered := g.answered[id := body]);
    QuietForAnyBody(s.log, id, body);
    forall x ensures Replay(s.log, x, Body(h, x)) == Replay(s.log, x, Body(g, x)) {
      if x != id {
        assert Body(h, x) == Body(g, x);
      }
    }
  }

  lemma AnswerRequests<E>(s: H2<E>, g: Story, id: int, body: bytes)
    requires Requests(s, g, {})
    ensures Requests(s, g.(answered := g.answered[id := body]), {})
  {
    RequestsFrame(s, g, {}, s, g.(answered := g.answered[id := body]), {});
  }

  lemma AppendLinked<E>(s: H2<E>, g: Story, id: int, response: Response)
    requires Linked(s, g) && id in s.active && id !in g.waiting
    requires id in ReadyIds(g.delivered) && id !in g.answered && id !in OutIds(s.outbound) && id !in CommandIds(s.commands)
    ensures Linked(s.(pending := s.pending + |response.body|, commands := s.commands + [ResponseCommand(id, response)]),
                   g.(answered := g.answered[id := response.body]))
  {
    var c := ResponseCommand(id, response);
    var h := g.(answered := g.answered[id := response.body]);
    AppendIds(s.commands, c);
    forall o | o in s.outbound ensures o.id in h.answered && h.answered[o.id] == o.body {
      assert o.id in OutIds(s.outbound);
    }
    forall d | d in s.commands + [c] && d.ResponseCommand? ensures d.id in h.answered && h.answered[d.id] == d.response.body {
      if d != c {
        assert d in s.commands && d.id in CommandIds(s.commands);
      }
    }
    assert h.answered.Keys == g.answered.Keys + {id};
  }

  lemma AppendResponse<E>(cfg: Config, s: H2<E>, g: Story, id: int, response: Response)
    requires InvExcept(cfg, s, g, {id}) && Past(s, g, {})
    requires id in s.active && id !in Holders(s) && id !in g.waiting
    requires id in ReadyIds(g.delivered) && id !in g.answered
    requires |s.control| + s.pending + |response.body| <= cfg.maxPendingOutput
    ensures Inv(cfg, s.(pending := s.pending + |response.body|, commands := s.commands + [ResponseCommand(id, response)]),
                g.(answered := g.answered[id := response.body]))
  {
    var c := ResponseCommand(id, response);
    var r := s.(commands := s.commands + [c]);
    var t := r.(pending := s.pending + |response.body|);
    var h := g.(answered := g.answered[id := response.body]);
    AppendPlacement(cfg, s, c);
    assert Tables(cfg, t, {}) by {
      assert Tables(cfg, r, {});
    }
    AppendIds(s.commands, c);
    AppendLinked(s, g, id, response);
    AnswerRequests(s, g, id, response.body);
    AnswerResponses(s, g, id, response.body);
    RequestsFrame(s, h, {}, t, h, {});
    ResponsesFrame(s, h, {}, t, h, {});
  }

  ghost function Recorded(g: Story, id: int, body: bytes, accepted: bool): Story
  {
    if accepted then g.(answered := g.answered[id := body]) else g
  }

  /** The story once the handler of a request has answered. */
  ghost function Answered(g: Story, id: int, body: bytes, accepted: bool): Story
  {
    Recorded(g.(waiting := g.waiting - {id}), id, body, accepted)
  }

  lemma NoCommand(commands: seq<Command>, id: int)
    requires id !in CommandIds(commands)
    ensures !HasCommand(commands, id)
  {
    assert forall i | 0 <= i < |commands| :: commands[i] in commands;
  }

  ghost predicate Unplaced<E>(cfg: Config, s: H2<E>, g: Story, id: int)
  {
    && InvExcept(cfg, s, g, {id}) && Past(s, g, {})
    && id in s.active && id !in Holders(s) && id !in g.waiting && id <= g.hi
    && id in ReadyIds(g.delivered) && id !in g.answered
  }

  predicate OverBudget<E>(cfg: Config, s: H2<E>, size: nat)
  {
    size > cfg.maxResponseBody || |s.control| + s.pending + size > cfg.maxPendingOutput
  }

  lemma EnqueueReset<E>(ops: Ops<E>, cfg: Config, s: H2<E>, g: Story, id: int, response: Response)
    requires Unplaced(cfg, s, g, id) && OverBudget(cfg, s, |response.body|)
    ensures !Enqueue(ops, cfg, s, id, response).1 && Inv(cfg, Enqueue(ops, cfg, s, id, response).0, g)
  {
    NoCommand(s.commands, id);
    AppendReset(cfg, s, g, id);
  }

  lemma EnqueueRefused<E>(ops: Ops<E>, cfg: Config, s: H2<E>, g: Story, id: int, response: Response)
    requires Unplaced(cfg, s, g, id) && !OverBudget(cfg, s, |response.body|) && |s.commands| >= cfg.maxStreams * 2
    ensures !Enqueue(ops, cfg, s, id, response).1 && Inv(cfg, Enqueue(ops, cfg, s, id, response).0, g)
  {
    ResetInv(ops, cfg, s, g, id, EnhanceYourCalm);
  }

  lemma EnqueueAccepted<E>(ops: Ops<E>, cfg: Config, s: H2<E>, g: Story, id: int, response: Response)
    requires Unplaced(cfg, s, g, id) && !OverBudget(cfg, s, |response.body|) && |s.commands| < cfg.maxStreams * 2
    ensures Enqueue(ops, cfg, s, id, response).1
    ensures Inv(cfg, Enqueue(ops, cfg, s, id, response).0, g.(answered := g.answered[id := response.body]))
  {
    AppendResponse(cfg, s, g, id, response);
    AcceptedForm(ops, cfg, s, id, response);
  }

  lemma AcceptedForm<E>(ops: Ops<E>, cfg: Config, s: H2<E>, id: int, response: Response)
    requires !OverBudget(cfg, s, |response.body|) && |s.commands| < cfg.maxStreams * 2
    ensures Enqueue(ops, cfg, s, id, response)
            == (s.(pending := s.pending + |response.body|, commands := s.commands + [ResponseCommand(id, response)]), true)
  {
  }

  lemma EnqueueInv<E>(ops: Ops<E>, cfg: Config, s: H2<E>, g: Story, id: int, response: Response)
    requires Unplaced(cfg, s, g, id)
    ensures var r := Enqueue(ops, cfg, s, id, response);
            Inv(cfg, r.0, Recorded(g, id, response.body, r.1))
  {
    if OverBudget(cfg, s, |response.body|) {
      EnqueueReset(ops, cfg, s, g, id, response);
    } else if |s.commands| >= cfg.maxStreams * 2 {
      EnqueueRefused(ops, cfg, s, g, id, response);
    } else {
      EnqueueAccepted(ops, cfg, s, g, id, response);
    }
  }

  /** `queue_response`, called once by the handler of a request that was handed out. */
  lemma QueueResponseInv<E>(ops: Ops<E>, cfg: Config, s: H2<E>, g: Story, id: int, response: Response)
    requires Inv(cfg, s, g) && id in g.waiting
    ensures var r := QueueResponse(ops, cfg, s, id, response);
            Inv(cfg, r.0, Answered(g, id, response.body, r.1))
  {
    var h := g.(waiting := g.waiting - {id});
    if id !in s.active {
      RequestsFrame(s, g, {}, s, h, {});
      ResponsesFrame(s, g, {}, s, h, {});
    } else {
      var t := ReleaseInbound(s, id);
      ReleaseInv(cfg, s, g, id);
      EnqueueInv(ops, cfg, t, h, id, response);
    }
  }

  /** A handler that never answers drops its stream (`_http2_handler`'s finally clause). */
  lemma AbandonInv<E>(cfg: Config, s: H2<E>, g: Story, id: int)
    requires Inv(cfg, s, g) && id in g.waiting
    ensures Inv(cfg, DropStream(s, id), g.(waiting := g.waiting - {id}))
  {
    var r :| r in g.delivered && r.id == id;
    assert Genuine(s, g, r);
    Weaken(cfg, s, g, id);
    DropInv(cfg, s, g, id);
    var t, h := DropStream(s, id), g.(waiting := g.waiting - {id});
    RequestsFrame(t, g, {}, t, h, {});
    ResponsesFrame(t, g, {}, t, h, {});
  }

  // ---------------------------------------------------------------- flushing

  /** While `flush` works through its local list, the state with the unprocessed tail put back. */
  function WithTail<E>(s: H2<E>, tail: seq<Command>): H2<E>
  {
    s.(commands := tail)
  }

  lemma DropWithTail<E>(s: H2<E>, id: int, tail: seq<Command>)
    requires s.commands == [] && id !in CommandIds(tail)
    ensures DropStream(s, id).commands == []
    ensures WithTail(DropStream(s, id), tail) == DropStream(WithTail(s, tail), id)
  {
    KeptNone(tail, id);
  }

  lemma ResetWithTail<E>(ops: Ops<E>, s: H2<E>, id: int, code: ErrorCode, tail: seq<Command>)
    requires s.commands == [] && id !in CommandIds(tail)
    ensures ResetStream(ops, s, id, code).commands == []
    ensures WithTail(ResetStream(ops, s, id, code), tail) == ResetStream(ops, WithTail(s, tail), id, code)
  {
    var (e, ok) := ops.reset(s.conn, id, code);
    DropWithTail(s.(conn := e, log := if ok then s.log + [DidReset(id, code)] else s.log), id, tail);
  }

  lemma HeadOfTail(c: Command, tail: seq<Command>)
    requires DistinctCommands([c] + tail)
    ensures c.id !in CommandIds(tail) && DistinctCommands(tail)
    ensures CommandIds([c] + tail) == CommandIds(tail) + {c.id}
    ensures Queued([c] + tail) == (if c.ResponseCommand? then |c.response.body| else 0) + Queued(tail)
  {
    var all := [c] + tail;
    QueuedFirst(c, tail);
    forall i, j | 0 <= i < j < |tail| ensures tail[i].id != tail[j].id {
      assert all[i + 1] == tail[i] && all[j + 1] == tail[j];
    }
    forall x | x in tail ensures x.id != c.id {
      var i :| 0 <= i < |tail| && tail[i] == x;
      assert all[0] == c && all[i + 1] == x;
    }
    assert forall x :: x in all <==> x == c || x in tail;
  }

  /** A command was taken off the list: its stream has no place, its body is not counted, the tail still is. */
  ghost predicate Taken<E>(cfg: Config, v: H2<E>, g: Story, id: int, tail: seq<Command>)
  {
    && v.commands == []
    && InvExcept(cfg, WithTail(v, tail), g, {id}) && Past(WithTail(v, tail), g, {})
    && id <= g.hi && id !in CommandIds(tail) && id !in OutIds(v.outbound) && id !in v.inbound
  }

  function Uncounted<E>(s: H2<E>, c: Command): H2<E>
  {
    if c.ResponseCommand? then s.(pending := s.pending - |c.response.body|) else s
  }

  lemma TakeTables<E>(cfg: Config, s: H2<E>, c: Command, tail: seq<Command>)
    requires s.commands == [] && Tables(cfg, WithTail(s, [c] + tail), {}) && Accounts(cfg, WithTail(s, [c] + tail))
    ensures var t := WithTail(Uncounted(s, c), tail);
            Tables(cfg, t, {c.id}) && Accounts(cfg, t)
    ensures c.id !in CommandIds(tail) && c.id !in OutIds(s.outbound) && c.id !in s.inbound
  {
    HeadOfTail(c, tail);
    assert c in [c] + tail && forall x | x in tail :: x in [c] + tail;
  }

  lemma TakeLinked<E>(s: H2<E>, g: Story, c: Command, tail: seq<Command>)
    requires Linked(WithTail(s, [c] + tail), g)
    ensures Linked(WithTail(Uncounted(s, c), tail), g) && c.id <= g.hi
  {
    assert c in [c] + tail && forall x | x in tail :: x in [c] + tail;
    assert c.id in CommandIds([c] + tail);
    forall x | x in CommandIds(tail) ensures x in CommandIds([c] + tail) {
      var y :| y in tail && y.id == x;
      assert y in [c] + tail;
    }
  }

  lemma TakeCommand<E>(cfg: Config, s: H2<E>, g: Story, c: Command, tail: seq<Command>)
    requires s.commands == [] && Inv(cfg, WithTail(s, [c] + tail), g)
    ensures Taken(cfg, Uncounted(s, c), g, c.id, tail)
  {
    var u := WithTail(s, [c] + tail);
    var t := WithTail(Uncounted(s, c), tail);
    TakeTables(cfg, s, c, tail);
    TakeLinked(s, g, c, tail);
    assert Past(t, g, {}) && Past(t, g, {c.id}) by {
      RequestsFrame(u, g, {}, t, g, {});
      ResponsesFrame(u, g, {}, t, g, {});
      RequestsFrame(u, g, {}, t, g, {c.id});
      ResponsesFrame(u, g, {}, t, g, {c.id});
    }
  }

  lemma DropTaken<E>(cfg: Config, v: H2<E>, g: Story, conn: E, id: int, tail: seq<Command>)
    requires Taken(cfg, v, g, id, tail)
    ensures var t := DropStream(v.(conn := conn), id);
            t.commands == [] && Inv(cfg, WithTail(t, tail), g)
  {
    OtherConn(cfg, WithTail(v, tail), g, {id}, conn);
    DropWithTail(v.(conn := conn), id, tail);
    DropInv(cfg, WithTail(v, tail).(conn := conn), g, id);
    assert WithTail(v.(conn := conn), tail) == WithTail(v, tail).(conn := conn);
  }

  lemma ResetTaken<E>(ops: Ops<E>, cfg: Config, v: H2<E>, g: Story, id: int, code: ErrorCode, tail: seq<Command>)
    requires Taken(cfg, v, g, id, tail)
    ensures var t := ResetStream(ops, v, id, code);
            t.commands == [] && Inv(cfg, WithTail(t, tail), g)
  {
    ResetWithTail(ops, v, id, code, tail);
    ResetInv(ops, cfg, WithTail(v, tail), g, id, code);
  }

  lemma HeadersResponses<E>(s: H2<E>, g: Story, id: int)
    requires Responses(s, g, {}) && id in s.active && id !in OutIds(s.outbound) && id in g.answered && id <= g.hi
    ensures var body := g.answered[id];
            var t := s.(log := s.log + [DidHeaders(id, body, body == [])]);
            Responses(if body != [] then t.(outbound := s.outbound + [Outbound(id, body, 0)])
                      else t.(active := s.active - {id}), g, {})
  {
    var body := g.answered[id];
    var e := DidHeaders(id, body, body == []);
    var t := s.(log := s.log + [e]);
    var u := if body != [] then t.(outbound := s.outbound + [Outbound(id, body, 0)]) else t.(active := s.active - {id});
    LogGrows(s.log, e);
    assert Body(g, id) == body && Replay(s.log, id, body) == Idle;
    forall x | x > g.hi ensures Untouched(u.log, x) {
      assert Untouched(s.log, x);
    }
    forall x | x !in g.answered ensures Quiet(u.log, x) {
      assert Quiet(s.log, x);
    }
    forall x | x != id ensures Replay(u.log, x, Body(g, x)) == Replay(s.log, x, Body(g, x)) {
    }
    forall o | o in s.outbound ensures Replay(u.log, o.id, o.body) == Replay(s.log, o.id, o.body) && o.id != id {
      assert o.id in OutIds(s.outbound);
    }
    assert body[..0] == [];
    if body != [] {
      OutIdsAppend(s.outbound, Outbound(id, body, 0));
    }
    forall x | x in u.active && x !in OutIds(u.outbound) ensures Replay(u.log, x, Body(g, x)) == Idle {
      assert Replay(s.log, x, Body(g, x)) == Idle;
    }
  }

  /** The connection after HEADERS without END_STREAM: the stream has moved to the outbound table. */
  function Started<E>(s: H2<E>, conn: E, id: int, body: bytes): H2<E>
  {
    s.(conn := conn, log := s.log + [DidHeaders(id, body, false)], pending := s.pending + |body|,
       outbound := s.outbound + [Outbound(id, body, 0)])
  }

  lemma StartedPlacement<E>(cfg: Config, s: H2<E>, conn: E, id: int, body: bytes)
    requires Tables(cfg, s, {id}) && id in s.active && id !in Holders(s) && body != []
    ensures Tables(cfg, Started(s, conn, id, body), {})
  {
    OutIdsGrow(s.outbound, Outbound(id, body, 0));
  }

  lemma OutIdsAppend(outs: seq<Outbound>, o: Outbound)
    ensures OutIds(outs + [o]) == OutIds(outs) + {o.id}
  {
    assert forall x :: x in outs + [o] <==> x in outs || x == o;
  }

  lemma OutIdsGrow(outs: seq<Outbound>, o: Outbound)
    requires DistinctOuts(outs) && o.id !in OutIds(outs)
    ensures OutIds(outs + [o]) == OutIds(outs) + {o.id} && DistinctOuts(outs + [o])
  {
    OutIdsAppend(outs, o);
    forall i | 0 <= i < |outs| ensures outs[i].id != o.id {
      assert outs[i].id in OutIds(outs);
    }
  }

  lemma DonePlacement<E>(cfg: Config, s: H2<E>, id: int)
    requires Tables(cfg, s, {id}) && id !in Holders(s)
    ensures Tables(cfg, s.(active := s.active - {id}), {})
  {
    SmallerSet(s.active - {id}, s.active);
    assert forall c | c in s.commands :: c.id in CommandIds(s.commands);
  }

  lemma HeadersRequests<E>(s: H2<E>, g: Story, e: Entry)
    requires Requests(s, g, {}) && e.DidHeaders?
    ensures Requests(s.(log := s.log + [e]), g, {})
  {
    LogGrows(s.log, e);
    forall r | r in g.delivered || r in s.ready ensures Genuine(s.(log := s.log + [e]), g, r) {
      assert Genuine(s, g, r);
    }
  }

  lemma StartedLinked<E>(s: H2<E>, g: Story, conn: E, id: int, body: bytes)
    requires Linked(s, g) && id !in OutIds(s.outbound) && id in g.answered && g.answered[id] == body && id !in g.waiting
    ensures Linked(Started(s, conn, id, body), g)
  {
    OutIdsAppend(s.outbound, Outbound(id, body, 0));
  }

  lemma StartedAccounts<E>(cfg: Config, s: H2<E>, conn: E, id: int, body: bytes)
    requires Accounts(cfg, s) && id !in OutIds(s.outbound)
    requires |s.control| + s.pending + |body| <= cfg.maxPendingOutput
    ensures Accounts(cfg, Started(s, conn, id, body))
  {
    PlacedAbsent(s.outbound, Outbound(id, body, 0));
  }

  lemma StartedPast<E>(s: H2<E>, g: Story, conn: E, id: int, body: bytes)
    requires Past(s, g, {}) && id <= g.hi && body != []
    requires id in s.active && id !in OutIds(s.outbound) && id in g.answered && g.answered[id] == body
    ensures Past(Started(s, conn, id, body), g, {})
  {
    var a := s.(log := s.log + [DidHeaders(id, body, false)]);
    var b := a.(outbound := s.outbound + [Outbound(id, body, 0)]);
    var t := Started(s, conn, id, body);
    HeadersRequests(s, g, DidHeaders(id, body, false));
    HeadersResponses(s, g, id);
    RequestsFrame(a, g, {}, t, g, {});
    ResponsesFrame(b, g, {}, t, g, {});
  }

  /** HEADERS without END_STREAM went out: the stream moves to the outbound table. */
  lemma StartedInv<E>(cfg: Config, s: H2<E>, g: Story, conn: E, id: int, body: bytes)
    requires InvExcept(cfg, s, g, {id}) && Past(s, g, {}) && id <= g.hi && body != []
    requires id in s.active && id !in Holders(s) && id in g.answered && g.answered[id] == body && id !in g.waiting
    requires |s.control| + s.pending + |body| <= cfg.maxPendingOutput
    ensures Inv(cfg, Started(s, conn, id, body), g)
  {
    StartedAccounts(cfg, s, conn, id, body);
    StartedPast(s, g, conn, id, body);
    StartedLinked(s, g, conn, id, body);
    StartedPlacement(cfg, s, conn, id, body);
  }

  /** HEADERS with END_STREAM went out: the stream is finished. */
  lemma FinishedInv<E>(cfg: Config, s: H2<E>, g: Story, conn: E, id: int)
    requires InvExcept(cfg, s, g, {id}) && Past(s, g, {}) && id <= g.hi
    requires id in s.active && id !in Holders(s) && id in g.answered && g.answered[id] == []
    ensures Inv(cfg, HeadOnly(s, conn, id), g)
  {
    EndedPast(s, g, conn, id);
    EndedTables(cfg, s, g, conn, id);
  }

  /** The connection after HEADERS with END_STREAM. */
  function HeadOnly<E>(s: H2<E>, conn: E, id: int): H2<E>
  {
    s.(conn := conn, log := s.log + [DidHeaders(id, [], true)], active := s.active - {id})
  }

  lemma EndedPast<E>(s: H2<E>, g: Story, conn: E, id: int)
    requires Past(s, g, {}) && id <= g.hi && id in s.active && id !in OutIds(s.outbound)
    requires id in g.answered && g.answered[id] == []
    ensures Past(HeadOnly(s, conn, id), g, {})
  {
    var a := s.(log := s.log + [DidHeaders(id, [], true)]);
    var t := HeadOnly(s, conn, id);
    HeadersRequests(s, g, DidHeaders(id, [], true));
    HeadersResponses(s, g, id);
    RequestsFrame(a, g, {}, t, g, {});
    ResponsesFrame(a.(active := s.active - {id}), g, {}, t, g, {});
  }

  lemma EndedTables<E>(cfg: Config, s: H2<E>, g: Story, conn: E, id: int)
    requires Accounts(cfg, s) && Tables(cfg, s, {id}) && Linked(s, g) && id !in Holders(s)
    ensures var t := HeadOnly(s, conn, id); Accounts(cfg, t) && Tables(cfg, t, {}) && Linked(t, g)
  {
    var p := s.(active := s.active - {id});
    DonePlacement(cfg, s, id);
    TablesFrame(cfg, p, HeadOnly(s, conn, id), g, {});
  }

  lemma CaptureWithTail<E>(ops: Ops<E>, cfg: Config, s: H2<E>, g: Story, tail: seq<Command>)
    requires s.commands == [] && Inv(cfg, WithTail(s, tail), g)
    ensures var t := Capture(ops, cfg, s).s;
            t.commands == [] && Inv(cfg, WithTail(t, tail), g)
  {
    CaptureInv(ops, cfg, WithTail(s, tail), g);
    assert WithTail(Capture(ops, cfg, s).s, tail) == Capture(ops, cfg, WithTail(s, tail)).s;
  }

  lemma StartResponseRefused<E>(ops: Ops<E>, cfg: Config, s: H2<E>, g: Story, id: int, response: Response, tail: seq<Command>)
    requires Taken(cfg, Uncounted(s, ResponseCommand(id, response)), g, id, tail)
    requires response.headerSize > cfg.maxHeaderBytes
    ensures var t := StartResponse(ops, cfg, s, id, response);
            t.commands == [] && Inv(cfg, WithTail(t, tail), g)
  {
    TooLargeIsReset(ops, cfg, s, id, response);
    ResetTaken(ops, cfg, Uncounted(s, ResponseCommand(id, response)), g, id, InternalError, tail);
  }

  lemma TooLargeIsReset<E>(ops: Ops<E>, cfg: Config, s: H2<E>, id: int, response: Response)
    requires response.headerSize > cfg.maxHeaderBytes
    ensures StartResponse(ops, cfg, s, id, response)
            == ResetStream(ops, Uncounted(s, ResponseCommand(id, response)), id, InternalError)
  {
  }

  lemma StartResponseRaised<E>(ops: Ops<E>, cfg: Config, s: H2<E>, g: Story, id: int, response: Response, tail: seq<Command>)
    requires Taken(cfg, Uncounted(s, ResponseCommand(id, response)), g, id, tail)
    requires response.headerSize <= cfg.maxHeaderBytes && !ops.sendHeaders(s.conn, id, response, response.body == []).1
    ensures var t := StartResponse(ops, cfg, s, id, response);
            t.commands == [] && Inv(cfg, WithTail(t, tail), g)
  {
    var e := ops.sendHeaders(s.conn, id, response, response.body == []).0;
    DropTaken(cfg, Uncounted(s, ResponseCommand(id, response)), g, e, id, tail);
  }


  lemma TakenFacts<E>(cfg: Config, s: H2<E>, g: Story, id: int, response: Response, tail: seq<Command>)
    requires Inv(cfg, WithTail(s, [ResponseCommand(id, response)] + tail), g)
    ensures id in s.active && id in g.answered && g.answered[id] == response.body && id !in g.waiting
    ensures |s.control| + s.pending <= cfg.maxPendingOutput
  {
    var c := ResponseCommand(id, response);
    assert c in [c] + tail && c.id in CommandIds([c] + tail);
  }

  /** A response whose HEADERS the engine takes, seen with the rest of the commands. */
  lemma SentHeadForm<E>(ops: Ops<E>, cfg: Config, s: H2<E>, id: int, response: Response, tail: seq<Command>)
    requires s.commands == [] && id !in OutIds(s.outbound)
    requires response.headerSize <= cfg.maxHeaderBytes && ops.sendHeaders(s.conn, id, response, response.body == []).1
    ensures var e := ops.sendHeaders(s.conn, id, response, response.body == []).0;
            var v := WithTail(Uncounted(s, ResponseCommand(id, response)), tail);
            var t := StartResponse(ops, cfg, s, id, response);
            && t.commands == []
            && WithTail(t, tail) == if response.body != [] then Started(v, e, id, response.body) else HeadOnly(v, e, id)
  {
    PlacedAbsent(s.outbound, Outbound(id, response.body, 0));
  }

  lemma StartResponseSent<E>(ops: Ops<E>, cfg: Config, s: H2<E>, g: Story, id: int, response: Response, tail: seq<Command>)
    requires Taken(cfg, Uncounted(s, ResponseCommand(id, response)), g, id, tail)
    requires id in s.active && id in g.answered && g.answered[id] == response.body && id !in g.waiting
    requires |s.control| + s.pending <= cfg.maxPendingOutput
    requires response.headerSize <= cfg.maxHeaderBytes && ops.sendHeaders(s.conn, id, response, response.body == []).1
    ensures var t := StartResponse(ops, cfg, s, id, response);
            t.commands == [] && Inv(cfg, WithTail(t, tail), g)
  {
    var e := ops.sendHeaders(s.conn, id, response, response.body == []).0;
    var v := WithTail(Uncounted(s, ResponseCommand(id, response)), tail);
    SentHeadForm(ops, cfg, s, id, response, tail);
    if response.body != [] {
      StartedInv(cfg, v, g, e, id, response.body);
    } else {
      FinishedInv(cfg, v, g, e, id);
    }
  }

  /** One command of the local list, with the tail that is still to come counted in. */
  lemma RunCommandInv<E>(ops: Ops<E>, cfg: Config, s: H2<E>, g: Story, c: Command, tail: seq<Command>)
    requires s.commands == [] && Inv(cfg, WithTail(s, [c] + tail), g)
    ensures var t := RunCommand(ops, cfg, s, c).s;
            t.commands == [] && Inv(cfg, WithTail(t, tail), g)
  {
    TakeCommand(cfg, s, g, c, tail);
    match c
    case ResetCommand(id) =>
      ResetTaken(ops, cfg, s, g, id, EnhanceYourCalm, tail);
      CaptureWithTail(ops, cfg, ResetStream(ops, s, id, EnhanceYourCalm), g, tail);
    case ResponseCommand(id, response) =>
      TakenFacts(cfg, s, g, id, response, tail);
      if response.headerSize > cfg.maxHeaderBytes {
        StartResponseRefused(ops, cfg, s, g, id, response, tail);
      } else if ops.sendHeaders(s.conn, id, response, response.body == []).1 {
        StartResponseSent(ops, cfg, s, g, id, response, tail);
      } else {
        StartResponseRaised(ops, cfg, s, g, id, response, tail);
      }
      CaptureWithTail(ops, cfg, StartResponse(ops, cfg, s, id, response), g, tail);
  }

  /**
   The command loop.  When it raises, the state is exact once the tail it leaves behind is counted; that
   is the state only `close` may follow.
   */
  lemma {:induction false} RunCommandsInv<E>(ops: Ops<E>, cfg: Config, s: H2<E>, g: Story,
                                             commands: seq<Command>) returns (tail: seq<Command>)
    requires s.commands == [] && Inv(cfg, WithTail(s, commands), g)
    ensures var t := RunCommands(ops, cfg, s, commands);
            t.s.commands == [] && Inv(cfg, WithTail(t.s, tail), g) && (t.Ok? ==> tail == [])
    decreases |commands|
  {
    tail := [];
    if commands != [] {
      tail := commands[1..];
      assert WithTail(s, [commands[0]] + tail) == WithTail(s, commands) by {
        assert [commands[0]] + tail == commands;
      }
      RunCommandInv(ops, cfg, s, g, commands[0], tail);
      var t := RunCommand(ops, cfg, s, commands[0]);
      if t.Ok? {
        tail := RunCommandsInv(ops, cfg, t.s, g, commands[1..]);
      }
    }
  }

  // ---------------------------------------------------------------- after an exception

  /** The part of the invariant no exception can take away: the history, and what was handed out. */
  ghost predicate Lasting<E>(s: H2<E>, g: Story)
  {
    && (forall id | id > g.hi :: DataOf(s.log, id) == [] && Untouched(s.log, id))
    && (forall r | r in g.delivered :: Genuine(s, g, r))
    && (forall id :: Replay(s.log, id, Body(g, id)) != Broken)
    && (forall id | id !in g.answered :: Quiet(s.log, id))
    && (forall id | id in g.ended || id in g.answered || id in s.cancelled :: id <= g.hi)
    && DistinctReady(g.delivered)
    && g.waiting <= ReadyIds(g.delivered)
    && g.answered.Keys <= ReadyIds(g.delivered)
    && g.waiting !! g.answered.Keys
  }

  lemma InvLasts<E>(cfg: Config, s: H2<E>, g: Story, commands: seq<Command>)
    requires Inv(cfg, WithTail(s, commands), g)
    ensures Lasting(s, g)
  {
    var v := WithTail(s, commands);
    forall r | r in g.delivered ensures Genuine(s, g, r) {
      assert Genuine(v, g, r);
    }
    DistinctFirst(g.delivered, s.ready);
  }

  lemma DistinctFirst(a: seq<Ready>, b: seq<Ready>)
    requires DistinctReady(a + b)
    ensures DistinctReady(a)
  {
    forall i, j | 0 <= i < j < |a| ensures a[i].id != a[j].id {
      assert (a + b)[i] == a[i] && (a + b)[j] == a[j];
    }
  }
}
