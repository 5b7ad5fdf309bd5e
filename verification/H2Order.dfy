/**
 First come, first served.  Over every run of any engine: requests are handed out in the order in which their clients
 have completed them, and the HEADERS of the responses go out in the order in which the responses were accepted.
 */
module H2Order {
  import opened Bytes
  import opened Optional
  import opened FrameBudgetSplitter
  import opened H2State
  import opened H2Runs

  // ---------------------------------------------------------------- leaving some out

  ghost predicate DrawnAt(a: seq<int>, b: seq<int>, at: seq<nat>)
  {
    && |at| == |a|
    && (forall i | 0 <= i < |a| :: at[i] < |b| && a[i] == b[at[i]])
    && (forall i, j | 0 <= i < j < |a| :: at[i] < at[j])
  }

  /** `a` is `b` with some left out. */
  ghost predicate Drawn(a: seq<int>, b: seq<int>)
  {
    exists at :: DrawnAt(a, b, at)
  }

  lemma DrawnSelf(a: seq<int>)
    ensures Drawn(a, a)
  {
    assert DrawnAt(a, a, seq(|a|, i requires 0 <= i < |a| => i));
  }

  lemma DrawnNone(b: seq<int>)
    ensures Drawn([], b)
  {
    assert DrawnAt([], b, []);
  }

  lemma DrawnMore(a: seq<int>, b: seq<int>, x: int)
    requires Drawn(a, b)
    ensures Drawn(a + [x], b + [x]) && Drawn(a, b + [x])
  {
    var at: seq<nat> :| DrawnAt(a, b, at);
    assert DrawnAt(a, b + [x], at);
    assert DrawnAt(a + [x], b + [x], at + [|b|]);
  }

  lemma DrawnOn(a: seq<int>, b: seq<int>, c: seq<int>)
    requires Drawn(a, b) && Drawn(b, c)
    ensures Drawn(a, c)
  {
    var at: seq<nat> :| DrawnAt(a, b, at);
    var on: seq<nat> :| DrawnAt(b, c, on);
    assert DrawnAt(a, c, seq(|a|, i requires 0 <= i < |a| => on[at[i]]));
  }

  lemma {:induction false} DrawnBehind(front: seq<int>, a: seq<int>, b: seq<int>)
    requires Drawn(a, b)
    ensures Drawn(front + a, front + b)
  {
    var at: seq<nat> :| DrawnAt(a, b, at);
    var n := |front|;
    assert DrawnAt(front + a, front + b, seq(n + |a|, i requires 0 <= i < n + |a| => if i < n then i else n + at[i - n]));
  }

  lemma DrawnTail(x: int, rest: seq<int>)
    ensures Drawn(rest, [x] + rest)
  {
    assert DrawnAt(rest, [x] + rest, seq(|rest|, i requires 0 <= i < |rest| => i + 1));
  }

  /** One in the middle left out. */
  lemma DrawnWithout(front: seq<int>, x: int, rest: seq<int>, whole: seq<int>)
    requires Drawn(front + ([x] + rest), whole)
    ensures Drawn(front + rest, whole)
  {
    DrawnTail(x, rest);
    DrawnBehind(front, rest, [x] + rest);
    DrawnOn(front + rest, front + ([x] + rest), whole);
  }

  // ---------------------------------------------------------------- the orders

  function IdsOf(ready: seq<Ready>): (ids: seq<int>)
    ensures |ids| == |ready| && forall i | 0 <= i < |ready| :: ids[i] == ready[i].id
  {
    seq(|ready|, i requires 0 <= i < |ready| => ready[i].id)
  }

  /** The streams their clients have ended, in order. */
  function EndIds(log: seq<Entry>): seq<int>
  {
    if log == [] then []
    else
      var e := log[|log| - 1];
      EndIds(log[..|log| - 1]) + if e.Got? && e.event.StreamEnded? then [e.event.id] else []
  }

  /** The streams HEADERS went out on, in order. */
  function HeadIds(log: seq<Entry>): seq<int>
  {
    if log == [] then []
    else
      var e := log[|log| - 1];
      HeadIds(log[..|log| - 1]) + if e.DidHeaders? then [e.id] else []
  }

  /** The streams of the queued responses, in order. */
  function ResponseIds(commands: seq<Command>): seq<int>
  {
    if commands == [] then []
    else
      var c := commands[|commands| - 1];
      ResponseIds(commands[..|commands| - 1]) + if c.ResponseCommand? then [c.id] else []
  }

  lemma LogMore(log: seq<Entry>, e: Entry)
    ensures EndIds(log + [e]) == EndIds(log) + if e.Got? && e.event.StreamEnded? then [e.event.id] else []
    ensures HeadIds(log + [e]) == HeadIds(log) + if e.DidHeaders? then [e.id] else []
    ensures EndIds(log) + [] == EndIds(log) && HeadIds(log) + [] == HeadIds(log)
  {
    assert (log + [e])[..|log|] == log;
  }

  lemma CommandMore(commands: seq<Command>, c: Command)
    ensures ResponseIds(commands + [c]) == ResponseIds(commands) + if c.ResponseCommand? then [c.id] else []
    ensures ResponseIds(commands) + [] == ResponseIds(commands)
  {
    assert (commands + [c])[..|commands|] == commands;
  }

  lemma {:induction false} CommandFirst(c: Command, rest: seq<Command>)
    ensures ResponseIds([c] + rest) == (if c.ResponseCommand? then [c.id] else []) + ResponseIds(rest)
  {
    if rest == [] {
      CommandMore([], c);
      assert [] + [c] == [c] + rest;
    } else {
      var n := |rest| - 1;
      CommandFirst(c, rest[..n]);
      CommandMore([c] + rest[..n], rest[n]);
      CommandMore(rest[..n], rest[n]);
      assert rest[..n] + [rest[n]] == rest && [c] + rest[..n] + [rest[n]] == [c] + rest;
    }
  }

  lemma ReadyMore(ready: seq<Ready>, r: Ready)
    ensures IdsOf(ready + [r]) == IdsOf(ready) + [r.id]
  {
  }

  /** Requests handed out, then ready ones, against the ends; HEADERS sent, then queued, against the acceptances. */
  ghost predicate Ordered<E>(s: H2<E>, delivered: seq<int>, accepted: seq<int>)
  {
    && Drawn(delivered + IdsOf(s.ready), EndIds(s.log))
    && Drawn(HeadIds(s.log) + ResponseIds(s.commands), accepted)
  }

  /** Nothing ends or starts; queued and ready ones may be dropped. */
  ghost predicate Quietly<E>(s: H2<E>, t: H2<E>)
  {
    && EndIds(t.log) == EndIds(s.log) && HeadIds(t.log) == HeadIds(s.log)
    && Drawn(IdsOf(t.ready), IdsOf(s.ready)) && Drawn(ResponseIds(t.commands), ResponseIds(s.commands))
  }

  lemma QuietKeeps<E>(s: H2<E>, t: H2<E>, delivered: seq<int>, accepted: seq<int>)
    requires Ordered(s, delivered, accepted) && Quietly(s, t)
    ensures Ordered(t, delivered, accepted)
  {
    DrawnBehind(delivered, IdsOf(t.ready), IdsOf(s.ready));
    DrawnOn(delivered + IdsOf(t.ready), delivered + IdsOf(s.ready), EndIds(s.log));
    DrawnBehind(HeadIds(s.log), ResponseIds(t.commands), ResponseIds(s.commands));
    DrawnOn(HeadIds(s.log) + ResponseIds(t.commands), HeadIds(s.log) + ResponseIds(s.commands), accepted);
  }

  lemma SameIsQuiet<E>(s: H2<E>, t: H2<E>)
    requires t.ready == s.ready && t.commands == s.commands
    requires EndIds(t.log) == EndIds(s.log) && HeadIds(t.log) == HeadIds(s.log)
    ensures Quietly(s, t)
  {
    DrawnSelf(IdsOf(s.ready));
    DrawnSelf(ResponseIds(s.commands));
  }

  // ---------------------------------------------------------------- dropping

  lemma {:induction false} OthersDrawn(ready: seq<Ready>, id: int)
    ensures Drawn(IdsOf(Others(ready, id)), IdsOf(ready))
  {
    if ready == [] {
      DrawnSelf(IdsOf(ready));
    } else {
      var n := |ready| - 1;
      var rest, r := ready[..n], ready[n];
      OthersDrawn(rest, id);
      DrawnMore(IdsOf(Others(rest, id)), IdsOf(rest), r.id);
      ReadyMore(rest, r);
      ReadyMore(Others(rest, id), r);
      assert rest + [r] == ready && Others(rest, id) + [] == Others(rest, id);
    }
  }

  lemma {:induction false} KeptDrawn(commands: seq<Command>, id: int)
    ensures Drawn(ResponseIds(Kept(commands, id)), ResponseIds(commands))
  {
    if commands == [] {
      DrawnSelf([]);
    } else {
      var n := |commands| - 1;
      var rest, c := commands[..n], commands[n];
      KeptDrawn(rest, id);
      assert rest + [c] == commands;
      KeptMore(rest, Kept(rest, id), c);
      assert Kept(rest, id) + [] == Kept(rest, id);
    }
  }

  lemma KeptMore(rest: seq<Command>, kept: seq<Command>, c: Command)
    requires Drawn(ResponseIds(kept), ResponseIds(rest))
    ensures Drawn(ResponseIds(kept + [c]), ResponseIds(rest + [c]))
    ensures c.ResponseCommand? ==> Drawn(ResponseIds(kept), ResponseIds(rest + [c]))
  {
    CommandMore(rest, c);
    CommandMore(kept, c);
    DrawnMore(ResponseIds(kept), ResponseIds(rest), c.id);
  }

  lemma {:induction false} DeliverableDrawn<E>(s: H2<E>, ready: seq<Ready>)
    ensures Drawn(IdsOf(Deliverable(s, ready)), IdsOf(ready))
  {
    if ready == [] {
      DrawnSelf(IdsOf(ready));
    } else {
      var n := |ready| - 1;
      var rest, r := ready[..n], ready[n];
      DeliverableDrawn(s, rest);
      DrawnMore(IdsOf(Deliverable(s, rest)), IdsOf(rest), r.id);
      ReadyMore(rest, r);
      ReadyMore(Deliverable(s, rest), r);
      assert rest + [r] == ready && Deliverable(s, rest) + [] == Deliverable(s, rest);
    }
  }

  lemma DropQuiet<E>(s: H2<E>, id: int)
    ensures Quietly(s, DropStream(s, id)) && (s.commands == [] ==> DropStream(s, id).commands == [])
  {
    OthersDrawn(s.ready, id);
    KeptDrawn(s.commands, id);
    LogMore(s.log, Dropped(id));
  }

  lemma ResetQuiet<E>(ops: Ops<E>, s: H2<E>, id: int, code: ErrorCode)
    ensures Quietly(s, ResetStream(ops, s, id, code)) && (s.commands == [] ==> ResetStream(ops, s, id, code).commands == [])
  {
    var (e, ok) := ops.reset(s.conn, id, code);
    LogMore(s.log, DidReset(id, code));
    DropQuiet(s.(conn := e, log := if ok then s.log + [DidReset(id, code)] else s.log), id);
  }

  // ---------------------------------------------------------------- receiving

  /** Behind an entry that is neither an end nor a HEADERS. */
  lemma QuietAfter<E>(s: H2<E>, conn: E, e: Entry, t: H2<E>)
    requires !e.DidHeaders? && !(e.Got? && e.event.StreamEnded?) && Quietly(s.(conn := conn, log := s.log + [e]), t)
    ensures Quietly(s, t)
  {
    LogMore(s.log, e);
  }

  lemma DataQuiet<E>(ops: Ops<E>, cfg: Config, s: H2<E>, id: int, data: bytes)
    ensures Quietly(s, ChargeData(ops, cfg, s, id, data))
  {
    SameIsQuiet(s, s);
    ResetQuiet(ops, s, id, EnhanceYourCalm);
    ResetQuiet(ops, s, id, StreamClosed);
  }

  lemma OpenQuiet<E>(ops: Ops<E>, cfg: Config, s: H2<E>, id: int, head: Option<Head>)
    ensures Quietly(s, RequestArrived(ops, cfg, s, id, head))
  {
    SameIsQuiet(s, s);
    ResetQuiet(ops, s, id, RefusedStream);
    ResetQuiet(ops, s, id, ProtocolError);
  }

  lemma OtherEvent<E>(ops: Ops<E>, cfg: Config, s: H2<E>, e: Event)
    requires !e.StreamEnded?
    ensures Quietly(s, HandleEvent(ops, cfg, s, e).s)
  {
    var t := s.(log := s.log + [Got(e)]);
    assert s.(conn := s.conn) == s;
    if e.RequestReceived? {
      OpenQuiet(ops, cfg, t, e.id, e.head);
      QuietAfter(s, s.conn, Got(e), RequestArrived(ops, cfg, t, e.id, e.head));
    } else if e.DataReceived? {
      var conn := ops.acknowledge(s.conn, e.id, e.flow).0;
      SameIsQuiet(s, s.(conn := conn));
      DataQuiet(ops, cfg, t.(conn := conn), e.id, e.data);
      QuietAfter(s, conn, Got(e), ChargeData(ops, cfg, t.(conn := conn), e.id, e.data));
    } else if e.StreamReset? {
      DropQuiet(t.(cancelled := t.cancelled + [e.id]), e.id);
      QuietAfter(s, s.conn, Got(e), HandleEvent(ops, cfg, s, e).s);
    } else if e.TrailersReceived? {
      ResetQuiet(ops, t, e.id, ProtocolError);
      QuietAfter(s, s.conn, Got(e), ResetStream(ops, t, e.id, ProtocolError));
    } else {
      SameIsQuiet(t, HandleEvent(ops, cfg, s, e).s);
      QuietAfter(s, s.conn, Got(e), HandleEvent(ops, cfg, s, e).s);
    }
  }

  /** The end of a stream: one more end, and at most that request is ready now, behind the others. */
  lemma EndOrdered<E>(ops: Ops<E>, cfg: Config, s: H2<E>, id: int, delivered: seq<int>, accepted: seq<int>)
    requires Ordered(s, delivered, accepted)
    ensures Ordered(HandleEvent(ops, cfg, s, StreamEnded(id)).s, delivered, accepted)
  {
    var t := s.(log := s.log + [Got(StreamEnded(id))]);
    LogMore(s.log, Got(StreamEnded(id)));
    DrawnMore(delivered + IdsOf(s.ready), EndIds(s.log), id);
    assert Ordered(t, delivered, accepted);
    ResetQuiet(ops, t, id, ProtocolError);
    QuietKeeps(t, ResetStream(ops, t, id, ProtocolError), delivered, accepted);
    if id in s.inbound {
      var r := Ready(id, s.inbound[id].head, s.inbound[id].body);
      ReadyMore(s.ready, r);
      assert delivered + (IdsOf(s.ready) + [id]) == delivered + IdsOf(s.ready) + [id];
    }
  }

  lemma {:induction false} EventsOrdered<E>(ops: Ops<E>, cfg: Config, s: H2<E>, es: seq<Event>, delivered: seq<int>, accepted: seq<int>)
    requires Ordered(s, delivered, accepted)
    ensures Ordered(HandleEvents(ops, cfg, s, es).s, delivered, accepted)
    decreases |es|
  {
    if es != [] {
      if es[0].StreamEnded? {
        EndOrdered(ops, cfg, s, es[0].id, delivered, accepted);
      } else {
        OtherEvent(ops, cfg, s, es[0]);
        QuietKeeps(s, HandleEvent(ops, cfg, s, es[0]).s, delivered, accepted);
      }
      var t := HandleEvent(ops, cfg, s, es[0]);
      if t.Ok? {
        EventsOrdered(ops, cfg, t.s, es[1..], delivered, accepted);
      }
    }
  }

  lemma CaptureOrdered<E>(ops: Ops<E>, cfg: Config, s: H2<E>, delivered: seq<int>, accepted: seq<int>)
    requires Ordered(s, delivered, accepted)
    ensures Ordered(Capture(ops, cfg, s).s, delivered, accepted) && Capture(ops, cfg, s).s.commands == s.commands
  {
  }

  lemma {:induction false} ChunksOrdered<E>(ops: Ops<E>, cfg: Config, s: H2<E>, chunks: seq<bytes>, delivered: seq<int>, accepted: seq<int>)
    requires Ordered(s, delivered, accepted)
    ensures Ordered(ReadChunks(ops, cfg, s, chunks).s, delivered, accepted)
    decreases |chunks|
  {
    if chunks != [] {
      ChunkOrdered(ops, cfg, s, chunks[0], delivered, accepted);
      var t := ReadChunk(ops, cfg, s, chunks[0]);
      if t.Ok? {
        ChunksOrdered(ops, cfg, t.s, chunks[1..], delivered, accepted);
      }
    }
  }

  lemma ChunkOrdered<E>(ops: Ops<E>, cfg: Config, s: H2<E>, chunk: bytes, delivered: seq<int>, accepted: seq<int>)
    requires Ordered(s, delivered, accepted)
    ensures Ordered(ReadChunk(ops, cfg, s, chunk).s, delivered, accepted)
  {
    var (e, events) := ops.receive(s.conn, chunk);
    var t := s.(conn := e, log := s.log + [Given(chunk)]);
    LogMore(s.log, Given(chunk));
    assert Ordered(t, delivered, accepted);
    if events.Some? {
      EventsOrdered(ops, cfg, t, events.value, delivered, accepted);
      CaptureOrdered(ops, cfg, HandleEvents(ops, cfg, t, events.value).s, delivered, accepted);
    }
  }

  /** The ready requests are handed out. */
  lemma HandOutOrdered<E>(s: H2<E>, delivered: seq<Ready>, accepted: seq<int>)
    requires Ordered(s, IdsOf(delivered), accepted)
    ensures Ordered(s.(ready := []), IdsOf(delivered + Deliverable(s, s.ready)), accepted)
  {
    var more := Deliverable(s, s.ready);
    DeliverableDrawn(s, s.ready);
    DrawnBehind(IdsOf(delivered), IdsOf(more), IdsOf(s.ready));
    DrawnOn(IdsOf(delivered) + IdsOf(more), IdsOf(delivered) + IdsOf(s.ready), EndIds(s.log));
    assert IdsOf(delivered + more) + IdsOf([]) == IdsOf(delivered) + IdsOf(more);
  }

  lemma ReceiveOrdered<E>(ops: Ops<E>, cfg: Config, frames: Splitter, s: H2<E>, data: bytes, delivered: seq<Ready>, accepted: seq<int>)
    requires Ordered(s, IdsOf(delivered), accepted)
    ensures match ReceiveData(ops, cfg, frames, s, data)
            case Failed(t) => Ordered(t, IdsOf(delivered), accepted)
            case Read(_, t, requests) => Ordered(t, IdsOf(delivered + requests), accepted)
  {
    var fed := Absorb(cfg.limits, frames, data);
    if fed.Some? {
      var chunks := fed.value.ready[..Min(cfg.batch, |fed.value.ready|)];
      ChunksOrdered(ops, cfg, s, chunks, IdsOf(delivered), accepted);
      var r := ReadChunks(ops, cfg, s, chunks);
      HandOutOrdered(r.s, delivered, accepted);
      assert delivered + [] == delivered;
    }
  }

  // ---------------------------------------------------------------- responding

  /** An accepted response is the last one. */
  lemma AcceptedLast<E>(s: H2<E>, id: int, response: Response, pending: int, delivered: seq<int>, accepted: seq<int>)
    requires Ordered(s, delivered, accepted)
    ensures Ordered(s.(pending := pending, commands := s.commands + [ResponseCommand(id, response)]), delivered, accepted + [id])
  {
    CommandMore(s.commands, ResponseCommand(id, response));
    DrawnMore(HeadIds(s.log) + ResponseIds(s.commands), accepted, id);
    assert HeadIds(s.log) + (ResponseIds(s.commands) + [id]) == HeadIds(s.log) + ResponseIds(s.commands) + [id];
  }

  lemma RefusedQuiet<E>(ops: Ops<E>, cfg: Config, s: H2<E>, id: int, response: Response)
    requires !Enqueue(ops, cfg, s, id, response).1
    ensures Quietly(s, Enqueue(ops, cfg, s, id, response).0)
  {
    SameIsQuiet(s, s);
    ResetQuiet(ops, s, id, EnhanceYourCalm);
    CommandMore(s.commands, ResetCommand(id));
  }

  lemma EnqueueOrdered<E>(ops: Ops<E>, cfg: Config, s: H2<E>, id: int, response: Response, delivered: seq<int>, accepted: seq<int>)
    requires Ordered(s, delivered, accepted)
    ensures var r := Enqueue(ops, cfg, s, id, response);
            Ordered(r.0, delivered, if r.1 then accepted + [id] else accepted)
  {
    var r := Enqueue(ops, cfg, s, id, response);
    if r.1 {
      AcceptedLast(s, id, response, s.pending + |response.body|, delivered, accepted);
    } else {
      RefusedQuiet(ops, cfg, s, id, response);
      QuietKeeps(s, r.0, delivered, accepted);
    }
  }

  lemma AnswerOrdered<E>(ops: Ops<E>, cfg: Config, s: H2<E>, id: int, response: Response, delivered: seq<int>, accepted: seq<int>)
    requires Ordered(s, delivered, accepted)
    ensures var r := QueueResponse(ops, cfg, s, id, response);
            Ordered(r.0, delivered, accepted + if r.1 then [id] else [])
  {
    assert accepted + [] == accepted;
    EnqueueOrdered(ops, cfg, ReleaseInbound(s, id), id, response, delivered, accepted);
  }

  /** One command of the list a flush has taken out of the state. */
  lemma CommandOrdered<E>(ops: Ops<E>, cfg: Config, s: H2<E>, c: Command, rest: seq<Command>, delivered: seq<int>, accepted: seq<int>)
    requires s.commands == [] && Ordered(s.(commands := [c] + rest), delivered, accepted)
    ensures var t := RunCommand(ops, cfg, s, c).s; t.commands == [] && Ordered(t.(commands := rest), delivered, accepted)
  {
    CommandFirst(c, rest);
    if c.ResponseCommand? {
      ResponseOrdered(ops, cfg, s, c.id, c.response, rest, delivered, accepted);
      CaptureOrdered(ops, cfg, StartResponse(ops, cfg, s, c.id, c.response).(commands := rest), delivered, accepted);
    } else {
      assert [] + ResponseIds(rest) == ResponseIds(rest);
      ResetKeepsTail(ops, s, c.id, EnhanceYourCalm, rest, delivered, accepted);
    }
  }

  lemma ResponseOrdered<E>(ops: Ops<E>, cfg: Config, s: H2<E>, id: int, response: Response, rest: seq<Command>,
                           delivered: seq<int>, accepted: seq<int>)
    requires s.commands == [] && Drawn(delivered + IdsOf(s.ready), EndIds(s.log))
    requires Drawn(HeadIds(s.log) + ([id] + ResponseIds(rest)), accepted)
    ensures var t := StartResponse(ops, cfg, s, id, response); t.commands == [] && Ordered(t.(commands := rest), delivered, accepted)
  {
    if response.headerSize > cfg.maxHeaderBytes {
      DrawnWithout(HeadIds(s.log), id, ResponseIds(rest), accepted);
      ResetKeepsTail(ops, s.(pending := s.pending - |response.body|), id, InternalError, rest, delivered, accepted);
    } else {
      HeadOrdered(ops, s, id, response, rest, delivered, accepted);
    }
  }

  lemma ResetKeepsTail<E>(ops: Ops<E>, s: H2<E>, id: int, code: ErrorCode, rest: seq<Command>, delivered: seq<int>, accepted: seq<int>)
    requires s.commands == [] && Ordered(s.(commands := rest), delivered, accepted)
    ensures var t := ResetStream(ops, s, id, code); t.commands == [] && Ordered(t.(commands := rest), delivered, accepted)
  {
    ResetQuiet(ops, s, id, code);
    QuietTail(s, ResetStream(ops, s, id, code), rest, delivered, accepted);
  }

  lemma QuietTail<E>(s: H2<E>, t: H2<E>, rest: seq<Command>, delivered: seq<int>, accepted: seq<int>)
    requires Quietly(s, t) && Ordered(s.(commands := rest), delivered, accepted)
    ensures Ordered(t.(commands := rest), delivered, accepted)
  {
    DrawnSelf(ResponseIds(rest));
    QuietKeeps(s.(commands := rest), t.(commands := rest), delivered, accepted);
  }

  lemma HeadOrdered<E>(ops: Ops<E>, s: H2<E>, id: int, response: Response, rest: seq<Command>, delivered: seq<int>, accepted: seq<int>)
    requires s.commands == [] && Drawn(delivered + IdsOf(s.ready), EndIds(s.log))
    requires Drawn(HeadIds(s.log) + ([id] + ResponseIds(rest)), accepted)
    ensures var t := SendHead(ops, s, id, response); t.commands == [] && Ordered(t.(commands := rest), delivered, accepted)
  {
    var (e, ok) := ops.sendHeaders(s.conn, id, response, response.body == []);
    var t := s.(conn := e, pending := s.pending - |response.body|);
    LogMore(s.log, DidHeaders(id, response.body, response.body == []));
    if ok {
      assert HeadIds(s.log) + [id] + ResponseIds(rest) == HeadIds(s.log) + ([id] + ResponseIds(rest));
    } else {
      DrawnWithout(HeadIds(s.log), id, ResponseIds(rest), accepted);
      DropQuiet(t, id);
      QuietTail(t, DropStream(t, id), rest, delivered, accepted);
    }
  }

  lemma {:induction false} CommandsOrdered<E>(ops: Ops<E>, cfg: Config, s: H2<E>, commands: seq<Command>,
                                              delivered: seq<int>, accepted: seq<int>)
    requires s.commands == [] && Ordered(s.(commands := commands), delivered, accepted)
    ensures var t := RunCommands(ops, cfg, s, commands).s; t.commands == [] && Ordered(t, delivered, accepted)
    decreases |commands|
  {
    if commands != [] {
      assert [commands[0]] + commands[1..] == commands;
      CommandOrdered(ops, cfg, s, commands[0], commands[1..], delivered, accepted);
      var t := RunCommand(ops, cfg, s, commands[0]);
      if t.Ok? {
        CommandsOrdered(ops, cfg, t.s, commands[1..], delivered, accepted);
      } else {
        DrawnNone(ResponseIds(commands[1..]));
        QuietKeeps(t.s.(commands := commands[1..]), t.s, delivered, accepted) by { DrawnSelf(IdsOf(t.s.ready)); }
      }
    } else {
      assert s.(commands := commands) == s;
    }
  }

  lemma StreamQuiet<E>(ops: Ops<E>, cfg: Config, f: Flushed<E>, o: Outbound)
    ensures Quietly(f.s, FlushStream(ops, cfg, f, o).s.s)
  {
    SameIsQuiet(f.s, f.s);
    DropQuiet(f.s, o.id);
    var window := ops.window(f.s.conn, o.id);
    if Remaining(o) > 0 && window.Some? {
      var n := ChunkSize(o, window.value, ops.frameSize(f.s.conn));
      if n > 0 {
        SendQuiet(ops, cfg, f, o, n, window.value);
      }
    }
  }

  lemma SendQuiet<E>(ops: Ops<E>, cfg: Config, f: Flushed<E>, o: Outbound, n: nat, window: int)
    requires o.offset + n <= |o.body|
    ensures Quietly(f.s, SendChunk(ops, cfg, f, o, n, window).s.s)
  {
    var chunk, fin := o.body[o.offset..o.offset + n], n == Remaining(o);
    var (e, ok) := ops.sendData(f.s.conn, o.id, chunk, fin);
    LogMore(f.s.log, DidData(o.id, chunk, fin, window, ops.frameSize(f.s.conn)));
    if ok {
      SameIsQuiet(f.s, SendChunk(ops, cfg, f, o, n, window).s.s);
    } else {
      DropQuiet(f.s.(conn := e), o.id);
    }
  }

  lemma {:induction false} StreamsOrdered<E>(ops: Ops<E>, cfg: Config, f: Flushed<E>, todo: seq<Outbound>,
                                             delivered: seq<int>, accepted: seq<int>)
    requires Ordered(f.s, delivered, accepted)
    ensures Ordered(FlushStreams(ops, cfg, f, todo).s.s, delivered, accepted)
    decreases |todo|
  {
    if todo != [] {
      StreamQuiet(ops, cfg, f, todo[0]);
      var r := FlushStream(ops, cfg, f, todo[0]);
      QuietKeeps(f.s, r.s.s, delivered, accepted);
      if r.Ok? {
        StreamsOrdered(ops, cfg, r.s, todo[1..], delivered, accepted);
      }
    }
  }

  lemma FlushOrdered<E>(ops: Ops<E>, cfg: Config, s: H2<E>, delivered: seq<int>, accepted: seq<int>)
    requires Ordered(s, delivered, accepted)
    ensures Ordered(Flush(ops, cfg, s).s.s, delivered, accepted)
  {
    assert s.(commands := []).(commands := s.commands) == s;
    CommandsOrdered(ops, cfg, s.(commands := []), s.commands, delivered, accepted);
    var t := RunCommands(ops, cfg, s.(commands := []), s.commands);
    if t.Ok? {
      var f := Flushed(t.s.(control := []), t.s.control);
      StreamsOrdered(ops, cfg, f, t.s.outbound, delivered, accepted);
    }
  }

  lemma CloseOrdered<E>(ops: Ops<E>, cfg: Config, s: H2<E>, code: int, delivered: seq<int>, accepted: seq<int>)
    requires Ordered(s, delivered, accepted)
    ensures Ordered(Close(ops, cfg, s, code).0, delivered, accepted)
  {
    LogMore(s.log, DidGoaway(code, s.last));
    DrawnNone(IdsOf(s.ready));
    DrawnNone(ResponseIds(s.commands));
    assert IdsOf([]) == [];
    QuietKeeps(s, Close(ops, cfg, s, code).0, delivered, accepted);
  }

  // ---------------------------------------------------------------- runs

  /** The responses a run has accepted, in order. */
  function AcceptedIds<E>(ops: Ops<E>, cfg: Config, s: Sys<E>, steps: seq<Step>): seq<int>
    decreases |steps|
  {
    if steps == [] then []
    else AcceptedNow(ops, cfg, s, steps[0]) + AcceptedIds(ops, cfg, Next(ops, cfg, s, steps[0]), steps[1..])
  }

  function AcceptedNow<E>(ops: Ops<E>, cfg: Config, s: Sys<E>, step: Step): seq<int>
  {
    if step.Respond? && step.id in s.waiting && QueueResponse(ops, cfg, s.h, step.id, step.response).1 then [step.id] else []
  }

  lemma StepOrdered<E>(ops: Ops<E>, cfg: Config, s: Sys<E>, step: Step, accepted: seq<int>)
    requires Ordered(s.h, IdsOf(s.delivered), accepted)
    ensures var t := Next(ops, cfg, s, step); Ordered(t.h, IdsOf(t.delivered), accepted + AcceptedNow(ops, cfg, s, step))
  {
    assert accepted + [] == accepted;
    match step
    case Receive(data) => ReceiveOrdered(ops, cfg, s.frames, s.h, data, s.delivered, accepted);
    case TakeCancelled =>
    case Respond(id, response) => AnswerOrdered(ops, cfg, s.h, id, response, IdsOf(s.delivered), accepted);
    case Abandon(id) =>
      DropQuiet(s.h, id);
      QuietKeeps(s.h, DropStream(s.h, id), IdsOf(s.delivered), accepted);
    case FlushOutput => FlushOrdered(ops, cfg, s.h, IdsOf(s.delivered), accepted);
    case CloseConnection(code) => CloseOrdered(ops, cfg, s.h, code, IdsOf(s.delivered), accepted);
  }

  lemma {:induction false} RunOrdered<E>(ops: Ops<E>, cfg: Config, s: Sys<E>, steps: seq<Step>, accepted: seq<int>)
    requires Ordered(s.h, IdsOf(s.delivered), accepted)
    ensures var t := Run(ops, cfg, s, steps); Ordered(t.h, IdsOf(t.delivered), accepted + AcceptedIds(ops, cfg, s, steps))
    decreases |steps|
  {
    if steps == [] {
      assert accepted + [] == accepted;
    } else {
      StepOrdered(ops, cfg, s, steps[0], accepted);
      var t, now := Next(ops, cfg, s, steps[0]), AcceptedNow(ops, cfg, s, steps[0]);
      RunOrdered(ops, cfg, t, steps[1..], accepted + now);
      InTurn(accepted, now, AcceptedIds(ops, cfg, t, steps[1..]));
    }
  }

  lemma InTurn(a: seq<int>, b: seq<int>, c: seq<int>)
    ensures a + b + c == a + (b + c)
  {
  }

  /** Over every run, of any engine: what was handed out, then what is ready, is what has ended, with some left out. */
  lemma RequestsKeepTheirOrder<E>(ops: Ops<E>, cfg: Config, conn: E, steps: seq<Step>)
    ensures var s := Run(ops, cfg, Start(conn), steps); Drawn(IdsOf(s.delivered) + IdsOf(s.h.ready), EndIds(s.h.log))
  {
    StartOrdered(conn);
    RunOrdered(ops, cfg, Start(conn), steps, []);
  }

  /** And the responses whose HEADERS went out, then those still queued, are the accepted ones, with some left out. */
  lemma ResponsesKeepTheirOrder<E>(ops: Ops<E>, cfg: Config, conn: E, steps: seq<Step>)
    ensures var s := Run(ops, cfg, Start(conn), steps);
            Drawn(HeadIds(s.h.log) + ResponseIds(s.h.commands), AcceptedIds(ops, cfg, Start(conn), steps))
  {
    StartOrdered(conn);
    RunOrdered(ops, cfg, Start(conn), steps, []);
    assert [] + AcceptedIds(ops, cfg, Start(conn), steps) == AcceptedIds(ops, cfg, Start(conn), steps);
  }

  lemma StartOrdered<E>(conn: E)
    ensures Ordered(Start(conn).h, IdsOf(Start(conn).delivered), [])
  {
    DrawnNone([]);
    assert IdsOf([]) + IdsOf([]) == [];
  }
}
