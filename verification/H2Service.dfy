/**
 What clients get, over whole runs: every completed request that was not dropped is handed out, every accepted
 response goes out unless its stream is dropped, accepted responses are dropped only when the client gives them up,
 and a response is accepted exactly when its stream is alive and the budgets have room.
 */
module H2Service {
  import opened Bytes
  import opened Optional
  import opened FrameBudgetSplitter
  import opened H2State
  import opened H2Invariant
  import opened H2Safety
  import opened H2Operations
  import opened H2Sending
  import opened H2Runs
  import opened H2Complete
  import opened H2Drops

  // ---------------------------------------------------------------- nothing new becomes ready outside `receive_data`

  lemma ResetReady<E>(ops: Ops<E>, s: H2<E>, id: int, code: ErrorCode)
    requires s.ready == []
    ensures ResetStream(ops, s, id, code).ready == [] && DropStream(s, id).ready == []
  {
  }

  lemma AnswerReady<E>(ops: Ops<E>, cfg: Config, s: H2<E>, id: int, response: Response)
    requires s.ready == []
    ensures QueueResponse(ops, cfg, s, id, response).0.ready == []
  {
    ResetReady(ops, ReleaseInbound(s, id), id, EnhanceYourCalm);
  }

  lemma CommandReady<E>(ops: Ops<E>, cfg: Config, s: H2<E>, c: Command)
    requires s.ready == []
    ensures RunCommand(ops, cfg, s, c).s.ready == []
  {
  }

  lemma {:induction false} CommandsReady<E>(ops: Ops<E>, cfg: Config, s: H2<E>, commands: seq<Command>)
    requires s.ready == []
    ensures RunCommands(ops, cfg, s, commands).s.ready == []
    decreases |commands|
  {
    if commands != [] {
      CommandReady(ops, cfg, s, commands[0]);
      var t := RunCommand(ops, cfg, s, commands[0]);
      if t.Ok? {
        CommandsReady(ops, cfg, t.s, commands[1..]);
      }
    }
  }

  lemma StreamReady<E>(ops: Ops<E>, cfg: Config, f: Flushed<E>, o: Outbound)
    requires f.s.ready == []
    ensures FlushStream(ops, cfg, f, o).s.s.ready == []
  {
  }

  lemma {:induction false} StreamsReady<E>(ops: Ops<E>, cfg: Config, f: Flushed<E>, todo: seq<Outbound>)
    requires f.s.ready == []
    ensures FlushStreams(ops, cfg, f, todo).s.s.ready == []
    decreases |todo|
  {
    if todo != [] {
      StreamReady(ops, cfg, f, todo[0]);
      var r := FlushStream(ops, cfg, f, todo[0]);
      if r.Ok? {
        StreamsReady(ops, cfg, r.s, todo[1..]);
      }
    }
  }

  lemma FlushReady<E>(ops: Ops<E>, cfg: Config, s: H2<E>)
    requires s.ready == []
    ensures Flush(ops, cfg, s).s.s.ready == []
  {
    CommandsReady(ops, cfg, s.(commands := []), s.commands);
    var t := RunCommands(ops, cfg, s.(commands := []), s.commands);
    if t.Ok? {
      StreamsReady(ops, cfg, Flushed(t.s.(control := []), t.s.control), t.s.outbound);
    }
  }

  /** Once no chunk is left, every ready request was handed out. */
  lemma ReadyGoesOut<E>(ops: Ops<E>, cfg: Config, s: Sys<E>, step: Step)
    requires s.frames.ready == [] ==> s.h.ready == []
    ensures var t := Next(ops, cfg, s, step); !t.raised && t.frames.ready == [] ==> t.h.ready == []
  {
    if s.h.ready == [] {
      match step
      case Receive(data) =>
      case TakeCancelled =>
      case Respond(id, response) => AnswerReady(ops, cfg, s.h, id, response);
      case Abandon(id) =>
      case FlushOutput => FlushReady(ops, cfg, s.h);
      case CloseConnection(code) =>
    }
  }

  // ---------------------------------------------------------------- runs of a connection that is neither closed nor broken

  ghost predicate Serving<E>(ops: Ops<E>, cfg: Config, s: Sys<E>, g: Story)
  {
    SysInv(ops, cfg, s, g) && (s.raised || (Whole(s.h, g, {}) && (s.frames.ready == [] ==> s.h.ready == [])))
  }

  lemma ReceiveServes<E(!new)>(ops: Ops<E>, cfg: Config, s: Sys<E>, g: Story, data: bytes) returns (h: Story)
    requires Lawful(ops) && Serving(ops, cfg, s, g) && !s.raised
    ensures Serving(ops, cfg, Next(ops, cfg, s, Receive(data)), h)
  {
    h := ReceiveWhole(ops, cfg, s.frames, s.h, g, data);
    var r := ReceiveData(ops, cfg, s.frames, s.h, data);
    InvIsLasting(cfg, r.s, h);
    ReadyGoesOut(ops, cfg, s, Receive(data));
  }

  /** The parts of a handler's step: the connection, the story, and who waits and was answered. */
  lemma HandlerServes<E>(ops: Ops<E>, cfg: Config, s: Sys<E>, t: H2<E>, waiting: set<int>, answered: map<int, bytes>, h: Story)
    requires !s.raised && Inv(cfg, t, h) && Synced(ops, t.conn, h) && Whole(t, h, {})
    requires h.waiting == waiting && h.answered == answered && h.delivered == s.delivered
    requires s.frames.ready == [] ==> t.ready == []
    ensures Serving(ops, cfg, s.(h := t, waiting := waiting, answered := answered), h)
  {
  }

  lemma RespondServes<E(!new)>(ops: Ops<E>, cfg: Config, s: Sys<E>, g: Story, id: int, response: Response) returns (h: Story)
    requires Lawful(ops) && Serving(ops, cfg, s, g) && !s.raised && id in s.waiting
    ensures Serving(ops, cfg, Next(ops, cfg, s, Respond(id, response)), h)
  {
    var r := QueueResponse(ops, cfg, s.h, id, response);
    h := Answered(g, id, response.body, r.1);
    QueueResponseInv(ops, cfg, s.h, g, id, response);
    AnswerKeepsStreams(ops, cfg, s.h, id, response);
    AnswerWhole(ops, cfg, s.h, g, id, response);
    ReadyGoesOut(ops, cfg, s, Respond(id, response));
    HandlerServes(ops, cfg, s, r.0, s.waiting - {id}, if r.1 then s.answered[id := response.body] else s.answered, h);
  }

  lemma AbandonServes<E(!new)>(ops: Ops<E>, cfg: Config, s: Sys<E>, g: Story, id: int) returns (h: Story)
    requires Lawful(ops) && Serving(ops, cfg, s, g) && !s.raised && id in s.waiting
    ensures Serving(ops, cfg, Next(ops, cfg, s, Abandon(id)), h)
  {
    h := g.(waiting := g.waiting - {id});
    var t := Abandoned(cfg, s.h, g, id);
    NextIsAbandon(ops, cfg, s, id);
    HandlerServes(ops, cfg, s, t, s.waiting - {id}, s.answered, h);
  }

  lemma NextIsAbandon<E>(ops: Ops<E>, cfg: Config, s: Sys<E>, id: int)
    requires id in s.waiting
    ensures Next(ops, cfg, s, Abandon(id)) == s.(h := DropStream(s.h, id), waiting := s.waiting - {id}, answered := s.answered)
  {
  }

  lemma Abandoned<E>(cfg: Config, s: H2<E>, g: Story, id: int) returns (t: H2<E>)
    requires Inv(cfg, s, g) && Whole(s, g, {}) && id in g.waiting
    ensures t == DropStream(s, id) && t.conn == s.conn && (s.ready == [] ==> t.ready == [])
    ensures var h := g.(waiting := g.waiting - {id}); Inv(cfg, t, h) && Whole(t, h, {})
  {
    t := DropStream(s, id);
    AbandonInv(cfg, s, g, id);
    AbandonWhole(cfg, s, g, id);
  }

  lemma FlushServes<E(!new)>(ops: Ops<E>, cfg: Config, s: Sys<E>, g: Story)
    requires Lawful(ops) && Serving(ops, cfg, s, g) && !s.raised
    ensures Serving(ops, cfg, Next(ops, cfg, s, FlushOutput), g)
  {
    FlushKeeps(ops, cfg, s, g);
    FlushWhole(ops, cfg, s.h, g);
    NextIsFlush(ops, cfg, s);
    ReadyGoesOut(ops, cfg, s, FlushOutput);
  }

  lemma TakeServes<E>(ops: Ops<E>, cfg: Config, s: Sys<E>, g: Story)
    requires Serving(ops, cfg, s, g) && !s.raised
    ensures Serving(ops, cfg, Next(ops, cfg, s, TakeCancelled), g)
  {
    TakeCancelledInv(cfg, s.h, g);
    OtherFields(s.h, g, s.h.(cancelled := []));
  }

  lemma StepServes<E(!new)>(ops: Ops<E>, cfg: Config, s: Sys<E>, g: Story, step: Step) returns (h: Story)
    requires Lawful(ops) && Serving(ops, cfg, s, g) && !step.CloseConnection?
    ensures Serving(ops, cfg, Next(ops, cfg, s, step), h)
  {
    h := g;
    if s.raised {
      h := StepKeeps(ops, cfg, s, g, step);
    } else if step.Receive? {
      h := ReceiveServes(ops, cfg, s, g, step.data);
    } else if step.TakeCancelled? {
      TakeServes(ops, cfg, s, g);
    } else if step.FlushOutput? {
      FlushServes(ops, cfg, s, g);
    } else if step.id in s.waiting {
      if step.Respond? {
        h := RespondServes(ops, cfg, s, g, step.id, step.response);
      } else {
        h := AbandonServes(ops, cfg, s, g, step.id);
      }
    }
  }

  ghost predicate NeverCloses(steps: seq<Step>)
  {
    forall step | step in steps :: !step.CloseConnection?
  }

  lemma {:induction false} RunServes<E(!new)>(ops: Ops<E>, cfg: Config, s: Sys<E>, g: Story, steps: seq<Step>) returns (h: Story)
    requires Lawful(ops) && Serving(ops, cfg, s, g) && NeverCloses(steps)
    ensures Serving(ops, cfg, Run(ops, cfg, s, steps), h)
    decreases |steps|
  {
    h := g;
    if steps != [] {
      assert steps[0] in steps && forall step | step in steps[1..] :: step in steps;
      h := StepServes(ops, cfg, s, g, steps[0]);
      h := RunServes(ops, cfg, Next(ops, cfg, s, steps[0]), h, steps[1..]);
    }
  }

  /** A new connection, and a run of it without a close. */
  ghost predicate Open<E(!new)>(ops: Ops<E>, cfg: Config, conn: E, steps: seq<Step>)
  {
    Lawful(ops) && ValidConfig(cfg) && Newborn(ops, conn) && NeverCloses(steps)
  }

  lemma FromOpen<E(!new)>(ops: Ops<E>, cfg: Config, conn: E, steps: seq<Step>) returns (g: Story)
    requires Open(ops, cfg, conn, steps)
    ensures Serving(ops, cfg, Run(ops, cfg, Start(conn), steps), g)
  {
    g := Story(ops.lastOpened(conn), ops.halfClosed(conn), {}, map[], []);
    FreshInv(cfg, conn, g.hi, g.ended);
    StartsWhole(conn, g);
    g := RunServes(ops, cfg, Start(conn), g, steps);
  }

  // ---------------------------------------------------------------- the theorems

  /**
   The counterpart of `RequestsAreGenuine`.  Over every run without an exception or a close, once no chunk is left:
   a request its client has opened with that head and ended, and whose stream was not dropped, was handed out, with
   exactly the DATA received.
   */
  lemma RequestsAreHandedOut<E(!new)>(ops: Ops<E>, cfg: Config, conn: E, steps: seq<Step>, id: int, head: Head)
    requires Open(ops, cfg, conn, steps) && !Run(ops, cfg, Start(conn), steps).raised
    requires Run(ops, cfg, Start(conn), steps).frames.ready == []
    requires var log := Run(ops, cfg, Start(conn), steps).h.log; Asked(log, id, head) && Ended(log, id) && Dropped(id) !in log
    ensures var s := Run(ops, cfg, Start(conn), steps);
            Ready(id, head, DataOf(s.h.log, id)) in s.delivered
  {
    var g := FromOpen(ops, cfg, conn, steps);
    var s := Run(ops, cfg, Start(conn), steps);
    assert RequestHere(s.h, g, id, head);
    var r :| r in s.delivered && r.id == id && r.head == head;
    assert Genuine(s.h, g, r);
    assert r == Ready(id, head, DataOf(s.h.log, id));
  }

  /** Until then it is held: neither lost nor handed out early, with the DATA received so far. */
  lemma RequestsAreHeld<E(!new)>(ops: Ops<E>, cfg: Config, conn: E, steps: seq<Step>, id: int, head: Head)
    requires Open(ops, cfg, conn, steps) && !Run(ops, cfg, Start(conn), steps).raised
    requires var log := Run(ops, cfg, Start(conn), steps).h.log; Asked(log, id, head) && !Ended(log, id) && Dropped(id) !in log
    ensures var s := Run(ops, cfg, Start(conn), steps);
            && id in s.h.inbound && s.h.inbound[id].head == head && s.h.inbound[id].body == DataOf(s.h.log, id)
            && id in s.h.active && forall r | r in s.delivered :: r.id != id
  {
    var g := FromOpen(ops, cfg, conn, steps);
    var s := Run(ops, cfg, Start(conn), steps);
    assert RequestHere(s.h, g, id, head);
    forall r | r in s.delivered ensures r.id != id {
      assert Genuine(s.h, g, r);
    }
  }

  /**
   The counterpart of `DataIsAPrefixOfTheBody`.  Over such runs an accepted response whose stream was not dropped is
   waiting in the command list with nothing sent, on the outbound table with exactly its first `offset` bytes
   sent, or complete: its HEADERS and its whole body went out.
   */
  lemma ResponsesAreCarriedOut<E(!new)>(ops: Ops<E>, cfg: Config, conn: E, steps: seq<Step>, id: int)
    requires Open(ops, cfg, conn, steps) && !Run(ops, cfg, Start(conn), steps).raised
    requires var s := Run(ops, cfg, Start(conn), steps); id in s.answered && Dropped(id) !in s.h.log
    ensures var s := Run(ops, cfg, Start(conn), steps);
            var body := s.answered[id];
            || (SentOf(s.h.log, id) == [] && exists c :: c in s.h.commands && c.ResponseCommand? && c.id == id && c.response.body == body)
            || (exists o :: o in s.h.outbound && o.id == id && o.body == body && o.offset < |body|
                            && SentOf(s.h.log, id) == body[..o.offset]
                            && DidHeaders(id, body, false) in s.h.log)
            || (SentOf(s.h.log, id) == body && DidHeaders(id, body, body == []) in s.h.log)
  {
    var g := FromOpen(ops, cfg, conn, steps);
    var s := Run(ops, cfg, Start(conn), steps);
    ResponseFound(cfg, s.h, g, id);
  }

  lemma {:induction false} CompleteHasHead(log: seq<Entry>, id: int, body: bytes)
    ensures Replay(log, id, body) == Complete ==> DidHeaders(id, body, body == []) in log
    ensures Replay(log, id, body).Sending? ==> DidHeaders(id, body, false) in log && body != []
  {
    if log != [] {
      var rest, e := log[..|log| - 1], log[|log| - 1];
      assert log == rest + [e];
      CompleteHasHead(rest, id, body);
    }
  }

  lemma ResponseFound<E>(cfg: Config, s: H2<E>, g: Story, id: int)
    requires Inv(cfg, s, g) && Whole(s, g, {}) && id in g.answered && Dropped(id) !in s.log
    ensures var body := g.answered[id];
            || (SentOf(s.log, id) == [] && exists c :: c in s.commands && c.ResponseCommand? && c.id == id && c.response.body == body)
            || (exists o :: o in s.outbound && o.id == id && o.body == body && o.offset < |body| && SentOf(s.log, id) == body[..o.offset]
                            && DidHeaders(id, body, false) in s.log)
            || (SentOf(s.log, id) == body && DidHeaders(id, body, body == []) in s.log)
  {
    var body := g.answered[id];
    assert ResponseHere(s, g, id) && Body(g, id) == body;
    ReplayMeans(s.log, id, body);
    CompleteHasHead(s.log, id, body);
    if id in OutIds(s.outbound) {
      var o :| o in s.outbound && o.id == id;
      assert Replay(s.log, o.id, o.body) == Sending(o.body[..o.offset]);
    } else if ResponseQueued(s.commands, id) {
      var c :| c in s.commands && c.ResponseCommand? && c.id == id;
      assert id in s.active;
    }
  }

  /** The active streams are those the client has opened that were neither dropped nor answered in full. */
  lemma StreamLimitCountsOpenStreams<E(!new)>(ops: Ops<E>, cfg: Config, conn: E, steps: seq<Step>, id: int)
    requires Open(ops, cfg, conn, steps) && !Run(ops, cfg, Start(conn), steps).raised
    ensures var s := Run(ops, cfg, Start(conn), steps);
            var body := if id in s.answered then s.answered[id] else [];
            id in s.h.active <==> WasAsked(s.h.log, id) && Dropped(id) !in s.h.log && Replay(s.h.log, id, body) != Complete
  {
    var g := FromOpen(ops, cfg, conn, steps);
    ActiveIsOpen(cfg, Run(ops, cfg, Start(conn), steps).h, g, id);
  }

  /** What `close` reports as the last stream is 0 or a request its client has completed. */
  lemma LastIsACompletedRequest<E(!new)>(ops: Ops<E>, cfg: Config, conn: E, steps: seq<Step>)
    requires Open(ops, cfg, conn, steps) && !Run(ops, cfg, Start(conn), steps).raised
    ensures var h := Run(ops, cfg, Start(conn), steps).h;
            h.last == 0 || (Ended(h.log, h.last) && WasAsked(h.log, h.last))
  {
    var g := FromOpen(ops, cfg, conn, steps);
  }

  /** Is there room for a response of this size? */
  ghost predicate Roomy<E>(cfg: Config, h: H2<E>, size: nat)
  {
    && size <= cfg.maxResponseBody
    && |h.control| + Unsent(h.outbound) + Queued(h.commands) + size <= cfg.maxPendingOutput
    && |h.commands| < cfg.maxStreams * 2
  }

  /**
   A handler's response is accepted if and only if its stream was not dropped and there is room: for this body, for
   all that is held back, queued and unsent, and for a command.  A refused one costs a live stream its life.
   */
  lemma ResponsesAreAcceptedExactly<E(!new)>(ops: Ops<E>, cfg: Config, conn: E, steps: seq<Step>, id: int, response: Response)
    requires Open(ops, cfg, conn, steps) && !Run(ops, cfg, Start(conn), steps).raised
    requires id in Run(ops, cfg, Start(conn), steps).waiting
    ensures var s := Run(ops, cfg, Start(conn), steps);
            var t := Next(ops, cfg, s, Respond(id, response));
            && (id in t.answered <==> Dropped(id) !in s.h.log && Roomy(cfg, s.h, |response.body|))
            && (id in t.answered ==> t.answered[id] == response.body && ResponseCommand(id, response) in t.h.commands)
            && (id !in t.answered ==> Dropped(id) in t.h.log || ResetCommand(id) in t.h.commands)
  {
    var g := FromOpen(ops, cfg, conn, steps);
    var s := Run(ops, cfg, Start(conn), steps);
    WaitingIsActive(cfg, s.h, g, id);
    AcceptedExactly(ops, cfg, s.h, g, id, response);
  }

  lemma WaitingIsActive<E>(cfg: Config, s: H2<E>, g: Story, id: int)
    requires Inv(cfg, s, g) && Whole(s, g, {}) && id in g.waiting
    ensures id in s.active <==> Dropped(id) !in s.log
    ensures id !in g.answered && id !in CommandIds(s.commands) && s.pending == Unsent(s.outbound) + Queued(s.commands)
  {
    var r :| r in g.delivered && r.id == id;
    assert Genuine(s, g, r);
    ActiveIsOpen(cfg, s, g, id);
    assert Asked(s.log, id, r.head) && Quiet(s.log, id);
    QuietForAnyBody(s.log, id, []);
  }

  lemma AcceptedExactly<E>(ops: Ops<E>, cfg: Config, s: H2<E>, g: Story, id: int, response: Response)
    requires id !in CommandIds(s.commands) && s.pending == Unsent(s.outbound) + Queued(s.commands)
    requires id in s.active <==> Dropped(id) !in s.log
    ensures var r := QueueResponse(ops, cfg, s, id, response);
            && (r.1 <==> Dropped(id) !in s.log && Roomy(cfg, s, |response.body|))
            && (r.1 ==> ResponseCommand(id, response) in r.0.commands)
            && (!r.1 ==> Dropped(id) in r.0.log || ResetCommand(id) in r.0.commands)
  {
    var t := ReleaseInbound(s, id);
    NoCommand(t.commands, id);
    assert ResponseCommand(id, response) in t.commands + [ResponseCommand(id, response)];
    assert ResetCommand(id) in t.commands + [ResetCommand(id)];
    ResetLog(ops, t, id, EnhanceYourCalm);
  }

  // ---------------------------------------------------------------- accepted responses are dropped only for a cause

  /** An engine that takes every response and every chunk, and knows the windows of its streams. */
  ghost predicate Willing<E(!new)>(ops: Ops<E>)
  {
    && (forall e, id, a, fin :: ops.sendHeaders(e, id, a, fin).1)
    && (forall e, id, d, fin :: ops.sendData(e, id, d, fin).1)
    && (forall e, id :: ops.window(e, id).Some?)
  }

  /** The client has reset its stream, or sent trailers on it. */
  predicate GaveUp(log: seq<Entry>, id: int)
  {
    Got(StreamReset(id)) in log || Got(TrailersReceived(id)) in log
  }

  ghost predicate Spared<E>(cfg: Config, s: H2<E>, g: Story)
  {
    && (forall id | id in g.answered && Dropped(id) in s.log :: GaveUp(s.log, id))
    && (forall c | c in s.commands && c.ResetCommand? :: c.id !in g.answered)
    && (forall c | c in s.commands && c.ResponseCommand? :: c.response.headerSize <= cfg.maxHeaderBytes)
  }

  /** The log has grown, by drops of at most one stream; no command was added. */
  ghost predicate OnlyDrops<E>(s: H2<E>, t: H2<E>, id: int)
  {
    && (forall e | e in s.log :: e in t.log)
    && (forall x | Dropped(x) in t.log :: Dropped(x) in s.log || x == id)
    && (forall c | c in t.commands :: c in s.commands)
  }

  lemma SparedBy<E>(cfg: Config, s: H2<E>, g: Story, t: H2<E>, h: Story, id: int)
    requires Spared(cfg, s, g) && OnlyDrops(s, t, id) && h.answered == g.answered
    requires id in g.answered ==> GaveUp(t.log, id) || Dropped(id) !in t.log
    ensures Spared(cfg, t, h)
  {
    forall x | x in h.answered && Dropped(x) in t.log ensures GaveUp(t.log, x) {
      if x != id {
        assert GaveUp(s.log, x);
      }
    }
  }

  lemma {:induction false} KeptSome(commands: seq<Command>, id: int)
    ensures forall c | c in Kept(commands, id) :: c in commands
  {
    if commands != [] {
      KeptSome(commands[..|commands| - 1], id);
    }
  }

  lemma DropOnly<E>(s: H2<E>, id: int)
    ensures OnlyDrops(s, DropStream(s, id), id)
  {
    KeptSome(s.commands, id);
    LogMembers(s.log, Dropped(id));
  }

  lemma ResetOnly<E>(ops: Ops<E>, s: H2<E>, id: int, code: ErrorCode)
    ensures OnlyDrops(s, ResetStream(ops, s, id, code), id)
  {
    var (e, ok) := ops.reset(s.conn, id, code);
    LogMembers(s.log, DidReset(id, code));
    DropOnly(s.(conn := e, log := if ok then s.log + [DidReset(id, code)] else s.log), id);
  }

  function StreamOf(e: Event): int
  {
    match e
    case RequestReceived(id, _) => id
    case DataReceived(id, _, _) => id
    case StreamEnded(id) => id
    case StreamReset(id) => id
    case TrailersReceived(id) => id
    case ConnectionTerminated => 0
    case WindowOrSettings => 0
  }

  /** The same behind an entry for the event. */
  lemma OnlyAfter<E>(s: H2<E>, t: H2<E>, u: H2<E>, e: Event, id: int)
    requires t.log == s.log + [Got(e)] && t.commands == s.commands && OnlyDrops(t, u, id)
    ensures OnlyDrops(s, u, id) && Got(e) in u.log
  {
    LogMembers(s.log, Got(e));
  }

  lemma DataOnly<E>(ops: Ops<E>, cfg: Config, s: H2<E>, id: int, data: bytes, flow: nat)
    ensures DataArrived(ops, cfg, s, id, data, flow).Ok? ==>
              && OnlyDrops(s, DataArrived(ops, cfg, s, id, data, flow).s, id)
              && Got(DataReceived(id, data, flow)) in DataArrived(ops, cfg, s, id, data, flow).s.log
  {
    var (c, ok) := ops.acknowledge(s.conn, id, flow);
    if ok {
      var u := s.(conn := c, log := s.log + [Got(DataReceived(id, data, flow))]);
      ChargeOnly(ops, cfg, u, id, data);
      OnlyAfter(s, u, ChargeData(ops, cfg, u, id, data), DataReceived(id, data, flow), id);
    }
  }

  lemma ChargeOnly<E>(ops: Ops<E>, cfg: Config, s: H2<E>, id: int, data: bytes)
    ensures OnlyDrops(s, ChargeData(ops, cfg, s, id, data), id)
  {
    ResetOnly(ops, s, id, EnhanceYourCalm);
    ResetOnly(ops, s, id, ErrorCode.StreamClosed);
  }

  lemma RequestOnly<E>(ops: Ops<E>, cfg: Config, s: H2<E>, id: int, head: Option<Head>)
    ensures OnlyDrops(s, RequestArrived(ops, cfg, s, id, head), id)
  {
    ResetOnly(ops, s, id, RefusedStream);
    ResetOnly(ops, s, id, ProtocolError);
  }

  lemma EndOnly<E>(ops: Ops<E>, s: H2<E>, id: int)
    ensures OnlyDrops(s, StreamFinished(ops, s, id), id)
  {
    ResetOnly(ops, s, id, ProtocolError);
  }

  lemma EventOnly<E>(ops: Ops<E>, cfg: Config, s: H2<E>, e: Event)
    requires HandleEvent(ops, cfg, s, e).Ok?
    ensures var t := HandleEvent(ops, cfg, s, e).s;
            && OnlyDrops(s, t, StreamOf(e)) && Got(e) in t.log
            && (e.ConnectionTerminated? || e.WindowOrSettings? ==> forall x | Dropped(x) in t.log :: Dropped(x) in s.log)
  {
    var t := s.(log := s.log + [Got(e)]);
    match e
    case RequestReceived(id, head) =>
      RequestOnly(ops, cfg, t, id, head);
      OnlyAfter(s, t, RequestArrived(ops, cfg, t, id, head), e, id);
    case DataReceived(id, data, flow) => DataOnly(ops, cfg, s, id, data, flow);
    case StreamEnded(id) =>
      EndOnly(ops, t, id);
      OnlyAfter(s, t, StreamFinished(ops, t, id), e, id);
    case StreamReset(id) =>
      var u := t.(cancelled := t.cancelled + [id]);
      DropOnly(u, id);
      OnlyAfter(s, u, DropStream(u, id), e, id);
    case TrailersReceived(id) =>
      ResetOnly(ops, t, id, ProtocolError);
      OnlyAfter(s, t, ResetStream(ops, t, id, ProtocolError), e, id);
    case ConnectionTerminated => LogMembers(s.log, Got(e));
    case WindowOrSettings => LogMembers(s.log, Got(e));
  }

  /** A stream that was answered was opened and ended before. */
  lemma AnsweredIsEnded<E>(cfg: Config, s: H2<E>, g: Story, id: int)
    requires Inv(cfg, s, g) && id in g.answered
    ensures id in g.ended && id <= g.hi
  {
    assert id in ReadyIds(g.delivered);
    var r :| r in g.delivered && r.id == id;
    assert Genuine(s, g, r);
  }

  lemma EventSpares<E>(ops: Ops<E>, cfg: Config, s: H2<E>, g: Story, e: Event)
    requires Spared(cfg, s, g) && Inv(cfg, s, g) && AfterEvent(e, g.hi, g.ended).Some? && HandleEvent(ops, cfg, s, e).Ok?
    ensures var (hi, ended) := AfterEvent(e, g.hi, g.ended).value;
            Spared(cfg, HandleEvent(ops, cfg, s, e).s, g.(hi := hi, ended := ended))
  {
    var (hi, ended) := AfterEvent(e, g.hi, g.ended).value;
    var id := StreamOf(e);
    EventOnly(ops, cfg, s, e);
    if id in g.answered {
      AnsweredIsEnded(cfg, s, g, id);
    }
    if e.ConnectionTerminated? || e.WindowOrSettings? {
      UnchangedSpares(cfg, s, g, HandleEvent(ops, cfg, s, e).s);
    } else {
      SparedBy(cfg, s, g, HandleEvent(ops, cfg, s, e).s, g.(hi := hi, ended := ended), id);
    }
  }

  lemma UnchangedSpares<E>(cfg: Config, s: H2<E>, g: Story, t: H2<E>)
    requires Spared(cfg, s, g) && (forall e | e in s.log :: e in t.log)
    requires (forall x | Dropped(x) in t.log :: Dropped(x) in s.log) && forall c | c in t.commands :: c in s.commands
    ensures Spared(cfg, t, g)
  {
    forall x | x in g.answered && Dropped(x) in t.log ensures GaveUp(t.log, x) {
      assert GaveUp(s.log, x);
    }
  }

  lemma {:induction false} EventsSpare<E>(ops: Ops<E>, cfg: Config, s: H2<E>, g: Story, es: seq<Event>)
    requires Spared(cfg, s, g) && Inv(cfg, s, g) && AfterEvents(es, g.hi, g.ended).Some?
    ensures var (hi, ended) := AfterEvents(es, g.hi, g.ended).value;
            HandleEvents(ops, cfg, s, es).Ok? ==> Spared(cfg, HandleEvents(ops, cfg, s, es).s, g.(hi := hi, ended := ended))
    decreases |es|
  {
    if es != [] {
      HandleEventInv(ops, cfg, s, g, es[0]);
      var (hi, ended) := AfterEvent(es[0], g.hi, g.ended).value;
      var t := HandleEvent(ops, cfg, s, es[0]);
      if t.Ok? {
        EventSpares(ops, cfg, s, g, es[0]);
        EventsSpare(ops, cfg, t.s, g.(hi := hi, ended := ended), es[1..]);
      }
    }
  }

  lemma ChunkSpares<E(!new)>(ops: Ops<E>, cfg: Config, s: H2<E>, g: Story, chunk: bytes, h: Story)
    requires Lawful(ops) && Spared(cfg, s, g) && Inv(cfg, s, g) && Synced(ops, s.conn, g) && ReadChunk(ops, cfg, s, chunk).Ok?
    requires h.answered == g.answered
    ensures Spared(cfg, ReadChunk(ops, cfg, s, chunk).s, h)
  {
    var (e, events) := ops.receive(s.conn, chunk);
    var t := s.(conn := e, log := s.log + [Given(chunk)]);
    LogMembers(s.log, Given(chunk));
    UnchangedSpares(cfg, s, g, t);
    Neutral(cfg, s, g, {}, e, Given(chunk));
    EventsSpare(ops, cfg, t, g, events.value);
    var (hi, ended) := AfterEvents(events.value, g.hi, g.ended).value;
    StorySpares(cfg, HandleEvents(ops, cfg, t, events.value).s, g.(hi := hi, ended := ended), ReadChunk(ops, cfg, s, chunk).s, h);
  }

  lemma StorySpares<E>(cfg: Config, s: H2<E>, g: Story, t: H2<E>, h: Story)
    requires Spared(cfg, s, g) && h.answered == g.answered && t.log == s.log && t.commands == s.commands
    ensures Spared(cfg, t, h)
  {
  }

  lemma {:induction false} ChunksSpare<E(!new)>(ops: Ops<E>, cfg: Config, s: H2<E>, g: Story, chunks: seq<bytes>, h: Story)
    requires Lawful(ops) && Spared(cfg, s, g) && Inv(cfg, s, g) && Synced(ops, s.conn, g) && ReadChunks(ops, cfg, s, chunks).Ok?
    requires h.answered == g.answered
    ensures Spared(cfg, ReadChunks(ops, cfg, s, chunks).s, h)
    decreases |chunks|
  {
    if chunks == [] {
      StorySpares(cfg, s, g, s, h);
    } else {
      var k := ReadChunkInv(ops, cfg, s, g, chunks[0]);
      ChunkSpares(ops, cfg, s, g, chunks[0], k);
      ChunksSpare(ops, cfg, ReadChunk(ops, cfg, s, chunks[0]).s, k, chunks[1..], h);
    }
  }

  lemma ReceiveSpares<E(!new)>(ops: Ops<E>, cfg: Config, frames: Splitter, s: H2<E>, g: Story, data: bytes, h: Story)
    requires Lawful(ops) && Spared(cfg, s, g) && Inv(cfg, s, g) && Synced(ops, s.conn, g) && h.answered == g.answered
    ensures var r := ReceiveData(ops, cfg, frames, s, data); r.Read? ==> Spared(cfg, r.s, h)
  {
    var fed := Absorb(cfg.limits, frames, data);
    if fed.Some? {
      var chunks := fed.value.ready[..Min(cfg.batch, |fed.value.ready|)];
      var t := ReadChunks(ops, cfg, s, chunks);
      if t.Ok? {
        ChunksSpare(ops, cfg, s, g, chunks, h);
        StorySpares(cfg, t.s, h, t.s.(ready := []), h);
      }
    }
  }

  lemma AnswerSpares<E>(ops: Ops<E>, cfg: Config, s: H2<E>, g: Story, id: int, response: Response)
    requires Spared(cfg, s, g) && Inv(cfg, s, g) && id in g.waiting && response.headerSize <= cfg.maxHeaderBytes
    ensures var r := QueueResponse(ops, cfg, s, id, response);
            Spared(cfg, r.0, Answered(g, id, response.body, r.1))
  {
    if id in s.active {
      HeldIsNotDropped(cfg, s, g, id);
      EnqueueSpares(ops, cfg, ReleaseInbound(s, id), g, id, response);
    }
  }

  lemma EnqueueSpares<E>(ops: Ops<E>, cfg: Config, s: H2<E>, g: Story, id: int, response: Response)
    requires Spared(cfg, s, g) && response.headerSize <= cfg.maxHeaderBytes
    requires id !in g.answered && id !in CommandIds(s.commands) && Dropped(id) !in s.log
    ensures var r := Enqueue(ops, cfg, s, id, response);
            Spared(cfg, r.0, Answered(g, id, response.body, r.1))
  {
    ResetOnly(ops, s, id, EnhanceYourCalm);
    if !OverBudget(cfg, s, |response.body|) && |s.commands| >= cfg.maxStreams * 2 {
      SparedBy(cfg, s, g, ResetStream(ops, s, id, EnhanceYourCalm), Answered(g, id, response.body, false), id);
    }
  }

  lemma AbandonSpares<E>(cfg: Config, s: H2<E>, g: Story, id: int)
    requires Spared(cfg, s, g) && id !in g.answered
    ensures Spared(cfg, DropStream(s, id), g.(waiting := g.waiting - {id}))
  {
    DropOnly(s, id);
    SparedBy(cfg, s, g, DropStream(s, id), g.(waiting := g.waiting - {id}), id);
  }

  lemma CommandSpares<E(!new)>(ops: Ops<E>, cfg: Config, s: H2<E>, g: Story, c: Command, tail: seq<Command>)
    requires Willing(ops) && s.commands == [] && Spared(cfg, WithTail(s, [c] + tail), g)
    ensures var t := RunCommand(ops, cfg, s, c).s; t.commands == [] && Spared(cfg, WithTail(t, tail), g)
  {
    var u, t := WithTail(s, [c] + tail), RunCommand(ops, cfg, s, c).s;
    assert forall x :: x in [c] + tail <==> x == c || x in tail;
    assert c in u.commands;
    if c.ResetCommand? {
      ResetOnly(ops, s, c.id, EnhanceYourCalm);
      SparedBy(cfg, u, g, WithTail(t, tail), g, c.id);
    } else {
      var e := DidHeaders(c.id, c.response.body, c.response.body == []);
      LogMembers(s.log, e);
      assert ops.sendHeaders(s.conn, c.id, c.response, c.response.body == []).1;
      assert t.log == s.log + [e];
      UnchangedSpares(cfg, u, g, WithTail(t, tail));
    }
  }

  lemma {:induction false} CommandsSpare<E(!new)>(ops: Ops<E>, cfg: Config, s: H2<E>, g: Story, commands: seq<Command>)
    requires Willing(ops) && s.commands == [] && Spared(cfg, WithTail(s, commands), g)
    ensures RunCommands(ops, cfg, s, commands).Ok? ==> Spared(cfg, RunCommands(ops, cfg, s, commands).s, g)
    decreases |commands|
  {
    if commands == [] {
      assert WithTail(s, []) == s;
    } else {
      assert [commands[0]] + commands[1..] == commands;
      CommandSpares(ops, cfg, s, g, commands[0], commands[1..]);
      var t := RunCommand(ops, cfg, s, commands[0]);
      if t.Ok? {
        CommandsSpare(ops, cfg, t.s, g, commands[1..]);
      }
    }
  }

  lemma StreamSpares<E(!new)>(ops: Ops<E>, cfg: Config, f: Flushed<E>, g: Story, o: Outbound)
    requires Willing(ops) && Spared(cfg, f.s, g)
    ensures Spared(cfg, FlushStream(ops, cfg, f, o).s.s, g)
  {
    if Remaining(o) > 0 {
      assert ops.window(f.s.conn, o.id).Some?;
      var window := ops.window(f.s.conn, o.id).value;
      var n := ChunkSize(o, window, ops.frameSize(f.s.conn));
      if n > 0 {
        var e := DidData(o.id, o.body[o.offset..o.offset + n], n == Remaining(o), window, ops.frameSize(f.s.conn));
        LogMembers(f.s.log, e);
        assert ops.sendData(f.s.conn, o.id, o.body[o.offset..o.offset + n], n == Remaining(o)).1;
        UnchangedSpares(cfg, f.s, g, FlushStream(ops, cfg, f, o).s.s);
      }
    }
  }

  lemma {:induction false} StreamsSpare<E(!new)>(ops: Ops<E>, cfg: Config, f: Flushed<E>, g: Story, todo: seq<Outbound>)
    requires Willing(ops) && Spared(cfg, f.s, g)
    ensures Spared(cfg, FlushStreams(ops, cfg, f, todo).s.s, g)
    decreases |todo|
  {
    if todo != [] {
      StreamSpares(ops, cfg, f, g, todo[0]);
      var r := FlushStream(ops, cfg, f, todo[0]);
      if r.Ok? {
        StreamsSpare(ops, cfg, r.s, g, todo[1..]);
      }
    }
  }

  lemma FlushSpares<E(!new)>(ops: Ops<E>, cfg: Config, s: H2<E>, g: Story)
    requires Willing(ops) && Spared(cfg, s, g)
    ensures Flush(ops, cfg, s).Ok? ==> Spared(cfg, Flush(ops, cfg, s).s.s, g)
  {
    var u := s.(commands := []);
    assert WithTail(u, s.commands) == s;
    CommandsSpare(ops, cfg, u, g, s.commands);
    var t := RunCommands(ops, cfg, u, s.commands);
    if t.Ok? {
      StorySpares(cfg, t.s, g, t.s.(control := []), g);
      StreamsSpare(ops, cfg, Flushed(t.s.(control := []), t.s.control), g, t.s.outbound);
    }
  }

  /** Every response's header list is within its limit. */
  predicate SmallHeads(cfg: Config, steps: seq<Step>)
  {
    forall step | step in steps && step.Respond? :: step.response.headerSize <= cfg.maxHeaderBytes
  }

  lemma StepSpares<E(!new)>(ops: Ops<E>, cfg: Config, s: Sys<E>, g: Story, step: Step) returns (h: Story)
    requires Lawful(ops) && Willing(ops) && SysInv(ops, cfg, s, g) && (s.raised || Spared(cfg, s.h, g))
    requires !step.CloseConnection? && (step.Respond? ==> step.response.headerSize <= cfg.maxHeaderBytes)
    ensures var t := Next(ops, cfg, s, step); SysInv(ops, cfg, t, h) && (t.raised || Spared(cfg, t.h, h))
  {
    h := StepKeeps(ops, cfg, s, g, step);
    if !s.raised {
      var t := Next(ops, cfg, s, step);
      if step.Receive? {
        var r := ReceiveData(ops, cfg, s.frames, s.h, step.data);
        h := ReceiveDataInv(ops, cfg, s.frames, s.h, g, step.data);
        InvIsLasting(cfg, r.s, h);
        ReceiveSpares(ops, cfg, s.frames, s.h, g, step.data, h);
      } else if step.TakeCancelled? {
        StorySpares(cfg, s.h, g, t.h, h);
      } else if step.FlushOutput? {
        FlushSpares(ops, cfg, s.h, g);
        NextIsFlush(ops, cfg, s);
        if !t.raised {
          StorySpares(cfg, t.h, g, t.h, h);
        }
      } else if step.id in s.waiting {
        assert step.id in g.waiting;
        if step.Respond? {
          AnswerSpares(ops, cfg, s.h, g, step.id, step.response);
          StorySpares(cfg, t.h, Answered(g, step.id, step.response.body, QueueResponse(ops, cfg, s.h, step.id, step.response).1), t.h, h);
        } else {
          AbandonSpares(cfg, s.h, g, step.id);
          StorySpares(cfg, t.h, g.(waiting := g.waiting - {step.id}), t.h, h);
        }
      } else {
        StorySpares(cfg, s.h, g, t.h, h);
      }
    }
  }

  lemma {:induction false} RunSpares<E(!new)>(ops: Ops<E>, cfg: Config, s: Sys<E>, g: Story, steps: seq<Step>) returns (h: Story)
    requires Lawful(ops) && Willing(ops) && SysInv(ops, cfg, s, g) && (s.raised || Spared(cfg, s.h, g))
    requires NeverCloses(steps) && SmallHeads(cfg, steps)
    ensures var t := Run(ops, cfg, s, steps); SysInv(ops, cfg, t, h) && (t.raised || Spared(cfg, t.h, h))
    decreases |steps|
  {
    h := g;
    if steps != [] {
      assert steps[0] in steps && forall step | step in steps[1..] :: step in steps;
      h := StepSpares(ops, cfg, s, g, steps[0]);
      h := RunSpares(ops, cfg, Next(ops, cfg, s, steps[0]), h, steps[1..]);
    }
  }

  /**
   On an engine that takes what it is given, and with header lists within their limit: over every run without an
   exception or a close, an accepted response is dropped only if its client has reset its stream or sent trailers.
   */
  lemma AcceptedResponsesAreKept<E(!new)>(ops: Ops<E>, cfg: Config, conn: E, steps: seq<Step>, id: int)
    requires Open(ops, cfg, conn, steps) && Willing(ops) && SmallHeads(cfg, steps)
    requires var s := Run(ops, cfg, Start(conn), steps); !s.raised && id in s.answered && Dropped(id) in s.h.log
    ensures GaveUp(Run(ops, cfg, Start(conn), steps).h.log, id)
  {
    var g := Story(ops.lastOpened(conn), ops.halfClosed(conn), {}, map[], []);
    FreshInv(cfg, conn, g.hi, g.ended);
    g := RunSpares(ops, cfg, Start(conn), g, steps);
  }
}
