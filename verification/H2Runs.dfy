/**
 Whole runs of one HTTP/2 connection: any interleaving of received bytes, handler answers, handler
 failures, flushes and closes, over any lawful engine.
 */
module H2Runs {
  import opened Bytes
  import opened Optional
  import opened FrameBudgetSplitter
  import opened H2State
  import opened H2Invariant
  import opened H2Safety
  import opened H2Operations
  import opened H2Sending

  datatype Step =
    | Receive(data: bytes)
    | TakeCancelled
    | Respond(id: int, response: Response)
    | Abandon(id: int)
    | FlushOutput
    | CloseConnection(code: int)

  /**
   A connection, the handlers it has started, what it has returned for the transport and as cancelled streams,
   and whether an exception has ended it.
   */
  datatype Sys<E> = Sys(
    frames: Splitter, h: H2<E>,
    waiting: set<int>, answered: map<int, bytes>, delivered: seq<Ready>,
    sent: bytes, cancelledOut: seq<int>, raised: bool)

  function Start<E>(conn: E): Sys<E>
  {
    Sys(EMPTY, Fresh(conn), {}, map[], [], [], [], false)
  }

  /**
   One step.  A handler answers or fails once, and only for a request it was given.  After an exception
   nothing is read, flushed or handed out any more, but handlers still answer or fail, before and after close.
   */
  function Next<E>(ops: Ops<E>, cfg: Config, s: Sys<E>, step: Step): Sys<E>
  {
    match step
    case Receive(data) =>
      if s.raised then s else
      (match ReceiveData(ops, cfg, s.frames, s.h, data)
       case Failed(t) => s.(h := t, raised := true)
       case Read(frames, t, requests) =>
         s.(frames := frames, h := t, delivered := s.delivered + requests, waiting := s.waiting + ReadyIds(requests)))
    case TakeCancelled =>
      if s.raised then s else s.(h := s.h.(cancelled := []), cancelledOut := s.cancelledOut + s.h.cancelled)
    case Respond(id, response) =>
      if id !in s.waiting then s else
      var r := QueueResponse(ops, cfg, s.h, id, response);
      s.(h := r.0, waiting := s.waiting - {id},
         answered := if r.1 then s.answered[id := response.body] else s.answered)
    case Abandon(id) =>
      if id !in s.waiting then s else s.(h := DropStream(s.h, id), waiting := s.waiting - {id})
    case FlushOutput =>
      if s.raised then s else
      (match Flush(ops, cfg, s.h)
       case Raised(f) => s.(h := f.s, raised := true)
       case Ok(f) => s.(h := f.s, sent := s.sent + f.output))
    case CloseConnection(code) =>
      var r := Close(ops, cfg, s.h, code);
      s.(h := r.0, sent := s.sent + r.1)
  }

  function Run<E>(ops: Ops<E>, cfg: Config, s: Sys<E>, steps: seq<Step>): Sys<E>
    decreases |steps|
  {
    if steps == [] then s else Run(ops, cfg, Next(ops, cfg, s, steps[0]), steps[1..])
  }

  ghost predicate Tells<E>(g: Story, s: Sys<E>)
  {
    g.waiting == s.waiting && g.answered == s.answered && g.delivered == s.delivered
  }

  ghost predicate SysInv<E>(ops: Ops<E>, cfg: Config, s: Sys<E>, g: Story)
  {
    && Tells(g, s)
    && if s.raised then Lasting(s.h, g) else Inv(cfg, s.h, g) && Synced(ops, s.h.conn, g)
  }

  // ---------------------------------------------------------------- only received frames open or end streams

  lemma CommandKeepsStreams<E(!new)>(ops: Ops<E>, cfg: Config, s: H2<E>, c: Command)
    requires Lawful(ops)
    ensures SameStreams(ops, s.conn, RunCommand(ops, cfg, s, c).s.conn)
  {
    match c
    case ResetCommand(id) => ResetKeepsStreams(ops, s, id, EnhanceYourCalm);
    case ResponseCommand(id, response) =>
      if response.headerSize > cfg.maxHeaderBytes {
        ResetKeepsStreams(ops, s.(pending := s.pending - |response.body|), id, InternalError);
      } else {
        assert SameStreams(ops, s.conn, ops.sendHeaders(s.conn, id, response, response.body == []).0);
      }
  }

  lemma {:induction false} CommandsKeepStreams<E(!new)>(ops: Ops<E>, cfg: Config, s: H2<E>, commands: seq<Command>)
    requires Lawful(ops)
    ensures SameStreams(ops, s.conn, RunCommands(ops, cfg, s, commands).s.conn)
    decreases |commands|
  {
    if commands != [] {
      CommandKeepsStreams(ops, cfg, s, commands[0]);
      var t := RunCommand(ops, cfg, s, commands[0]);
      if t.Ok? {
        CommandsKeepStreams(ops, cfg, t.s, commands[1..]);
      }
    }
  }

  lemma StreamKeepsStreams<E(!new)>(ops: Ops<E>, cfg: Config, f: Flushed<E>, o: Outbound)
    requires Lawful(ops)
    ensures SameStreams(ops, f.s.conn, FlushStream(ops, cfg, f, o).s.s.conn)
  {
    var window := ops.window(f.s.conn, o.id);
    if Remaining(o) > 0 && window.Some? {
      var n := ChunkSize(o, window.value, ops.frameSize(f.s.conn));
      if n > 0 {
        var (e, ok) := ops.sendData(f.s.conn, o.id, o.body[o.offset..o.offset + n], n == Remaining(o));
        assert SameStreams(ops, f.s.conn, e);
        assert SameStreams(ops, e, ops.drain(e).0);
      }
    }
  }

  lemma {:induction false} TableKeepsStreams<E(!new)>(ops: Ops<E>, cfg: Config, f: Flushed<E>, todo: seq<Outbound>)
    requires Lawful(ops)
    ensures SameStreams(ops, f.s.conn, FlushStreams(ops, cfg, f, todo).s.s.conn)
    decreases |todo|
  {
    if todo != [] {
      StreamKeepsStreams(ops, cfg, f, todo[0]);
      var r := FlushStream(ops, cfg, f, todo[0]);
      if r.Ok? {
        TableKeepsStreams(ops, cfg, r.s, todo[1..]);
      }
    }
  }

  lemma FlushKeepsStreams<E(!new)>(ops: Ops<E>, cfg: Config, s: H2<E>)
    requires Lawful(ops)
    ensures SameStreams(ops, s.conn, Flush(ops, cfg, s).s.s.conn)
  {
    CommandsKeepStreams(ops, cfg, s.(commands := []), s.commands);
    var t := RunCommands(ops, cfg, s.(commands := []), s.commands);
    if t.Ok? {
      var f := Flushed(t.s.(control := []), t.s.control);
      TableKeepsStreams(ops, cfg, f, t.s.outbound);
      var r := FlushStreams(ops, cfg, f, t.s.outbound);
      if r.Ok? {
        assert SameStreams(ops, r.s.s.conn, ops.drain(r.s.s.conn).0);
      }
    }
  }

  lemma AnswerKeepsStreams<E(!new)>(ops: Ops<E>, cfg: Config, s: H2<E>, id: int, response: Response)
    requires Lawful(ops)
    ensures SameStreams(ops, s.conn, QueueResponse(ops, cfg, s, id, response).0.conn)
  {
    ResetKeepsStreams(ops, ReleaseInbound(s, id), id, EnhanceYourCalm);
  }

  lemma CloseKeepsStreams<E(!new)>(ops: Ops<E>, cfg: Config, s: H2<E>, code: int)
    requires Lawful(ops)
    ensures SameStreams(ops, s.conn, Close(ops, cfg, s, code).0.conn)
  {
    assert SameStreams(ops, s.conn, ops.goaway(s.conn, code, s.last).0);
    assert SameStreams(ops, s.conn, ops.drain(s.conn).0);
    var e := ops.goaway(s.conn, code, s.last).0;
    assert SameStreams(ops, e, ops.drain(e).0);
  }

  // ---------------------------------------------------------------- every step, every run

  lemma InvIsLasting<E>(cfg: Config, s: H2<E>, g: Story)
    requires Inv(cfg, s, g)
    ensures Lasting(s, g)
  {
    assert WithTail(s, s.commands) == s;
    InvLasts(cfg, s, g, s.commands);
  }

  lemma ReceiveKeeps<E(!new)>(ops: Ops<E>, cfg: Config, s: Sys<E>, g: Story, data: bytes) returns (h: Story)
    requires Lawful(ops) && SysInv(ops, cfg, s, g) && !s.raised
    ensures SysInv(ops, cfg, Next(ops, cfg, s, Receive(data)), h)
  {
    h := ReceiveDataInv(ops, cfg, s.frames, s.h, g, data);
    var r := ReceiveData(ops, cfg, s.frames, s.h, data);
    InvIsLasting(cfg, r.s, h);
  }

  lemma RespondKeeps<E(!new)>(ops: Ops<E>, cfg: Config, s: Sys<E>, g: Story, id: int, response: Response)
    returns (h: Story)
    requires Lawful(ops) && SysInv(ops, cfg, s, g) && !s.raised && id in s.waiting
    ensures SysInv(ops, cfg, Next(ops, cfg, s, Respond(id, response)), h)
  {
    QueueResponseInv(ops, cfg, s.h, g, id, response);
    AnswerKeepsStreams(ops, cfg, s.h, id, response);
    h := Answered(g, id, response.body, QueueResponse(ops, cfg, s.h, id, response).1);
  }

  lemma NextIsFlush<E>(ops: Ops<E>, cfg: Config, s: Sys<E>)
    requires !s.raised
    ensures var r := Flush(ops, cfg, s.h);
            Next(ops, cfg, s, FlushOutput) == if r.Ok? then s.(h := r.s.s, sent := s.sent + r.s.output) else s.(h := r.s.s, raised := true)
  {
  }

  lemma FlushKeeps<E(!new)>(ops: Ops<E>, cfg: Config, s: Sys<E>, g: Story)
    requires Lawful(ops) && SysInv(ops, cfg, s, g) && !s.raised
    ensures SysInv(ops, cfg, Next(ops, cfg, s, FlushOutput), g)
  {
    FlushInv(ops, cfg, s.h, g);
    FlushKeepsStreams(ops, cfg, s.h);
    NextIsFlush(ops, cfg, s);
    var r := Flush(ops, cfg, s.h);
    if r.Ok? {
      LiveSys(ops, cfg, s, r.s.s, s.sent + r.s.output, g);
    } else {
      RaisedSys(ops, cfg, s, r.s.s, g);
    }
  }

  lemma StepKeeps<E(!new)>(ops: Ops<E>, cfg: Config, s: Sys<E>, g: Story, step: Step) returns (h: Story)
    requires Lawful(ops) && SysInv(ops, cfg, s, g)
    ensures SysInv(ops, cfg, Next(ops, cfg, s, step), h)
  {
    h := g;
    if step.CloseConnection? {
      CloseKeeps(ops, cfg, s, g, step.code);
    } else if !s.raised {
      h := LiveStepKeeps(ops, cfg, s, g, step);
    } else if (step.Respond? || step.Abandon?) && step.id in s.waiting {
      h := LateStepKeeps(ops, cfg, s, g, step);
    }
  }

  /** A handler answers or fails after an exception has ended the connection. */
  lemma LateStepKeeps<E>(ops: Ops<E>, cfg: Config, s: Sys<E>, g: Story, step: Step) returns (h: Story)
    requires SysInv(ops, cfg, s, g) && s.raised && (step.Respond? || step.Abandon?) && step.id in s.waiting
    ensures SysInv(ops, cfg, Next(ops, cfg, s, step), h)
  {
    var id := step.id;
    if step.Respond? {
      LateAnswerLasts(ops, cfg, s.h, g, id, step.response);
      h := Answered(g, id, step.response.body, QueueResponse(ops, cfg, s.h, id, step.response).1);
    } else {
      WaitingIsOpened(s.h, g, id);
      DropLasts(s.h, g, id);
      AnsweredLasts(DropStream(s.h, id), g, id, [], false);
      h := Answered(g, id, [], false);
    }
  }

  /** One step of a connection no exception has ended. */
  lemma LiveStepKeeps<E(!new)>(ops: Ops<E>, cfg: Config, s: Sys<E>, g: Story, step: Step) returns (h: Story)
    requires Lawful(ops) && SysInv(ops, cfg, s, g) && !s.raised && !step.CloseConnection?
    ensures SysInv(ops, cfg, Next(ops, cfg, s, step), h)
  {
    h := g;
    if step.Receive? {
      h := ReceiveKeeps(ops, cfg, s, g, step.data);
    } else if step.TakeCancelled? {
      TakeCancelledInv(cfg, s.h, g);
    } else if step.FlushOutput? {
      FlushKeeps(ops, cfg, s, g);
    } else if step.id in s.waiting {
      if step.Respond? {
        h := RespondKeeps(ops, cfg, s, g, step.id, step.response);
      } else {
        AbandonInv(cfg, s.h, g, step.id);
        h := g.(waiting := g.waiting - {step.id});
      }
    }
  }

  lemma SysLasts<E>(ops: Ops<E>, cfg: Config, s: Sys<E>, g: Story)
    requires SysInv(ops, cfg, s, g)
    ensures Lasting(s.h, g)
  {
    if !s.raised {
      InvIsLasting(cfg, s.h, g);
    }
  }

  lemma NextIsClose<E>(ops: Ops<E>, cfg: Config, s: Sys<E>, code: int)
    ensures var r := Close(ops, cfg, s.h, code);
            Next(ops, cfg, s, CloseConnection(code)) == s.(h := r.0, sent := s.sent + r.1)
  {
  }

  lemma CloseKeeps<E(!new)>(ops: Ops<E>, cfg: Config, s: Sys<E>, g: Story, code: int)
    requires Lawful(ops) && SysInv(ops, cfg, s, g)
    ensures SysInv(ops, cfg, Next(ops, cfg, s, CloseConnection(code)), g)
  {
    var (t, output) := Close(ops, cfg, s.h, code);
    SysLasts(ops, cfg, s, g);
    CloseInv(ops, cfg, s.h, g, code);
    NextIsClose(ops, cfg, s, code);
    if s.raised {
      InvIsLasting(cfg, t, g);
      RaisedSys(ops, cfg, s.(sent := s.sent + output), t, g);
    } else {
      CloseKeepsStreams(ops, cfg, s.h, code);
      LiveSys(ops, cfg, s, t, s.sent + output, g);
    }
  }

  lemma RaisedSys<E>(ops: Ops<E>, cfg: Config, s: Sys<E>, t: H2<E>, g: Story)
    requires Tells(g, s) && Lasting(t, g)
    ensures SysInv(ops, cfg, s.(h := t, raised := true), g)
  {
  }

  lemma LiveSys<E>(ops: Ops<E>, cfg: Config, s: Sys<E>, t: H2<E>, sent: bytes, g: Story)
    requires Tells(g, s) && !s.raised && Inv(cfg, t, g) && Synced(ops, s.h.conn, g) && SameStreams(ops, s.h.conn, t.conn)
    ensures SysInv(ops, cfg, s.(h := t, sent := sent), g)
  {
  }

  lemma {:induction false} RunKeeps<E(!new)>(ops: Ops<E>, cfg: Config, s: Sys<E>, g: Story, steps: seq<Step>) returns (h: Story)
    requires Lawful(ops) && SysInv(ops, cfg, s, g)
    ensures SysInv(ops, cfg, Run(ops, cfg, s, steps), h)
    decreases |steps|
  {
    h := g;
    if steps != [] {
      h := StepKeeps(ops, cfg, s, g, steps[0]);
      h := RunKeeps(ops, cfg, Next(ops, cfg, s, steps[0]), h, steps[1..]);
    }
  }

  /** A connection that has just been accepted. */
  ghost predicate Newborn<E>(ops: Ops<E>, conn: E)
  {
    forall id | id in ops.halfClosed(conn) :: id <= ops.lastOpened(conn)
  }

  lemma FromStart<E(!new)>(ops: Ops<E>, cfg: Config, conn: E, steps: seq<Step>) returns (g: Story)
    requires Lawful(ops) && ValidConfig(cfg) && Newborn(ops, conn)
    ensures SysInv(ops, cfg, Run(ops, cfg, Start(conn), steps), g)
  {
    g := Story(ops.lastOpened(conn), ops.halfClosed(conn), {}, map[], []);
    FreshInv(cfg, conn, g.hi, g.ended);
    g := RunKeeps(ops, cfg, Start(conn), g, steps);
  }

  // ---------------------------------------------------------------- the theorems

  /**
   Both byte counters are exact and bounded, and the stream tables agree, after every run that no
   exception has ended.
   */
  lemma CountersExactAndBounded<E(!new)>(ops: Ops<E>, cfg: Config, conn: E, steps: seq<Step>)
    requires Lawful(ops) && ValidConfig(cfg) && Newborn(ops, conn)
    requires !Run(ops, cfg, Start(conn), steps).raised
    ensures var h := Run(ops, cfg, Start(conn), steps).h;
            && h.pending == Unsent(h.outbound) + Queued(h.commands)
            && h.buffered == Buffered(h.inbound) <= cfg.maxConnectionBuffer
            && |h.control| + h.pending <= cfg.maxPendingOutput && |h.control| <= cfg.maxControlOutput
            && |h.active| <= cfg.maxStreams
            && h.inbound.Keys + OutIds(h.outbound) <= h.active <= Holders(h)
            && forall id | id in h.inbound :: |h.inbound[id].body| <= cfg.maxBody
  {
    var g := FromStart(ops, cfg, conn, steps);
    var h := Run(ops, cfg, Start(conn), steps).h;
    assert h.active - {} == h.active;
    assert forall id | id in h.inbound :: FitsHead(cfg, h.inbound[id]);
  }

  /** Nothing is held or owed, and both counters say so. */
  ghost predicate Emptied<E>(cfg: Config, h: H2<E>)
  {
    && Accounts(cfg, h) && h.pending == 0 && h.buffered == 0
    && h.active == {} && h.inbound == map[] && h.outbound == [] && h.commands == [] && h.ready == [] && h.control == []
  }

  /** With empty tables a late answer is refused, and a late drop finds nothing to drop. */
  lemma EmptiedStep<E>(ops: Ops<E>, cfg: Config, s: Sys<E>, step: Step)
    requires s.raised && Emptied(cfg, s.h)
    ensures Next(ops, cfg, s, step).raised && Emptied(cfg, Next(ops, cfg, s, step).h)
  {
    if step.Abandon? {
      assert s.h.active - {step.id} == {};
    }
  }

  lemma {:induction false} EmptiedForGood<E>(ops: Ops<E>, cfg: Config, s: Sys<E>, steps: seq<Step>)
    requires s.raised && Emptied(cfg, s.h)
    ensures Emptied(cfg, Run(ops, cfg, s, steps).h)
    decreases |steps|
  {
    if steps != [] {
      EmptiedStep(ops, cfg, s, steps[0]);
      EmptiedForGood(ops, cfg, Next(ops, cfg, s, steps[0]), steps[1..]);
    }
  }

  /**
   Once an exception has ended a run, whatever state it left behind, a close brings the counters back to
   exactly what the tables hold, nothing; no later step changes that, an answer or a drop by a handler that is
   still running included, and the history stays one the RFC allows.
   */
  lemma CloseAfterException<E(!new)>(ops: Ops<E>, cfg: Config, conn: E, steps: seq<Step>, code: int, more: seq<Step>)
    requires Lawful(ops) && ValidConfig(cfg) && Newborn(ops, conn)
    requires Run(ops, cfg, Start(conn), steps).raised
    ensures var s := Run(ops, cfg, Start(conn), steps + [CloseConnection(code)] + more);
            && Emptied(cfg, s.h)
            && s.delivered == Run(ops, cfg, Start(conn), steps).delivered
            && forall id | id in s.answered :: Replay(s.h.log, id, s.answered[id]) != Broken
  {
    var s := Run(ops, cfg, Start(conn), steps);
    var closed := Next(ops, cfg, s, CloseConnection(code));
    CloseEmpties(ops, cfg, s.h, code);
    EmptiedForGood(ops, cfg, closed, more);
    RaisedHandsOutNothing(ops, cfg, closed, more);
    CloseThen(ops, cfg, Start(conn), steps, code, more);
    HistoryStaysLegal(ops, cfg, conn, steps + [CloseConnection(code)] + more);
  }

  lemma CloseEmpties<E>(ops: Ops<E>, cfg: Config, s: H2<E>, code: int)
    requires ValidConfig(cfg)
    ensures Emptied(cfg, Close(ops, cfg, s, code).0)
  {
    assert Buffered(map[]) == 0;
  }

  lemma CloseThen<E>(ops: Ops<E>, cfg: Config, s: Sys<E>, steps: seq<Step>, code: int, more: seq<Step>)
    ensures Run(ops, cfg, s, steps + [CloseConnection(code)] + more)
            == Run(ops, cfg, Next(ops, cfg, Run(ops, cfg, s, steps), CloseConnection(code)), more)
  {
    var rest := [CloseConnection(code)] + more;
    assert steps + [CloseConnection(code)] + more == steps + rest && rest[1..] == more;
    RunsCompose(ops, cfg, s, steps, rest);
  }

  lemma HistoryStaysLegal<E(!new)>(ops: Ops<E>, cfg: Config, conn: E, steps: seq<Step>)
    requires Lawful(ops) && ValidConfig(cfg) && Newborn(ops, conn)
    ensures var s := Run(ops, cfg, Start(conn), steps);
            forall id | id in s.answered :: Replay(s.h.log, id, s.answered[id]) != Broken
  {
    var g := FromStart(ops, cfg, conn, steps);
    var s := Run(ops, cfg, Start(conn), steps);
    if !s.raised {
      InvIsLasting(cfg, s.h, g);
    }
    forall id | id in s.answered ensures Replay(s.h.log, id, s.answered[id]) != Broken {
      assert Body(g, id) == s.answered[id];
    }
  }

  lemma {:induction false} RaisedHandsOutNothing<E>(ops: Ops<E>, cfg: Config, s: Sys<E>, steps: seq<Step>)
    requires s.raised
    ensures Run(ops, cfg, s, steps).delivered == s.delivered && Run(ops, cfg, s, steps).raised
    decreases |steps|
  {
    if steps != [] {
      RaisedHandsOutNothing(ops, cfg, Next(ops, cfg, s, steps[0]), steps[1..]);
    }
  }

  lemma {:induction false} RunsCompose<E>(ops: Ops<E>, cfg: Config, s: Sys<E>, a: seq<Step>, b: seq<Step>)
    ensures Run(ops, cfg, s, a + b) == Run(ops, cfg, Run(ops, cfg, s, a), b)
    decreases |a|
  {
    if a == [] {
      assert a + b == b;
    } else {
      assert (a + b)[1..] == a[1..] + b;
      RunsCompose(ops, cfg, Next(ops, cfg, s, a[0]), a[1..], b);
    }
  }

  /**
   Every request handed out is one its client opened with that head and ended: it carries exactly the DATA
   sent, in order, as long as the head declared; none is handed out twice; and the GOAWAY of a later close covers them all.
   */
  lemma RequestsAreGenuine<E(!new)>(ops: Ops<E>, cfg: Config, conn: E, steps: seq<Step>)
    requires Lawful(ops) && ValidConfig(cfg) && Newborn(ops, conn)
    ensures var s := Run(ops, cfg, Start(conn), steps);
            && DistinctReady(s.delivered)
            && (forall r | r in s.delivered ::
                  && Asked(s.h.log, r.id, r.head) && Ended(s.h.log, r.id)
                  && DataOf(s.h.log, r.id) == r.body
                  && (r.head.contentLength.Some? ==> |r.body| == r.head.contentLength.value)
                  && r.id <= s.h.last)
  {
    var g := FromStart(ops, cfg, conn, steps);
    var s := Run(ops, cfg, Start(conn), steps);
    if !s.raised {
      InvIsLasting(cfg, s.h, g);
    }
    assert forall r | r in s.delivered :: Genuine(s.h, g, r);
  }

  /** What a Receive step hands out is active at that moment: neither reset nor dropped, and not yet answered. */
  lemma HandedOutAlive<E(!new)>(ops: Ops<E>, cfg: Config, conn: E, steps: seq<Step>, data: bytes)
    requires Lawful(ops) && ValidConfig(cfg) && Newborn(ops, conn)
    ensures var s := Run(ops, cfg, Start(conn), steps);
            var t := Next(ops, cfg, s, Receive(data));
            !t.raised ==>
              s.delivered <= t.delivered
              && forall i | |s.delivered| <= i < |t.delivered| ::
                   var id := t.delivered[i].id;
                   id in t.h.active && Replay(t.h.log, id, []) == Idle && id !in t.answered && id in t.waiting
  {
    var g := FromStart(ops, cfg, conn, steps);
    var s := Run(ops, cfg, Start(conn), steps);
    if !s.raised {
      var r := ReceiveData(ops, cfg, s.frames, s.h, data);
      var h := ReceiveDataInv(ops, cfg, s.frames, s.h, g, data);
      if r.Read? {
        DeliveredAreActive(ops, cfg, s.frames, s.h, data);
        forall q | q in r.requests ensures Replay(r.s.log, q.id, []) == Idle && q.id !in h.answered && q.id in h.waiting {
          assert q.id in ReadyIds(r.requests);
          assert q.id !in OutIds(r.s.outbound);
          assert Body(h, q.id) == [];
        }
      }
    }
  }

  lemma DeliveredAreActive<E>(ops: Ops<E>, cfg: Config, frames: Splitter, s: H2<E>, data: bytes)
    requires ReceiveData(ops, cfg, frames, s, data).Read?
    ensures var r := ReceiveData(ops, cfg, frames, s, data);
            forall q | q in r.requests :: q.id in r.s.active
  {
    var fed := Absorb(cfg.limits, frames, data).value;
    var t := ReadChunks(ops, cfg, s, fed.ready[..Min(cfg.batch, |fed.ready|)]).s;
    OnlyActive(t, t.ready);
  }

  lemma {:induction false} OnlyActive<E>(s: H2<E>, ready: seq<Ready>)
    ensures forall r | r in Deliverable(s, ready) :: r.id in s.active && r in ready
  {
    if ready != [] {
      OnlyActive(s, ready[..|ready| - 1]);
    }
  }

  /** The bytes of DATA handed to the engine for a stream, joined in order. */
  function SentOf(log: seq<Entry>, id: int): bytes
  {
    if log == [] then []
    else
      var e := log[|log| - 1];
      SentOf(log[..|log| - 1], id) + if e.DidData? && e.id == id then e.chunk else []
  }

  /** Reading a replay: unless a rule was broken, what was sent is a prefix, and all of it at the end. */
  lemma {:induction false} ReplayMeans(log: seq<Entry>, id: int, body: bytes)
    requires Replay(log, id, body) != Broken
    ensures SentOf(log, id) <= body
    ensures Replay(log, id, body) == Idle ==> SentOf(log, id) == []
    ensures Replay(log, id, body).Sending? ==> Replay(log, id, body).sent == SentOf(log, id)
    ensures Replay(log, id, body) == Complete ==> SentOf(log, id) == body
  {
    if log != [] {
      ReplayMeans(log[..|log| - 1], id, body);
    }
  }

  lemma {:induction false} NeverMended(log: seq<Entry>, n: nat, id: int, body: bytes)
    requires n <= |log| && Replay(log, id, body) != Broken
    ensures Replay(log[..n], id, body) != Broken
    ensures Replay(log[..n], id, body) == Gone ==> Replay(log, id, body) == Gone
    ensures Replay(log[..n], id, body) == Complete ==> Replay(log, id, body) == Complete || Replay(log, id, body) == Gone
    decreases |log|
  {
    if n < |log| {
      NeverMended(log[..|log| - 1], n, id, body);
      assert log[..|log| - 1][..n] == log[..n];
    } else {
      assert log[..n] == log;
    }
  }

  /** Idle: no HEADERS, no DATA and no drop so far.  Sending: HEADERS without END_STREAM went out. */
  lemma {:induction false} ReplayStarts(log: seq<Entry>, id: int, body: bytes)
    ensures Replay(log, id, body) == Idle ==> Untouched(log, id)
    ensures Replay(log, id, body).Sending? ==> DidHeaders(id, body, false) in log
  {
    if log != [] {
      var rest, e := log[..|log| - 1], log[|log| - 1];
      assert log == rest + [e];
      ReplayStarts(rest, id, body);
    }
  }

  /**
   Sections 8.1 and 6.9.1 of RFC 9113, for every run, exceptions included.  HEADERS go out first and once,
   with END_STREAM exactly for an empty body, and never after a drop.  The DATA chunks of a stream concatenate
   to a prefix of its response body; each follows the HEADERS and fits the window and frame size the engine
   reported, and is as large as they allow; END_STREAM is set exactly on the chunk that completes the body; and nothing is sent after it or
   after a drop.
   */
  lemma DataIsAPrefixOfTheBody<E(!new)>(ops: Ops<E>, cfg: Config, conn: E, steps: seq<Step>, id: int)
    requires Lawful(ops) && ValidConfig(cfg) && Newborn(ops, conn)
    ensures var s := Run(ops, cfg, Start(conn), steps);
            && (id !in s.answered ==> Quiet(s.h.log, id))
            && (id in s.answered ==>
                  && SentOf(s.h.log, id) <= s.answered[id]
                  && (forall k | 0 <= k < |s.h.log| && s.h.log[k].DidHeaders? && s.h.log[k].id == id ::
                        HeadAllowed(s.h.log, k, id, s.answered[id]))
                  && (forall k | 0 <= k < |s.h.log| && s.h.log[k].DidData? && s.h.log[k].id == id ::
                        ChunkAllowed(s.h.log, k, id, s.answered[id])))
  {
    var g := FromStart(ops, cfg, conn, steps);
    var s := Run(ops, cfg, Start(conn), steps);
    if !s.raised {
      InvIsLasting(cfg, s.h, g);
    }
    if id in s.answered {
      assert Body(g, id) == s.answered[id];
      ReplayMeans(s.h.log, id, s.answered[id]);
      forall k | 0 <= k < |s.h.log| && s.h.log[k].DidData? && s.h.log[k].id == id
        ensures ChunkAllowed(s.h.log, k, id, s.answered[id])
      {
        ChunkRules(s.h.log, k, id, s.answered[id]);
      }
      forall k | 0 <= k < |s.h.log| && s.h.log[k].DidHeaders? && s.h.log[k].id == id
        ensures HeadAllowed(s.h.log, k, id, s.answered[id])
      {
        HeadRules(s.h.log, k, id, s.answered[id]);
      }
    }
  }

  /** HEADERS as the first thing that happens to the response stream; they end it exactly when there is no body. */
  ghost predicate HeadAllowed(log: seq<Entry>, k: nat, id: int, body: bytes)
    requires k < |log| && log[k].DidHeaders?
  {
    log[k].body == body && (log[k].fin <==> body == []) && Untouched(log[..k], id)
  }

  lemma HeadRules(log: seq<Entry>, k: nat, id: int, body: bytes)
    requires k < |log| && log[k].DidHeaders? && log[k].id == id && Replay(log, id, body) != Broken
    ensures HeadAllowed(log, k, id, body)
  {
    NeverMended(log, k + 1, id, body);
    assert log[..k + 1][..k] == log[..k];
    ReplayStarts(log[..k], id, body);
  }

  ghost predicate ChunkAllowed(log: seq<Entry>, k: nat, id: int, body: bytes)
    requires k < |log| && log[k].DidData?
  {
    && DidHeaders(id, body, false) in log[..k]
    && 0 < |log[k].chunk| <= log[k].window && |log[k].chunk| <= log[k].frameSize
    && (log[k].fin || |log[k].chunk| == log[k].window || |log[k].chunk| == log[k].frameSize)
    && SentOf(log[..k], id) + log[k].chunk <= body
    && (log[k].fin <==> SentOf(log[..k], id) + log[k].chunk == body)
    && forall j | 0 <= j < k :: log[j] != Dropped(id) && !(log[j].DidData? && log[j].id == id && log[j].fin)
  }

  lemma ChunkRules(log: seq<Entry>, k: nat, id: int, body: bytes)
    requires k < |log| && log[k].DidData? && log[k].id == id && Replay(log, id, body) != Broken
    ensures ChunkAllowed(log, k, id, body)
  {
    var before, upTo := log[..k], log[..k + 1];
    NeverMended(log, k + 1, id, body);
    NeverMended(log, k, id, body);
    assert upTo[..k] == before && upTo[k] == log[k];
    ReplayMeans(before, id, body);
    ReplayStarts(before, id, body);
    forall j | 0 <= j < k ensures log[j] != Dropped(id) && !(log[j].DidData? && log[j].id == id && log[j].fin) {
      NeverMended(before, j + 1, id, body);
      NeverMended(before, j, id, body);
      assert before[..j + 1][..j] == before[..j] && before[..j + 1][j] == log[j];
    }
  }

  /** `close` reports the highest request it ever dispatched, at least every id it handed out. */
  lemma GoawayCovers<E(!new)>(ops: Ops<E>, cfg: Config, conn: E, steps: seq<Step>, code: int)
    requires Lawful(ops) && ValidConfig(cfg) && Newborn(ops, conn)
    ensures var s := Run(ops, cfg, Start(conn), steps);
            var t := Next(ops, cfg, s, CloseConnection(code));
            t.h.log != s.h.log ==>
              exists last :: t.h.log == s.h.log + [DidGoaway(code, last)] && forall r | r in s.delivered :: r.id <= last
  {
    RequestsAreGenuine(ops, cfg, conn, steps);
    var s := Run(ops, cfg, Start(conn), steps);
    var t := Next(ops, cfg, s, CloseConnection(code));
    if t.h.log != s.h.log {
      assert t.h.log == s.h.log + [DidGoaway(code, s.h.last)];
    }
  }
}
