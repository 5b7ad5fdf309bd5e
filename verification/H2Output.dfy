/**
 What goes out of a connection over whole runs: every byte the engine hands over is returned once, in order, by a
 flush or a close, or is still held back; and operations raise only where the peer, the engine or a limit makes them.
 */
module H2Output {
  import opened Bytes
  import opened Optional
  import opened FrameBudgetSplitter
  import opened H2State
  import opened H2Invariant
  import opened H2Safety
  import opened H2Operations
  import opened H2Runs
  import opened H2Wire
  import opened H2Calls

  /** The books of a running connection, `whole` standing for what was returned or lost so far. */
  ghost predicate Running<E>(cfg: Config, calls: E -> seq<EngineCall>, s: Sys<E>, whole: bytes, closed: bool)
  {
    !s.raised && Books(calls, s.h, whole, TabOf(s, closed)) && !Overdrawn(cfg, calls, s.h, whole)
  }

  /** Between two steps no event is due. */
  function TabOf<E>(s: Sys<E>, closed: bool): Tab { Tab(s.cancelledOut, closed, []) }

  /** Does the step lose output? */
  predicate StepLoses<E>(ops: Ops<E>, cfg: Config, s: Sys<E>, step: Step)
  {
    step.CloseConnection? && CloseLoses(ops, cfg, s.h, step.code)
  }

  /** No close of the run is over a limit with what it would return. */
  predicate Lossless<E>(ops: Ops<E>, cfg: Config, s: Sys<E>, steps: seq<Step>)
    decreases |steps|
  {
    steps == [] || (!StepLoses(ops, cfg, s, steps[0]) && Lossless(ops, cfg, Next(ops, cfg, s, steps[0]), steps[1..]))
  }

  predicate Closes(steps: seq<Step>)
  {
    exists step :: step in steps && step.CloseConnection?
  }

  /** What is owed moves with what is returned. */
  ghost predicate Moves<E>(ops: Ops<E>, cfg: Config, s: Sys<E>, step: Step, whole: bytes, after: bytes)
  {
    var t := Next(ops, cfg, s, step);
    exists more ::
      && t.sent == s.sent + more
      && if StepLoses(ops, cfg, s, step) then more == [] && |after| > |whole| else after == whole + more
  }

  lemma Nothing<E>(ops: Ops<E>, cfg: Config, s: Sys<E>, step: Step, whole: bytes)
    requires Next(ops, cfg, s, step).sent == s.sent && !StepLoses(ops, cfg, s, step)
    ensures Moves(ops, cfg, s, step, whole, whole)
  {
    assert s.sent == s.sent + [] && whole == whole + [];
  }

  lemma ReceiveMoves<E(!new)>(ops: Ops<E>, cfg: Config, calls: E -> seq<EngineCall>, s: Sys<E>, whole: bytes, closed: bool, data: bytes)
    requires Records(ops, calls) && Running(cfg, calls, s, whole, closed)
    ensures var t := Next(ops, cfg, s, Receive(data));
            && (!t.raised ==> Running(cfg, calls, t, whole, closed))
            && (t.raised ==> Stopped(calls, t.h, TabOf(t, closed)))
            && (t.raised && Obliging(ops) ==> Absorb(cfg.limits, s.frames, data) == None || Overdrawn(cfg, calls, t.h, whole))
            && (Absorb(cfg.limits, s.frames, data) == None ==> t.raised)
            && (t.raised <== Overdrawn(cfg, calls, t.h, whole))
  {
    var fed := Absorb(cfg.limits, s.frames, data);
    if fed.Some? {
      ChunksBooks(ops, cfg, calls, s.h, whole, TabOf(s, closed), fed.value.ready[..Min(cfg.batch, |fed.value.ready|)]);
    }
  }

  lemma FlushMoves<E(!new)>(ops: Ops<E>, cfg: Config, calls: E -> seq<EngineCall>, s: Sys<E>, whole: bytes,
                            closed: bool) returns (after: bytes)
    requires Records(ops, calls) && Running(cfg, calls, s, whole, closed)
    ensures var t := Next(ops, cfg, s, FlushOutput);
            && (!t.raised ==> Books(calls, t.h, after, TabOf(t, closed)) && t.h.control == [])
            && (!t.raised ==> |after| - |whole| + t.h.pending <= cfg.maxPendingOutput)
            && (t.raised ==> Stopped(calls, t.h, TabOf(t, closed)) && Overdrawn(cfg, calls, t.h, whole))
            && (!t.raised ==> Moves(ops, cfg, s, FlushOutput, whole, after))
  {
    FlushesBooks(ops, cfg, calls, s.h, whole, TabOf(s, closed));
    var r := Flush(ops, cfg, s.h);
    NextIsFlush(ops, cfg, s);
    after := whole + r.s.output;
    StoppedHere(calls, r.s.s, TabOf(s, closed), []);
  }

  lemma CloseMoves<E(!new)>(ops: Ops<E>, cfg: Config, calls: E -> seq<EngineCall>, s: Sys<E>, whole: bytes, closed: bool, code: int)
    returns (after: bytes)
    requires Records(ops, calls) && Running(cfg, calls, s, whole, closed)
    ensures var t := Next(ops, cfg, s, CloseConnection(code));
            Running(cfg, calls, t, after, true) && Moves(ops, cfg, s, CloseConnection(code), whole, after)
  {
    CloseReturns(ops, cfg, calls, s.h, whole, TabOf(s, closed), code);
    NextIsClose(ops, cfg, s, code);
    after := Handed(calls(Close(ops, cfg, s.h, code).0.conn));
  }

  /** One step of a running connection. */
  lemma StepMoves<E(!new)>(ops: Ops<E>, cfg: Config, calls: E -> seq<EngineCall>, s: Sys<E>, whole: bytes, closed: bool, step: Step)
    returns (after: bytes)
    requires Records(ops, calls) && Running(cfg, calls, s, whole, closed)
    requires Bounded(cfg, s) && Bounded(cfg, Next(ops, cfg, s, step))
    ensures var t := Next(ops, cfg, s, step);
            && (t.raised ==> Stopped(calls, t.h, TabOf(t, closed || step.CloseConnection?)))
            && (!t.raised ==> Running(cfg, calls, t, after, closed || step.CloseConnection?) && Moves(ops, cfg, s, step, whole, after))
  {
    after := whole;
    match step
    case Receive(data) =>
      ReceiveMoves(ops, cfg, calls, s, whole, closed, data);
      Nothing(ops, cfg, s, step, whole);
    case TakeCancelled =>
      assert s.cancelledOut + s.h.cancelled + [] == s.cancelledOut + s.h.cancelled;
      Nothing(ops, cfg, s, step, whole);
    case Respond(id, response) =>
      AnswerKept(ops, cfg, calls, s.h, TabOf(s, closed), id, response);
      Nothing(ops, cfg, s, step, whole);
    case Abandon(id) =>
      DropKept(calls, s.h, TabOf(s, closed), id);
      Nothing(ops, cfg, s, step, whole);
    case FlushOutput => after := FlushMoves(ops, cfg, calls, s, whole, closed);
    case CloseConnection(code) => after := CloseMoves(ops, cfg, calls, s, whole, closed, code);
  }

  /** The control output and the pending bytes of a running connection are within the limits (`CountersExactAndBounded`). */
  predicate Bounded<E>(cfg: Config, s: Sys<E>)
  {
    !s.raised ==> |s.h.control| <= cfg.maxControlOutput && |s.h.control| + s.h.pending <= cfg.maxPendingOutput
  }

  /** After an exception the engine still sees exactly what the log says. */
  lemma LateStep<E(!new)>(ops: Ops<E>, cfg: Config, calls: E -> seq<EngineCall>, s: Sys<E>, closed: bool, step: Step)
    requires Records(ops, calls) && s.raised && Stopped(calls, s.h, TabOf(s, closed))
    ensures var t := Next(ops, cfg, s, step); t.raised && Stopped(calls, t.h, TabOf(t, closed || step.CloseConnection?))
  {
    var t := Next(ops, cfg, s, step);
    var due :| Witnessed(calls, s.h, TabOf(s, closed).(due := due));
    var tab := TabOf(s, closed).(due := due);
    match step
    case Receive(data) =>
    case TakeCancelled =>
    case Respond(id, response) => AnswerKept(ops, cfg, calls, s.h, tab, id, response);
    case Abandon(id) => DropKept(calls, s.h, tab, id);
    case FlushOutput =>
    case CloseConnection(code) => CloseKept(ops, cfg, calls, s.h, tab, code);
    StoppedHere(calls, t.h, TabOf(t, closed || step.CloseConnection?), due);
  }

  lemma ClosesMore(steps: seq<Step>)
    requires steps != []
    ensures Closes(steps) <==> steps[0].CloseConnection? || Closes(steps[1..])
  {
    assert forall step :: step in steps <==> step == steps[0] || step in steps[1..];
  }

  lemma {:induction false} LateRun<E(!new)>(ops: Ops<E>, cfg: Config, calls: E -> seq<EngineCall>, s: Sys<E>,
                                            closed: bool, steps: seq<Step>)
    requires Records(ops, calls) && s.raised && Stopped(calls, s.h, TabOf(s, closed))
    ensures var t := Run(ops, cfg, s, steps); t.raised && Stopped(calls, t.h, TabOf(t, closed || Closes(steps)))
    decreases |steps|
  {
    if steps != [] {
      LateStep(ops, cfg, calls, s, closed, steps[0]);
      ClosesMore(steps);
      LateRun(ops, cfg, calls, Next(ops, cfg, s, steps[0]), closed || steps[0].CloseConnection?, steps[1..]);
    }
  }

  /** What a run has returned, and what it has lost, from a state whose books are in order. */
  ghost predicate Returned<E>(cfg: Config, calls: E -> seq<EngineCall>, s: Sys<E>, whole: bytes, closed: bool, lossless: bool)
  {
    && Running(cfg, calls, s, whole, closed)
    && if lossless then whole == s.sent else |whole| > |s.sent|
  }

  lemma MovesOn<E>(ops: Ops<E>, cfg: Config, calls: E -> seq<EngineCall>, s: Sys<E>, step: Step, whole: bytes, after: bytes, closed: bool,
                   lossless: bool)
    requires Returned(cfg, calls, s, whole, closed, lossless) && Moves(ops, cfg, s, step, whole, after)
    requires Running(cfg, calls, Next(ops, cfg, s, step), after, closed || step.CloseConnection?)
    ensures Returned(cfg, calls, Next(ops, cfg, s, step), after, closed || step.CloseConnection?, lossless && !StepLoses(ops, cfg, s, step))
  {
  }

  lemma {:induction false} RunReturns<E(!new)>(ops: Ops<E>, cfg: Config, calls: E -> seq<EngineCall>, s: Sys<E>, g: Story, whole: bytes,
                                               closed: bool, lossless: bool, steps: seq<Step>) returns (after: bytes)
    requires Lawful(ops) && SysInv(ops, cfg, s, g)
    requires Records(ops, calls) && Returned(cfg, calls, s, whole, closed, lossless)
    ensures var t := Run(ops, cfg, s, steps);
            && (t.raised ==> Stopped(calls, t.h, TabOf(t, closed || Closes(steps))))
            && (!t.raised ==> Returned(cfg, calls, t, after, closed || Closes(steps), lossless && Lossless(ops, cfg, s, steps)))
    decreases |steps|
  {
    after := whole;
    if steps != [] {
      var t := Next(ops, cfg, s, steps[0]);
      var h := StepKeeps(ops, cfg, s, g, steps[0]);
      assert Bounded(cfg, s) && Bounded(cfg, t);
      after := StepMoves(ops, cfg, calls, s, whole, closed, steps[0]);
      ClosesMore(steps);
      var now := closed || steps[0].CloseConnection?;
      if t.raised {
        LateRun(ops, cfg, calls, t, now, steps[1..]);
      } else {
        MovesOn(ops, cfg, calls, s, steps[0], whole, after, closed, lossless);
        after := RunReturns(ops, cfg, calls, t, h, after, now, lossless && !StepLoses(ops, cfg, s, steps[0]), steps[1..]);
      }
    }
  }

  // ---------------------------------------------------------------- the theorems

  /** A new connection whose engine has seen nothing yet. */
  ghost predicate NewEngine<E(!new)>(ops: Ops<E>, cfg: Config, calls: E -> seq<EngineCall>, conn: E)
  {
    Lawful(ops) && ValidConfig(cfg) && Newborn(ops, conn) && Records(ops, calls) && calls(conn) == []
  }

  lemma FromNew<E(!new)>(ops: Ops<E>, cfg: Config, calls: E -> seq<EngineCall>, conn: E, steps: seq<Step>) returns (after: bytes)
    requires NewEngine(ops, cfg, calls, conn)
    ensures var t := Run(ops, cfg, Start(conn), steps);
            && (t.raised ==> Stopped(calls, t.h, TabOf(t, Closes(steps))))
            && (!t.raised ==> Returned(cfg, calls, t, after, Closes(steps), Lossless(ops, cfg, Start(conn), steps)))
  {
    var g := StartKnown(ops, cfg, conn);
    StartReturned(ops, cfg, calls, conn);
    after := RunReturns(ops, cfg, calls, Start(conn), g, [], false, true, steps);
  }

  lemma StartKnown<E>(ops: Ops<E>, cfg: Config, conn: E) returns (g: Story)
    requires ValidConfig(cfg) && Newborn(ops, conn)
    ensures SysInv(ops, cfg, Start(conn), g)
  {
    g := Story(ops.lastOpened(conn), ops.halfClosed(conn), {}, map[], []);
    FreshInv(cfg, conn, g.hi, g.ended);
  }

  lemma StartReturned<E(!new)>(ops: Ops<E>, cfg: Config, calls: E -> seq<EngineCall>, conn: E)
    requires NewEngine(ops, cfg, calls, conn)
    ensures Returned(cfg, calls, Start(conn), [], false, true)
  {
  }

  /**
   Every byte the engine hands over leaves exactly once.  Over every run that no exception has ended, the bytes
   returned by flushes and closes, joined, and then the control output still held back are the bytes the engine has
   handed over, in order, without gap or repeat, if and only if no close was over a limit with what it would return;
   such a close is the one loss.
   */
  lemma EveryByteLeavesOnce<E(!new)>(ops: Ops<E>, cfg: Config, calls: E -> seq<EngineCall>, conn: E, steps: seq<Step>)
    requires NewEngine(ops, cfg, calls, conn) && !Run(ops, cfg, Start(conn), steps).raised
    ensures var s := Run(ops, cfg, Start(conn), steps);
            && (s.sent + s.h.control == Handed(calls(s.h.conn)) <==> Lossless(ops, cfg, Start(conn), steps))
            && |s.sent + s.h.control| <= |Handed(calls(s.h.conn))|
  {
    var after := FromNew(ops, cfg, calls, conn, steps);
    var s := Run(ops, cfg, Start(conn), steps);
    assert |after + s.h.control| == |Handed(calls(s.h.conn))|;
  }

  /**
   Over every run, exceptions included: the log is what the engine was asked, call by call, with the very
   arguments; the events handled are those it has reported, in order, up to the one that raised; cancellations are
   handed out once and in the order the peer has reset its streams; and both closed flags say whether the peer has
   ended the connection and whether it was closed here.
   */
  lemma TheLogIsWhatTheEngineSaw<E(!new)>(ops: Ops<E>, cfg: Config, calls: E -> seq<EngineCall>, conn: E, steps: seq<Step>)
    requires NewEngine(ops, cfg, calls, conn)
    ensures var s := Run(ops, cfg, Start(conn), steps);
            && Asks(calls(s.h.conn)) == CallsOf(s.h.log)
            && EventsOf(s.h.log) <= Reported(calls(s.h.conn)) && (!s.raised ==> EventsOf(s.h.log) == Reported(calls(s.h.conn)))
            && s.cancelledOut + s.h.cancelled == PeerResets(s.h.log)
            && (s.h.remoteClosed <==> Got(ConnectionTerminated) in s.h.log)
            && (s.h.localClosed <==> Closes(steps))
  {
    var after := FromNew(ops, cfg, calls, conn, steps);
    var s := Run(ops, cfg, Start(conn), steps);
    if s.raised {
      var due :| Witnessed(calls, s.h, TabOf(s, Closes(steps)).(due := due));
      assert EventsOf(s.h.log) + due == Reported(calls(s.h.conn));
    }
  }

  /** The first close, and no other, asks the engine for a GOAWAY. */
  lemma GoawayGoesOutOnce<E(!new)>(ops: Ops<E>, cfg: Config, calls: E -> seq<EngineCall>, conn: E, steps: seq<Step>, code: int)
    requires NewEngine(ops, cfg, calls, conn)
    ensures var s := Run(ops, cfg, Start(conn), steps);
            var t := Next(ops, cfg, s, CloseConnection(code));
            t.h.log == s.h.log + if !Closes(steps) && ops.goaway(s.h.conn, code, s.h.last).1 then [DidGoaway(code, s.h.last)] else []
  {
    TheLogIsWhatTheEngineSaw(ops, cfg, calls, conn, steps);
    var s := Run(ops, cfg, Start(conn), steps);
    assert s.h.log + [] == s.h.log;
  }

  /**
   When `receive_data` raises, on an engine that refuses nothing: exactly when the bytes received are not the start
   of a legal stream, or the engine has handed over more that was not returned yet than the limits allow.
   */
  lemma ReceiveRaisesExactly<E(!new)>(ops: Ops<E>, cfg: Config, calls: E -> seq<EngineCall>, conn: E, steps: seq<Step>, data: bytes)
    requires NewEngine(ops, cfg, calls, conn) && Obliging(ops)
    requires !Run(ops, cfg, Start(conn), steps).raised && Lossless(ops, cfg, Start(conn), steps)
    ensures var s := Run(ops, cfg, Start(conn), steps);
            var t := Next(ops, cfg, s, Receive(data));
            t.raised <==>
              || !(exists d :: LegalStream(cfg.limits, d) && Octets(d) == ReceivedBytes(steps) + data)
              || Overdrawn(cfg, calls, t.h, s.sent)
  {
    var after := FromNew(ops, cfg, calls, conn, steps);
    var s := Run(ops, cfg, Start(conn), steps);
    ReceiveMoves(ops, cfg, calls, s, s.sent, Closes(steps), data);
    assert PutBack(UNUSED) == EMPTY;
    RunSplits(ops, cfg, Start(conn), [], steps);
    assert [] + ReceivedBytes(steps) == ReceivedBytes(steps);
    ChunkingIsInvisible(cfg.limits, EMPTY, ReceivedBytes(steps), data);
    ReadyIsWriteOnly(cfg.limits, Usage(s.frames, GivenTo(s.h.log)), data);
    AcceptsExactlyLegalStreams(cfg.limits, ReceivedBytes(steps) + data);
  }

  /** `flush` raises only when more is owed than the limits allow, and always when it and the pending bytes are too much. */
  lemma FlushRaisesOnlyOverLimits<E(!new)>(ops: Ops<E>, cfg: Config, calls: E -> seq<EngineCall>, conn: E, steps: seq<Step>)
    requires NewEngine(ops, cfg, calls, conn)
    requires !Run(ops, cfg, Start(conn), steps).raised && Lossless(ops, cfg, Start(conn), steps)
    ensures var s := Run(ops, cfg, Start(conn), steps);
            var t := Next(ops, cfg, s, FlushOutput);
            && (t.raised ==> Overdrawn(cfg, calls, t.h, s.sent))
            && (!t.raised ==> |t.sent| - |s.sent| + t.h.pending <= cfg.maxPendingOutput && t.h.control == [])
  {
    var after := FromNew(ops, cfg, calls, conn, steps);
    var s := Run(ops, cfg, Start(conn), steps);
    var more := FlushMoves(ops, cfg, calls, s, s.sent, Closes(steps));
  }
}
