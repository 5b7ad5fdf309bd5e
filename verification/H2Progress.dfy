/** The writer's flush loop makes progress and ends (`_http2_writer_loop`, `flush`). */
module H2Progress {
  import opened Bytes
  import opened Optional
  import opened FrameBudgetSplitter
  import opened H2State
  import opened H2Invariant
  import opened H2Safety
  import opened H2Operations
  import opened H2Sending
  import opened H2Runs

  /** The engine has nothing to hand over. */
  ghost predicate Dry<E>(ops: Ops<E>, e: E) { ops.drain(e).1 == [] }

  /** The engine knows the stream, and its flow-control window is used up. */
  ghost predicate Blocked<E>(ops: Ops<E>, e: E, id: int)
  {
    match ops.window(e, id)
    case None => false
    case Some(w) => w <= 0
  }

  /**
   `data_to_send` hands over everything generated since the last call; accepted DATA generates output and
   refused DATA none; a used-up window stays known and used up when another stream sends and when the engine
   is drained; frames may carry a byte.
   */
  ghost predicate Orderly<E(!new)>(ops: Ops<E>)
  {
    && (forall e :: Dry(ops, ops.drain(e).0))
    && (forall e, id, d, fin :: ops.sendData(e, id, d, fin).1 ==> !Dry(ops, ops.sendData(e, id, d, fin).0))
    && (forall e, id, d, fin :: Dry(ops, e) && !ops.sendData(e, id, d, fin).1 ==> Dry(ops, ops.sendData(e, id, d, fin).0))
    && (forall e, id, d, fin, t :: t != id && Blocked(ops, e, t) ==> Blocked(ops, ops.sendData(e, id, d, fin).0, t))
    && (forall e, t :: Blocked(ops, e, t) ==> Blocked(ops, ops.drain(e).0, t))
    && (forall e :: ops.frameSize(e) > 0)
  }

  /** Streams but this one that flow control held back are held back still. */
  ghost predicate OthersBlocked<E>(ops: Ops<E>, before: E, after: E, id: int)
  {
    forall t | t != id :: Blocked(ops, before, t) ==> Blocked(ops, after, t)
  }

  /** The stream is off the table, or flow control holds it back. */
  ghost predicate Held<E>(ops: Ops<E>, s: H2<E>, id: int)
  {
    id !in OutIds(s.outbound) || Blocked(ops, s.conn, id)
  }

  /** What a turn, or the whole stream loop, does to pending bytes, output and windows. */
  ghost predicate Progress<E>(ops: Ops<E>, f: Flushed<E>, r: Flushed<E>)
  {
    && f.output <= r.output
    && r.s.pending <= f.s.pending
    && (r.output != f.output ==> r.s.pending < f.s.pending)
    && r.s.commands == f.s.commands && r.s.control == f.s.control
    && (Dry(ops, f.s.conn) ==> Dry(ops, r.s.conn))
    && OutIds(r.s.outbound) <= OutIds(f.s.outbound)
    && (forall id | Held(ops, f.s, id) :: Held(ops, r.s, id))
  }

  lemma DropProgress<E(!new)>(ops: Ops<E>, cfg: Config, f: Flushed<E>, g: Story, conn: E, o: Outbound)
    requires Inv(cfg, f.s, g) && o in f.s.outbound
    requires OthersBlocked(ops, f.s.conn, conn, o.id) && (Dry(ops, f.s.conn) ==> Dry(ops, conn))
    ensures var r := f.(s := DropStream(f.s.(conn := conn), o.id));
            Progress(ops, f, r) && Held(ops, r.s, o.id)
  {
    TheEntry(f.s.outbound, o);
    WithoutFacts(f.s.outbound, o.id);
    assert o.id in OutIds(f.s.outbound);
    KeptNone(f.s.commands, o.id);
  }

  lemma SentProgress<E>(ops: Ops<E>, cfg: Config, f: Flushed<E>, conn: E, o: Outbound, n: nat, window: int, frameSize: int,
                        generated: bytes)
    requires DistinctOuts(f.s.outbound) && o in f.s.outbound && 0 < n <= Remaining(o)
    requires Dry(ops, conn) && generated != [] && OthersBlocked(ops, f.s.conn, conn, o.id) && !Held(ops, f.s, o.id)
    ensures var r := AfterChunk(cfg, f, Sent(f.s, conn, o, n, window, frameSize), generated, o.id, n == Remaining(o));
            r.Ok? ==> Progress(ops, f, r.s) && r.s.output != f.output
  {
    AdvanceFacts(f.s.outbound, o, n);
    WithoutFacts(Advance(f.s.outbound, o.id, n), o.id);
    assert |f.output + generated| > |f.output|;
  }

  /** What handing DATA to an orderly engine leaves: refused, a dry one stays dry; accepted, draining yields output. */
  lemma EngineAfterData<E(!new)>(ops: Ops<E>, conn: E, id: int, data: bytes, fin: bool)
    requires Orderly(ops)
    ensures var (e, ok) := ops.sendData(conn, id, data, fin);
            if ok then Dry(ops, ops.drain(e).0) && ops.drain(e).1 != [] && OthersBlocked(ops, conn, ops.drain(e).0, id)
            else (Dry(ops, conn) ==> Dry(ops, e)) && OthersBlocked(ops, conn, e, id)
  {
    var (e, ok) := ops.sendData(conn, id, data, fin);
    if ok {
      assert !Dry(ops, e);
    }
  }

  lemma SendProgress<E(!new)>(ops: Ops<E>, cfg: Config, f: Flushed<E>, g: Story, o: Outbound, n: nat, window: int)
    requires Orderly(ops) && Inv(cfg, f.s, g) && o in f.s.outbound
    requires 0 < n <= Remaining(o) && !Held(ops, f.s, o.id)
    ensures var r := SendChunk(ops, cfg, f, o, n, window);
            r.Ok? ==> Progress(ops, f, r.s) && (r.s.output == f.output ==> Held(ops, r.s.s, o.id))
  {
    var (e, ok) := ops.sendData(f.s.conn, o.id, o.body[o.offset..o.offset + n], n == Remaining(o));
    SendChunkShape(ops, cfg, f, o, n, window);
    EngineAfterData(ops, f.s.conn, o.id, o.body[o.offset..o.offset + n], n == Remaining(o));
    if !ok {
      DropProgress(ops, cfg, f, g, e, o);
    } else {
      SentProgress(ops, cfg, f, ops.drain(e).0, o, n, window, ops.frameSize(f.s.conn), ops.drain(e).1);
    }
  }

  lemma StreamProgress<E(!new)>(ops: Ops<E>, cfg: Config, f: Flushed<E>, g: Story, o: Outbound)
    requires Orderly(ops) && Inv(cfg, f.s, g) && o in f.s.outbound
    ensures var r := FlushStream(ops, cfg, f, o);
            r.Ok? ==> Progress(ops, f, r.s) && (r.s.output == f.output ==> Held(ops, r.s.s, o.id))
  {
    assert Remaining(o) > 0;
    match ops.window(f.s.conn, o.id)
    case None =>
      DropProgress(ops, cfg, f, g, f.s.conn, o);
      assert f.s.(conn := f.s.conn) == f.s;
    case Some(window) =>
      var n := ChunkSize(o, window, ops.frameSize(f.s.conn));
      if n > 0 {
        assert window > 0 && !Blocked(ops, f.s.conn, o.id) && o.id in OutIds(f.s.outbound);
        SendProgress(ops, cfg, f, g, o, n, window);
      } else {
        assert Blocked(ops, f.s.conn, o.id);
      }
  }

  /** Progress composes, and a stream held back after the first part is held back after the second. */
  lemma ProgressComposes<E>(ops: Ops<E>, f: Flushed<E>, r: Flushed<E>, z: Flushed<E>)
    requires Progress(ops, f, r) && Progress(ops, r, z)
    ensures Progress(ops, f, z)
    ensures z.output == f.output ==> r.output == f.output
    ensures forall id | Held(ops, r.s, id) :: Held(ops, z.s, id)
  {
  }

  /** One turn, and the turns after it. */
  lemma TurnThenRest<E>(ops: Ops<E>, cfg: Config, f: Flushed<E>, r: Flushed<E>, todo: seq<Outbound>)
    requires todo != [] && FlushStream(ops, cfg, f, todo[0]) == Ok(r)
    requires Progress(ops, f, r) && (r.output == f.output ==> Held(ops, r.s, todo[0].id))
    requires var z := FlushStreams(ops, cfg, r, todo[1..]);
             z.Ok? ==> Progress(ops, r, z.s) && (z.s.output == r.output ==> forall o | o in todo[1..] :: Held(ops, z.s.s, o.id))
    ensures var z := FlushStreams(ops, cfg, f, todo);
            z.Ok? ==> Progress(ops, f, z.s) && (z.s.output == f.output ==> forall o | o in todo :: Held(ops, z.s.s, o.id))
  {
    var z := FlushStreams(ops, cfg, r, todo[1..]);
    if z.Ok? {
      ProgressComposes(ops, f, r, z.s);
      assert forall o | o in todo :: o == todo[0] || o in todo[1..];
    }
  }

  lemma {:induction false} StreamsProgress<E(!new)>(ops: Ops<E>, cfg: Config, f: Flushed<E>, g: Story, todo: seq<Outbound>)
    requires Orderly(ops) && Inv(cfg, f.s, g)
    requires DistinctOuts(todo) && forall o | o in todo :: o in f.s.outbound
    ensures var r := FlushStreams(ops, cfg, f, todo);
            r.Ok? ==> Progress(ops, f, r.s) && (r.s.output == f.output ==> forall o | o in todo :: Held(ops, r.s.s, o.id))
    decreases |todo|
  {
    if todo != [] {
      StreamProgress(ops, cfg, f, g, todo[0]);
      FirstTurn(ops, cfg, f, g, todo);
      var r := FlushStream(ops, cfg, f, todo[0]);
      if r.Ok? {
        StreamsProgress(ops, cfg, r.s, g, todo[1..]);
        TurnThenRest(ops, cfg, f, r.s, todo);
      }
    }
  }

  /** A state a flush leaves behind: no command, no control output, nothing left in the engine. */
  ghost predicate Settled<E>(ops: Ops<E>, s: H2<E>)
  {
    s.commands == [] && s.control == [] && Dry(ops, s.conn)
  }

  /** Every stream still on the table is known to the engine and held back by flow control. */
  ghost predicate AllBlocked<E>(ops: Ops<E>, s: H2<E>)
  {
    forall o | o in s.outbound :: Blocked(ops, s.conn, o.id)
  }

  lemma StalledTable<E>(ops: Ops<E>, s: H2<E>, t: H2<E>)
    requires OutIds(t.outbound) <= OutIds(s.outbound)
    requires forall o | o in s.outbound :: Held(ops, t, o.id)
    ensures AllBlocked(ops, t)
  {
    forall o | o in t.outbound ensures Blocked(ops, t.conn, o.id) {
      assert o.id in OutIds(t.outbound);
      var q :| q in s.outbound && q.id == o.id;
      assert Held(ops, t, q.id);
    }
  }

  /** The stream loop from the whole table: without output every stream left is blocked; with output, less is pending. */
  lemma TableProgress<E(!new)>(ops: Ops<E>, cfg: Config, f: Flushed<E>, g: Story)
    requires Orderly(ops) && Inv(cfg, f.s, g)
    ensures var r := FlushStreams(ops, cfg, f, f.s.outbound);
            r.Ok? ==> Progress(ops, f, r.s) && 0 <= r.s.s.pending && (r.s.output == f.output ==> AllBlocked(ops, r.s.s))
  {
    StreamsProgress(ops, cfg, f, g, f.s.outbound);
    FlushStreamsInv(ops, cfg, f, g, f.s.outbound);
    var r := FlushStreams(ops, cfg, f, f.s.outbound);
    if r.Ok? {
      NonNegative(cfg, r.s.s, g);
      if r.s.output == f.output {
        StalledTable(ops, f.s, r.s.s);
      }
    }
  }

  /** Draining the engine at the end opens no window, and adds output exactly when the engine was not dry. */
  lemma FinishIsQuiet<E(!new)>(ops: Ops<E>, cfg: Config, f: Flushed<E>)
    requires Orderly(ops)
    ensures var r := FinishFlush(ops, cfg, f);
            r.Ok? ==> r.s.s == f.s.(conn := r.s.s.conn) && (AllBlocked(ops, f.s) ==> AllBlocked(ops, r.s.s))
                      && Dry(ops, r.s.s.conn) && f.output <= r.s.output
                      && (r.s.output == f.output <==> Dry(ops, f.s.conn))
  {
  }

  /** The table part of a flush, from any state: an empty one leaves every stream blocked. */
  lemma TableFlushBlocks<E(!new)>(ops: Ops<E>, cfg: Config, s: H2<E>, g: Story)
    requires Orderly(ops) && Inv(cfg, s, g)
    ensures var r := FlushTable(ops, cfg, s);
            r.Ok? ==>
              && 0 <= r.s.s.pending <= s.pending
              && (r.s.output == [] ==> AllBlocked(ops, r.s.s))
              && (Settled(ops, s) && r.s.output != [] ==> r.s.s.pending < s.pending)
  {
    ClearControl(cfg, s, g);
    var f := Flushed(s.(control := []), s.control);
    TableProgress(ops, cfg, f, g);
    var r := FlushStreams(ops, cfg, f, s.outbound);
    if r.Ok? {
      FinishIsQuiet(ops, cfg, r.s);
    }
  }

  lemma {:induction false} UnsentNonNegative(outs: seq<Outbound>)
    requires forall o | o in outs :: o.offset < |o.body|
    ensures Unsent(outs) >= 0
  {
    if outs != [] {
      assert forall o | o in outs[1..] :: o in outs;
      UnsentNonNegative(outs[1..]);
    }
  }

  lemma NonNegative<E>(cfg: Config, s: H2<E>, g: Story)
    requires Inv(cfg, s, g)
    ensures s.pending >= 0
  {
    UnsentNonNegative(s.outbound);
  }

  lemma {:induction false} RunCommandsSettles<E>(ops: Ops<E>, cfg: Config, s: H2<E>, g: Story, commands: seq<Command>)
    requires s.commands == [] && Inv(cfg, WithTail(s, commands), g)
    ensures RunCommands(ops, cfg, s, commands).s.commands == []
  {
    var tail := RunCommandsInv(ops, cfg, s, g, commands);
  }

  lemma TurnKeepsQueues<E>(ops: Ops<E>, cfg: Config, f: Flushed<E>, o: Outbound)
    requires f.s.commands == [] && f.s.control == []
    ensures var r := FlushStream(ops, cfg, f, o);
            r.Ok? ==> r.s.s.commands == [] && r.s.s.control == []
  {
  }

  lemma {:induction false} LoopKeepsQueues<E>(ops: Ops<E>, cfg: Config, f: Flushed<E>, todo: seq<Outbound>)
    requires f.s.commands == [] && f.s.control == []
    ensures var r := FlushStreams(ops, cfg, f, todo);
            r.Ok? ==> r.s.s.commands == [] && r.s.s.control == []
    decreases |todo|
  {
    if todo != [] {
      TurnKeepsQueues(ops, cfg, f, todo[0]);
      var r := FlushStream(ops, cfg, f, todo[0]);
      if r.Ok? {
        LoopKeepsQueues(ops, cfg, r.s, todo[1..]);
      }
    }
  }

  /** Any flush that returns leaves a settled state, in particular the first one after new work. */
  lemma FlushSettles<E(!new)>(ops: Ops<E>, cfg: Config, s: H2<E>, g: Story)
    requires Orderly(ops) && Inv(cfg, s, g)
    ensures var r := Flush(ops, cfg, s);
            r.Ok? ==> Settled(ops, r.s.s)
  {
    var u := s.(commands := []);
    assert WithTail(u, s.commands) == s;
    RunCommandsSettles(ops, cfg, u, g, s.commands);
    var t := RunCommands(ops, cfg, u, s.commands);
    if t.Ok? {
      TableSettles(ops, cfg, t.s);
    }
  }

  lemma TableSettles<E(!new)>(ops: Ops<E>, cfg: Config, s: H2<E>)
    requires Orderly(ops) && s.commands == []
    ensures var r := FlushTable(ops, cfg, s);
            r.Ok? ==> Settled(ops, r.s.s)
  {
    var f := Flushed(s.(control := []), s.control);
    LoopKeepsQueues(ops, cfg, f, s.outbound);
  }

  /**
   Any flush that returns, the first one after a wake-up included, leaves no command queued; one that
   returns no bytes leaves only streams whose flow-control window is used up; and one from a settled state
   that returns bytes strictly reduces the pending ones.
   */
  lemma FlushProgress<E(!new)>(ops: Ops<E>, cfg: Config, s: H2<E>, g: Story)
    requires Orderly(ops) && Inv(cfg, s, g)
    ensures var r := Flush(ops, cfg, s);
            r.Ok? ==>
              && Settled(ops, r.s.s) && r.s.s.pending >= 0
              && (r.s.output == [] ==> AllBlocked(ops, r.s.s))
              && (Settled(ops, s) && r.s.output != [] ==> r.s.s.pending < s.pending)
  {
    FlushSettles(ops, cfg, s, g);
    var u := s.(commands := []);
    assert WithTail(u, s.commands) == s;
    var tail := RunCommandsInv(ops, cfg, u, g, s.commands);
    var t := RunCommands(ops, cfg, u, s.commands);
    if t.Ok? {
      assert WithTail(t.s, []) == t.s;
      TableFlushBlocks(ops, cfg, t.s, g);
      assert s.commands == [] ==> t.s == s;
    }
  }

  /** The writer's inner loop, at most `limit` flushes: does it stop by itself, at an empty flush or an exception? */
  predicate StopsWithin<E>(ops: Ops<E>, cfg: Config, s: H2<E>, limit: nat)
    decreases limit
  {
    limit > 0 &&
    match Flush(ops, cfg, s)
    case Raised(_) => true
    case Ok(f) => f.output == [] || StopsWithin(ops, cfg, f.s, limit - 1)
  }

  lemma {:induction false} SettledStops<E(!new)>(ops: Ops<E>, cfg: Config, s: H2<E>, g: Story)
    requires Orderly(ops) && Inv(cfg, s, g) && Settled(ops, s) && s.pending >= 0
    ensures StopsWithin(ops, cfg, s, s.pending + 1)
    decreases s.pending
  {
    FlushProgress(ops, cfg, s, g);
    FlushInv(ops, cfg, s, g);
    var r := Flush(ops, cfg, s);
    if r.Ok? && r.s.output != [] {
      SettledStops(ops, cfg, r.s.s, g);
      Longer(ops, cfg, r.s.s, r.s.s.pending + 1, s.pending);
    }
  }

  lemma {:induction false} Longer<E>(ops: Ops<E>, cfg: Config, s: H2<E>, a: nat, b: nat)
    requires StopsWithin(ops, cfg, s, a) && a <= b
    ensures StopsWithin(ops, cfg, s, b)
    decreases a
  {
    var r := Flush(ops, cfg, s);
    if r.Ok? && r.s.output != [] {
      Longer(ops, cfg, r.s.s, a - 1, b - 1);
    }
  }

  /** The writer's flush loop ends, from any state of the connection, however much there is to send. */
  lemma WriterLoopEnds<E(!new)>(ops: Ops<E>, cfg: Config, s: H2<E>, g: Story)
    requires Orderly(ops) && Inv(cfg, s, g)
    ensures exists limit: nat :: StopsWithin(ops, cfg, s, limit)
  {
    var r := Flush(ops, cfg, s);
    if r.Ok? && r.s.output != [] {
      FlushSettles(ops, cfg, s, g);
      FlushInv(ops, cfg, s, g);
      NonNegative(cfg, r.s.s, g);
      SettledStops(ops, cfg, r.s.s, g);
      OneMore(ops, cfg, s, r.s.s.pending + 1);
    } else {
      StopsAtOnce(ops, cfg, s);
    }
  }

  lemma OneMore<E>(ops: Ops<E>, cfg: Config, s: H2<E>, limit: nat)
    requires Flush(ops, cfg, s).Ok? && StopsWithin(ops, cfg, Flush(ops, cfg, s).s.s, limit)
    ensures StopsWithin(ops, cfg, s, limit + 1)
  {
  }

  lemma StopsAtOnce<E>(ops: Ops<E>, cfg: Config, s: H2<E>)
    requires var r := Flush(ops, cfg, s); r.Ok? ==> r.s.output == []
    ensures StopsWithin(ops, cfg, s, 1)
  {
  }

  /** The writer's loop ends on every connection a run can reach. */
  lemma WriterLoopEndsOnEveryRun<E(!new)>(ops: Ops<E>, cfg: Config, conn: E, steps: seq<Step>)
    requires Lawful(ops) && Orderly(ops) && ValidConfig(cfg) && Newborn(ops, conn)
    requires !Run(ops, cfg, Start(conn), steps).raised
    ensures exists limit: nat :: StopsWithin(ops, cfg, Run(ops, cfg, Start(conn), steps).h, limit)
  {
    var g := FromStart(ops, cfg, conn, steps);
    WriterLoopEnds(ops, cfg, Run(ops, cfg, Start(conn), steps).h, g);
  }

  /**
   From any connection a run can reach: a flush that returns no bytes, be it the first after a wake-up,
   leaves no command queued and every unfinished stream blocked by flow control; and after a flush, the
   next one that returns bytes strictly reduces the pending ones.
   */
  lemma FlushProgressesOnEveryRun<E(!new)>(ops: Ops<E>, cfg: Config, conn: E, steps: seq<Step>)
    requires Lawful(ops) && Orderly(ops) && ValidConfig(cfg) && Newborn(ops, conn)
    requires !Run(ops, cfg, Start(conn), steps).raised
    ensures var first := Flush(ops, cfg, Run(ops, cfg, Start(conn), steps).h);
            first.Ok? ==>
              && first.s.s.commands == []
              && (first.s.output == [] ==> AllBlocked(ops, first.s.s))
              && var second := Flush(ops, cfg, first.s.s);
                 second.Ok? ==>
                   && second.s.s.commands == []
                   && (second.s.output == [] ==> AllBlocked(ops, second.s.s))
                   && (second.s.output != [] ==> 0 <= second.s.s.pending < first.s.s.pending)
  {
    var g := FromStart(ops, cfg, conn, steps);
    var s := Run(ops, cfg, Start(conn), steps).h;
    FlushProgress(ops, cfg, s, g);
    FlushInv(ops, cfg, s, g);
    var first := Flush(ops, cfg, s);
    if first.Ok? {
      FlushProgress(ops, cfg, first.s.s, g);
    }
  }
}
