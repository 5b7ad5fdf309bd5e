/** `flush` hands DATA to the engine without gap or repeat, and `close` settles everything. */
module H2Sending {
  import opened Bytes
  import opened Optional
  import opened FrameBudgetSplitter
  import opened H2State
  import opened H2Invariant
  import opened H2Safety
  import opened H2Operations

  // ---------------------------------------------------------------- sending DATA

  /** No larger chunk would have been allowed. */
  predicate AsLarge(o: Outbound, n: nat, window: int, frameSize: int)
  {
    n == Remaining(o) || n == window || n == frameSize
  }

  lemma SentResponses<E>(s: H2<E>, g: Story, o: Outbound, n: nat, window: int, frameSize: int)
    requires Responses(s, g, {}) && DistinctOuts(s.outbound) && o in s.outbound && o.id in g.answered && g.answered[o.id] == o.body
    requires 0 < n <= Remaining(o) && n <= window && n <= frameSize && AsLarge(o, n, window, frameSize) && o.id <= g.hi
    ensures var e := DidData(o.id, o.body[o.offset..o.offset + n], n == Remaining(o), window, frameSize);
            Replay(s.log + [e], o.id, o.body) == if n == Remaining(o) then Complete else Sending(o.body[..o.offset + n])
  {
    var chunk := o.body[o.offset..o.offset + n];
    LogGrows(s.log, DidData(o.id, chunk, n == Remaining(o), window, frameSize));
    assert o.body[..o.offset] + chunk == o.body[..o.offset + n];
    assert n == Remaining(o) ==> o.body[..o.offset + n] == o.body;
  }

  /** What one DATA chunk does to the readings of the log: its own stream moves on, no other changes. */
  ghost predicate MovedOn(before: seq<Entry>, after: seq<Entry>, g: Story, o: Outbound, n: nat)
    requires o.offset + n <= |o.body|
  {
    && (forall x | x > g.hi :: Untouched(after, x))
    && (forall x | x !in g.answered :: Quiet(after, x))
    && (forall x | x != o.id :: Replay(after, x, Body(g, x)) == Replay(before, x, Body(g, x)))
    && (forall x :: DataOf(after, x) == DataOf(before, x))
    && (forall e | e in before :: e in after)
    && Body(g, o.id) == o.body
    && Replay(after, o.id, o.body) == if n == Remaining(o) then Complete else Sending(o.body[..o.offset + n])
  }

  /** A stream in the outbound table whose accepted response is known. */
  ghost predicate Movable<E>(s: H2<E>, g: Story, o: Outbound)
  {
    && Responses(s, g, {}) && DistinctOuts(s.outbound)
    && o in s.outbound && o.id in g.answered && g.answered[o.id] == o.body && o.id <= g.hi
  }

  lemma SentMoves<E>(s: H2<E>, g: Story, conn: E, o: Outbound, n: nat, window: int, frameSize: int)
    requires Movable(s, g, o)
    requires 0 < n <= Remaining(o) && n <= window && n <= frameSize && AsLarge(o, n, window, frameSize)
    ensures MovedOn(s.log, Sent(s, conn, o, n, window, frameSize).log, g, o, n)
  {
    var e := DidData(o.id, o.body[o.offset..o.offset + n], n == Remaining(o), window, frameSize);
    var log := Sent(s, conn, o, n, window, frameSize).log;
    assert log == s.log + [e];
    LogGrows(s.log, e);
    SentResponses(s, g, o, n, window, frameSize);
    forall x | x > g.hi ensures Untouched(log, x) {
      assert Untouched(s.log, x);
    }
    forall x | x !in g.answered ensures Quiet(log, x) {
      assert Quiet(s.log, x);
    }
  }

  lemma MovedRequests<E>(s: H2<E>, t: H2<E>, g: Story, o: Outbound, n: nat)
    requires o.offset + n <= |o.body| && MovedOn(s.log, t.log, g, o, n)
    requires Requests(s, g, {}) && t.inbound == s.inbound && t.ready == s.ready && t.last == s.last
    ensures Requests(t, g, {})
  {
    forall r | r in g.delivered || r in t.ready ensures Genuine(t, g, r) {
      assert Genuine(s, g, r);
    }
  }

  lemma NeverBroken<E>(s: H2<E>, t: H2<E>, g: Story, o: Outbound, n: nat)
    requires o.offset + n <= |o.body| && MovedOn(s.log, t.log, g, o, n)
    requires forall x :: Replay(s.log, x, Body(g, x)) != Broken
    ensures forall x :: Replay(t.log, x, Body(g, x)) != Broken
  {
    forall x ensures Replay(t.log, x, Body(g, x)) != Broken {
      if x != o.id {
        assert Replay(t.log, x, Body(g, x)) == Replay(s.log, x, Body(g, x));
      }
    }
  }

  /** Streams other than the one that moved keep their place and their reading. */
  lemma MovedResponses<E>(s: H2<E>, t: H2<E>, g: Story, o: Outbound, n: nat)
    requires o.offset + n <= |o.body| && MovedOn(s.log, t.log, g, o, n)
    requires Responses(s, g, {}) && (forall x | x in s.outbound :: Body(g, x.id) == x.body)
    requires t.active <= s.active && OutIds(s.outbound) - {o.id} <= OutIds(t.outbound)
    requires forall x | x in t.outbound :: (x in s.outbound && x.id != o.id) || (n < Remaining(o) && x == o.(offset := o.offset + n))
    requires o.id in t.active ==> o.id in OutIds(t.outbound)
    ensures Responses(t, g, {})
  {
    NeverBroken(s, t, g, o, n);
    forall x | x in t.outbound ensures x.offset <= |x.body| && Replay(t.log, x.id, x.body) == Sending(x.body[..x.offset]) {
      if x in s.outbound && x.id != o.id {
        assert Replay(t.log, x.id, Body(g, x.id)) == Replay(s.log, x.id, Body(g, x.id));
      }
    }
    forall x | x in t.active && x !in OutIds(t.outbound) ensures Replay(t.log, x, Body(g, x)) == Idle {
      assert Replay(t.log, x, Body(g, x)) == Replay(s.log, x, Body(g, x));
    }
  }

  lemma TheEntry(outs: seq<Outbound>, o: Outbound)
    requires DistinctOuts(outs) && o in outs
    ensures Lookup(outs, o.id) == Some(o)
    ensures forall x | x in outs && x.id == o.id :: x == o
  {
    LookupFacts(outs, o.id);
    assert o.id in OutIds(outs);
  }

  lemma {:induction false} WithoutAdvance(outs: seq<Outbound>, id: int, n: nat)
    ensures Without(Advance(outs, id, n), id) == Without(outs, id)
  {
    if outs != [] {
      WithoutAdvance(outs[1..], id, n);
      assert Advance(outs, id, n)[1..] == Advance(outs[1..], id, n);
    }
  }

  ghost predicate Sendable<E>(cfg: Config, s: H2<E>, g: Story, o: Outbound, n: nat, window: int, frameSize: int)
  {
    Inv(cfg, s, g) && o in s.outbound && 0 < n <= Remaining(o) && n <= window && n <= frameSize && AsLarge(o, n, window, frameSize)
  }

  lemma SendableFacts<E>(cfg: Config, s: H2<E>, g: Story, o: Outbound, n: nat, window: int, frameSize: int)
    requires Sendable(cfg, s, g, o, n, window, frameSize)
    ensures Movable(s, g, o) && o.id in s.active
    ensures o.id !in s.inbound && o.id !in CommandIds(s.commands) && o.id !in g.waiting
    ensures forall x | x in s.outbound :: Body(g, x.id) == x.body
  {
    assert o.id in OutIds(s.outbound);
  }

  lemma LastsAfterMove<E>(s: H2<E>, t: H2<E>, g: Story, o: Outbound, n: nat)
    requires o.offset + n <= |o.body| && MovedOn(s.log, t.log, g, o, n)
    requires Lasting(s, g) && t.last == s.last && t.cancelled == s.cancelled
    ensures Lasting(t, g)
  {
    NeverBroken(s, t, g, o, n);
    forall r | r in g.delivered ensures Genuine(t, g, r) {
      assert Genuine(s, g, r);
    }
  }

  /** Even when the output check then raises, the history stays one the RFC allows. */
  lemma SentLasts<E>(cfg: Config, s: H2<E>, g: Story, conn: E, o: Outbound, n: nat, window: int, frameSize: int)
    requires Sendable(cfg, s, g, o, n, window, frameSize)
    ensures Lasting(Sent(s, conn, o, n, window, frameSize), g)
  {
    SendableFacts(cfg, s, g, o, n, window, frameSize);
    SentMoves(s, g, conn, o, n, window, frameSize);
    assert WithTail(s, s.commands) == s;
    InvLasts(cfg, s, g, s.commands);
    LastsAfterMove(s, Sent(s, conn, o, n, window, frameSize), g, o, n);
  }

  lemma SentPartTables<E>(cfg: Config, s: H2<E>, g: Story, conn: E, o: Outbound, n: nat, window: int, frameSize: int)
    requires Sendable(cfg, s, g, o, n, window, frameSize) && n < Remaining(o)
    ensures var t := Sent(s, conn, o, n, window, frameSize);
            Tables(cfg, t, {}) && Accounts(cfg, t) && Linked(t, g)
  {
    AdvanceFacts(s.outbound, o, n);
  }

  /** Part of a body was sent: the stream stays on the table with its offset moved on. */
  lemma SentPart<E>(cfg: Config, s: H2<E>, g: Story, conn: E, o: Outbound, n: nat, window: int, frameSize: int)
    requires Sendable(cfg, s, g, o, n, window, frameSize) && n < Remaining(o)
    ensures Inv(cfg, Sent(s, conn, o, n, window, frameSize), g)
    ensures forall x | x in s.outbound && x.id != o.id :: x in Sent(s, conn, o, n, window, frameSize).outbound
  {
    var t := Sent(s, conn, o, n, window, frameSize);
    SendableFacts(cfg, s, g, o, n, window, frameSize);
    SentMoves(s, g, conn, o, n, window, frameSize);
    AdvanceFacts(s.outbound, o, n);
    assert o.id in OutIds(s.outbound);
    MovedRequests(s, t, g, o, n);
    MovedResponses(s, t, g, o, n);
    SentPartTables(cfg, s, g, conn, o, n, window, frameSize);
  }

  lemma SentAllTables<E>(cfg: Config, s: H2<E>, g: Story, conn: E, o: Outbound, n: nat, window: int, frameSize: int)
    requires Sendable(cfg, s, g, o, n, window, frameSize) && n == Remaining(o)
    ensures var t := Done(Sent(s, conn, o, n, window, frameSize), o.id);
            Tables(cfg, t, {}) && Accounts(cfg, t) && Linked(t, g)
  {
    SendableFacts(cfg, s, g, o, n, window, frameSize);
    WithoutAdvance(s.outbound, o.id, n);
    WithoutFacts(s.outbound, o.id);
    TheEntry(s.outbound, o);
    SmallerSet(s.active - {o.id}, s.active);
    assert forall c | c in s.commands :: c.id in CommandIds(s.commands);
  }

  /** The last byte of a body was sent: the stream leaves the table and the active set. */
  lemma SentAll<E>(cfg: Config, s: H2<E>, g: Story, conn: E, o: Outbound, n: nat, window: int, frameSize: int)
    requires Sendable(cfg, s, g, o, n, window, frameSize) && n == Remaining(o)
    ensures Inv(cfg, Done(Sent(s, conn, o, n, window, frameSize), o.id), g)
    ensures forall x | x in s.outbound && x.id != o.id :: x in Done(Sent(s, conn, o, n, window, frameSize), o.id).outbound
  {
    var t := Done(Sent(s, conn, o, n, window, frameSize), o.id);
    SendableFacts(cfg, s, g, o, n, window, frameSize);
    SentMoves(s, g, conn, o, n, window, frameSize);
    WithoutAdvance(s.outbound, o.id, n);
    WithoutFacts(s.outbound, o.id);
    MovedRequests(s, t, g, o, n);
    MovedResponses(s, t, g, o, n);
    SentAllTables(cfg, s, g, conn, o, n, window, frameSize);
  }

  lemma DroppedStream<E>(cfg: Config, s: H2<E>, g: Story, conn: E, o: Outbound)
    requires Inv(cfg, s, g) && o in s.outbound
    ensures var t := DropStream(s.(conn := conn), o.id);
            Inv(cfg, t, g) && forall x | x in s.outbound && x.id != o.id :: x in t.outbound
  {
    OtherConn(cfg, s, g, {}, conn);
    Weaken(cfg, s.(conn := conn), g, o.id);
    assert o.id in OutIds(s.outbound);
    DropInv(cfg, s.(conn := conn), g, o.id);
    WithoutFacts(s.outbound, o.id);
  }

  /** A turn of the stream loop: the invariant and the other streams survive it, or at least the history does. */
  ghost predicate TurnKept<E>(cfg: Config, s: H2<E>, g: Story, id: int, r: Outcome<Flushed<E>>)
  {
    match r
    case Raised(f) => Lasting(f.s, g)
    case Ok(f) => Inv(cfg, f.s, g) && forall x | x in s.outbound && x.id != id :: x in f.s.outbound
  }

  lemma AfterChunkKept<E>(cfg: Config, f: Flushed<E>, g: Story, conn: E, o: Outbound, n: nat, window: int, frameSize: int,
                          generated: bytes)
    requires Sendable(cfg, f.s, g, o, n, window, frameSize)
    ensures var t := Sent(f.s, conn, o, n, window, frameSize);
            TurnKept(cfg, f.s, g, o.id, AfterChunk(cfg, f, t, generated, o.id, n == Remaining(o)))
  {
    SentLasts(cfg, f.s, g, conn, o, n, window, frameSize);
    if n == Remaining(o) {
      SentAll(cfg, f.s, g, conn, o, n, window, frameSize);
    } else {
      SentPart(cfg, f.s, g, conn, o, n, window, frameSize);
    }
  }

  lemma SendChunkShape<E>(ops: Ops<E>, cfg: Config, f: Flushed<E>, o: Outbound, n: nat, window: int)
    requires o.offset + n <= |o.body|
    ensures var (e, ok) := ops.sendData(f.s.conn, o.id, o.body[o.offset..o.offset + n], n == Remaining(o));
            var (e', generated) := ops.drain(e);
            SendChunk(ops, cfg, f, o, n, window) ==
            if ok then AfterChunk(cfg, f, Sent(f.s, e', o, n, window, ops.frameSize(f.s.conn)), generated, o.id, n == Remaining(o))
            else Ok(f.(s := DropStream(f.s.(conn := e), o.id)))
  {
  }

  lemma SendChunkWent<E>(ops: Ops<E>, cfg: Config, f: Flushed<E>, g: Story, o: Outbound, n: nat, window: int)
    requires Sendable(cfg, f.s, g, o, n, window, ops.frameSize(f.s.conn))
    requires ops.sendData(f.s.conn, o.id, o.body[o.offset..o.offset + n], n == Remaining(o)).1
    ensures TurnKept(cfg, f.s, g, o.id, SendChunk(ops, cfg, f, o, n, window))
  {
    var e := ops.sendData(f.s.conn, o.id, o.body[o.offset..o.offset + n], n == Remaining(o)).0;
    var (e', generated) := ops.drain(e);
    SendChunkShape(ops, cfg, f, o, n, window);
    AfterChunkKept(cfg, f, g, e', o, n, window, ops.frameSize(f.s.conn), generated);
  }

  lemma SendChunkRefused<E>(ops: Ops<E>, cfg: Config, f: Flushed<E>, g: Story, o: Outbound, n: nat, window: int)
    requires o.offset + n <= |o.body| && Inv(cfg, f.s, g) && o in f.s.outbound
    requires !ops.sendData(f.s.conn, o.id, o.body[o.offset..o.offset + n], n == Remaining(o)).1
    ensures TurnKept(cfg, f.s, g, o.id, SendChunk(ops, cfg, f, o, n, window))
  {
    var e := ops.sendData(f.s.conn, o.id, o.body[o.offset..o.offset + n], n == Remaining(o)).0;
    var r := Ok(f.(s := DropStream(f.s.(conn := e), o.id)));
    SendChunkShape(ops, cfg, f, o, n, window);
    assert TurnKept(cfg, f.s, g, o.id, r) by {
      DroppedStream(cfg, f.s, g, e, o);
    }
  }

  lemma SendChunkKept<E>(ops: Ops<E>, cfg: Config, f: Flushed<E>, g: Story, o: Outbound, n: nat, window: int)
    requires Sendable(cfg, f.s, g, o, n, window, ops.frameSize(f.s.conn))
    ensures TurnKept(cfg, f.s, g, o.id, SendChunk(ops, cfg, f, o, n, window))
  {
    if ops.sendData(f.s.conn, o.id, o.body[o.offset..o.offset + n], n == Remaining(o)).1 {
      SendChunkWent(ops, cfg, f, g, o, n, window);
    } else {
      SendChunkRefused(ops, cfg, f, g, o, n, window);
    }
  }

  /** One turn of the stream loop. */
  lemma FlushStreamInv<E>(ops: Ops<E>, cfg: Config, f: Flushed<E>, g: Story, o: Outbound)
    requires Inv(cfg, f.s, g) && o in f.s.outbound
    ensures TurnKept(cfg, f.s, g, o.id, FlushStream(ops, cfg, f, o))
  {
    assert Remaining(o) > 0;
    match ops.window(f.s.conn, o.id)
    case None =>
      DroppedStream(cfg, f.s, g, f.s.conn, o);
      assert f.s.(conn := f.s.conn) == f.s;
    case Some(window) =>
      var n := ChunkSize(o, window, ops.frameSize(f.s.conn));
      if n > 0 {
        SendChunkKept(ops, cfg, f, g, o, n, window);
      }
  }

  /** The invariant after a normal return, the history after an exception. */
  ghost predicate FlushKept<E>(cfg: Config, g: Story, r: Outcome<Flushed<E>>)
  {
    match r
    case Raised(f) => Lasting(f.s, g)
    case Ok(f) => Inv(cfg, f.s, g)
  }

  /** The first turn leaves the other streams where they were. */
  lemma FirstTurn<E>(ops: Ops<E>, cfg: Config, f: Flushed<E>, g: Story, todo: seq<Outbound>)
    requires Inv(cfg, f.s, g) && todo != [] && DistinctOuts(todo) && forall o | o in todo :: o in f.s.outbound
    ensures var r := FlushStream(ops, cfg, f, todo[0]);
            if r.Ok? then Inv(cfg, r.s.s, g) && forall o | o in todo[1..] :: o in r.s.s.outbound else Lasting(r.s.s, g)
    ensures DistinctOuts(todo[1..])
  {
    FlushStreamInv(ops, cfg, f, g, todo[0]);
    assert forall o | o in todo[1..] :: o in todo && o.id != todo[0].id;
  }

  lemma {:induction false} FlushStreamsInv<E>(ops: Ops<E>, cfg: Config, f: Flushed<E>, g: Story, todo: seq<Outbound>)
    requires Inv(cfg, f.s, g) && DistinctOuts(todo) && forall o | o in todo :: o in f.s.outbound
    ensures FlushKept(cfg, g, FlushStreams(ops, cfg, f, todo))
    decreases |todo|
  {
    if todo != [] {
      FirstTurn(ops, cfg, f, g, todo);
      var r := FlushStream(ops, cfg, f, todo[0]);
      if r.Ok? {
        FlushStreamsInv(ops, cfg, r.s, g, todo[1..]);
      }
    }
  }

  lemma FinishFlushInv<E>(ops: Ops<E>, cfg: Config, f: Flushed<E>, g: Story)
    requires Inv(cfg, f.s, g)
    ensures FlushKept(cfg, g, FinishFlush(ops, cfg, f))
  {
    var t := f.s.(conn := ops.drain(f.s.conn).0);
    OtherConn(cfg, f.s, g, {}, ops.drain(f.s.conn).0);
    assert WithTail(t, t.commands) == t;
    InvLasts(cfg, t, g, t.commands);
  }

  lemma ClearControl<E>(cfg: Config, s: H2<E>, g: Story)
    requires Inv(cfg, s, g)
    ensures Inv(cfg, s.(control := []), g)
  {
    RequestsFrame(s, g, {}, s.(control := []), g, {});
    ResponsesFrame(s, g, {}, s.(control := []), g, {});
  }

  lemma FlushTablesInv<E>(ops: Ops<E>, cfg: Config, s: H2<E>, g: Story)
    requires Inv(cfg, s, g)
    ensures FlushKept(cfg, g, FlushTable(ops, cfg, s))
  {
    ClearControl(cfg, s, g);
    var f := Flushed(s.(control := []), s.control);
    FlushStreamsInv(ops, cfg, f, g, s.outbound);
    var r := FlushStreams(ops, cfg, f, s.outbound);
    if r.Ok? {
      FinishFlushInv(ops, cfg, r.s, g);
    }
  }

  /** `flush` keeps the invariant; when it raises, what remains is what `close` needs. */
  lemma FlushInv<E>(ops: Ops<E>, cfg: Config, s: H2<E>, g: Story)
    requires Inv(cfg, s, g)
    ensures FlushKept(cfg, g, Flush(ops, cfg, s))
  {
    var u := s.(commands := []);
    assert WithTail(u, s.commands) == s;
    var tail := RunCommandsInv(ops, cfg, u, g, s.commands);
    var t := RunCommands(ops, cfg, u, s.commands);
    if t.Raised? {
      InvLasts(cfg, t.s, g, tail);
    } else {
      assert WithTail(t.s, []) == t.s;
      FlushTablesInv(ops, cfg, t.s, g);
    }
  }

  /** One more entry that neither sends, drops nor carries DATA. */
  lemma NeutralLasts<E>(s: H2<E>, t: H2<E>, g: Story, e: Entry)
    requires Lasting(s, g) && IsNeutral(e) && t.log == s.log + [e] && t.last == s.last && t.cancelled == s.cancelled
    ensures Lasting(t, g)
  {
    LogGrows(s.log, e);
    forall r | r in g.delivered ensures Genuine(t, g, r) {
      assert Genuine(s, g, r);
    }
    forall x | x > g.hi ensures Untouched(t.log, x) {
      assert Untouched(s.log, x);
    }
    forall x | x !in g.answered ensures Quiet(t.log, x) {
      assert Quiet(s.log, x);
    }
    forall x ensures Replay(t.log, x, Body(g, x)) == Replay(s.log, x, Body(g, x)) {
    }
  }

  lemma SameLasts<E>(s: H2<E>, t: H2<E>, g: Story)
    requires Lasting(s, g) && t.log == s.log && t.last == s.last && t.cancelled == s.cancelled
    ensures Lasting(t, g)
  {
    forall r | r in g.delivered ensures Genuine(t, g, r) {
      assert Genuine(s, g, r);
    }
  }

  /** A stream of the client is dropped, whatever state an exception left behind. */
  lemma DropLasts<E>(s: H2<E>, g: Story, id: int)
    requires Lasting(s, g) && id <= g.hi
    ensures Lasting(DropStream(s, id), g)
  {
    var t := DropStream(s, id);
    LogGrows(s.log, Dropped(id));
    forall r | r in g.delivered ensures Genuine(t, g, r) {
      assert Genuine(s, g, r);
    }
    forall x | x > g.hi ensures Untouched(t.log, x) {
      assert Untouched(s.log, x);
    }
    forall x | x !in g.answered ensures Quiet(t.log, x) {
      assert Quiet(s.log, x);
    }
    forall x ensures Replay(t.log, x, Body(g, x)) != Broken {
      assert Replay(s.log, x, Body(g, x)) != Broken;
    }
  }

  lemma ResetLasts<E>(ops: Ops<E>, s: H2<E>, g: Story, id: int, code: ErrorCode)
    requires Lasting(s, g) && id <= g.hi
    ensures Lasting(ResetStream(ops, s, id, code), g)
  {
    var (e, ok) := ops.reset(s.conn, id, code);
    var t := s.(conn := e, log := if ok then s.log + [DidReset(id, code)] else s.log);
    if ok {
      NeutralLasts(s, t, g, DidReset(id, code));
    } else {
      SameLasts(s, t, g);
    }
    DropLasts(t, g, id);
  }

  /** A request handed out is on a stream its client opened. */
  lemma WaitingIsOpened<E>(s: H2<E>, g: Story, id: int)
    requires Lasting(s, g) && id in g.waiting
    ensures id <= g.hi && id !in g.answered && Quiet(s.log, id)
  {
    var r :| r in g.delivered && r.id == id;
    assert Genuine(s, g, r);
  }

  /** The handler has answered or given up; nothing was sent on its stream yet. */
  lemma AnsweredLasts<E>(s: H2<E>, g: Story, id: int, body: bytes, accepted: bool)
    requires Lasting(s, g) && id in g.waiting
    ensures Lasting(s, Answered(g, id, body, accepted))
  {
    var h := Answered(g, id, body, accepted);
    WaitingIsOpened(s, g, id);
    QuietForAnyBody(s.log, id, body);
    forall r | r in h.delivered ensures Genuine(s, h, r) {
      assert Genuine(s, g, r);
    }
    forall x ensures Replay(s.log, x, Body(h, x)) != Broken {
      assert Replay(s.log, x, Body(g, x)) != Broken;
    }
  }

  lemma EnqueueLasts<E>(ops: Ops<E>, cfg: Config, s: H2<E>, g: Story, id: int, response: Response)
    requires Lasting(s, g) && id <= g.hi
    ensures Lasting(Enqueue(ops, cfg, s, id, response).0, g)
  {
    var t := Enqueue(ops, cfg, s, id, response).0;
    if !OverBudget(cfg, s, |response.body|) && |s.commands| >= cfg.maxStreams * 2 {
      ResetLasts(ops, s, g, id, EnhanceYourCalm);
    } else {
      QuietEnqueue(ops, cfg, s, id, response);
      SameLasts(s, t, g);
    }
  }

  /** Without the reset of an overflowing command list, only the commands change. */
  lemma QuietEnqueue<E>(ops: Ops<E>, cfg: Config, s: H2<E>, id: int, response: Response)
    requires OverBudget(cfg, s, |response.body|) || |s.commands| < cfg.maxStreams * 2
    ensures var t := Enqueue(ops, cfg, s, id, response).0;
            t.log == s.log && t.last == s.last && t.cancelled == s.cancelled
  {
  }

  /** `queue_response` by a handler that outlives an exception. */
  lemma LateAnswerLasts<E>(ops: Ops<E>, cfg: Config, s: H2<E>, g: Story, id: int, response: Response)
    requires Lasting(s, g) && id in g.waiting
    ensures var r := QueueResponse(ops, cfg, s, id, response);
            Lasting(r.0, Answered(g, id, response.body, r.1))
  {
    var r := QueueResponse(ops, cfg, s, id, response);
    assert Lasting(r.0, g) by {
      if id in s.active {
        var t := ReleaseInbound(s, id);
        WaitingIsOpened(s, g, id);
        SameLasts(s, t, g);
        EnqueueLasts(ops, cfg, t, g, id, response);
      }
    }
    AnsweredLasts(r.0, g, id, response.body, r.1);
  }

  lemma GoawayLasts<E>(ops: Ops<E>, s: H2<E>, g: Story, code: int)
    requires Lasting(s, g)
    ensures Lasting(SayGoaway(ops, s, code), g)
  {
    if !s.localClosed && ops.goaway(s.conn, code, s.last).1 {
      NeutralLasts(s, SayGoaway(ops, s, code), g, DidGoaway(code, s.last));
    } else {
      SameLasts(s, SayGoaway(ops, s, code), g);
    }
  }

  lemma ClearedInv<E>(cfg: Config, s: H2<E>, g: Story, conn: E)
    requires Lasting(s, g)
    ensures Inv(cfg, Cleared(s, conn), g)
  {
    var t := Cleared(s, conn);
    forall r | r in g.delivered || r in t.ready ensures Genuine(t, g, r) {
      assert Genuine(s, g, r);
    }
    assert g.delivered + t.ready == g.delivered;
    assert Buffered(t.inbound) == 0 && t.active - {} == {};
    assert Accounts(cfg, t) && Tables(cfg, t, {}) && Linked(t, g);
    assert Requests(t, g, {}) && Responses(t, g, {});
  }

  /** `close` from any state an operation can leave, exceptions included: both counters are zero and exact. */
  lemma CloseInv<E>(ops: Ops<E>, cfg: Config, s: H2<E>, g: Story, code: int)
    requires Lasting(s, g)
    ensures Inv(cfg, Close(ops, cfg, s, code).0, g)
  {
    GoawayLasts(ops, s, g, code);
    var t := SayGoaway(ops, s, code);
    ClearedInv(cfg, t, g, ops.drain(t.conn).0);
  }
}
