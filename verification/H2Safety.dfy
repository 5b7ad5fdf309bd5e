/**
 The invariant of an HTTP/2 connection and its preservation by every operation.

 `Story` is what the outside world knows beside the connection itself: which streams the client has
 opened and ended, which requests were handed out, and which were answered with what.
 */
module H2Safety {
  import opened Bytes
  import opened Optional
  import opened FrameBudgetSplitter
  import opened H2State
  import opened H2Invariant

  datatype Story = Story(
    hi: int, ended: set<int>,
    waiting: set<int>,            // requests handed out whose handler has not responded yet
    answered: map<int, bytes>,    // body of the response accepted for a stream
    delivered: seq<Ready>)        // every request ever handed out, in order

  function Body(g: Story, id: int): bytes { if id in g.answered then g.answered[id] else [] }

  // ---------------------------------------------------------------- the invariant

  ghost predicate ValidConfig(cfg: Config)
  {
    && cfg.maxStreams > 0 && cfg.batch > 0
    && cfg.maxBody <= cfg.maxConnectionBuffer
    && cfg.maxResponseBody <= cfg.maxPendingOutput
    && cfg.maxControlOutput <= cfg.maxPendingOutput
  }

  /** Both counters are the sums they stand for, and every budget holds. */
  ghost predicate Accounts<E>(cfg: Config, s: H2<E>)
  {
    && s.buffered == Buffered(s.inbound) <= cfg.maxConnectionBuffer
    && s.pending == Unsent(s.outbound) + Queued(s.commands)
    && |s.control| <= cfg.maxControlOutput
    && |s.control| + s.pending <= cfg.maxPendingOutput
  }

  /** A request body within its limit and the length it declared; exactly that length once complete. */
  ghost predicate FitsHead(cfg: Config, i: Inbound)
  {
    && |i.body| <= cfg.maxBody
    && (i.head.contentLength.Some? ==> |i.body| <= i.head.contentLength.value)
    && (i.dispatched && i.head.contentLength.Some? ==> |i.body| == i.head.contentLength.value)
  }

  /** Where an active stream can be held. */
  ghost function Holders<E>(s: H2<E>): set<int>
  {
    s.inbound.Keys + OutIds(s.outbound) + CommandIds(s.commands)
  }

  /** Every stream id is where it belongs.  `hole` is empty, except halfway through an operation on one stream. */
  ghost predicate Placement<E>(cfg: Config, s: H2<E>, hole: set<int>)
  {
    && |s.active| <= cfg.maxStreams
    && s.inbound.Keys <= s.active
    && OutIds(s.outbound) <= s.active
    && (forall c | c in s.commands && c.ResponseCommand? :: c.id in s.active)
    && s.active - hole <= Holders(s)
    && DistinctOuts(s.outbound) && DistinctCommands(s.commands)
    && OutIds(s.outbound) !! CommandIds(s.commands)
    && s.inbound.Keys !! OutIds(s.outbound)
    && s.inbound.Keys !! CommandIds(s.commands)
  }

  /** Every entry is well formed. */
  ghost predicate Entries<E>(cfg: Config, s: H2<E>)
  {
    && (forall id | id in s.inbound :: FitsHead(cfg, s.inbound[id]))
    && (forall o | o in s.outbound :: o.offset < |o.body|)
    && (forall r | r in s.ready :: r.id in s.inbound && s.inbound[r.id] == Inbound(r.head, r.body, true))
    && (forall id | id in s.cancelled :: id !in s.active)
  }

  /** The tables agree. */
  ghost predicate Tables<E>(cfg: Config, s: H2<E>, hole: set<int>)
  {
    Placement(cfg, s, hole) && Entries(cfg, s)
  }

  /** What the tables have to do with the world outside. */
  ghost predicate Linked<E>(s: H2<E>, g: Story)
  {
    && (forall id | id in s.active || id in CommandIds(s.commands) || id in s.cancelled :: id <= g.hi)
    && (forall id | id in g.ended || id in g.answered :: id <= g.hi)
    && (forall id | id in s.inbound && s.inbound[id].dispatched :: id in g.ended)
    && DistinctReady(g.delivered + s.ready)
    && g.waiting <= ReadyIds(g.delivered)
    && g.answered.Keys <= ReadyIds(g.delivered)
    && g.waiting !! g.answered.Keys
    && g.waiting !! OutIds(s.outbound) && g.waiting !! CommandIds(s.commands)
    && (forall o | o in s.outbound :: o.id in g.answered && g.answered[o.id] == o.body)
    && (forall c | c in s.commands && c.ResponseCommand? :: c.id in g.answered && g.answered[c.id] == c.response.body)
  }

  /** A request handed out is the one the client sent: its head, then all its DATA, in order, as long as declared. */
  ghost predicate Genuine<E>(s: H2<E>, g: Story, r: Ready)
  {
    && Asked(s.log, r.id, r.head) && Ended(s.log, r.id)
    && DataOf(s.log, r.id) == r.body
    && (r.head.contentLength.Some? ==> |r.body| == r.head.contentLength.value)
    && r.id <= s.last
    && r.id in g.ended
  }

  /** The requests in the history: heads and bodies are those received, and what was handed out is genuine. */
  ghost predicate Requests<E>(s: H2<E>, g: Story, hole: set<int>)
  {
    && (forall id | id > g.hi :: DataOf(s.log, id) == [])
    && (forall id | id in s.inbound && id !in hole ::
          DataOf(s.log, id) == s.inbound[id].body && Asked(s.log, id, s.inbound[id].head))
    && (forall r | r in g.delivered || r in s.ready :: Genuine(s, g, r))
  }

  /** The responses in the history: every stream's replay agrees with the tables and never breaks a rule. */
  ghost predicate Responses<E>(s: H2<E>, g: Story, hole: set<int>)
  {
    && (forall id | id > g.hi :: Untouched(s.log, id))
    && (forall id :: Replay(s.log, id, Body(g, id)) != Broken)
    && (forall id | id !in g.answered :: Quiet(s.log, id))
    && (forall id | id in s.active && id !in OutIds(s.outbound) && id !in hole :: Replay(s.log, id, Body(g, id)) == Idle)
    && (forall o | o in s.outbound :: o.offset <= |o.body| && Replay(s.log, o.id, o.body) == Sending(o.body[..o.offset]))
  }

  /** Nothing was sent on the stream, and it was never dropped. */
  predicate Untouched(log: seq<Entry>, id: int)
  {
    forall e | e in log :: !Sends(e, id) && e != Dropped(id)
  }

  ghost predicate Past<E>(s: H2<E>, g: Story, hole: set<int>)
  {
    Requests(s, g, hole) && Responses(s, g, hole)
  }

  ghost predicate InvExcept<E>(cfg: Config, s: H2<E>, g: Story, hole: set<int>)
  {
    Accounts(cfg, s) && Tables(cfg, s, hole) && Linked(s, g) && Past(s, g, hole)
  }

  ghost predicate Inv<E>(cfg: Config, s: H2<E>, g: Story)
  {
    InvExcept(cfg, s, g, {})
  }

  lemma FreshInv<E>(cfg: Config, e: E, hi: int, ended: set<int>)
    requires ValidConfig(cfg) && forall id | id in ended :: id <= hi
    ensures Inv(cfg, Fresh(e), Story(hi, ended, {}, map[], []))
  {
    var s, g := Fresh(e), Story(hi, ended, {}, map[], []);
    assert Accounts(cfg, s) && Placement(cfg, s, {}) && Entries(cfg, s);
    assert Linked(s, g) && Requests(s, g, {}) && Responses(s, g, {});
  }

  // ---------------------------------------------------------------- dropping a stream

  lemma DropAccounts<E>(cfg: Config, s: H2<E>, id: int)
    requires Accounts(cfg, s) && DistinctOuts(s.outbound) && DistinctCommands(s.commands)
    requires forall o | o in s.outbound :: o.offset < |o.body|
    ensures Accounts(cfg, DropStream(s, id))
  {
    var t := DropStream(s, id);
    LookupFacts(s.outbound, id);
    WithoutFacts(s.outbound, id);
    KeptFacts(s.commands, id);
    if id in s.inbound {
      BufferedRemove(s.inbound, id);
    }
  }

  lemma DropTables<E>(cfg: Config, s: H2<E>, id: int)
    requires Tables(cfg, s, {id}) && DistinctReady(s.ready)
    ensures Tables(cfg, DropStream(s, id), {})
  {
    var t := DropStream(s, id);
    WithoutFacts(s.outbound, id);
    KeptFacts(s.commands, id);
    OthersFacts(s.ready, id);
    assert t.inbound.Keys == s.inbound.Keys - {id};
    assert |s.active - {id}| <= |s.active| by { SmallerSet(s.active - {id}, s.active); }
    forall x | x in t.active ensures x in Holders(t) {
      assert x in Holders(s);
      if x in CommandIds(s.commands) {
        var c :| c in s.commands && c.id == x;
        assert c in t.commands;
      }
    }
    assert CommandIds(t.commands) <= CommandIds(s.commands);
  }

  lemma SmallerSet(a: set<int>, b: set<int>)
    requires a <= b
    ensures |a| <= |b|
  {
    assert b == a + (b - a);
  }

  lemma DistinctOthers(a: seq<Ready>, b: seq<Ready>, id: int)
    requires DistinctReady(a + b)
    ensures DistinctReady(b) && DistinctReady(a + Others(b, id))
  {
    forall i, j | 0 <= i < j < |b| ensures b[i].id != b[j].id {
      assert (a + b)[|a| + i] == b[i] && (a + b)[|a| + j] == b[j];
    }
    OthersFacts(b, id);
    var o := Others(b, id);
    forall i, j | 0 <= i < j < |a + o| ensures (a + o)[i].id != (a + o)[j].id {
      if i < |a| <= j {
        assert o[j - |a|] in b;
        var k :| 0 <= k < |b| && b[k] == o[j - |a|];
        assert (a + b)[i] == a[i] && (a + b)[|a| + k] == b[k];
      } else if j < |a| {
        assert (a + b)[i] == a[i] && (a + b)[j] == a[j];
      }
    }
  }

  lemma DropLinked<E>(cfg: Config, s: H2<E>, g: Story, id: int)
    requires Tables(cfg, s, {id}) && Linked(s, g)
    ensures Linked(DropStream(s, id), g)
  {
    WithoutFacts(s.outbound, id);
    KeptFacts(s.commands, id);
    DistinctOthers(g.delivered, s.ready, id);
    assert CommandIds(DropStream(s, id).commands) <= CommandIds(s.commands);
  }

  lemma DropRequests<E>(cfg: Config, s: H2<E>, g: Story, id: int)
    requires Tables(cfg, s, {id}) && Linked(s, g) && Requests(s, g, {id})
    ensures Requests(DropStream(s, id), g, {})
  {
    DistinctOthers(g.delivered, s.ready, id);
    OthersFacts(s.ready, id);
    LogGrows(s.log, Dropped(id));
    var t := DropStream(s, id);
    forall r | r in g.delivered || r in t.ready ensures Genuine(t, g, r) {
      GenuineDropped(s, g, id, r);
    }
  }

  lemma GenuineDropped<E>(s: H2<E>, g: Story, id: int, r: Ready)
    requires Genuine(s, g, r)
    ensures Genuine(DropStream(s, id), g, r)
  {
    LogGrows(s.log, Dropped(id));
  }

  lemma DropResponses<E>(cfg: Config, s: H2<E>, g: Story, id: int)
    requires Tables(cfg, s, {id}) && Linked(s, g) && Responses(s, g, {id}) && id <= g.hi
    ensures Responses(DropStream(s, id), g, {})
  {
    WithoutFacts(s.outbound, id);
    LogGrows(s.log, Dropped(id));
    var t := DropStream(s, id);
    forall x | x > g.hi ensures Untouched(t.log, x) {
      assert Untouched(s.log, x);
    }
    forall x | x !in g.answered ensures Quiet(t.log, x) {
      assert Quiet(s.log, x);
    }
    forall x ensures Replay(t.log, x, Body(g, x)) != Broken {
      assert Replay(s.log, x, Body(g, x)) != Broken;
    }
    forall x | x in t.active && x !in OutIds(t.outbound) ensures Replay(t.log, x, Body(g, x)) == Idle {
      assert Replay(s.log, x, Body(g, x)) == Idle;
    }
    forall o | o in t.outbound ensures o.offset <= |o.body| && Replay(t.log, o.id, o.body) == Sending(o.body[..o.offset]) {
      assert o in s.outbound && o.id != id;
    }
  }

  lemma DropInv<E>(cfg: Config, s: H2<E>, g: Story, id: int)
    requires InvExcept(cfg, s, g, {id}) && id <= g.hi
    ensures Inv(cfg, DropStream(s, id), g)
  {
    DistinctOthers(g.delivered, s.ready, id);
    DropAccounts(cfg, s, id);
    DropTables(cfg, s, id);
    DropLinked(cfg, s, g, id);
    DropRequests(cfg, s, g, id);
    DropResponses(cfg, s, g, id);
  }

  predicate IsNeutral(e: Entry)
  {
    e.Given? || e.DidReset? || e.DidGoaway? || (e.Got? && !e.event.DataReceived?)
  }

  /** An entry that neither sends, drops nor carries DATA changes no reading of the log. */
  lemma NeutralRequests<E>(s: H2<E>, g: Story, hole: set<int>, e: Entry)
    requires Requests(s, g, hole) && IsNeutral(e)
    ensures Requests(s.(log := s.log + [e]), g, hole)
  {
    LogGrows(s.log, e);
    var t := s.(log := s.log + [e]);
    forall r | r in g.delivered || r in t.ready ensures Genuine(t, g, r) {
      assert Genuine(s, g, r);
    }
  }

  lemma NeutralResponses<E>(s: H2<E>, g: Story, hole: set<int>, e: Entry)
    requires Responses(s, g, hole) && IsNeutral(e)
    ensures Responses(s.(log := s.log + [e]), g, hole)
  {
    LogGrows(s.log, e);
    var t := s.(log := s.log + [e]);
    forall x | x > g.hi ensures Untouched(t.log, x) {
      assert Untouched(s.log, x);
    }
    forall x | x !in g.answered ensures Quiet(t.log, x) {
      assert Quiet(s.log, x);
    }
    forall x ensures Replay(t.log, x, Body(g, x)) == Replay(s.log, x, Body(g, x)) {
    }
    forall o | o in t.outbound ensures Replay(t.log, o.id, o.body) == Replay(s.log, o.id, o.body) {
    }
  }

  lemma OtherConn<E>(cfg: Config, s: H2<E>, g: Story, hole: set<int>, conn: E)
    requires InvExcept(cfg, s, g, hole)
    ensures InvExcept(cfg, s.(conn := conn), g, hole)
  {
    TablesFrame(cfg, s, s.(conn := conn), g, hole);
    OtherConnPast(s, g, hole, conn);
  }

  lemma OtherConnPast<E>(s: H2<E>, g: Story, hole: set<int>, conn: E)
    requires Past(s, g, hole)
    ensures Past(s.(conn := conn), g, hole)
  {
    forall r | r in g.delivered || r in s.ready ensures Genuine(s.(conn := conn), g, r) {
      assert Genuine(s, g, r);
    }
  }

  lemma Neutral<E>(cfg: Config, s: H2<E>, g: Story, hole: set<int>, conn: E, e: Entry)
    requires InvExcept(cfg, s, g, hole) && IsNeutral(e)
    ensures InvExcept(cfg, s.(conn := conn, log := s.log + [e]), g, hole)
  {
    NeutralRequests(s, g, hole, e);
    NeutralResponses(s, g, hole, e);
    OtherConnPast(s.(log := s.log + [e]), g, hole, conn);
    TablesFrame(cfg, s, s.(conn := conn, log := s.log + [e]), g, hole);
  }

  lemma ResetInv<E>(ops: Ops<E>, cfg: Config, s: H2<E>, g: Story, id: int, code: ErrorCode)
    requires InvExcept(cfg, s, g, {id}) && id <= g.hi
    ensures Inv(cfg, ResetStream(ops, s, id, code), g)
  {
    var (e, ok) := ops.reset(s.conn, id, code);
    Neutral(cfg, s, g, {id}, e, DidReset(id, code));
    OtherConn(cfg, s, g, {id}, e);
    DropInv(cfg, s.(conn := e, log := if ok then s.log + [DidReset(id, code)] else s.log), g, id);
  }

  lemma Weaken<E>(cfg: Config, s: H2<E>, g: Story, id: int)
    requires Inv(cfg, s, g)
    ensures InvExcept(cfg, s, g, {id})
  {
  }

  // ---------------------------------------------------------------- receiving

  lemma {:induction false} UntouchedIsIdle(log: seq<Entry>, id: int, body: bytes)
    requires Untouched(log, id)
    ensures Replay(log, id, body) == Idle && Quiet(log, id)
  {
    if log != [] {
      var rest, e := log[..|log| - 1], log[|log| - 1];
      assert e in log && forall x | x in rest :: x in log;
      UntouchedIsIdle(rest, id, body);
    }
  }

  /** The response side looks at the log, the active set and the outbound table only. */
  lemma ResponsesFrame<E>(s: H2<E>, g: Story, hole: set<int>, t: H2<E>, h: Story, hole': set<int>)
    requires Responses(s, g, hole)
    requires t.log == s.log && t.outbound == s.outbound && t.active - hole' <= s.active - hole
    requires h.answered == g.answered && h.hi >= g.hi
    ensures Responses(t, h, hole')
  {
    forall x ensures Body(h, x) == Body(g, x) {
    }
    forall x | x in t.active && x !in OutIds(t.outbound) && x !in hole' ensures Replay(t.log, x, Body(h, x)) == Idle {
      assert x in t.active - hole';
      assert x in s.active - hole;
    }
  }

  /** The request side looks at the log, the bodies held, the ready list and the last id only. */
  lemma RequestsFrame<E>(s: H2<E>, g: Story, hole: set<int>, t: H2<E>, h: Story, hole': set<int>)
    requires Requests(s, g, hole)
    requires t.log == s.log && t.last >= s.last
    requires forall id | id in t.inbound && id !in hole' ::
               id in s.inbound && id !in hole && t.inbound[id].body == s.inbound[id].body && t.inbound[id].head == s.inbound[id].head
    requires forall r | r in h.delivered || r in t.ready :: r in g.delivered || r in s.ready
    requires h.ended >= g.ended && h.hi >= g.hi
    ensures Requests(t, h, hole')
  {
    forall r | r in h.delivered || r in t.ready ensures Genuine(t, h, r) {
      assert Genuine(s, g, r);
    }
  }

  ghost predicate SameTables<E>(s: H2<E>, t: H2<E>)
  {
    && t.inbound == s.inbound && t.active == s.active && t.outbound == s.outbound && t.commands == s.commands
    && t.buffered == s.buffered && t.pending == s.pending && t.control == s.control
    && t.cancelled == s.cancelled && t.ready == s.ready
  }

  lemma TablesFrame<E>(cfg: Config, s: H2<E>, t: H2<E>, g: Story, hole: set<int>)
    requires SameTables(s, t)
    requires Tables(cfg, s, hole) && Linked(s, g) && Accounts(cfg, s)
    ensures Tables(cfg, t, hole) && Linked(t, g) && Accounts(cfg, t)
  {
  }

  lemma OneMore(a: set<int>, id: int, limit: nat)
    requires |a| < limit
    ensures |a + {id}| <= limit
  {
  }

  /** The connection once a request is open. */
  function Opened<E>(s: H2<E>, id: int, head: Head): H2<E>
  {
    s.(active := s.active + {id}, inbound := s.inbound[id := Inbound(head, [], false)])
  }

  lemma OpenHolders<E>(s: H2<E>, id: int, head: Head)
    requires s.active <= Holders(s)
    ensures var t := Opened(s, id, head); t.active <= Holders(t) && t.inbound.Keys == s.inbound.Keys + {id}
  {
    var t := Opened(s, id, head);
    assert t.inbound.Keys == s.inbound.Keys + {id};
    forall x | x in t.active ensures x in Holders(t) {
      if x != id {
        assert x in Holders(s);
      }
    }
  }

  lemma OpenPlacement<E>(cfg: Config, s: H2<E>, id: int, head: Head)
    requires Placement(cfg, s, {}) && |s.active| < cfg.maxStreams
    requires id !in s.active && id !in CommandIds(s.commands)
    ensures Placement(cfg, Opened(s, id, head), {})
  {
    assert s.active - {} == s.active;
    OneMore(s.active, id, cfg.maxStreams);
    OpenHolders(s, id, head);
    var t := Opened(s, id, head);
    assert t.inbound.Keys <= t.active && OutIds(t.outbound) <= t.active && t.active - {} <= Holders(t);
    assert t.inbound.Keys !! OutIds(t.outbound) && t.inbound.Keys !! CommandIds(t.commands);
  }

  lemma OpenEntries<E>(cfg: Config, s: H2<E>, id: int, head: Head)
    requires Entries(cfg, s) && id !in s.inbound && id !in s.cancelled
    ensures Entries(cfg, Opened(s, id, head))
  {
  }

  lemma OpenLinked<E>(s: H2<E>, g: Story, id: int, head: Head)
    requires Linked(s, g) && id > g.hi
    ensures Linked(Opened(s, id, head), g.(hi := id))
  {
  }

  lemma OpenAccounts<E>(cfg: Config, s: H2<E>, id: int, head: Head)
    requires Accounts(cfg, s) && id !in s.inbound
    ensures Accounts(cfg, Opened(s, id, head))
  {
    BufferedPut(s.inbound, id, Inbound(head, [], false));
    assert s.inbound - {id} == s.inbound;
  }

  lemma OpenPast<E>(s: H2<E>, g: Story, id: int, head: Head)
    requires Past(s, g, {}) && id > g.hi && id !in g.answered && Asked(s.log, id, head)
    ensures Past(Opened(s, id, head), g.(hi := id), {})
  {
    var t, h := Opened(s, id, head), g.(hi := id);
    RequestsFrame(s, g, {}, t, h, {id});
    ResponsesFrame(s, g, {}, t, h, {id});
    UntouchedIsIdle(s.log, id, []);
    assert DataOf(s.log, id) == [] && Body(h, id) == [];
  }

  lemma OpenRequest<E>(cfg: Config, s: H2<E>, g: Story, id: int, head: Head)
    requires Inv(cfg, s, g) && id > g.hi && |s.active| < cfg.maxStreams && Asked(s.log, id, head)
    ensures Inv(cfg, Opened(s, id, head), g.(hi := id))
  {
    assert id !in s.active && id !in CommandIds(s.commands) && id !in s.cancelled && id !in g.answered;
    OpenAccounts(cfg, s, id, head);
    OpenPlacement(cfg, s, id, head);
    OpenEntries(cfg, s, id, head);
    OpenLinked(s, g, id, head);
    OpenPast(s, g, id, head);
  }

  lemma Raise<E>(cfg: Config, s: H2<E>, g: Story, hi: int)
    requires Inv(cfg, s, g) && hi >= g.hi
    ensures Inv(cfg, s, g.(hi := hi))
  {
    RequestsFrame(s, g, {}, s, g.(hi := hi), {});
    ResponsesFrame(s, g, {}, s, g.(hi := hi), {});
  }

  lemma RequestArrivedInv<E>(ops: Ops<E>, cfg: Config, s: H2<E>, g: Story, id: int, head: Option<Head>)
    requires Inv(cfg, s, g) && id > g.hi && (head.Some? ==> Asked(s.log, id, head.value))
    ensures Inv(cfg, RequestArrived(ops, cfg, s, id, head), g.(hi := id))
  {
    if |s.active| >= cfg.maxStreams {
      Raise(cfg, s, g, id);
      Weaken(cfg, s, g.(hi := id), id);
      ResetInv(ops, cfg, s, g.(hi := id), id, RefusedStream);
    } else if head.None? {
      Raise(cfg, s, g, id);
      Weaken(cfg, s, g.(hi := id), id);
      ResetInv(ops, cfg, s, g.(hi := id), id, ProtocolError);
    } else {
      OpenRequest(cfg, s, g, id, head.value);
    }
  }

  lemma DataResponses<E>(s: H2<E>, g: Story, id: int, data: bytes, flow: nat)
    requires Responses(s, g, {})
    ensures Responses(s.(log := s.log + [Got(DataReceived(id, data, flow))]), g, {})
  {
    var e := Got(DataReceived(id, data, flow));
    var t := s.(log := s.log + [e]);
    LogGrows(s.log, e);
    forall x | x > g.hi ensures Untouched(t.log, x) {
      assert Untouched(s.log, x);
    }
    forall x | x !in g.answered ensures Quiet(t.log, x) {
      assert Quiet(s.log, x);
    }
    forall x ensures Replay(t.log, x, Body(g, x)) == Replay(s.log, x, Body(g, x)) {
    }
    forall o | o in t.outbound ensures Replay(t.log, o.id, o.body) == Replay(s.log, o.id, o.body) {
    }
  }

  lemma DataRequests<E>(s: H2<E>, g: Story, id: int, data: bytes, flow: nat)
    requires Requests(s, g, {}) && id <= g.hi && id !in g.ended
    ensures Requests(s.(log := s.log + [Got(DataReceived(id, data, flow))]), g, {id})
    ensures DataOf(s.log + [Got(DataReceived(id, data, flow))], id) == DataOf(s.log, id) + data
  {
    var e := Got(DataReceived(id, data, flow));
    var t := s.(log := s.log + [e]);
    LogGrows(s.log, e);
    forall r | r in g.delivered || r in t.ready ensures Genuine(t, g, r) {
      assert Genuine(s, g, r);
    }
  }

  lemma RecordPast<E>(s: H2<E>, g: Story, conn: E, id: int, data: bytes, flow: nat)
    requires Past(s, g, {}) && id <= g.hi && id !in g.ended
    ensures Past(s.(conn := conn, log := s.log + [Got(DataReceived(id, data, flow))]), g, {id})
    ensures id !in s.inbound ==> Past(s.(conn := conn, log := s.log + [Got(DataReceived(id, data, flow))]), g, {})
  {
    var r := s.(log := s.log + [Got(DataReceived(id, data, flow))]);
    var t := r.(conn := conn);
    DataRequests(s, g, id, data, flow);
    DataResponses(s, g, id, data, flow);
    RequestsFrame(r, g, {id}, t, g, {id});
    ResponsesFrame(r, g, {}, t, g, {id});
    if id !in s.inbound {
      RequestsFrame(r, g, {id}, t, g, {});
      ResponsesFrame(r, g, {}, t, g, {});
    }
  }

  /** Recording DATA leaves a hole only at its stream. */
  lemma RecordData<E>(cfg: Config, s: H2<E>, g: Story, conn: E, id: int, data: bytes, flow: nat)
    requires Inv(cfg, s, g) && id <= g.hi && id !in g.ended
    ensures InvExcept(cfg, s.(conn := conn, log := s.log + [Got(DataReceived(id, data, flow))]), g, {id})
    ensures id !in s.inbound ==> Inv(cfg, s.(conn := conn, log := s.log + [Got(DataReceived(id, data, flow))]), g)
  {
    RecordPast(s, g, conn, id, data, flow);
    TablesFrame(cfg, s, s.(conn := conn, log := s.log + [Got(DataReceived(id, data, flow))]), g, {});
  }

  lemma AppendTables<E>(cfg: Config, s: H2<E>, g: Story, id: int, data: bytes)
    requires Tables(cfg, s, {}) && Linked(s, g) && Accounts(cfg, s)
    requires id in s.inbound && !s.inbound[id].dispatched && !TooMuch(cfg, s, s.inbound[id], data)
    ensures var i := s.inbound[id];
            var t := s.(inbound := s.inbound[id := i.(body := i.body + data)], buffered := s.buffered + |data|);
            Tables(cfg, t, {}) && Linked(t, g) && Accounts(cfg, t)
  {
    var i := s.inbound[id];
    var t := s.(inbound := s.inbound[id := i.(body := i.body + data)], buffered := s.buffered + |data|);
    BufferedPut(s.inbound, id, i.(body := i.body + data));
    assert t.inbound.Keys == s.inbound.Keys;
  }

  /** The connection after DATA was added to an open request. */
  function Appended<E>(s: H2<E>, conn: E, id: int, data: bytes, flow: nat): H2<E>
    requires id in s.inbound
  {
    var i := s.inbound[id];
    s.(conn := conn, log := s.log + [Got(DataReceived(id, data, flow))],
       inbound := s.inbound[id := i.(body := i.body + data)], buffered := s.buffered + |data|)
  }

  lemma AppendPast<E>(s: H2<E>, g: Story, conn: E, id: int, data: bytes, flow: nat)
    requires Requests(s, g, {}) && Responses(s, g, {}) && Linked(s, g)
    requires id <= g.hi && id !in g.ended && id in s.inbound
    ensures Past(Appended(s, conn, id, data, flow), g, {})
  {
    var r := s.(log := s.log + [Got(DataReceived(id, data, flow))]);
    var t := Appended(s, conn, id, data, flow);
    DataRequests(s, g, id, data, flow);
    DataResponses(s, g, id, data, flow);
    RequestsFrame(r, g, {id}, t, g, {id});
    ResponsesFrame(r, g, {}, t, g, {});
  }

  lemma AppendData<E>(cfg: Config, s: H2<E>, g: Story, conn: E, id: int, data: bytes, flow: nat)
    requires Inv(cfg, s, g) && id <= g.hi && id !in g.ended && id in s.inbound && !s.inbound[id].dispatched
    requires !TooMuch(cfg, s, s.inbound[id], data)
    ensures Inv(cfg, Appended(s, conn, id, data, flow), g)
  {
    var i := s.inbound[id];
    var a := s.(inbound := s.inbound[id := i.(body := i.body + data)], buffered := s.buffered + |data|);
    AppendTables(cfg, s, g, id, data);
    TablesFrame(cfg, a, Appended(s, conn, id, data, flow), g, {});
    AppendPast(s, g, conn, id, data, flow);
  }

  lemma ChargeIsAppend<E>(ops: Ops<E>, cfg: Config, s: H2<E>, conn: E, id: int, data: bytes, flow: nat)
    requires id in s.inbound && !s.inbound[id].dispatched && !TooMuch(cfg, s, s.inbound[id], data)
    ensures ChargeData(ops, cfg, s.(conn := conn, log := s.log + [Got(DataReceived(id, data, flow))]), id, data)
            == Appended(s, conn, id, data, flow)
  {
  }

  lemma ChargeDataInv<E>(ops: Ops<E>, cfg: Config, s: H2<E>, g: Story, conn: E, id: int, data: bytes, flow: nat)
    requires Inv(cfg, s, g) && id <= g.hi && id !in g.ended
    ensures Inv(cfg, ChargeData(ops, cfg, s.(conn := conn, log := s.log + [Got(DataReceived(id, data, flow))]), id, data), g)
  {
    var t := s.(conn := conn, log := s.log + [Got(DataReceived(id, data, flow))]);
    if id in s.inbound && !TooMuch(cfg, t, t.inbound[id], data) && !t.inbound[id].dispatched {
      AppendData(cfg, s, g, conn, id, data, flow);
      ChargeIsAppend(ops, cfg, s, conn, id, data, flow);
    } else {
      RecordData(cfg, s, g, conn, id, data, flow);
      if id in s.inbound {
        ResetInv(ops, cfg, t, g, id, if TooMuch(cfg, t, t.inbound[id], data) then EnhanceYourCalm else StreamClosed);
      }
    }
  }

  lemma DataArrivedInv<E>(ops: Ops<E>, cfg: Config, s: H2<E>, g: Story, id: int, data: bytes, flow: nat)
    requires Inv(cfg, s, g) && id <= g.hi && id !in g.ended
    ensures Inv(cfg, DataArrived(ops, cfg, s, id, data, flow).s, g)
  {
    var (e, ok) := ops.acknowledge(s.conn, id, flow);
    if !ok {
      OtherConn(cfg, s, g, {}, e);
    } else {
      ChargeDataInv(ops, cfg, s, g, e, id, data, flow);
    }
  }

  lemma EndStream<E>(cfg: Config, s: H2<E>, g: Story, id: int)
    requires Inv(cfg, s, g) && id <= g.hi && id !in g.ended
    ensures Inv(cfg, s, g.(ended := g.ended + {id}))
  {
    RequestsFrame(s, g, {}, s, g.(ended := g.ended + {id}), {});
    ResponsesFrame(s, g, {}, s, g.(ended := g.ended + {id}), {});
  }

  lemma DispatchTables<E>(cfg: Config, s: H2<E>, g: Story, id: int)
    requires Tables(cfg, s, {}) && Accounts(cfg, s)
    requires id in s.inbound && forall r | r in s.ready :: r.id != id
    requires var i := s.inbound[id]; i.head.contentLength.Some? ==> |i.body| == i.head.contentLength.value
    ensures var i := s.inbound[id];
            var t := s.(inbound := s.inbound[id := i.(dispatched := true)], last := Max(s.last, id),
                        ready := s.ready + [Ready(id, i.head, i.body)]);
            Tables(cfg, t, {}) && Accounts(cfg, t)
  {
    var i := s.inbound[id];
    var t := s.(inbound := s.inbound[id := i.(dispatched := true)], last := Max(s.last, id),
                ready := s.ready + [Ready(id, i.head, i.body)]);
    BufferedPut(s.inbound, id, i.(dispatched := true));
    assert t.inbound.Keys == s.inbound.Keys;
  }

  lemma DispatchLinked<E>(s: H2<E>, g: Story, id: int)
    requires Linked(s, g) && id in s.inbound && id in g.ended
    requires forall r | r in g.delivered || r in s.ready :: r.id != id
    ensures var i := s.inbound[id];
            Linked(s.(inbound := s.inbound[id := i.(dispatched := true)], last := Max(s.last, id),
                      ready := s.ready + [Ready(id, i.head, i.body)]), g)
  {
    var n := Ready(id, s.inbound[id].head, s.inbound[id].body);
    var before, after := g.delivered + s.ready, g.delivered + (s.ready + [n]);
    assert after == before + [n];
    forall k | 0 <= k < |before| ensures before[k].id != id {
      assert before[k] in g.delivered || before[k] in s.ready;
    }
  }

  lemma DispatchPast<E>(s: H2<E>, g: Story, id: int)
    requires Past(s, g, {}) && id in s.inbound && id in g.ended && id <= g.hi && Ended(s.log, id)
    requires var i := s.inbound[id]; i.head.contentLength.Some? ==> |i.body| == i.head.contentLength.value
    ensures var i := s.inbound[id];
            Past(s.(inbound := s.inbound[id := i.(dispatched := true)], last := Max(s.last, id),
                    ready := s.ready + [Ready(id, i.head, i.body)]), g, {})
  {
    var i := s.inbound[id];
    var n := Ready(id, i.head, i.body);
    var t := s.(inbound := s.inbound[id := i.(dispatched := true)], last := Max(s.last, id), ready := s.ready + [n]);
    RequestsFrame(s, g, {}, t.(ready := s.ready), g, {});
    forall r | r in g.delivered || r in t.ready ensures Genuine(t, g, r) {
      if r in g.delivered || r in s.ready {
        assert Genuine(t.(ready := s.ready), g, r);
      } else {
        assert r == n;
      }
    }
    ResponsesFrame(s, g, {}, t, g, {});
  }

  /** END_STREAM on an open request whose body is as long as declared: it joins the ready list. */
  lemma Dispatch<E>(cfg: Config, s: H2<E>, g: Story, id: int)
    requires Inv(cfg, s, g) && id <= g.hi && id !in g.ended && id in s.inbound && Ended(s.log, id)
    requires var i := s.inbound[id]; i.head.contentLength.Some? ==> |i.body| == i.head.contentLength.value
    ensures var i := s.inbound[id];
            Inv(cfg, s.(inbound := s.inbound[id := i.(dispatched := true)], last := Max(s.last, id),
                        ready := s.ready + [Ready(id, i.head, i.body)]), g.(ended := g.ended + {id}))
  {
    var h := g.(ended := g.ended + {id});
    forall r | r in g.delivered || r in s.ready ensures r.id != id {
      assert Genuine(s, g, r);
    }
    EndStream(cfg, s, g, id);
    DispatchTables(cfg, s, g, id);
    DispatchLinked(s, h, id);
    DispatchPast(s, h, id);
  }

  lemma StreamFinishedInv<E>(ops: Ops<E>, cfg: Config, s: H2<E>, g: Story, id: int)
    requires Inv(cfg, s, g) && id <= g.hi && id !in g.ended && Ended(s.log, id)
    ensures Inv(cfg, StreamFinished(ops, s, id), g.(ended := g.ended + {id}))
  {
    EndStream(cfg, s, g, id);
    var h := g.(ended := g.ended + {id});
    if id in s.inbound {
      var i := s.inbound[id];
      if i.head.contentLength.Some? && |i.body| != i.head.contentLength.value {
        Weaken(cfg, s, h, id);
        ResetInv(ops, cfg, s, h, id, ProtocolError);
      } else {
        Dispatch(cfg, s, g, id);
      }
    }
  }

  lemma CancelMore<E>(cfg: Config, s: H2<E>, g: Story, id: int)
    requires Inv(cfg, s, g) && id <= g.hi && id !in s.active
    ensures Inv(cfg, s.(cancelled := s.cancelled + [id]), g)
  {
    var t := s.(cancelled := s.cancelled + [id]);
    RequestsFrame(s, g, {}, t, g, {});
    ResponsesFrame(s, g, {}, t, g, {});
  }

  lemma CancelCommutes<E>(s: H2<E>, id: int)
    ensures DropStream(s.(cancelled := s.cancelled + [id]), id) == DropStream(s, id).(cancelled := s.cancelled + [id])
  {
  }

  lemma CancelInv<E>(cfg: Config, s: H2<E>, g: Story, id: int)
    requires Inv(cfg, s, g) && id <= g.hi
    ensures Inv(cfg, DropStream(s.(cancelled := s.cancelled + [id]), id), g)
  {
    Weaken(cfg, s, g, id);
    DropInv(cfg, s, g, id);
    CancelCommutes(s, id);
    CancelMore(cfg, DropStream(s, id), g, id);
  }

  lemma TerminatedInv<E>(cfg: Config, s: H2<E>, g: Story)
    requires Inv(cfg, s, g)
    ensures Inv(cfg, s.(remoteClosed := true), g)
  {
    RequestsFrame(s, g, {}, s.(remoteClosed := true), g, {});
    ResponsesFrame(s, g, {}, s.(remoteClosed := true), g, {});
  }

  /** An event other than DATA, once it is in the log. */
  lemma LoggedEventInv<E>(ops: Ops<E>, cfg: Config, before: H2<E>, s: H2<E>, g: Story, e: Event)
    requires !e.DataReceived? && s == before.(log := before.log + [Got(e)])
    requires Inv(cfg, s, g) && AfterEvent(e, g.hi, g.ended).Some?
    ensures var (hi, ended) := AfterEvent(e, g.hi, g.ended).value;
            Inv(cfg, HandleEvent(ops, cfg, before, e).s, g.(hi := hi, ended := ended))
  {
    if e.RequestReceived? {
      RequestArrivedInv(ops, cfg, s, g, e.id, e.head);
    } else if e.StreamEnded? {
      StreamFinishedInv(ops, cfg, s, g, e.id);
    } else if e.StreamReset? {
      CancelInv(cfg, s, g, e.id);
    } else if e.TrailersReceived? {
      Weaken(cfg, s, g, e.id);
      ResetInv(ops, cfg, s, g, e.id, ProtocolError);
    } else if e.ConnectionTerminated? {
      TerminatedInv(cfg, s, g);
    }
  }

  /** Every event the engine may emit keeps the invariant, whether it is handled or raises. */
  lemma HandleEventInv<E>(ops: Ops<E>, cfg: Config, s: H2<E>, g: Story, e: Event)
    requires Inv(cfg, s, g) && AfterEvent(e, g.hi, g.ended).Some?
    ensures var (hi, ended) := AfterEvent(e, g.hi, g.ended).value;
            Inv(cfg, HandleEvent(ops, cfg, s, e).s, g.(hi := hi, ended := ended))
  {
    if e.DataReceived? {
      DataArrivedInv(ops, cfg, s, g, e.id, e.data, e.flow);
    } else {
      var t := s.(log := s.log + [Got(e)]);
      Neutral(cfg, s, g, {}, s.conn, Got(e));
      assert t == s.(conn := s.conn, log := s.log + [Got(e)]);
      LoggedEventInv(ops, cfg, s, t, g, e);
    }
  }
}
