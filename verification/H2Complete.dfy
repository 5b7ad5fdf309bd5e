/**
 Nothing gets lost on a connection: a request that was opened and not dropped is held or was handed out, a response
 that was accepted and not dropped is queued, being sent or complete; and a stream is dropped only for a cause.
 The counterpart of `H2Safety`, which says that what is handed out and sent is right.
 */
module H2Complete {
  import opened Bytes
  import opened Optional
  import opened FrameBudgetSplitter
  import opened H2State
  import opened H2Invariant
  import opened H2Safety
  import opened H2Operations
  import opened H2Sending

  predicate HasReady(ready: seq<Ready>, id: int, head: Head)
  {
    exists r :: r in ready && r.id == id && r.head == head
  }

  ghost predicate WasAsked(log: seq<Entry>, id: int)
  {
    exists head :: Asked(log, id, head)
  }

  predicate ResponseQueued(commands: seq<Command>, id: int)
  {
    exists c :: c in commands && c.ResponseCommand? && c.id == id
  }

  /** A request that was not dropped: handed out or ready once its client has ended it, and held until then. */
  ghost predicate RequestHere<E>(s: H2<E>, g: Story, id: int, head: Head)
  {
    if Ended(s.log, id) then HasReady(g.delivered, id, head) || HasReady(s.ready, id, head)
    else id in s.inbound && s.inbound[id].head == head
  }

  /** An accepted response that was not dropped. */
  ghost predicate ResponseHere<E>(s: H2<E>, g: Story, id: int)
  {
    id in OutIds(s.outbound) || ResponseQueued(s.commands, id) || Replay(s.log, id, Body(g, id)) == Complete
  }

  /** The stream is active as long as it was not answered in full. */
  ghost predicate ActiveHere<E>(s: H2<E>, g: Story, id: int)
  {
    Replay(s.log, id, Body(g, id)) == Complete || id in s.active
  }

  /** Requests are known to the story, active streams were asked for, and `last` is the id of a completed request. */
  ghost predicate Known<E>(s: H2<E>, g: Story)
  {
    && (forall id, head | Asked(s.log, id, head) :: id <= g.hi)
    && (forall id | Ended(s.log, id) :: id in g.ended)
    && (forall id | id in s.active :: WasAsked(s.log, id))
    && (s.last == 0 || (Ended(s.log, s.last) && WasAsked(s.log, s.last)))
  }

  ghost predicate Whole<E>(s: H2<E>, g: Story, hole: set<int>)
  {
    && Known(s, g)
    && (forall id, head | Asked(s.log, id, head) && id !in hole && Dropped(id) !in s.log ::
          RequestHere(s, g, id, head) && ActiveHere(s, g, id))
    && (forall id | id in g.answered && id !in hole && Dropped(id) !in s.log :: ResponseHere(s, g, id))
  }

  lemma LogMembers(log: seq<Entry>, e: Entry)
    ensures forall x :: x in log + [e] <==> x in log || x == e
  {
  }

  lemma StartsWhole<E>(conn: E, g: Story)
    requires g.answered == map[]
    ensures Whole(Fresh(conn), g, {})
  {
  }

  /** An entry that neither opens, ends nor drops a stream, and sends nothing. */
  predicate IsQuiet(e: Entry)
  {
    || e.Given? || e.DidReset? || e.DidGoaway?
    || (e.Got? && !e.event.StreamEnded? && !(e.event.RequestReceived? && e.event.head.Some?))
  }

  lemma QuietWhole<E>(s: H2<E>, g: Story, hole: set<int>, conn: E, e: Entry)
    requires Whole(s, g, hole) && IsQuiet(e)
    ensures Whole(s.(conn := conn, log := s.log + [e]), g, hole)
  {
    var t := s.(conn := conn, log := s.log + [e]);
    LogMembers(s.log, e);
    LogGrows(s.log, e);
    forall id | id in t.active ensures WasAsked(t.log, id) {
      var head :| Asked(s.log, id, head);
      assert Asked(t.log, id, head);
    }
    LastGrows(s, t);
    forall id, head | Asked(t.log, id, head) ensures id <= g.hi {
      assert Asked(s.log, id, head);
    }
    forall id, head | Asked(t.log, id, head) && id !in hole && Dropped(id) !in t.log
      ensures RequestHere(t, g, id, head) && ActiveHere(t, g, id)
    {
      assert Asked(s.log, id, head);
      assert RequestHere(s, g, id, head) && ActiveHere(s, g, id);
    }
    forall id | id in g.answered && id !in hole && Dropped(id) !in t.log ensures ResponseHere(t, g, id) {
      assert ResponseHere(s, g, id);
    }
  }

  lemma LastGrows<E>(s: H2<E>, t: H2<E>)
    requires t.last == s.last && forall x | x in s.log :: x in t.log
    requires s.last == 0 || (Ended(s.log, s.last) && WasAsked(s.log, s.last))
    ensures t.last == 0 || (Ended(t.log, t.last) && WasAsked(t.log, t.last))
  {
    if s.last != 0 {
      var head :| Asked(s.log, s.last, head);
      assert Asked(t.log, t.last, head);
    }
  }

  ghost predicate Distinguished<E>(s: H2<E>)
  {
    DistinctOuts(s.outbound) && DistinctCommands(s.commands) && DistinctReady(s.ready)
  }

  lemma DropKnown<E>(s: H2<E>, g: Story, id: int)
    requires Known(s, g)
    ensures Known(DropStream(s, id), g)
  {
    var t := DropStream(s, id);
    LogMembers(s.log, Dropped(id));
    forall x | x in t.active ensures WasAsked(t.log, x) {
      var head :| Asked(s.log, x, head);
      assert Asked(t.log, x, head);
    }
    forall x, head | Asked(t.log, x, head) ensures x <= g.hi {
      assert Asked(s.log, x, head);
    }
    LastGrows(s, t);
  }

  lemma DropRequestHere<E>(s: H2<E>, g: Story, id: int, x: int, head: Head)
    requires RequestHere(s, g, x, head) && ActiveHere(s, g, x) && x != id && DistinctReady(s.ready)
    ensures var t := DropStream(s, id); RequestHere(t, g, x, head) && ActiveHere(t, g, x)
  {
    var t := DropStream(s, id);
    LogMembers(s.log, Dropped(id));
    LogGrows(s.log, Dropped(id));
    OthersFacts(s.ready, id);
    ReadyStays(s, t, g, x, head, id);
  }

  lemma DropResponseHere<E>(s: H2<E>, g: Story, id: int, x: int)
    requires ResponseHere(s, g, x) && x != id && DistinctOuts(s.outbound) && DistinctCommands(s.commands)
    ensures ResponseHere(DropStream(s, id), g, x)
  {
    var t := DropStream(s, id);
    LogGrows(s.log, Dropped(id));
    WithoutFacts(s.outbound, id);
    KeptFacts(s.commands, id);
    if ResponseQueued(s.commands, x) {
      var c :| c in s.commands && c.ResponseCommand? && c.id == x;
      assert c in t.commands;
    }
  }

  /** Dropping a stream closes the hole it may have left. */
  lemma DropWhole<E>(s: H2<E>, g: Story, id: int)
    requires Whole(s, g, {id}) && Distinguished(s)
    ensures Whole(DropStream(s, id), g, {})
  {
    var t := DropStream(s, id);
    LogMembers(s.log, Dropped(id));
    DropKnown(s, g, id);
    forall x, head | Asked(t.log, x, head) && Dropped(x) !in t.log ensures RequestHere(t, g, x, head) && ActiveHere(t, g, x) {
      assert Asked(s.log, x, head) && x != id;
      DropRequestHere(s, g, id, x, head);
    }
    forall x | x in g.answered && Dropped(x) !in t.log ensures ResponseHere(t, g, x) {
      assert x != id;
      DropResponseHere(s, g, id, x);
    }
  }

  lemma ReadyStays<E>(s: H2<E>, t: H2<E>, g: Story, x: int, head: Head, id: int)
    requires x != id && (forall r :: r in t.ready <==> r in s.ready && r.id != id)
    ensures HasReady(s.ready, x, head) ==> HasReady(t.ready, x, head)
  {
    if HasReady(s.ready, x, head) {
      var r :| r in s.ready && r.id == x && r.head == head;
      assert r in t.ready;
    }
  }

  lemma WeakenWhole<E>(s: H2<E>, g: Story, id: int)
    requires Whole(s, g, {})
    ensures Whole(s, g, {id})
  {
  }

  lemma Distinct<E>(cfg: Config, s: H2<E>, g: Story, hole: set<int>)
    requires InvExcept(cfg, s, g, hole)
    ensures Distinguished(s)
  {
    DistinctBehind(g.delivered, s.ready);
  }

  lemma DistinctBehind(front: seq<Ready>, ready: seq<Ready>)
    requires DistinctReady(front + ready)
    ensures DistinctReady(ready)
  {
    forall i, j | 0 <= i < j < |ready| ensures ready[i].id != ready[j].id {
      assert (front + ready)[|front| + i] == ready[i] && (front + ready)[|front| + j] == ready[j];
    }
  }

  lemma ResetWhole<E>(ops: Ops<E>, s: H2<E>, g: Story, id: int, code: ErrorCode)
    requires Whole(s, g, {id}) && Distinguished(s)
    ensures Whole(ResetStream(ops, s, id, code), g, {})
  {
    var (e, ok) := ops.reset(s.conn, id, code);
    QuietWhole(s, g, {id}, e, DidReset(id, code));
    DropWhole(s.(conn := e, log := if ok then s.log + [DidReset(id, code)] else s.log), g, id);
  }

  // ---------------------------------------------------------------- receiving

  /** A stream none of whose entries is new keeps its place when only other streams' tables change. */
  lemma HereStays<E>(s: H2<E>, g: Story, t: H2<E>, h: Story, e: Entry, x: int, head: Head)
    requires RequestHere(s, g, x, head) && ActiveHere(s, g, x) && t.log == s.log + [e]
    requires e != Got(StreamEnded(x)) && !Sends(e, x) && e != Dropped(x)
    requires h.answered == g.answered && h.delivered == g.delivered && s.ready == t.ready
    requires x in s.inbound ==> x in t.inbound && t.inbound[x].head == s.inbound[x].head
    requires x in s.active ==> x in t.active
    ensures RequestHere(t, h, x, head) && ActiveHere(t, h, x)
  {
    LogMembers(s.log, e);
    LogGrows(s.log, e);
  }

  lemma AnswerStays<E>(s: H2<E>, g: Story, t: H2<E>, h: Story, e: Entry, x: int)
    requires ResponseHere(s, g, x) && t.log == s.log + [e] && !Sends(e, x) && e != Dropped(x)
    requires h.answered == g.answered && t.outbound == s.outbound && t.commands == s.commands
    ensures ResponseHere(t, h, x)
  {
    LogGrows(s.log, e);
  }

  /** The request is in the log; its stream is still to be seen to. */
  lemma ArrivedWhole<E>(s: H2<E>, g: Story, id: int, head: Option<Head>)
    requires Whole(s, g, {}) && id > g.hi
    ensures Whole(s.(log := s.log + [Got(RequestReceived(id, head))]), g.(hi := id), {id})
  {
    var e := Got(RequestReceived(id, head));
    var t, h := s.(log := s.log + [e]), g.(hi := id);
    LogMembers(s.log, e);
    forall x | x in t.active ensures WasAsked(t.log, x) {
      var a :| Asked(s.log, x, a);
      assert Asked(t.log, x, a);
    }
    LastGrows(s, t);
    forall x, a | Asked(t.log, x, a) ensures x <= h.hi {
      assert x == id || Asked(s.log, x, a);
    }
    forall x, a | Asked(t.log, x, a) && x != id && Dropped(x) !in t.log ensures RequestHere(t, h, x, a) && ActiveHere(t, h, x) {
      assert Asked(s.log, x, a);
      HereStays(s, g, t, h, e, x, a);
    }
    forall x | x in h.answered && Dropped(x) !in t.log ensures ResponseHere(t, h, x) {
      AnswerStays(s, g, t, h, e, x);
    }
  }

  lemma OpenWhole<E>(s: H2<E>, g: Story, id: int, head: Head)
    requires Whole(s, g, {}) && id > g.hi && id !in g.ended && id !in g.answered
    ensures Whole(Opened(s.(log := s.log + [Got(RequestReceived(id, Some(head)))]), id, head), g.(hi := id), {})
  {
    var u, h := s.(log := s.log + [Got(RequestReceived(id, Some(head)))]), g.(hi := id);
    var t := Opened(u, id, head);
    ArrivedWhole(s, g, id, Some(head));
    assert Asked(t.log, id, head);
    assert !Ended(u.log, id);
    forall x, a | Asked(t.log, x, a) && Dropped(x) !in t.log ensures RequestHere(t, h, x, a) && ActiveHere(t, h, x) {
      if x == id {
        OneHead(s, g, id, head, a);
      } else {
        assert RequestHere(u, h, x, a) && ActiveHere(u, h, x);
      }
    }
    forall x | x in h.answered && Dropped(x) !in t.log ensures ResponseHere(t, h, x) {
      assert ResponseHere(u, h, x);
    }
    forall x | x in t.active ensures WasAsked(t.log, x) {
      assert x == id || x in u.active;
    }
  }

  /** A stream opened just now has the head it was opened with, and no other. */
  lemma OneHead<E>(s: H2<E>, g: Story, id: int, head: Head, other: Head)
    requires Known(s, g) && id > g.hi && Asked(s.log + [Got(RequestReceived(id, Some(head)))], id, other)
    ensures other == head
  {
    LogMembers(s.log, Got(RequestReceived(id, Some(head))));
    assert !Asked(s.log, id, other);
  }

  lemma RequestWhole<E>(ops: Ops<E>, cfg: Config, s: H2<E>, g: Story, id: int, head: Option<Head>)
    requires Whole(s, g, {}) && Distinguished(s) && id > g.hi && id !in g.ended && id !in g.answered
    ensures Whole(RequestArrived(ops, cfg, s.(log := s.log + [Got(RequestReceived(id, head))]), id, head), g.(hi := id), {})
  {
    var t, h := s.(log := s.log + [Got(RequestReceived(id, head))]), g.(hi := id);
    if |s.active| >= cfg.maxStreams || head == None {
      ArrivedWhole(s, g, id, head);
      ResetWhole(ops, t, h, id, if |s.active| >= cfg.maxStreams then RefusedStream else ProtocolError);
    } else {
      OpenWhole(s, g, id, head.value);
    }
  }

  lemma AppendWhole<E>(s: H2<E>, g: Story, id: int, data: bytes)
    requires Whole(s, g, {}) && id in s.inbound
    ensures var i := s.inbound[id];
            Whole(s.(inbound := s.inbound[id := i.(body := i.body + data)], buffered := s.buffered + |data|), g, {})
  {
    var i := s.inbound[id];
    var t := s.(inbound := s.inbound[id := i.(body := i.body + data)], buffered := s.buffered + |data|);
    forall x, head | Asked(t.log, x, head) && Dropped(x) !in t.log ensures RequestHere(t, g, x, head) && ActiveHere(t, g, x) {
      assert RequestHere(s, g, x, head) && ActiveHere(s, g, x);
    }
    forall x | x in g.answered && Dropped(x) !in t.log ensures ResponseHere(t, g, x) {
      assert ResponseHere(s, g, x);
    }
  }

  lemma ChargeWhole<E>(ops: Ops<E>, cfg: Config, s: H2<E>, g: Story, id: int, data: bytes)
    requires Whole(s, g, {}) && Distinguished(s)
    ensures Whole(ChargeData(ops, cfg, s, id, data), g, {})
  {
    if id in s.inbound {
      var stream := s.inbound[id];
      if TooMuch(cfg, s, stream, data) || stream.dispatched {
        WeakenWhole(s, g, id);
        ResetWhole(ops, s, g, id, if TooMuch(cfg, s, stream, data) then EnhanceYourCalm else StreamClosed);
      } else {
        AppendWhole(s, g, id, data);
      }
    }
  }

  lemma DataWhole<E>(ops: Ops<E>, cfg: Config, s: H2<E>, g: Story, id: int, data: bytes, flow: nat)
    requires Whole(s, g, {}) && Distinguished(s)
    ensures DataArrived(ops, cfg, s, id, data, flow).Ok? ==> Whole(DataArrived(ops, cfg, s, id, data, flow).s, g, {})
  {
    var (e, ok) := ops.acknowledge(s.conn, id, flow);
    QuietWhole(s, g, {}, e, Got(DataReceived(id, data, flow)));
    ChargeWhole(ops, cfg, s.(conn := e, log := s.log + [Got(DataReceived(id, data, flow))]), g, id, data);
  }

  /** END_STREAM is in the log: only its own stream is to be seen to. */
  lemma EndingWhole<E>(s: H2<E>, g: Story, id: int)
    requires Whole(s, g, {}) && id !in g.ended
    ensures Whole(s.(log := s.log + [Got(StreamEnded(id))]), g.(ended := g.ended + {id}), {id})
  {
    var e := Got(StreamEnded(id));
    var t, h := s.(log := s.log + [e]), g.(ended := g.ended + {id});
    LogMembers(s.log, e);
    forall x | x in t.active ensures WasAsked(t.log, x) {
      var a :| Asked(s.log, x, a);
      assert Asked(t.log, x, a);
    }
    LastGrows(s, t);
    forall x, a | Asked(t.log, x, a) ensures x <= h.hi {
      assert Asked(s.log, x, a);
    }
    forall x, a | Asked(t.log, x, a) && x != id && Dropped(x) !in t.log ensures RequestHere(t, h, x, a) && ActiveHere(t, h, x) {
      assert Asked(s.log, x, a);
      HereStays(s, g, t, h, e, x, a);
    }
    forall x | x in h.answered && Dropped(x) !in t.log ensures ResponseHere(t, h, x) {
      AnswerStays(s, g, t, h, e, x);
    }
  }

  /** The response side and the active set of the stream that ended are as before. */
  lemma EndedHere<E>(s: H2<E>, g: Story, id: int)
    requires Whole(s, g, {}) && id !in g.ended
    ensures var t, h := s.(log := s.log + [Got(StreamEnded(id))]), g.(ended := g.ended + {id});
            && (id in g.answered && Dropped(id) !in t.log ==> ResponseHere(t, h, id))
            && forall a | Asked(t.log, id, a) && Dropped(id) !in t.log :: id in s.inbound && s.inbound[id].head == a && ActiveHere(t, h, id)
  {
    var e := Got(StreamEnded(id));
    var t, h := s.(log := s.log + [e]), g.(ended := g.ended + {id});
    LogMembers(s.log, e);
    LogGrows(s.log, e);
    assert !Ended(s.log, id);
    if id in g.answered && Dropped(id) !in t.log {
      AnswerStays(s, g, t, h, e, id);
    }
    forall a | Asked(t.log, id, a) && Dropped(id) !in t.log ensures id in s.inbound && s.inbound[id].head == a && ActiveHere(t, h, id) {
      assert Asked(s.log, id, a);
      assert RequestHere(s, g, id, a) && ActiveHere(s, g, id);
    }
  }

  /** The completed request joins the ready list. */
  lemma DispatchedWhole<E>(s: H2<E>, g: Story, id: int)
    requires Whole(s, g, {}) && id !in g.ended && id in s.inbound && Asked(s.log, id, s.inbound[id].head)
    ensures var i := s.inbound[id];
            Whole(s.(log := s.log + [Got(StreamEnded(id))], inbound := s.inbound[id := i.(dispatched := true)],
                     last := Max(s.last, id), ready := s.ready + [Ready(id, i.head, i.body)]), g.(ended := g.ended + {id}), {})
  {
    var i := s.inbound[id];
    var u, h := s.(log := s.log + [Got(StreamEnded(id))]), g.(ended := g.ended + {id});
    var n := Ready(id, i.head, i.body);
    var t := u.(inbound := s.inbound[id := i.(dispatched := true)], last := Max(s.last, id), ready := s.ready + [n]);
    EndingWhole(s, g, id);
    EndedHere(s, g, id);
    LogMembers(s.log, Got(StreamEnded(id)));
    assert Asked(t.log, id, i.head) && Ended(t.log, id);
    forall x, a | Asked(t.log, x, a) && Dropped(x) !in t.log ensures RequestHere(t, h, x, a) && ActiveHere(t, h, x) {
      if x == id {
        assert Asked(u.log, id, a);
        assert n in t.ready;
      } else {
        assert RequestHere(u, h, x, a) && ActiveHere(u, h, x);
        ReadyMore(s.ready, n, x, a);
      }
    }
    forall x | x in h.answered && Dropped(x) !in t.log ensures ResponseHere(t, h, x) {
      assert ResponseHere(u, h, x);
    }
  }

  lemma ReadyMore(ready: seq<Ready>, r: Ready, id: int, head: Head)
    ensures HasReady(ready, id, head) ==> HasReady(ready + [r], id, head)
  {
    if HasReady(ready, id, head) {
      var q :| q in ready && q.id == id && q.head == head;
      assert q in ready + [r];
    }
  }

  lemma EndWhole<E>(ops: Ops<E>, cfg: Config, s: H2<E>, g: Story, id: int)
    requires Whole(s, g, {}) && Distinguished(s) && id !in g.ended
    requires id in s.inbound ==> Asked(s.log, id, s.inbound[id].head)
    ensures Whole(StreamFinished(ops, s.(log := s.log + [Got(StreamEnded(id))]), id), g.(ended := g.ended + {id}), {})
  {
    var t, h := s.(log := s.log + [Got(StreamEnded(id))]), g.(ended := g.ended + {id});
    EndingWhole(s, g, id);
    if id in s.inbound {
      var i := s.inbound[id];
      if i.head.contentLength.Some? && |i.body| != i.head.contentLength.value {
        ResetWhole(ops, t, h, id, ProtocolError);
      } else {
        DispatchedWhole(s, g, id);
      }
    } else {
      EndedHere(s, g, id);
      assert forall a | Asked(t.log, id, a) :: Dropped(id) in t.log;
    }
  }

  lemma CancelWhole<E>(s: H2<E>, g: Story, id: int)
    requires Whole(s, g, {}) && Distinguished(s)
    ensures Whole(DropStream(s.(log := s.log + [Got(StreamReset(id))], cancelled := s.cancelled + [id]), id), g, {})
  {
    var u := s.(log := s.log + [Got(StreamReset(id))]);
    LoggedWhole(s, g, Got(StreamReset(id)));
    WeakenWhole(u, g, id);
    DropWhole(u, g, id);
    CancelCommutes(u, id);
    OtherFields(DropStream(u, id), g, DropStream(u, id).(cancelled := s.cancelled + [id]));
  }

  lemma LoggedWhole<E>(s: H2<E>, g: Story, e: Entry)
    requires Whole(s, g, {}) && IsQuiet(e)
    ensures Whole(s.(log := s.log + [e]), g, {})
  {
    QuietWhole(s, g, {}, s.conn, e);
    assert s.(conn := s.conn, log := s.log + [e]) == s.(log := s.log + [e]);
  }

  /** The other fields do not matter. */
  lemma OtherFields<E>(s: H2<E>, g: Story, t: H2<E>)
    requires Whole(s, g, {})
    requires t.log == s.log && t.inbound == s.inbound && t.active == s.active && t.outbound == s.outbound
    requires t.commands == s.commands && t.ready == s.ready && t.last == s.last
    ensures Whole(t, g, {})
  {
    forall id, head | Asked(t.log, id, head) && Dropped(id) !in t.log ensures RequestHere(t, g, id, head) && ActiveHere(t, g, id) {
      assert RequestHere(s, g, id, head) && ActiveHere(s, g, id);
    }
    forall id | id in g.answered && Dropped(id) !in t.log ensures ResponseHere(t, g, id) {
      assert ResponseHere(s, g, id);
    }
  }

  lemma TrailersWhole<E>(ops: Ops<E>, s: H2<E>, g: Story, id: int)
    requires Whole(s, g, {}) && Distinguished(s)
    ensures Whole(ResetStream(ops, s.(log := s.log + [Got(TrailersReceived(id))]), id, ProtocolError), g, {})
  {
    var u := s.(log := s.log + [Got(TrailersReceived(id))]);
    LoggedWhole(s, g, Got(TrailersReceived(id)));
    WeakenWhole(u, g, id);
    ResetWhole(ops, u, g, id, ProtocolError);
  }

  /** What the safety invariant says that is needed here. */
  lemma EventFacts<E>(cfg: Config, s: H2<E>, g: Story, e: Event)
    requires Inv(cfg, s, g) && AfterEvent(e, g.hi, g.ended).Some?
    ensures Distinguished(s)
    ensures e.RequestReceived? ==> e.id !in g.ended && e.id !in g.answered
    ensures e.StreamEnded? && e.id in s.inbound ==> Asked(s.log, e.id, s.inbound[e.id].head)
  {
    Distinct(cfg, s, g, {});
  }

  lemma EventWhole<E>(ops: Ops<E>, cfg: Config, s: H2<E>, g: Story, e: Event)
    requires Whole(s, g, {}) && Inv(cfg, s, g) && AfterEvent(e, g.hi, g.ended).Some?
    ensures var (hi, ended) := AfterEvent(e, g.hi, g.ended).value;
            HandleEvent(ops, cfg, s, e).Ok? ==> Whole(HandleEvent(ops, cfg, s, e).s, g.(hi := hi, ended := ended), {})
  {
    EventFacts(cfg, s, g, e);
    KnownEventWhole(ops, cfg, s, g, e);
  }

  lemma KnownEventWhole<E>(ops: Ops<E>, cfg: Config, s: H2<E>, g: Story, e: Event)
    requires Whole(s, g, {}) && Distinguished(s) && AfterEvent(e, g.hi, g.ended).Some?
    requires e.RequestReceived? ==> e.id !in g.ended && e.id !in g.answered
    requires e.StreamEnded? && e.id in s.inbound ==> Asked(s.log, e.id, s.inbound[e.id].head)
    ensures var (hi, ended) := AfterEvent(e, g.hi, g.ended).value;
            HandleEvent(ops, cfg, s, e).Ok? ==> Whole(HandleEvent(ops, cfg, s, e).s, g.(hi := hi, ended := ended), {})
  {
    match e
    case RequestReceived(id, head) => RequestWhole(ops, cfg, s, g, id, head);
    case DataReceived(id, data, flow) => DataWhole(ops, cfg, s, g, id, data, flow);
    case StreamEnded(id) => EndWhole(ops, cfg, s, g, id);
    case StreamReset(id) => CancelWhole(s, g, id);
    case TrailersReceived(id) => TrailersWhole(ops, s, g, id);
    case ConnectionTerminated =>
      LoggedWhole(s, g, Got(e));
      var t := s.(log := s.log + [Got(e)]);
      OtherFields(t, g, t.(remoteClosed := true));
    case WindowOrSettings => LoggedWhole(s, g, Got(e));
  }


  lemma {:induction false} EventsWhole<E>(ops: Ops<E>, cfg: Config, s: H2<E>, g: Story, es: seq<Event>)
    requires Whole(s, g, {}) && Inv(cfg, s, g) && AfterEvents(es, g.hi, g.ended).Some?
    ensures var (hi, ended) := AfterEvents(es, g.hi, g.ended).value;
            HandleEvents(ops, cfg, s, es).Ok? ==> Whole(HandleEvents(ops, cfg, s, es).s, g.(hi := hi, ended := ended), {})
    decreases |es|
  {
    if es != [] {
      HandleEventInv(ops, cfg, s, g, es[0]);
      EventWhole(ops, cfg, s, g, es[0]);
      var (hi, ended) := AfterEvent(es[0], g.hi, g.ended).value;
      var t := HandleEvent(ops, cfg, s, es[0]);
      if t.Ok? {
        EventsWhole(ops, cfg, t.s, g.(hi := hi, ended := ended), es[1..]);
      }
    }
  }

  /** One wire chunk, `h` being the story once it was read. */
  lemma ChunkWhole<E(!new)>(ops: Ops<E>, cfg: Config, s: H2<E>, g: Story, chunk: bytes, h: Story)
    requires Lawful(ops) && Whole(s, g, {}) && Inv(cfg, s, g) && Synced(ops, s.conn, g) && ReadChunk(ops, cfg, s, chunk).Ok?
    requires h == g.(hi := h.hi, ended := h.ended) && Synced(ops, ReadChunk(ops, cfg, s, chunk).s.conn, h)
    ensures Whole(ReadChunk(ops, cfg, s, chunk).s, h, {})
  {
    var (e, events) := ops.receive(s.conn, chunk);
    var t := s.(conn := e, log := s.log + [Given(chunk)]);
    QuietWhole(s, g, {}, e, Given(chunk));
    Neutral(cfg, s, g, {}, e, Given(chunk));
    EventsWhole(ops, cfg, t, g, events.value);
    var k := HandleEventsInv(ops, cfg, t, g, events.value);
    var u := HandleEvents(ops, cfg, t, events.value).s;
    assert SameStreams(ops, u.conn, ops.drain(u.conn).0);
    assert k == h;
    OtherFields(u, h, ReadChunk(ops, cfg, s, chunk).s);
  }

  lemma {:induction false} ChunksWhole<E(!new)>(ops: Ops<E>, cfg: Config, s: H2<E>, g: Story, chunks: seq<bytes>, h: Story)
    requires Lawful(ops) && Whole(s, g, {}) && Inv(cfg, s, g) && Synced(ops, s.conn, g) && ReadChunks(ops, cfg, s, chunks).Ok?
    requires h == g.(hi := h.hi, ended := h.ended) && Synced(ops, ReadChunks(ops, cfg, s, chunks).s.conn, h)
    ensures Whole(ReadChunks(ops, cfg, s, chunks).s, h, {})
    decreases |chunks|
  {
    if chunks == [] {
      assert h == g;
    } else {
      var k := ReadChunkInv(ops, cfg, s, g, chunks[0]);
      ChunkWhole(ops, cfg, s, g, chunks[0], k);
      ChunksWhole(ops, cfg, ReadChunk(ops, cfg, s, chunks[0]).s, k, chunks[1..], h);
    }
  }

  lemma HandedOutWhole<E>(s: H2<E>, g: Story)
    requires Whole(s, g, {})
    ensures Whole(s.(ready := []), HandedOut(g, s.ready), {})
  {
    var t, h := s.(ready := []), HandedOut(g, s.ready);
    forall id, head | Asked(t.log, id, head) && Dropped(id) !in t.log ensures RequestHere(t, h, id, head) && ActiveHere(t, h, id) {
      assert RequestHere(s, g, id, head) && ActiveHere(s, g, id);
      JoinReady(g.delivered, s.ready, id, head);
    }
    forall id | id in h.answered && Dropped(id) !in t.log ensures ResponseHere(t, h, id) {
      assert ResponseHere(s, g, id);
    }
  }

  lemma JoinReady(a: seq<Ready>, b: seq<Ready>, id: int, head: Head)
    ensures HasReady(a + b, id, head) <==> HasReady(a, id, head) || HasReady(b, id, head)
  {
    assert forall r :: r in a + b <==> r in a || r in b;
  }

  /** All chunks of the batch were read; the ready requests go out with the last chunk. */
  lemma BatchWhole<E>(cfg: Config, t: H2<E>, k: Story)
    requires Whole(t, k, {}) && Inv(cfg, t, k)
    ensures Deliverable(t, t.ready) == t.ready && Whole(t.(ready := []), HandedOut(k, t.ready), {})
  {
    ReadyIsDeliverable(cfg, t, k);
    HandedOutWhole(t, k);
  }

  lemma NothingOut(g: Story)
    ensures HandedOut(g, []) == g
  {
    assert g.delivered + [] == g.delivered && g.waiting + ReadyIds([]) == g.waiting;
  }

  lemma ReadWhole<E(!new)>(ops: Ops<E>, cfg: Config, frames: Splitter, s: H2<E>, g: Story, data: bytes, h: Story)
    requires Lawful(ops) && Whole(s, g, {}) && Inv(cfg, s, g) && Synced(ops, s.conn, g)
    requires var r := ReceiveData(ops, cfg, frames, s, data);
             r.Read? && Synced(ops, r.s.conn, h) && h == HandedOut(g.(hi := h.hi, ended := h.ended), r.requests)
    ensures Whole(ReceiveData(ops, cfg, frames, s, data).s, h, {})
  {
    var fed := Absorb(cfg.limits, frames, data).value;
    var n := Min(cfg.batch, |fed.ready|);
    var t := ReadChunks(ops, cfg, s, fed.ready[..n]).s;
    var k := ReadChunksInv(ops, cfg, s, g, fed.ready[..n]);
    ChunksWhole(ops, cfg, s, g, fed.ready[..n], k);
    if fed.ready[n..] == [] {
      BatchWhole(cfg, t, k);
      assert h == HandedOut(k, t.ready);
    } else {
      NothingOut(k);
      NothingOut(g.(hi := h.hi, ended := h.ended));
      assert h == k;
    }
  }

  lemma ReceiveWhole<E(!new)>(ops: Ops<E>, cfg: Config, frames: Splitter, s: H2<E>, g: Story, data: bytes) returns (h: Story)
    requires Lawful(ops) && Whole(s, g, {}) && Inv(cfg, s, g) && Synced(ops, s.conn, g)
    ensures var r := ReceiveData(ops, cfg, frames, s, data);
            && Inv(cfg, r.s, h) && h.answered == g.answered
            && (r.Failed? ==> h == g.(hi := h.hi, ended := h.ended))
            && (r.Read? ==> Synced(ops, r.s.conn, h) && Whole(r.s, h, {}) && h == HandedOut(g.(hi := h.hi, ended := h.ended), r.requests))
  {
    h := ReceiveDataInv(ops, cfg, frames, s, g, data);
    if ReceiveData(ops, cfg, frames, s, data).Read? {
      ReadWhole(ops, cfg, frames, s, g, data, h);
    }
  }

  // ---------------------------------------------------------------- responding

  /** The request body is released: its request was handed out. */
  lemma ReleaseWhole<E>(s: H2<E>, g: Story, id: int)
    requires Whole(s, g, {}) && Ended(s.log, id)
    ensures Whole(ReleaseInbound(s, id), g.(waiting := g.waiting - {id}), {})
  {
    var t, h := ReleaseInbound(s, id), g.(waiting := g.waiting - {id});
    forall x, head | Asked(t.log, x, head) && Dropped(x) !in t.log ensures RequestHere(t, h, x, head) && ActiveHere(t, h, x) {
      assert RequestHere(s, g, x, head) && ActiveHere(s, g, x);
    }
    forall x | x in h.answered && Dropped(x) !in t.log ensures ResponseHere(t, h, x) {
      assert ResponseHere(s, g, x);
    }
  }

  lemma QueuedMore(commands: seq<Command>, c: Command, id: int)
    ensures ResponseQueued(commands + [c], id) <==> ResponseQueued(commands, id) || (c.ResponseCommand? && c.id == id)
  {
    assert forall x :: x in commands + [c] <==> x in commands || x == c;
  }

  lemma CommandWhole<E>(s: H2<E>, g: Story, id: int)
    requires Whole(s, g, {})
    ensures Whole(s.(commands := s.commands + [ResetCommand(id)]), g, {})
  {
    var t := s.(commands := s.commands + [ResetCommand(id)]);
    forall x, head | Asked(t.log, x, head) && Dropped(x) !in t.log ensures RequestHere(t, g, x, head) && ActiveHere(t, g, x) {
      assert RequestHere(s, g, x, head) && ActiveHere(s, g, x);
    }
    forall x | x in g.answered && Dropped(x) !in t.log ensures ResponseHere(t, g, x) {
      assert ResponseHere(s, g, x);
      QueuedMore(s.commands, ResetCommand(id), x);
    }
  }

  /** An accepted response is queued; nothing was sent on its stream yet. */
  lemma AcceptedWhole<E>(s: H2<E>, g: Story, id: int, response: Response)
    requires Whole(s, g, {}) && id in s.active && id !in g.answered && Quiet(s.log, id)
    ensures Whole(s.(pending := s.pending + |response.body|, commands := s.commands + [ResponseCommand(id, response)]),
                  g.(answered := g.answered[id := response.body]), {})
  {
    var c := ResponseCommand(id, response);
    var t, h := s.(pending := s.pending + |response.body|, commands := s.commands + [c]), g.(answered := g.answered[id := response.body]);
    forall x, head | Asked(t.log, x, head) && Dropped(x) !in t.log ensures RequestHere(t, h, x, head) && ActiveHere(t, h, x) {
      assert RequestHere(s, g, x, head) && ActiveHere(s, g, x);
      assert x != id ==> Body(h, x) == Body(g, x);
    }
    forall x | x in h.answered && Dropped(x) !in t.log ensures ResponseHere(t, h, x) {
      QueuedMore(s.commands, c, x);
      if x != id {
        assert ResponseHere(s, g, x) && Body(h, x) == Body(g, x);
      }
    }
  }

  lemma EnqueueWhole<E>(ops: Ops<E>, cfg: Config, s: H2<E>, g: Story, id: int, response: Response)
    requires Whole(s, g, {}) && Distinguished(s) && id in s.active && id !in g.answered && Quiet(s.log, id)
    ensures var r := Enqueue(ops, cfg, s, id, response);
            Whole(r.0, Recorded(g, id, response.body, r.1), {})
  {
    if OverBudget(cfg, s, |response.body|) {
      CommandWhole(s, g, id);
    } else if |s.commands| >= cfg.maxStreams * 2 {
      WeakenWhole(s, g, id);
      ResetWhole(ops, s, g, id, EnhanceYourCalm);
    } else {
      AcceptedWhole(s, g, id, response);
    }
  }

  lemma WaitingFacts<E>(cfg: Config, s: H2<E>, g: Story, id: int)
    requires Inv(cfg, s, g) && id in g.waiting
    ensures Ended(s.log, id) && id !in g.answered && Quiet(s.log, id) && Distinguished(s) && Distinguished(ReleaseInbound(s, id))
  {
    var r :| r in g.delivered && r.id == id;
    assert Genuine(s, g, r);
    Distinct(cfg, s, g, {});
  }

  lemma AnswerWhole<E>(ops: Ops<E>, cfg: Config, s: H2<E>, g: Story, id: int, response: Response)
    requires Whole(s, g, {}) && Inv(cfg, s, g) && id in g.waiting
    ensures var r := QueueResponse(ops, cfg, s, id, response);
            Whole(r.0, Answered(g, id, response.body, r.1), {})
  {
    WaitingFacts(cfg, s, g, id);
    KnownAnswerWhole(ops, cfg, s, g, id, response);
  }

  lemma KnownAnswerWhole<E>(ops: Ops<E>, cfg: Config, s: H2<E>, g: Story, id: int, response: Response)
    requires Whole(s, g, {}) && Ended(s.log, id) && id !in g.answered && Quiet(s.log, id) && Distinguished(ReleaseInbound(s, id))
    ensures var r := QueueResponse(ops, cfg, s, id, response);
            Whole(r.0, Answered(g, id, response.body, r.1), {})
  {
    var h := g.(waiting := g.waiting - {id});
    ReleaseWhole(s, g, id);
    if id in s.active {
      EnqueueWhole(ops, cfg, ReleaseInbound(s, id), h, id, response);
    } else {
      ForgetWaiting(s, g, id);
    }
  }

  lemma ForgetWaiting<E>(s: H2<E>, g: Story, id: int)
    requires Whole(s, g, {})
    ensures Whole(s, g.(waiting := g.waiting - {id}), {})
  {
    var h := g.(waiting := g.waiting - {id});
    forall x, head | Asked(s.log, x, head) && Dropped(x) !in s.log ensures RequestHere(s, h, x, head) && ActiveHere(s, h, x) {
      assert RequestHere(s, g, x, head) && ActiveHere(s, g, x);
    }
    forall x | x in h.answered && Dropped(x) !in s.log ensures ResponseHere(s, h, x) {
      assert ResponseHere(s, g, x);
    }
  }

  lemma AbandonWhole<E>(cfg: Config, s: H2<E>, g: Story, id: int)
    requires Whole(s, g, {}) && Inv(cfg, s, g)
    ensures Whole(DropStream(s, id), g.(waiting := g.waiting - {id}), {})
  {
    Distinct(cfg, s, g, {});
    WeakenWhole(s, g, id);
    DropWhole(s, g, id);
    ForgetWaiting(DropStream(s, id), g, id);
  }

  // ---------------------------------------------------------------- flushing

  /** A command was taken off: its own stream is to be seen to. */
  lemma TakenWhole<E>(s: H2<E>, g: Story, c: Command, tail: seq<Command>)
    requires Whole(WithTail(s, [c] + tail), g, {})
    ensures Whole(WithTail(Uncounted(s, c), tail), g, {c.id})
    ensures c.ResetCommand? ==> Whole(WithTail(s, tail), g, {})
  {
    var u, t := WithTail(s, [c] + tail), WithTail(Uncounted(s, c), tail);
    assert forall x :: x in [c] + tail <==> x == c || x in tail;
    forall id, head | Asked(t.log, id, head) && Dropped(id) !in t.log ensures RequestHere(t, g, id, head) && ActiveHere(t, g, id) {
      assert RequestHere(u, g, id, head) && ActiveHere(u, g, id);
    }
    forall id | id in g.answered && (id != c.id || c.ResetCommand?) && Dropped(id) !in t.log ensures ResponseHere(t, g, id) {
      assert ResponseHere(u, g, id);
      assert ResponseQueued([c] + tail, id) ==> ResponseQueued(tail, id);
    }
  }

  lemma ResetTakenWhole<E>(ops: Ops<E>, s: H2<E>, g: Story, id: int, code: ErrorCode, tail: seq<Command>)
    requires s.commands == [] && id !in CommandIds(tail) && Whole(WithTail(s, tail), g, {id}) && Distinguished(WithTail(s, tail))
    ensures Whole(WithTail(ResetStream(ops, s, id, code), tail), g, {})
  {
    ResetWithTail(ops, s, id, code, tail);
    ResetWhole(ops, WithTail(s, tail), g, id, code);
  }

  lemma DropTakenWhole<E>(s: H2<E>, g: Story, conn: E, id: int, tail: seq<Command>)
    requires s.commands == [] && id !in CommandIds(tail) && Whole(WithTail(s, tail), g, {id}) && Distinguished(WithTail(s, tail))
    ensures Whole(WithTail(DropStream(s.(conn := conn), id), tail), g, {})
  {
    DropWithTail(s.(conn := conn), id, tail);
    DropWhole(WithTail(s, tail), g, id);
    var t := DropStream(WithTail(s, tail), id);
    OtherFields(t, g, t.(conn := conn));
    assert WithTail(s.(conn := conn), tail) == WithTail(s, tail).(conn := conn);
    assert DropStream(WithTail(s, tail).(conn := conn), id) == t.(conn := conn);
  }

  /** HEADERS went out: the response is on the outbound table, or complete. */
  lemma HeadWhole<E>(s: H2<E>, g: Story, conn: E, id: int, body: bytes)
    requires Whole(s, g, {id}) && id in s.active && id in g.answered && g.answered[id] == body && Replay(s.log, id, body) == Idle
    requires forall head | Asked(s.log, id, head) && Dropped(id) !in s.log :: RequestHere(s, g, id, head)
    ensures Whole(if body != [] then Started(s, conn, id, body) else HeadOnly(s, conn, id), g, {})
  {
    var e := DidHeaders(id, body, body == []);
    var t := if body != [] then Started(s, conn, id, body) else HeadOnly(s, conn, id);
    LogMembers(s.log, e);
    LogGrows(s.log, e);
    OutIdsAppend(s.outbound, Outbound(id, body, 0));
    assert t.log == s.log + [e];
    SameKnown(s, g, t, e);
    forall x, a | Asked(t.log, x, a) && Dropped(x) !in t.log ensures RequestHere(t, g, x, a) && ActiveHere(t, g, x) {
      assert Asked(s.log, x, a);
      if x != id {
        HereStays(s, g, t.(active := s.active), g, e, x, a);
      } else {
        assert RequestHere(s, g, id, a);
      }
    }
    forall x | x in g.answered && Dropped(x) !in t.log ensures ResponseHere(t, g, x) {
      if x != id {
        assert ResponseHere(s, g, x);
      }
    }
  }

  /** Nothing was asked or ended by the entry. */
  lemma SameKnown<E>(s: H2<E>, g: Story, t: H2<E>, e: Entry)
    requires Known(s, g) && t.log == s.log + [e] && !e.Got? && t.active <= s.active && t.last == s.last
    ensures Known(t, g)
  {
    LogMembers(s.log, e);
    forall x | x in t.active ensures WasAsked(t.log, x) {
      var a :| Asked(s.log, x, a);
      assert Asked(t.log, x, a);
    }
    forall x, a | Asked(t.log, x, a) ensures x <= g.hi {
      assert Asked(s.log, x, a);
    }
    LastGrows(s, t);
  }

  /** What the safety invariant says of a response command that is taken. */
  ghost predicate Takeable<E>(s: H2<E>, g: Story, id: int, response: Response, tail: seq<Command>)
  {
    && s.commands == [] && id !in CommandIds(tail) && id !in OutIds(s.outbound) && Distinguished(WithTail(s, tail))
    && id in s.active && id in g.answered && g.answered[id] == response.body && Replay(s.log, id, response.body) == Idle
  }

  lemma SendableCommand<E>(cfg: Config, s: H2<E>, g: Story, id: int, response: Response, tail: seq<Command>)
    requires s.commands == [] && Inv(cfg, WithTail(s, [ResponseCommand(id, response)] + tail), g)
    ensures Takeable(s, g, id, response, tail)
  {
    var c := ResponseCommand(id, response);
    TakeCommand(cfg, s, g, c, tail);
    TakenFacts(cfg, s, g, id, response, tail);
    Distinct(cfg, WithTail(Uncounted(s, c), tail), g, {id});
    assert Body(g, id) == response.body;
    assert Replay(WithTail(s, [c] + tail).log, id, Body(g, id)) == Idle;
  }

  lemma SendHeadWhole<E>(ops: Ops<E>, cfg: Config, s: H2<E>, g: Story, id: int, response: Response, tail: seq<Command>)
    requires Whole(WithTail(s, [ResponseCommand(id, response)] + tail), g, {}) && Takeable(s, g, id, response, tail)
    ensures Whole(WithTail(StartResponse(ops, cfg, s, id, response), tail), g, {})
  {
    var c := ResponseCommand(id, response);
    var v := Uncounted(s, c);
    TakenWhole(s, g, c, tail);
    if response.headerSize > cfg.maxHeaderBytes {
      TooLargeIsReset(ops, cfg, s, id, response);
      ResetTakenWhole(ops, v, g, id, InternalError, tail);
    } else if !ops.sendHeaders(s.conn, id, response, response.body == []).1 {
      DropTakenWhole(v, g, ops.sendHeaders(s.conn, id, response, response.body == []).0, id, tail);
    } else {
      SentHeadForm(ops, cfg, s, id, response, tail);
      TakenRequest(s, g, c, tail);
      HeadWhole(WithTail(v, tail), g, ops.sendHeaders(s.conn, id, response, response.body == []).0, id, response.body);
    }
  }

  lemma TakenRequest<E>(s: H2<E>, g: Story, c: Command, tail: seq<Command>)
    requires Whole(WithTail(s, [c] + tail), g, {})
    ensures var t := WithTail(Uncounted(s, c), tail);
            forall head | Asked(t.log, c.id, head) && Dropped(c.id) !in t.log :: RequestHere(t, g, c.id, head)
  {
    var u, t := WithTail(s, [c] + tail), WithTail(Uncounted(s, c), tail);
    forall head | Asked(t.log, c.id, head) && Dropped(c.id) !in t.log ensures RequestHere(t, g, c.id, head) {
      assert RequestHere(u, g, c.id, head);
    }
  }

  lemma CaptureWhole<E>(ops: Ops<E>, cfg: Config, s: H2<E>, g: Story, tail: seq<Command>)
    requires Whole(WithTail(s, tail), g, {})
    ensures Whole(WithTail(Capture(ops, cfg, s).s, tail), g, {})
  {
    OtherFields(WithTail(s, tail), g, WithTail(Capture(ops, cfg, s).s, tail));
  }

  lemma RunCommandWhole<E>(ops: Ops<E>, cfg: Config, s: H2<E>, g: Story, c: Command, tail: seq<Command>)
    requires s.commands == [] && Inv(cfg, WithTail(s, [c] + tail), g) && Whole(WithTail(s, [c] + tail), g, {})
    ensures Whole(WithTail(RunCommand(ops, cfg, s, c).s, tail), g, {})
  {
    match c
    case ResetCommand(id) =>
      TakeCommand(cfg, s, g, c, tail);
      Distinct(cfg, WithTail(s, tail), g, {id});
      TakenWhole(s, g, c, tail);
      ResetTakenWhole(ops, s, g, id, EnhanceYourCalm, tail);
      CaptureWhole(ops, cfg, ResetStream(ops, s, id, EnhanceYourCalm), g, tail);
    case ResponseCommand(id, response) =>
      SendableCommand(cfg, s, g, id, response, tail);
      SendHeadWhole(ops, cfg, s, g, id, response, tail);
      CaptureWhole(ops, cfg, StartResponse(ops, cfg, s, id, response), g, tail);
  }

  lemma {:induction false} RunCommandsWhole<E>(ops: Ops<E>, cfg: Config, s: H2<E>, g: Story, commands: seq<Command>)
    requires s.commands == [] && Inv(cfg, WithTail(s, commands), g) && Whole(WithTail(s, commands), g, {})
    ensures RunCommands(ops, cfg, s, commands).Ok? ==> Whole(RunCommands(ops, cfg, s, commands).s, g, {})
    decreases |commands|
  {
    if commands == [] {
      assert WithTail(s, []) == s;
    } else {
      assert [commands[0]] + commands[1..] == commands;
      RunCommandInv(ops, cfg, s, g, commands[0], commands[1..]);
      RunCommandWhole(ops, cfg, s, g, commands[0], commands[1..]);
      var t := RunCommand(ops, cfg, s, commands[0]);
      if t.Ok? {
        RunCommandsWhole(ops, cfg, t.s, g, commands[1..]);
      }
    }
  }

  /** A chunk went out, or the last one. */
  lemma SentWhole<E>(cfg: Config, s: H2<E>, g: Story, conn: E, o: Outbound, n: nat, window: int, frameSize: int)
    requires Whole(s, g, {}) && Sendable(cfg, s, g, o, n, window, frameSize)
    ensures var t := Sent(s, conn, o, n, window, frameSize);
            Whole(if n == Remaining(o) then Done(t, o.id) else t, g, {})
  {
    SendableFacts(cfg, s, g, o, n, window, frameSize);
    SentMoves(s, g, conn, o, n, window, frameSize);
    AdvanceFacts(s.outbound, o, n);
    WithoutAdvance(s.outbound, o.id, n);
    WithoutFacts(s.outbound, o.id);
    ChunkMoved(s, g, conn, o, n, window, frameSize);
  }

  lemma ChunkMoved<E>(s: H2<E>, g: Story, conn: E, o: Outbound, n: nat, window: int, frameSize: int)
    requires Whole(s, g, {}) && 0 < n <= Remaining(o) && o.id in g.answered && Body(g, o.id) == o.body
    requires var t := Sent(s, conn, o, n, window, frameSize);
             && OutIds(t.outbound) == OutIds(s.outbound) && OutIds(Without(t.outbound, o.id)) == OutIds(s.outbound) - {o.id}
             && o.id in OutIds(s.outbound)
             && Replay(t.log, o.id, o.body) == if n == Remaining(o) then Complete else Sending(o.body[..o.offset + n])
    ensures var t := Sent(s, conn, o, n, window, frameSize);
            Whole(if n == Remaining(o) then Done(t, o.id) else t, g, {})
  {
    var u := Sent(s, conn, o, n, window, frameSize);
    var t := if n == Remaining(o) then Done(u, o.id) else u;
    var e := DidData(o.id, o.body[o.offset..o.offset + n], n == Remaining(o), window, frameSize);
    assert t.log == s.log + [e];
    LogMembers(s.log, e);
    LogGrows(s.log, e);
    SameKnown(s, g, t, e);
    forall x, a | Asked(t.log, x, a) && Dropped(x) !in t.log ensures RequestHere(t, g, x, a) && ActiveHere(t, g, x) {
      assert Asked(s.log, x, a);
      assert RequestHere(s, g, x, a) && ActiveHere(s, g, x);
      if x != o.id {
        HereStays(s, g, t.(active := s.active), g, e, x, a);
      }
    }
    forall x | x in g.answered && Dropped(x) !in t.log ensures ResponseHere(t, g, x) {
      assert ResponseHere(s, g, x);
    }
  }

  lemma DroppedOutWhole<E>(cfg: Config, s: H2<E>, g: Story, conn: E, id: int)
    requires Whole(s, g, {}) && Inv(cfg, s, g)
    ensures Whole(DropStream(s.(conn := conn), id), g, {})
  {
    Distinct(cfg, s, g, {});
    DropAtWhole(s, g, conn, id);
  }

  lemma DropAtWhole<E>(s: H2<E>, g: Story, conn: E, id: int)
    requires Whole(s, g, {}) && Distinguished(s)
    ensures Whole(DropStream(s.(conn := conn), id), g, {})
  {
    var t := s.(conn := conn);
    OtherFields(s, g, t);
    WeakenWhole(t, g, id);
    DropWhole(t, g, id);
  }

  lemma SendChunkWhole<E>(ops: Ops<E>, cfg: Config, f: Flushed<E>, g: Story, o: Outbound, n: nat, window: int)
    requires Whole(f.s, g, {}) && Sendable(cfg, f.s, g, o, n, window, ops.frameSize(f.s.conn))
    ensures SendChunk(ops, cfg, f, o, n, window).Ok? ==> Whole(SendChunk(ops, cfg, f, o, n, window).s.s, g, {})
  {
    var (e, ok) := ops.sendData(f.s.conn, o.id, o.body[o.offset..o.offset + n], n == Remaining(o));
    SendChunkShape(ops, cfg, f, o, n, window);
    if ok {
      SentWhole(cfg, f.s, g, ops.drain(e).0, o, n, window, ops.frameSize(f.s.conn));
    } else {
      DroppedOutWhole(cfg, f.s, g, e, o.id);
    }
  }

  lemma FlushStreamWhole<E>(ops: Ops<E>, cfg: Config, f: Flushed<E>, g: Story, o: Outbound)
    requires Whole(f.s, g, {}) && Inv(cfg, f.s, g) && o in f.s.outbound
    ensures FlushStream(ops, cfg, f, o).Ok? ==> Whole(FlushStream(ops, cfg, f, o).s.s, g, {})
  {
    assert Remaining(o) > 0;
    match ops.window(f.s.conn, o.id)
    case None =>
      DroppedOutWhole(cfg, f.s, g, f.s.conn, o.id);
      assert f.s.(conn := f.s.conn) == f.s;
    case Some(window) =>
      var n := ChunkSize(o, window, ops.frameSize(f.s.conn));
      if n > 0 {
        SendChunkWhole(ops, cfg, f, g, o, n, window);
      }
  }

  lemma {:induction false} FlushStreamsWhole<E>(ops: Ops<E>, cfg: Config, f: Flushed<E>, g: Story, todo: seq<Outbound>)
    requires Whole(f.s, g, {}) && Inv(cfg, f.s, g) && DistinctOuts(todo) && forall o | o in todo :: o in f.s.outbound
    ensures FlushStreams(ops, cfg, f, todo).Ok? ==> Whole(FlushStreams(ops, cfg, f, todo).s.s, g, {})
    decreases |todo|
  {
    if todo != [] {
      FirstTurn(ops, cfg, f, g, todo);
      FlushStreamWhole(ops, cfg, f, g, todo[0]);
      var r := FlushStream(ops, cfg, f, todo[0]);
      if r.Ok? {
        FlushStreamsWhole(ops, cfg, r.s, g, todo[1..]);
      }
    }
  }

  lemma FlushTableWhole<E>(ops: Ops<E>, cfg: Config, s: H2<E>, g: Story)
    requires Whole(s, g, {}) && Inv(cfg, s, g)
    ensures FlushTable(ops, cfg, s).Ok? ==> Whole(FlushTable(ops, cfg, s).s.s, g, {})
  {
    var u := s.(control := []);
    ClearControl(cfg, s, g);
    OtherFields(s, g, u);
    FlushStreamsWhole(ops, cfg, Flushed(u, s.control), g, s.outbound);
    var r := FlushStreams(ops, cfg, Flushed(u, s.control), s.outbound);
    if r.Ok? {
      OtherFields(r.s.s, g, r.s.s.(conn := ops.drain(r.s.s.conn).0));
    }
  }

  lemma FlushWhole<E>(ops: Ops<E>, cfg: Config, s: H2<E>, g: Story)
    requires Whole(s, g, {}) && Inv(cfg, s, g)
    ensures Flush(ops, cfg, s).Ok? ==> Whole(Flush(ops, cfg, s).s.s, g, {})
  {
    var u := s.(commands := []);
    assert WithTail(u, s.commands) == s;
    RunCommandsWhole(ops, cfg, u, g, s.commands);
    var tail := RunCommandsInv(ops, cfg, u, g, s.commands);
    var t := RunCommands(ops, cfg, u, s.commands);
    if t.Ok? {
      assert WithTail(t.s, []) == t.s;
      FlushTableWhole(ops, cfg, t.s, g);
    }
  }
}
