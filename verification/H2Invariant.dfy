/**
 What every operation of an HTTP/2 connection keeps: the two byte counters are exact and bounded, the
 tables agree with one another, and the history of the connection is one RFC 9113 allows.
 */
module H2Invariant {
  import opened Bytes
  import opened Optional
  import opened FrameBudgetSplitter
  import opened H2State

  // ---------------------------------------------------------------- the engine's laws

  /** Stream ids opened and ended so far, after one more event; None if the event breaks the protocol. */
  function AfterEvent(e: Event, hi: int, ended: set<int>): Option<(int, set<int>)>
  {
    match e
    case RequestReceived(id, _) => if id > hi then Some((id, ended)) else None
    case DataReceived(id, _, _) => if id <= hi && id !in ended then Some((hi, ended)) else None
    case StreamEnded(id) => if id <= hi && id !in ended then Some((hi, ended + {id})) else None
    case StreamReset(id) => if id <= hi then Some((hi, ended)) else None
    case TrailersReceived(id) => if id <= hi then Some((hi, ended)) else None
    case ConnectionTerminated => Some((hi, ended))
    case WindowOrSettings => Some((hi, ended))
  }

  function AfterEvents(es: seq<Event>, hi: int, ended: set<int>): Option<(int, set<int>)>
    decreases |es|
  {
    if es == [] then Some((hi, ended)) else
    match AfterEvent(es[0], hi, ended)
    case None => None
    case Some((h, n)) => AfterEvents(es[1..], h, n)
  }

  ghost predicate SameStreams<E>(ops: Ops<E>, e: E, e': E)
  {
    ops.lastOpened(e') == ops.lastOpened(e) && ops.halfClosed(e') == ops.halfClosed(e)
  }

  /**
   Section 5.1.1 of RFC 9113, kept by hyper-h2: request ids are fresh and increasing, a stream ends at
   most once and carries no DATA afterwards, and only received frames open or end a stream.
   */
  ghost predicate Lawful<E(!new)>(ops: Ops<E>)
  {
    && (forall e, w :: var r := ops.receive(e, w);
          r.1.Some? ==> AfterEvents(r.1.value, ops.lastOpened(e), ops.halfClosed(e))
                        == Some((ops.lastOpened(r.0), ops.halfClosed(r.0))))
    && (forall e, id, n :: SameStreams(ops, e, ops.acknowledge(e, id, n).0))
    && (forall e, id, c :: SameStreams(ops, e, ops.reset(e, id, c).0))
    && (forall e, id, r, fin :: SameStreams(ops, e, ops.sendHeaders(e, id, r, fin).0))
    && (forall e, id, d, fin :: SameStreams(ops, e, ops.sendData(e, id, d, fin).0))
    && (forall e :: SameStreams(ops, e, ops.drain(e).0))
    && (forall e, c, l :: SameStreams(ops, e, ops.goaway(e, c, l).0))
  }

  // ---------------------------------------------------------------- reading the log

  /** The DATA payloads received for a stream, joined in order. */
  function DataOf(log: seq<Entry>, id: int): bytes
  {
    if log == [] then []
    else
      var e := log[|log| - 1];
      DataOf(log[..|log| - 1], id) + if e.Got? && e.event.DataReceived? && e.event.id == id then e.event.data else []
  }

  /** The client opened the stream with this head. */
  predicate Asked(log: seq<Entry>, id: int, head: Head) { Got(RequestReceived(id, Some(head))) in log }

  /** The client ended the stream. */
  predicate Ended(log: seq<Entry>, id: int) { Got(StreamEnded(id)) in log }

  /** The chunks the engine was given, in order. */
  function GivenTo(log: seq<Entry>): seq<bytes>
  {
    if log == [] then []
    else
      var e := log[|log| - 1];
      GivenTo(log[..|log| - 1]) + if e.Given? then [e.chunk] else []
  }

  /** The server's side of one stream: nothing sent, part of the body sent, all sent, dropped, or out of line. */
  datatype Tx = Idle | Sending(sent: bytes) | Complete | Gone | Broken

  /**
   Sections 5.1, 6.9.1 and 8.1 of RFC 9113 as an automaton.  HEADERS come first and once; each DATA chunk
   is non-empty, fits the flow-control window and the frame size, is as large as they allow, and continues the
   body where the last one stopped; END_STREAM comes exactly with the last byte; nothing follows it, or a drop.
   */
  function NextTx(tx: Tx, e: Entry, id: int, body: bytes): Tx
  {
    match e
    case DidHeaders(i, announced, fin) =>
      if i != id then tx
      else if tx == Idle && announced == body && fin == (body == []) then if fin then Complete else Sending([])
      else Broken
    case DidData(i, chunk, fin, window, frameSize) =>
      if i != id then tx
      else if tx.Sending? && 0 < |chunk| <= window && |chunk| <= frameSize && (fin || |chunk| == window || |chunk| == frameSize)
           && tx.sent + chunk <= body && (fin <==> tx.sent + chunk == body)
      then if fin then Complete else Sending(tx.sent + chunk)
      else Broken
    case Dropped(i) => if i != id || tx == Broken then tx else Gone
    case Got(_) => tx
    case DidReset(_, _) => tx
    case DidGoaway(_, _) => tx
    case Given(_) => tx
  }

  function Replay(log: seq<Entry>, id: int, body: bytes): Tx
  {
    if log == [] then Idle
    else NextTx(Replay(log[..|log| - 1], id, body), log[|log| - 1], id, body)
  }

  /** Both readings after one more entry. */
  lemma LogGrows(log: seq<Entry>, e: Entry)
    ensures forall id, body :: Replay(log + [e], id, body) == NextTx(Replay(log, id, body), e, id, body)
    ensures forall id :: DataOf(log + [e], id) ==
              DataOf(log, id) + if e.Got? && e.event.DataReceived? && e.event.id == id then e.event.data else []
  {
    assert (log + [e])[..|log|] == log;
  }

  predicate Sends(e: Entry, id: int)
  {
    (e.DidHeaders? || e.DidData?) && e.id == id
  }

  /** Nothing was ever sent on the stream. */
  predicate Quiet(log: seq<Entry>, id: int)
  {
    forall e | e in log :: !Sends(e, id)
  }

  /** A stream nothing was sent on reads the same whatever its body will be. */
  lemma {:induction false} QuietForAnyBody(log: seq<Entry>, id: int, body: bytes)
    requires Quiet(log, id)
    ensures Replay(log, id, body) == Replay(log, id, [])
    ensures Replay(log, id, body) == Idle || Replay(log, id, body) == Gone
  {
    if log != [] {
      var rest, e := log[..|log| - 1], log[|log| - 1];
      assert e in log && forall x | x in rest :: x in log;
      QuietForAnyBody(rest, id, body);
    }
  }

  // ---------------------------------------------------------------- sums over the tables

  /** Bytes of request body held: the sum over the inbound table. */
  ghost function Buffered(m: map<int, Inbound>): nat
  {
    if forall k :: k !in m then 0 else
    var k :| k in m;
    |m[k].body| + Buffered(m - {k})
  }

  lemma {:induction false} BufferedRemove(m: map<int, Inbound>, k: int)
    requires k in m
    ensures Buffered(m) == |m[k].body| + Buffered(m - {k})
    decreases |m|
  {
    var j :| j in m && Buffered(m) == |m[j].body| + Buffered(m - {j});
    if j != k {
      BufferedRemove(m - {j}, k);
      BufferedRemove(m - {k}, j);
      assert m - {j} - {k} == m - {k} - {j};
    }
  }

  lemma BufferedPut(m: map<int, Inbound>, k: int, v: Inbound)
    ensures Buffered(m[k := v]) == Buffered(m) + |v.body| - if k in m then |m[k].body| else 0
  {
    BufferedRemove(m[k := v], k);
    assert m[k := v] - {k} == m - {k};
    if k in m {
      BufferedRemove(m, k);
    } else {
      assert m - {k} == m;
    }
  }

  /** Response bytes not yet handed to the engine. */
  function Unsent(outs: seq<Outbound>): int
  {
    if outs == [] then 0 else Remaining(outs[0]) + Unsent(outs[1..])
  }

  /** Body bytes of responses still waiting in the command list. */
  function Queued(commands: seq<Command>): nat
  {
    if commands == [] then 0
    else
      var c := commands[|commands| - 1];
      Queued(commands[..|commands| - 1]) + if c.ResponseCommand? then |c.response.body| else 0
  }

  function OutIds(outs: seq<Outbound>): set<int> { set o | o in outs :: o.id }

  function CommandIds(commands: seq<Command>): set<int> { set c | c in commands :: c.id }

  function ReadyIds(ready: seq<Ready>): set<int> { set r | r in ready :: r.id }

  ghost predicate DistinctOuts(outs: seq<Outbound>)
  {
    forall i, j | 0 <= i < j < |outs| :: outs[i].id != outs[j].id
  }

  ghost predicate DistinctCommands(commands: seq<Command>)
  {
    forall i, j | 0 <= i < j < |commands| :: commands[i].id != commands[j].id
  }

  ghost predicate DistinctReady(ready: seq<Ready>)
  {
    forall i, j | 0 <= i < j < |ready| :: ready[i].id != ready[j].id
  }

  lemma {:induction false} LookupFacts(outs: seq<Outbound>, id: int)
    ensures Lookup(outs, id).Some? <==> id in OutIds(outs)
    ensures Lookup(outs, id).Some? ==> Lookup(outs, id).value in outs && Lookup(outs, id).value.id == id
  {
    if outs != [] && outs[0].id != id {
      LookupFacts(outs[1..], id);
      assert forall o :: o in outs <==> o == outs[0] || o in outs[1..];
    }
  }

  lemma {:induction false} WithoutMembers(outs: seq<Outbound>, id: int)
    requires DistinctOuts(outs)
    ensures forall o :: o in Without(outs, id) <==> o in outs && o.id != id
    ensures DistinctOuts(Without(outs, id))
  {
    if outs != [] {
      var rest := outs[1..];
      WithoutMembers(rest, id);
      assert forall o :: o in outs <==> o == outs[0] || o in rest;
      if outs[0].id != id {
        var w := Without(outs, id);
        forall i, j | 0 <= i < j < |w| ensures w[i].id != w[j].id {
          if i == 0 {
            assert w[j] in Without(rest, id) && w[j] in rest;
          } else {
            assert w[i] == Without(rest, id)[i - 1] && w[j] == Without(rest, id)[j - 1];
          }
        }
      }
    }
  }

  lemma {:induction false} WithoutUnsent(outs: seq<Outbound>, id: int)
    requires DistinctOuts(outs)
    ensures Unsent(Without(outs, id)) ==
            Unsent(outs) - if Lookup(outs, id).Some? then Remaining(Lookup(outs, id).value) else 0
  {
    if outs != [] {
      var rest := outs[1..];
      WithoutUnsent(rest, id);
      if outs[0].id != id {
        assert Without(outs, id)[1..] == Without(rest, id);
      } else {
        LookupFacts(rest, id);
        assert forall o | o in rest :: o.id != outs[0].id;
      }
    }
  }

  /** Popping a stream takes exactly its unsent bytes away and leaves the others alone. */
  lemma WithoutFacts(outs: seq<Outbound>, id: int)
    requires DistinctOuts(outs)
    ensures forall o :: o in Without(outs, id) <==> o in outs && o.id != id
    ensures DistinctOuts(Without(outs, id))
    ensures OutIds(Without(outs, id)) == OutIds(outs) - {id}
    ensures Unsent(Without(outs, id)) ==
            Unsent(outs) - if Lookup(outs, id).Some? then Remaining(Lookup(outs, id).value) else 0
  {
    WithoutMembers(outs, id);
    WithoutUnsent(outs, id);
  }

  /** Only the stream moved on differs. */
  lemma {:induction false} AdvanceAt(outs: seq<Outbound>, id: int, n: nat)
    ensures |Advance(outs, id, n)| == |outs|
    ensures forall i | 0 <= i < |outs| :: Advance(outs, id, n)[i] ==
              if outs[i].id == id then outs[i].(offset := outs[i].offset + n) else outs[i]
  {
    if outs != [] {
      AdvanceAt(outs[1..], id, n);
    }
  }

  lemma {:induction false} AdvanceUnsent(outs: seq<Outbound>, o: Outbound, n: nat)
    requires DistinctOuts(outs) && o in outs
    ensures Unsent(Advance(outs, o.id, n)) == Unsent(outs) - n
  {
    var rest := outs[1..];
    assert forall x | x in rest :: x.id != outs[0].id;
    if outs[0].id == o.id {
      AdvanceAbsent(rest, o.id, n);
      assert Advance(outs, o.id, n)[1..] == rest;
    } else {
      AdvanceUnsent(rest, o, n);
      assert Advance(outs, o.id, n)[1..] == Advance(rest, o.id, n);
    }
  }

  lemma AdvanceMembers(outs: seq<Outbound>, o: Outbound, n: nat)
    requires DistinctOuts(outs) && o in outs
    ensures forall x :: x in Advance(outs, o.id, n) <==> x == o.(offset := o.offset + n) || (x in outs && x.id != o.id)
  {
    AdvanceAt(outs, o.id, n);
    var a, moved := Advance(outs, o.id, n), o.(offset := o.offset + n);
    var k :| 0 <= k < |outs| && outs[k] == o;
    assert a[k] == moved;
    forall x ensures x in a <==> x == moved || (x in outs && x.id != o.id) {
      if x in a {
        var i :| 0 <= i < |a| && a[i] == x;
        assert outs[i].id == o.id ==> i == k;
      }
      if x in outs && x.id != o.id {
        var i :| 0 <= i < |outs| && outs[i] == x;
        assert a[i] == x;
      }
    }
  }

  lemma SameIds(outs: seq<Outbound>, a: seq<Outbound>)
    requires |a| == |outs| && forall i | 0 <= i < |outs| :: a[i].id == outs[i].id
    ensures OutIds(a) == OutIds(outs)
    ensures DistinctOuts(outs) ==> DistinctOuts(a)
  {
    forall id ensures id in OutIds(a) <==> id in OutIds(outs) {
      if id in OutIds(outs) {
        var i :| 0 <= i < |outs| && outs[i].id == id;
        assert a[i] in a;
      }
      if id in OutIds(a) {
        var i :| 0 <= i < |a| && a[i].id == id;
        assert outs[i] in outs;
      }
    }
  }

  /** Moving a stream's offset on by n takes exactly n unsent bytes away. */
  lemma AdvanceFacts(outs: seq<Outbound>, o: Outbound, n: nat)
    requires DistinctOuts(outs) && o in outs
    ensures forall x :: x in Advance(outs, o.id, n) <==> x == o.(offset := o.offset + n) || (x in outs && x.id != o.id)
    ensures DistinctOuts(Advance(outs, o.id, n))
    ensures OutIds(Advance(outs, o.id, n)) == OutIds(outs)
    ensures Unsent(Advance(outs, o.id, n)) == Unsent(outs) - n
  {
    AdvanceMembers(outs, o, n);
    AdvanceUnsent(outs, o, n);
    AdvanceAt(outs, o.id, n);
    SameIds(outs, Advance(outs, o.id, n));
  }

  lemma {:induction false} AdvanceAbsent(outs: seq<Outbound>, id: int, n: nat)
    requires id !in OutIds(outs)
    ensures Advance(outs, id, n) == outs
  {
    if outs != [] {
      assert outs[0].id in OutIds(outs);
      assert forall o | o in outs[1..] :: o in outs;
      AdvanceAbsent(outs[1..], id, n);
    }
  }

  lemma {:induction false} PlacedAbsent(outs: seq<Outbound>, o: Outbound)
    requires o.id !in OutIds(outs)
    ensures Placed(outs, o) == outs + [o]
    ensures Unsent(outs + [o]) == Unsent(outs) + Remaining(o)
  {
    if outs != [] {
      assert outs[0].id in OutIds(outs);
      assert forall x | x in outs[1..] :: x in outs;
      PlacedAbsent(outs[1..], o);
      assert (outs + [o])[1..] == outs[1..] + [o];
    }
  }

  lemma {:induction false} KeptFacts(commands: seq<Command>, id: int)
    requires DistinctCommands(commands)
    ensures forall c :: c in Kept(commands, id) <==> c in commands && !(c.ResponseCommand? && c.id == id)
    ensures DistinctCommands(Kept(commands, id))
    ensures Queued(Kept(commands, id)) == Queued(commands) - QueuedFor(commands, id)
  {
    if commands != [] {
      var n := |commands| - 1;
      var rest, c := commands[..n], commands[n];
      KeptFacts(rest, id);
      var k := Kept(commands, id);
      assert forall x :: x in commands <==> x == c || x in rest;
      if c.ResponseCommand? && c.id == id {
        assert k == Kept(rest, id);
      } else {
        assert k == Kept(rest, id) + [c] && k[..|k| - 1] == Kept(rest, id);
        forall i, j | 0 <= i < j < |k| ensures k[i].id != k[j].id {
          assert k[i] in Kept(rest, id) && k[i] in rest;
          if j < |k| - 1 {
            assert Kept(rest, id)[i].id != Kept(rest, id)[j].id;
          }
        }
      }
    }
  }

  lemma {:induction false} KeptNone(commands: seq<Command>, id: int)
    requires id !in CommandIds(commands)
    ensures Kept(commands, id) == commands && QueuedFor(commands, id) == 0
  {
    if commands != [] {
      var n := |commands| - 1;
      assert commands[n].id in CommandIds(commands);
      assert forall c | c in commands[..n] :: c in commands;
      KeptNone(commands[..n], id);
      assert commands[..n] + [commands[n]] == commands;
    }
  }

  lemma {:induction false} QueuedFirst(c: Command, rest: seq<Command>)
    ensures Queued([c] + rest) == (if c.ResponseCommand? then |c.response.body| else 0) + Queued(rest)
  {
    var all := [c] + rest;
    if rest == [] {
      assert all[..0] == [];
    } else {
      var n := |rest| - 1;
      assert all[..|all| - 1] == [c] + rest[..n];
      QueuedFirst(c, rest[..n]);
    }
  }

  lemma {:induction false} OthersFacts(ready: seq<Ready>, id: int)
    requires DistinctReady(ready)
    ensures forall r :: r in Others(ready, id) <==> r in ready && r.id != id
    ensures DistinctReady(Others(ready, id))
  {
    if ready != [] {
      var n := |ready| - 1;
      var rest, r := ready[..n], ready[n];
      OthersFacts(rest, id);
      var o := Others(ready, id);
      assert forall x :: x in ready <==> x == r || x in rest;
      if r.id != id {
        assert o == Others(rest, id) + [r];
        forall i, j | 0 <= i < j < |o| ensures o[i].id != o[j].id {
          assert o[i] in Others(rest, id) && o[i] in rest;
          if j < |o| - 1 {
            assert Others(rest, id)[i].id != Others(rest, id)[j].id;
          }
        }
      }
    }
  }
}
