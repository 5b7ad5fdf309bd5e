/**
 `H2Protocol` as the source writes it: fields updated in place, loops over commands, streams and events.

 Every method is proved equal to the function of the same name in `H2State`; the lemmas about those
 functions therefore speak about this class.
 */
module H2ProtocolClass {
  import opened Bytes
  import opened Optional
  import opened FrameBudgetSplitter
  import opened H2State

  class H2Protocol<E> {
    const ops: Ops<E>
    const config: Config
    const frames: FrameBudget
    var conn: E
    ghost var log: seq<Entry>
    var inbound: map<int, Inbound>
    var active: set<int>
    var outbound: seq<Outbound>
    var commands: seq<Command>
    var buffered: int
    var pending: int
    var control: bytes
    var cancelled: seq<int>
    var ready: seq<Ready>
    var last: int
    var remoteClosed: bool
    var localClosed: bool

    ghost function View(): H2<E>
      reads this
    {
      H2(conn, log, inbound, active, outbound, commands, buffered, pending, control, cancelled, ready,
         last, remoteClosed, localClosed)
    }

    constructor (ops: Ops<E>, config: Config, conn: E)
      ensures this.ops == ops && this.config == config && View() == Fresh(conn)
      ensures fresh(frames) && frames.lim == config.limits && frames.View() == EMPTY && Coherent(frames.View())
    {
      this.ops, this.config, this.conn, this.log := ops, config, conn, [];
      frames := new FrameBudget(config.limits);
      inbound, active, outbound, commands := map[], {}, [], [];
      buffered, pending, control, cancelled, ready := 0, 0, [], [], [];
      last, remoteClosed, localClosed := 0, false, false;
    }

    // -------------------------------------------------------------- dropping and resetting

    method ReleaseInbound(id: int)
      modifies this
      ensures View() == H2State.ReleaseInbound(old(View()), id)
    {
      if id in inbound {
        buffered := buffered - |inbound[id].body|;
        inbound := inbound - {id};
      }
    }

    method DropStream(id: int)
      modifies this
      ensures View() == H2State.DropStream(old(View()), id)
    {
      ReleaseInbound(id);
      FilterReady(id);
      PopOutbound(id);
      FilterCommands(id);
      Deactivate(id);
    }

    method Deactivate(id: int)
      modifies `active, `log
      ensures View() == old(View()).(active := old(active) - {id}, log := old(log) + [Dropped(id)])
    {
      active := active - {id};
      log := log + [Dropped(id)];
    }

    /** `self._outbound.pop(stream_id, None)`, with the unsent bytes given back. */
    method PopOutbound(id: int)
      modifies this
      ensures var sent := Lookup(old(outbound), id);
              View() == old(View()).(outbound := Without(old(outbound), id),
                                     pending := old(pending) - if sent.Some? then Remaining(sent.value) else 0)
    {
      var sent := Lookup(outbound, id);
      outbound := Without(outbound, id);
      if sent.Some? {
        pending := pending - (|sent.value.body| - sent.value.offset);
      }
    }

    method FilterReady(id: int)
      modifies this
      ensures View() == old(View()).(ready := Others(old(ready), id))
    {
      var kept := [];
      for i := 0 to |ready|
        invariant View() == old(View())
        invariant kept == Others(ready[..i], id)
      {
        assert ready[..i + 1][..i] == ready[..i];
        if ready[i].id != id {
          kept := kept + [ready[i]];
        }
      }
      assert ready[..|ready|] == ready;
      ready := kept;
    }

    method FilterCommands(id: int)
      modifies this
      ensures View() == old(View()).(commands := Kept(old(commands), id), pending := old(pending) - QueuedFor(old(commands), id))
    {
      var kept := [];
      for i := 0 to |commands|
        invariant View() == old(View()).(pending := pending)
        invariant kept == Kept(commands[..i], id) && pending == old(pending) - QueuedFor(commands[..i], id)
      {
        assert commands[..i + 1][..i] == commands[..i];
        var command := commands[i];
        if command.id == id && command.ResponseCommand? {
          pending := pending - |command.response.body|;
        } else {
          kept := kept + [command];
        }
      }
      assert commands[..|commands|] == commands;
      commands := kept;
    }

    method ResetStream(id: int, code: ErrorCode)
      modifies this
      ensures View() == H2State.ResetStream(ops, old(View()), id, code)
    {
      var (e, ok) := ops.reset(conn, id, code);
      conn := e;
      if ok {
        log := log + [DidReset(id, code)];
      }
      DropStream(id);
    }

    // -------------------------------------------------------------- receiving

    method RequestReceived(id: int, head: Option<Head>)
      modifies this
      ensures View() == RequestArrived(ops, config, old(View()), id, head)
    {
      if |active| >= config.maxStreams {
        ResetStream(id, RefusedStream);
        return;
      }
      match head
      case None => ResetStream(id, ProtocolError);
      case Some(h) =>
        active := active + {id};
        inbound := inbound[id := Inbound(h, [], false)];
    }

    method DataReceived(id: int, data: bytes, flow: nat) returns (ok: bool)
      modifies this
      ensures DataArrived(ops, config, old(View()), id, data, flow) == if ok then Ok(View()) else Raised(View())
    {
      var (e, accepted) := ops.acknowledge(conn, id, flow);
      conn := e;
      if !accepted { return false; }
      log := log + [Got(Event.DataReceived(id, data, flow))];
      ok := true;
      if id !in inbound { return; }
      var stream := inbound[id];
      var nextStreamSize, nextConnectionSize := |stream.body| + |data|, buffered + |data|;
      if || nextStreamSize > config.maxBody
         || (stream.head.contentLength.Some? && nextStreamSize > stream.head.contentLength.value)
         || nextConnectionSize > config.maxConnectionBuffer
      {
        ResetStream(id, EnhanceYourCalm);
        return;
      }
      if stream.dispatched {
        ResetStream(id, ErrorCode.StreamClosed);
        return;
      }
      inbound := inbound[id := stream.(body := stream.body + data)];
      buffered := nextConnectionSize;
    }

    method StreamEnded(id: int)
      modifies this
      ensures View() == StreamFinished(ops, old(View()), id)
    {
      if id !in inbound { return; }
      var stream := inbound[id];
      if stream.head.contentLength.Some? && |stream.body| != stream.head.contentLength.value {
        ResetStream(id, ProtocolError);
        return;
      }
      inbound := inbound[id := stream.(dispatched := true)];
      last := Max(last, id);
      ready := ready + [Ready(id, stream.head, stream.body)];
    }

    method CaptureControlOutput() returns (ok: bool)
      modifies this
      ensures Capture(ops, config, old(View())) == if ok then Ok(View()) else Raised(View())
    {
      var (e, produced) := ops.drain(conn);
      conn := e;
      var next := |control| + |produced|;
      if next > config.maxControlOutput || next + pending > config.maxPendingOutput { return false; }
      control := control + produced;
      ok := true;
    }

    /** The body of the event loop in `receive_data`. */
    method HandleEvent(event: Event) returns (ok: bool)
      modifies this
      ensures H2State.HandleEvent(ops, config, old(View()), event) == if ok then Ok(View()) else Raised(View())
    {
      ok := true;
      if !event.DataReceived? {
        log := log + [Got(event)];
      }
      match event
      case RequestReceived(id, head) => RequestReceived(id, head);
      case DataReceived(id, data, flow) => ok := DataReceived(id, data, flow);
      case StreamEnded(id) => StreamEnded(id);
      case StreamReset(id) =>
        cancelled := cancelled + [id];
        DropStream(id);
      case TrailersReceived(id) => ResetStream(id, ProtocolError);
      case ConnectionTerminated => remoteClosed := true;
      case WindowOrSettings =>
    }

    /** The body of the wire-chunk loop in `receive_data`. */
    method ReadChunk(chunk: bytes) returns (ok: bool)
      modifies this
      ensures H2State.ReadChunk(ops, config, old(View()), chunk) == if ok then Ok(View()) else Raised(View())
    {
      var (e, answer) := ops.receive(conn, chunk);
      conn, log := e, log + [Given(chunk)];
      if answer == None { return false; }
      var events := answer.value;
      ghost var start := View();
      assert events[0..] == events;
      for i := 0 to |events|
        invariant HandleEvents(ops, config, start, events) == HandleEvents(ops, config, View(), events[i..])
      {
        assert events[i..][1..] == events[i + 1..];
        ok := HandleEvent(events[i]);
        if !ok { return; }
      }
      ok := CaptureControlOutput();
    }

    /** `receive_data`; None where it raises, after which only `Close` is called. */
    method ReceiveData(data: bytes) returns (requests: Option<seq<Ready>>)
      requires frames.lim == config.limits && Coherent(frames.View())
      modifies this, frames
      ensures match H2State.ReceiveData(ops, config, old(frames.View()), old(View()), data)
              case Failed(s) => requests == None && View() == s
              case Read(left, s, answer) =>
                requests == Some(answer) && View() == s && frames.View() == left && Coherent(left)
    {
      var fed := frames.Feed(data);
      if !fed { return None; }
      ghost var full := frames.View();
      var chunks := frames.Take(config.batch);
      ghost var left := frames.View();
      assert chunks == full.ready[..|chunks|] && left == full.(ready := full.ready[|chunks|..]);
      assert chunks[0..] == chunks;
      for i := 0 to |chunks|
        invariant frames.View() == left
        invariant ReadChunks(ops, config, old(View()), chunks) == ReadChunks(ops, config, View(), chunks[i..])
      {
        assert chunks[i..][1..] == chunks[i + 1..];
        var ok := ReadChunk(chunks[i]);
        if !ok { return None; }
      }
      if frames.ready != [] { return Some([]); }
      var delivered := TakeReady();
      requests := Some(delivered);
    }

    /** The requests to hand out: those neither cancelled nor inactive. */
    method TakeReady() returns (delivered: seq<Ready>)
      modifies `ready
      ensures delivered == Deliverable(old(View()), old(ready)) && View() == old(View()).(ready := [])
    {
      delivered := [];
      for i := 0 to |ready|
        invariant delivered == Deliverable(View(), ready[..i])
      {
        assert ready[..i + 1][..i] == ready[..i];
        if ready[i].id !in cancelled && ready[i].id in active {
          delivered := delivered + [ready[i]];
        }
      }
      assert ready[..|ready|] == ready;
      ready := [];
    }

    /** `take_cancelled_streams`: every cancellation is handed out exactly once. */
    method TakeCancelled() returns (taken: seq<int>)
      modifies this
      ensures taken == old(cancelled) && View() == old(View()).(cancelled := [])
    {
      taken, cancelled := cancelled, [];
    }

    // -------------------------------------------------------------- responding

    method QueueResponse(id: int, response: Response) returns (accepted: bool)
      modifies this
      ensures (View(), accepted) == H2State.QueueResponse(ops, config, old(View()), id, response)
    {
      if id !in active { return false; }
      ReleaseInbound(id);
      var size := |response.body|;
      if size > config.maxResponseBody || |control| + pending + size > config.maxPendingOutput {
        var known := false;
        for i := 0 to |commands|
          invariant View() == H2State.ReleaseInbound(old(View()), id)
          invariant known <==> exists j | 0 <= j < i :: commands[j].id == id
        {
          known := known || commands[i].id == id;
        }
        if !known {
          commands := commands + [ResetCommand(id)];
        }
        return false;
      }
      if |commands| >= config.maxStreams * 2 {
        ResetStream(id, EnhanceYourCalm);
        return false;
      }
      pending := pending + size;
      commands := commands + [ResponseCommand(id, response)];
      accepted := true;
    }

    method StartResponse(id: int, response: Response)
      modifies this
      ensures View() == H2State.StartResponse(ops, config, old(View()), id, response)
    {
      if response.headerSize > config.maxHeaderBytes {
        pending := pending - |response.body|;
        ResetStream(id, InternalError);
        return;
      }
      SendHead(id, response);
    }

    /** The engine raised. */
    method HeadRefused(e: E, id: int, response: Response)
      modifies this
      ensures View() == H2State.DropStream(old(View()).(conn := e, pending := old(pending) - |response.body|), id)
    {
      conn, pending := e, pending - |response.body|;
      DropStream(id);
    }

    method SendHead(id: int, response: Response)
      modifies this
      ensures View() == H2State.SendHead(ops, old(View()), id, response)
    {
      var (e, ok) := ops.sendHeaders(conn, id, response, response.body == []);
      if !ok {
        HeadRefused(e, id, response);
        return;
      }
      conn, log := e, log + [DidHeaders(id, response.body, response.body == [])];
      if response.body != [] {
        outbound := Placed(outbound, Outbound(id, response.body, 0));
      } else {
        active := active - {id};
      }
    }

    /** The command loop of `flush`; its commands are already swapped out of the state. */
    method RunCommands(queue: seq<Command>) returns (ok: bool)
      modifies this
      ensures H2State.RunCommands(ops, config, old(View()), queue) == if ok then Ok(View()) else Raised(View())
    {
      assert queue[0..] == queue;
      for i := 0 to |queue|
        invariant H2State.RunCommands(ops, config, old(View()), queue) == H2State.RunCommands(ops, config, View(), queue[i..])
      {
        assert queue[i..][1..] == queue[i + 1..];
        match queue[i] {
          case ResetCommand(id) => ResetStream(id, EnhanceYourCalm);
          case ResponseCommand(id, response) => StartResponse(id, response);
        }
        ok := CaptureControlOutput();
        if !ok { return; }
      }
      ok := true;
    }

    /** One turn of the stream loop of `flush`. */
    method FlushStream(o: Outbound, output: bytes) returns (ok: bool, more: bytes)
      requires o.offset <= |o.body|
      modifies this
      ensures H2State.FlushStream(ops, config, Flushed(old(View()), output), o) ==
              if ok then Ok(Flushed(View(), more)) else Raised(Flushed(View(), more))
    {
      ok, more := true, output;
      var remaining := |o.body| - o.offset;
      if remaining <= 0 {
        outbound, active := Without(outbound, o.id), active - {o.id};
        return;
      }
      var window := ops.window(conn, o.id);
      if window == None {
        DropStream(o.id);
        return;
      }
      var frameSize := ops.frameSize(conn);
      var n := Min(Min(remaining, Max(0, window.value)), frameSize);
      if n <= 0 { return; }
      ok, more := SendChunk(o, n, window.value, output);
    }

    /** The part of a turn that hands a chunk to the engine. */
    method SendChunk(o: Outbound, n: nat, window: int, output: bytes) returns (ok: bool, more: bytes)
      requires o.offset + n <= |o.body|
      modifies this
      ensures H2State.SendChunk(ops, config, Flushed(old(View()), output), o, n, window) ==
              if ok then Ok(Flushed(View(), more)) else Raised(Flushed(View(), more))
    {
      var fin := n == |o.body| - o.offset;
      var frameSize := ops.frameSize(conn);
      var (e, sent) := ops.sendData(conn, o.id, o.body[o.offset..o.offset + n], fin);
      if !sent {
        conn := e;
        DropStream(o.id);
        return true, output;
      }
      ok, more := ChunkWent(e, o, n, window, frameSize, output);
    }

    /** The engine took the chunk: offset and counter move on, its output is checked, a finished stream goes. */
    method ChunkWent(e: E, o: Outbound, n: nat, window: int, frameSize: int, output: bytes) returns (ok: bool, more: bytes)
      requires o.offset + n <= |o.body|
      modifies this
      ensures var (e', generated) := ops.drain(e);
              AfterChunk(config, Flushed(old(View()), output), Sent(old(View()), e', o, n, window, frameSize), generated,
                         o.id, n == Remaining(o)) ==
              if ok then Ok(Flushed(View(), more)) else Raised(Flushed(View(), more))
    {
      var fin := n == |o.body| - o.offset;
      var (e', generated) := ops.drain(e);
      CountChunk(e', o, n, window, frameSize);
      if |generated| + |output| + pending > config.maxPendingOutput { return false, output; }
      ok, more := true, output + generated;
      if fin {
        outbound, active := Without(outbound, o.id), active - {o.id};
      }
    }

    method CountChunk(e: E, o: Outbound, n: nat, window: int, frameSize: int)
      requires o.offset + n <= |o.body|
      modifies this
      ensures View() == Sent(old(View()), e, o, n, window, frameSize)
    {
      conn, outbound, pending := e, Advance(outbound, o.id, n), pending - n;
      log := log + [DidData(o.id, o.body[o.offset..o.offset + n], n == Remaining(o), window, frameSize)];
    }

    /** `flush`; None where it raises, after which only `Close` is called. */
    method Flush() returns (output: Option<bytes>)
      requires forall o | o in outbound :: o.offset <= |o.body|
      modifies this
      ensures match H2State.Flush(ops, config, old(View()))
              case Raised(f) => output == None && View() == f.s
              case Ok(f) => output == Some(f.output) && View() == f.s
    {
      var queue := commands;
      commands := [];
      CommandsKeepOffsets(ops, config, View(), queue);
      var ok := RunCommands(queue);
      if !ok { return None; }
      output := FlushTable();
    }

    /** Control output first, then every stream of the snapshot, then what the engine still has. */
    method FlushTable() returns (output: Option<bytes>)
      requires Offsets(outbound)
      modifies this
      ensures var r := H2State.FlushTable(ops, config, old(View()));
              View() == r.s.s && output == if r.Ok? then Some(r.s.output) else None
    {
      ghost var t := View();
      var out := control;
      control := [];
      var todo := outbound;
      assert todo[0..] == todo;
      for i := 0 to |todo|
        invariant FlushStreams(ops, config, Flushed(t.(control := []), t.control), todo) ==
                  FlushStreams(ops, config, Flushed(View(), out), todo[i..])
      {
        assert todo[i..][1..] == todo[i + 1..];
        var ok: bool;
        ok, out := FlushStream(todo[i], out);
        if !ok { return None; }
      }
      var (e, generated) := ops.drain(conn);
      conn := e;
      if |generated| + |out| + pending > config.maxPendingOutput { return None; }
      output := Some(out + generated);
    }

    /** The last-stream-id goes out once, however often `close` is called. */
    method SendGoaway(code: int)
      modifies this
      ensures View() == SayGoaway(ops, old(View()), code)
    {
      if localClosed { return; }
      localClosed := true;
      var (e, ok) := ops.goaway(conn, code, last);
      conn := e;
      if ok {
        log := log + [DidGoaway(code, last)];
      }
    }

    method Close(code: int) returns (output: bytes)
      modifies this
      ensures (View(), output) == H2State.Close(ops, config, old(View()), code)
    {
      SendGoaway(code);
      ghost var t := View();
      output := control;
      var (e, generated) := ops.drain(conn);
      conn, inbound, outbound, commands, ready, active := e, map[], [], [], [], {};
      buffered, pending, control := 0, 0, [];
      assert View() == Cleared(t, e);
      var size := |output| + |generated|;
      output := if size > config.maxPendingOutput || size > config.maxControlOutput then [] else output + generated;
    }
  }

  // ---------------------------------------------------------------- offsets stay within their bodies

  ghost predicate Offsets(outs: seq<Outbound>)
  {
    forall o | o in outs :: o.offset <= |o.body|
  }

  lemma {:induction false} WithoutKeepsOffsets(outs: seq<Outbound>, id: int)
    requires Offsets(outs)
    ensures Offsets(Without(outs, id))
  {
    if outs != [] {
      assert forall o | o in outs[1..] :: o in outs;
      WithoutKeepsOffsets(outs[1..], id);
    }
  }

  lemma {:induction false} PlacedKeepsOffsets(outs: seq<Outbound>, o: Outbound)
    requires Offsets(outs) && o.offset <= |o.body|
    ensures Offsets(Placed(outs, o))
  {
    if outs != [] {
      assert forall x | x in outs[1..] :: x in outs;
      PlacedKeepsOffsets(outs[1..], o);
    }
  }

  lemma {:induction false} CommandsKeepOffsets<E>(ops: Ops<E>, cfg: Config, s: H2<E>, queue: seq<Command>)
    requires Offsets(s.outbound)
    ensures Offsets(H2State.RunCommands(ops, cfg, s, queue).s.outbound)
    decreases |queue|
  {
    if queue != [] {
      var c := queue[0];
      WithoutKeepsOffsets(s.outbound, c.id);
      if c.ResponseCommand? {
        PlacedKeepsOffsets(s.outbound, Outbound(c.id, c.response.body, 0));
      }
      var t := RunCommand(ops, cfg, s, c);
      if t.Ok? {
        CommandsKeepOffsets(ops, cfg, t.s, queue[1..]);
      }
    }
  }
}
