/**
 The write side of a WebSocket connection: the bounded outbox (`_enqueue`, `_enqueue_control`,
 `_fail_outbound`) and the writer task that empties it (`_run_writer`).  Methods are atomic between two
 awaits; the protocol engine's serialisation and the transport's success are parameters.
 */
module Outboxes {
  import opened Bytes
  import opened Optional

  /** A queued command.  Its index in `commands` is its identity; `done` and `error` are what its waiter sees. */
  datatype Command = Command(size: nat, done: bool, error: Option<string>)

  /** A command the writer has taken: the bytes it was serialised to and how many went to the transport. */
  datatype Taken = Taken(id: nat, payload: bytes, sent: nat)

  datatype Box = Box(
    commands: seq<Command>,    // every command ever accepted
    outbox: seq<nat>,
    outboxBytes: nat,
    active: Option<nat>,
    payload: bytes,            // of the active command
    offset: nat,
    stopped: bool,             // the writer task has ended
    taken: seq<Taken>,
    cut: Option<nat>,          // the command the writer was cancelled in
    wire: bytes)               // everything given to the transport

  const EMPTY := Box([], [], 0, None, [], 0, false, [], None, [])

  function Left(b: Box): int { |b.commands| - |b.outbox| }

  function QueuedBytes(commands: seq<Command>, outbox: seq<nat>): nat
  {
    if outbox == [] then 0
    else
      var i := outbox[|outbox| - 1];
      QueuedBytes(commands, outbox[..|outbox| - 1]) + if i < |commands| then commands[i].size else 0
  }

  /** What the taken commands have put on the wire, in order. */
  function Wire(taken: seq<Taken>): bytes
  {
    if taken == [] then []
    else
      var t := taken[|taken| - 1];
      Wire(taken[..|taken| - 1]) + if t.sent <= |t.payload| then t.payload[..t.sent] else t.payload
  }

  // ---------------------------------------------------------------- the invariant

  /** The queue is the newest commands in order; none of them is done; the size counter is exact. */
  ghost predicate Queue(b: Box)
  {
    && |b.outbox| <= |b.commands|
    && (forall k | 0 <= k < |b.outbox| :: b.outbox[k] == |b.commands| - |b.outbox| + k)
    && (forall i | Left(b) <= i < |b.commands| :: !b.commands[i].done && b.commands[i].error == None)
    && b.outboxBytes == QueuedBytes(b.commands, b.outbox)
  }

  /** Whatever left the queue is done or active. */
  ghost predicate Departed(b: Box)
  {
    && (b.active.Some? ==> b.active.value < Left(b))
    && (forall i | 0 <= i < Left(b) && i < |b.commands| :: b.commands[i].done || b.active == Some(i))
  }

  /** Commands were taken in the order they were queued, and the wire is what they have sent. */
  ghost predicate InOrder(b: Box)
  {
    && (forall j, k | 0 <= j < k < |b.taken| :: b.taken[j].id < b.taken[k].id)
    && (forall t | t in b.taken :: t.id < Left(b) && t.sent <= |t.payload|)
    && b.wire == Wire(b.taken)
  }

  /** The active command is the last one taken, not all of it was sent, and nobody was told that it was. */
  ghost predicate ActiveIsLast(b: Box)
  {
    && (b.active.Some? ==> b.taken != [] && b.taken[|b.taken| - 1] == Taken(b.active.value, b.payload, b.offset))
    && (b.active.Some? ==> b.offset < |b.payload| && !b.stopped)
    && (b.active.Some? && b.active.value < |b.commands| ==>
          b.commands[b.active.value].done ==> b.commands[b.active.value].error.Some?)
  }

  /** The command the writer was cancelled in was not sent to its end. */
  ghost predicate CutShort(b: Box)
  {
    b.cut.Some? ==> b.stopped && exists t :: t in b.taken && t.id == b.cut.value && t.sent < |t.payload|
  }

  /** A command done without an error was sent to its last byte, unless the writer was cancelled in it. */
  ghost predicate Honest(b: Box)
  {
    forall i | 0 <= i < Left(b) && i < |b.commands| && b.commands[i].error == None && b.active != Some(i) && b.cut != Some(i) ::
      exists t :: t in b.taken && t.id == i && t.sent == |t.payload|
  }

  ghost predicate Valid(b: Box)
  {
    Queue(b) && Departed(b) && InOrder(b) && ActiveIsLast(b) && CutShort(b) && Honest(b)
  }

  // ---------------------------------------------------------------- queueing

  function Queued(b: Box, size: nat): Box
  {
    b.(commands := b.commands + [Command(size, false, None)], outbox := b.outbox + [|b.commands|],
       outboxBytes := b.outboxBytes + size)
  }

  lemma {:induction false} SameSizes(a: seq<Command>, b: seq<Command>, outbox: seq<nat>)
    requires forall i | i in outbox :: i < |a| && i < |b| && a[i].size == b[i].size
    ensures QueuedBytes(a, outbox) == QueuedBytes(b, outbox)
  {
    if outbox != [] {
      var n := |outbox| - 1;
      assert outbox[n] in outbox && forall i | i in outbox[..n] :: i in outbox;
      SameSizes(a, b, outbox[..n]);
    }
  }

  lemma {:induction false} QueuedFirst(commands: seq<Command>, outbox: seq<nat>)
    requires outbox != [] && outbox[0] < |commands|
    ensures QueuedBytes(commands, outbox) == commands[outbox[0]].size + QueuedBytes(commands, outbox[1..])
  {
    if |outbox| > 1 {
      var n := |outbox| - 1;
      QueuedFirst(commands, outbox[..n]);
      assert outbox[..n][1..] == outbox[1..][..n - 1] && outbox[1..][n - 1] == outbox[n];
    } else {
      assert outbox[..0] == [];
    }
  }

  lemma QueueMembers(b: Box)
    requires Queue(b)
    ensures forall i | i in b.outbox :: Left(b) <= i < |b.commands|
  {
  }

  lemma QueuedValid(b: Box, size: nat)
    requires Valid(b)
    ensures Valid(Queued(b, size))
  {
    var c := Queued(b, size);
    QueuedQueue(b, size);
    assert Departed(c);
    HonestFrame(b, c);
  }

  lemma QueuedQueue(b: Box, size: nat)
    requires Queue(b)
    ensures Queue(Queued(b, size)) && Left(Queued(b, size)) == Left(b)
  {
    var c := Queued(b, size);
    QueueMembers(b);
    SameSizes(b.commands, c.commands, b.outbox);
    assert c.outbox[..|b.outbox|] == b.outbox;
  }

  lemma HonestFrame(b: Box, c: Box)
    requires Honest(b) && Left(c) == Left(b) && c.taken == b.taken && c.active == b.active && c.cut == b.cut
    requires forall i | 0 <= i < Left(b) && i < |b.commands| :: i < |c.commands| && c.commands[i] == b.commands[i]
    requires Left(b) <= |b.commands|
    ensures Honest(c)
  {
    forall i | 0 <= i < Left(c) && i < |c.commands| && c.commands[i].error == None && c.active != Some(i) && c.cut != Some(i)
      ensures exists t :: t in c.taken && t.id == i && t.sent == |t.payload|
    {
      assert b.commands[i].error == None;
    }
  }

  // ---------------------------------------------------------------- the writer

  predicate PopsFirst(b: Box)
  {
    b.outbox != [] && b.outbox[0] < |b.commands| && b.outboxBytes >= b.commands[b.outbox[0]].size
  }

  /** The oldest command leaves the queue. */
  function Popped(b: Box): Box
    requires PopsFirst(b)
  {
    b.(outbox := b.outbox[1..], outboxBytes := b.outboxBytes - b.commands[b.outbox[0]].size)
  }

  lemma PoppedQueue(b: Box)
    requires Queue(b) && b.outbox != []
    ensures b.outbox[0] == Left(b) < |b.commands| && b.outboxBytes >= b.commands[b.outbox[0]].size
    ensures Queue(Popped(b))
  {
    QueueMembers(b);
    QueuedFirst(b.commands, b.outbox);
  }

  /** A command that has left the queue is marked done, with or without an error. */
  function Done(b: Box, id: nat, error: Option<string>): Box
    requires id < |b.commands|
  {
    b.(commands := b.commands[id := b.commands[id].(done := true, error := error)])
  }

  lemma DoneQueue(b: Box, id: nat, error: Option<string>)
    requires Queue(b) && id < Left(b)
    ensures Queue(Done(b, id, error))
  {
    QueueMembers(b);
    SameSizes(b.commands, Done(b, id, error).commands, b.outbox);
  }

  lemma TakenMore(taken: seq<Taken>, t: Taken)
    requires t.sent <= |t.payload|
    ensures Wire(taken + [t]) == Wire(taken) + t.payload[..t.sent]
    ensures forall x :: x in taken + [t] <==> x in taken || x == t
  {
    assert (taken + [t])[..|taken|] == taken;
  }

  /** The engine refuses to serialise the command. */
  function Unserialised(b: Box, error: string): Box
    requires PopsFirst(b)
  {
    Done(Popped(b), b.outbox[0], Some(error))
  }

  lemma UnserialisedValid(b: Box, error: string)
    requires Valid(b) && b.outbox != [] && b.active == None
    ensures b.outbox[0] < |b.commands| && b.outboxBytes >= b.commands[b.outbox[0]].size
    ensures Valid(Unserialised(b, error))
  {
    PoppedQueue(b);
    DoneQueue(Popped(b), b.outbox[0], Some(error));
    var c := Unserialised(b, error);
    forall i | 0 <= i < Left(c) && i < |c.commands| && c.commands[i].error == None && c.active != Some(i) && c.cut != Some(i)
      ensures exists t :: t in c.taken && t.id == i && t.sent == |t.payload|
    {
      assert i < Left(b) && b.commands[i].error == None;
    }
  }

  /** The command becomes the active one. */
  function Started(b: Box, payload: bytes): Box
    requires PopsFirst(b)
  {
    Popped(b).(active := Some(b.outbox[0]), payload := payload, offset := 0, taken := b.taken + [Taken(b.outbox[0], payload, 0)])
  }

  lemma StartedInOrder(b: Box, payload: bytes)
    requires Queue(b) && InOrder(b) && b.outbox != []
    ensures PopsFirst(b) && InOrder(Started(b, payload))
  {
    PoppedQueue(b);
    TakenInOrder(b, Started(b, payload), Taken(b.outbox[0], payload, 0));
  }

  /** One more command taken from the front of the queue. */
  lemma TakenInOrder(b: Box, c: Box, t: Taken)
    requires InOrder(b) && c.taken == b.taken + [t] && c.wire == b.wire
    requires t.id == Left(b) < Left(c) && t.sent == 0
    ensures InOrder(c)
  {
    TakenMore(b.taken, t);
    OneMoreInOrder(b.taken, t);
    assert t.payload[..t.sent] == [];
  }

  lemma OneMoreInOrder(taken: seq<Taken>, t: Taken)
    requires (forall j, k | 0 <= j < k < |taken| :: taken[j].id < taken[k].id) && forall u | u in taken :: u.id < t.id
    ensures var more := taken + [t]; forall j, k | 0 <= j < k < |more| :: more[j].id < more[k].id
  {
    forall j | 0 <= j < |taken| ensures taken[j].id < t.id {
      assert taken[j] in taken;
    }
  }

  lemma StartedHonest(b: Box, payload: bytes)
    requires Valid(b) && b.outbox != [] && b.active == None
    ensures b.outbox[0] < |b.commands| && b.outboxBytes >= b.commands[b.outbox[0]].size
    ensures Honest(Started(b, payload))
  {
    PoppedQueue(b);
    TakenMore(b.taken, Taken(b.outbox[0], payload, 0));
    var c := Started(b, payload);
    forall i | 0 <= i < Left(c) && i < |c.commands| && c.commands[i].error == None && c.active != Some(i) && c.cut != Some(i)
      ensures exists t :: t in c.taken && t.id == i && t.sent == |t.payload|
    {
      var t :| t in b.taken && t.id == i && t.sent == |t.payload|;
      assert t in c.taken;
    }
  }

  lemma StartedValid(b: Box, payload: bytes)
    requires Valid(b) && b.outbox != [] && b.active == None && !b.stopped && payload != []
    ensures b.outbox[0] < |b.commands| && b.outboxBytes >= b.commands[b.outbox[0]].size
    ensures Valid(Started(b, payload))
  {
    PoppedQueue(b);
    StartedInOrder(b, payload);
    StartedHonest(b, payload);
    assert Departed(Started(b, payload));
  }

  /** A command with an empty frame: taken and done at once. */
  function Skipped(b: Box): Box
    requires PopsFirst(b)
  {
    Done(Popped(b).(taken := b.taken + [Taken(b.outbox[0], [], 0)]), b.outbox[0], None)
  }

  lemma SkippedQueue(b: Box)
    requires Queue(b) && Departed(b) && b.outbox != []
    ensures PopsFirst(b) && Queue(Skipped(b)) && Departed(Skipped(b))
  {
    PoppedQueue(b);
    DoneQueue(Popped(b), b.outbox[0], None);
  }

  lemma SkippedHonest(b: Box)
    requires Valid(b) && b.outbox != [] && b.active == None
    ensures b.outbox[0] < |b.commands| && b.outboxBytes >= b.commands[b.outbox[0]].size
    ensures Honest(Skipped(b))
  {
    PoppedQueue(b);
    var t, c := Taken(b.outbox[0], [], 0), Skipped(b);
    TakenMore(b.taken, t);
    forall i | 0 <= i < Left(c) && i < |c.commands| && c.commands[i].error == None && c.active != Some(i) && c.cut != Some(i)
      ensures exists t :: t in c.taken && t.id == i && t.sent == |t.payload|
    {
      if i == b.outbox[0] {
        assert t in c.taken;
      } else {
        var u :| u in b.taken && u.id == i && u.sent == |u.payload|;
        assert u in c.taken;
      }
    }
  }

  lemma SkippedValid(b: Box)
    requires Valid(b) && b.outbox != [] && b.active == None
    ensures b.outbox[0] < |b.commands| && b.outboxBytes >= b.commands[b.outbox[0]].size
    ensures Valid(Skipped(b))
  {
    PoppedQueue(b);
    TakenInOrder(b, Skipped(b), Taken(b.outbox[0], [], 0));
    SkippedHonest(b);
    SkippedQueue(b);
  }

  /** The next slice of the active frame went to the transport. */
  function Advanced(b: Box, n: nat): Box
    requires b.active.Some? && b.taken != [] && b.offset + n <= |b.payload|
  {
    b.(offset := b.offset + n, wire := b.wire + b.payload[b.offset..b.offset + n],
       taken := b.taken[..|b.taken| - 1] + [Taken(b.active.value, b.payload, b.offset + n)])
  }

  lemma AdvancedMembers(b: Box, n: nat)
    requires b.active.Some? && b.taken != [] && b.offset + n <= |b.payload|
    requires b.taken[|b.taken| - 1] == Taken(b.active.value, b.payload, b.offset)
    ensures forall t | t in b.taken && t.id != b.active.value :: t in Advanced(b, n).taken
    ensures forall t | t in Advanced(b, n).taken :: t in b.taken || t == Taken(b.active.value, b.payload, b.offset + n)
  {
    var rest := b.taken[..|b.taken| - 1];
    assert rest + [b.taken[|b.taken| - 1]] == b.taken;
  }

  /** Moving the last entry on keeps the order. */
  lemma LastMovesOn(taken: seq<Taken>, now: Taken)
    requires taken != [] && now.id == taken[|taken| - 1].id
    requires forall j, k | 0 <= j < k < |taken| :: taken[j].id < taken[k].id
    ensures var moved := taken[..|taken| - 1] + [now];
            forall j, k | 0 <= j < k < |moved| :: moved[j].id < moved[k].id
  {
    var moved := taken[..|taken| - 1] + [now];
    assert forall j | 0 <= j < |moved| :: moved[j].id == taken[j].id;
  }

  lemma AdvancedWire(b: Box, n: nat)
    requires b.active.Some? && b.taken != [] && b.offset + n <= |b.payload| && b.wire == Wire(b.taken)
    requires b.taken[|b.taken| - 1] == Taken(b.active.value, b.payload, b.offset)
    ensures Advanced(b, n).wire == Wire(Advanced(b, n).taken)
  {
    var rest, was := b.taken[..|b.taken| - 1], b.taken[|b.taken| - 1];
    assert rest + [was] == b.taken;
    WireAdvances(rest, was, n);
  }

  lemma AdvancedBounds(b: Box, n: nat)
    requires InOrder(b) && ActiveIsLast(b) && b.active.Some? && b.offset + n <= |b.payload|
    ensures forall t | t in Advanced(b, n).taken :: t.id < Left(Advanced(b, n)) && t.sent <= |t.payload|
  {
    AdvancedMembers(b, n);
    assert b.taken[|b.taken| - 1] in b.taken;
  }

  lemma AdvancedIds(b: Box, n: nat)
    requires InOrder(b) && ActiveIsLast(b) && b.active.Some? && b.offset + n <= |b.payload|
    ensures var c := Advanced(b, n).taken; forall j, k | 0 <= j < k < |c| :: c[j].id < c[k].id
  {
    LastMovesOn(b.taken, Taken(b.active.value, b.payload, b.offset + n));
  }

  lemma AdvancedInOrder(b: Box, n: nat)
    requires InOrder(b) && ActiveIsLast(b) && b.active.Some? && b.offset + n <= |b.payload|
    ensures InOrder(Advanced(b, n))
  {
    AdvancedBounds(b, n);
    AdvancedWire(b, n);
    AdvancedIds(b, n);
  }

  lemma WireAdvances(rest: seq<Taken>, t: Taken, n: nat)
    requires t.sent + n <= |t.payload|
    ensures Wire(rest + [t.(sent := t.sent + n)]) == Wire(rest + [t]) + t.payload[t.sent..t.sent + n]
  {
    TakenMore(rest, t);
    TakenMore(rest, t.(sent := t.sent + n));
    NextSlice(Wire(rest), t.payload, t.sent, n);
  }

  lemma NextSlice(wire: bytes, payload: bytes, sent: nat, n: nat)
    requires sent + n <= |payload|
    ensures wire + payload[..sent] + payload[sent..sent + n] == wire + payload[..sent + n]
  {
  }

  lemma AdvancedHonest(b: Box, n: nat)
    requires Valid(b) && b.active.Some? && b.offset + n <= |b.payload|
    ensures Honest(Advanced(b, n))
  {
    AdvancedMembers(b, n);
    var c := Advanced(b, n);
    forall i | 0 <= i < Left(c) && i < |c.commands| && c.commands[i].error == None && c.active != Some(i) && c.cut != Some(i)
      ensures exists t :: t in c.taken && t.id == i && t.sent == |t.payload|
    {
      var t :| t in b.taken && t.id == i && t.sent == |t.payload|;
      assert t in c.taken;
    }
  }

  /** The writer's `finally`: the active command is done, with the error it has by then. */
  function Finished(b: Box, error: Option<string>): Box
    requires b.active.Some? && b.active.value < |b.commands|
  {
    Done(b, b.active.value, error).(active := None)
  }

  lemma FinishedValid(b: Box, error: Option<string>)
    requires Queue(b) && Departed(b) && InOrder(b) && Honest(b) && b.active.Some? && CutShort(b)
    requires error == None ==> b.cut == b.active || exists t :: t in b.taken && t.id == b.active.value && t.sent == |t.payload|
    ensures Valid(Finished(b, error))
  {
    DoneQueue(b, b.active.value, error);
    var c := Finished(b, error);
    forall i | 0 <= i < Left(c) && i < |c.commands| && c.commands[i].error == None && c.active != Some(i) && c.cut != Some(i)
      ensures exists t :: t in c.taken && t.id == i && t.sent == |t.payload|
    {
      if i != b.active.value {
        assert b.commands[i].error == None;
      }
    }
  }

  /** `_fail_outbound`: every queued command, and the active one, is done with the error; the queue is empty. */
  function Failed(b: Box, error: string): Box
  {
    b.(commands := seq(|b.commands|, i requires 0 <= i < |b.commands| =>
                         if i >= Left(b) || b.active == Some(i) then b.commands[i].(done := true, error := Some(error))
                         else b.commands[i]),
       outbox := [], outboxBytes := 0)
  }

  lemma FailedValid(b: Box, error: string)
    requires Valid(b)
    ensures Valid(Failed(b, error))
  {
    var c := Failed(b, error);
    forall i | 0 <= i < Left(c) && i < |c.commands| && c.commands[i].error == None && c.active != Some(i) && c.cut != Some(i)
      ensures exists t :: t in c.taken && t.id == i && t.sent == |t.payload|
    {
      assert i < Left(b) && b.commands[i].error == None;
    }
  }

  /** No other command was touched. */
  ghost predicate OnlyCommand(a: Box, b: Box, id: nat)
  {
    |b.commands| == |a.commands| && forall i | 0 <= i < |a.commands| && i != id :: b.commands[i] == a.commands[i]
  }

  class Outbox {
    const maxCommands: nat
    const maxBytes: nat
    const writeChunk: nat
    var b: Box

    ghost predicate Bounded()
      reads this
    {
      writeChunk > 0 && Valid(b) && |b.outbox| <= maxCommands && b.outboxBytes <= maxBytes
    }

    constructor (maxCommands: nat, maxBytes: nat, writeChunk: nat)
      requires writeChunk > 0
      ensures Bounded() && b == EMPTY
      ensures this.maxCommands == maxCommands && this.maxBytes == maxBytes && this.writeChunk == writeChunk
    {
      this.maxCommands, this.maxBytes, this.writeChunk := maxCommands, maxBytes, writeChunk;
      b := EMPTY;
    }

    /** `_enqueue` up to its wait, and `_enqueue_control`; false where the queue is full. */
    method Enqueue(size: nat) returns (accepted: bool)
      requires Bounded()
      modifies this
      ensures Bounded()
      ensures accepted <==> |old(b).outbox| < maxCommands && old(b).outboxBytes + size <= maxBytes
      ensures b == if accepted then Queued(old(b), size) else old(b)
    {
      if |b.outbox| >= maxCommands || b.outboxBytes + size > maxBytes { return false; }
      QueuedValid(b, size);
      b := b.(commands := b.commands + [Command(size, false, None)], outbox := b.outbox + [|b.commands|],
              outboxBytes := b.outboxBytes + size);
      accepted := true;
    }

    /** The writer takes the oldest command and has it serialised; None where the engine raises. */
    method Take(serialised: Option<bytes>)
      requires Bounded() && b.active == None && b.outbox != [] && !b.stopped
      modifies this
      ensures Bounded() && b.outbox == old(b).outbox[1..] && |b.commands| == |old(b).commands| && b.wire == old(b).wire
      ensures serialised.Some? && serialised.value != [] ==> PopsFirst(old(b)) && b == Started(old(b), serialised.value)
      ensures serialised.Some? ==> b.taken == old(b).taken + [Taken(old(b).outbox[0], serialised.value, 0)]
      ensures OnlyCommand(old(b), b, old(b).outbox[0])
      ensures serialised == None ==>
                b.active == None && b.taken == old(b).taken && b.commands[old(b).outbox[0]].done
                && b.commands[old(b).outbox[0]].error == Some("send")
      ensures serialised == Some([]) ==>
                b.active == None && b.commands[old(b).outbox[0]] == old(b).commands[old(b).outbox[0]].(done := true)
      ensures serialised.Some? && serialised.value != [] ==> b.active == Some(old(b).outbox[0])
    {
      PoppedQueue(b);
      if serialised == None {
        UnserialisedValid(b, "send");
        b := Unserialised(b, "send");
      } else if serialised.value == [] {
        SkippedValid(b);
        b := Skipped(b);
      } else {
        StartedValid(b, serialised.value);
        b := Started(b, serialised.value);
      }
    }

    /** One turn of the slice loop: the next slice, at most `writeChunk` bytes, goes to the transport. */
    method SendSlice()
      requires Bounded() && b.active.Some?
      modifies this
      ensures Bounded() && b.outbox == old(b).outbox && |b.commands| == |old(b).commands| && b.stopped == old(b).stopped
      ensures var n := Min(writeChunk, |old(b).payload| - old(b).offset);
              && b.wire == old(b).wire + old(b).payload[old(b).offset..old(b).offset + n]
              && (b.active == None <==> old(b).offset + n == |old(b).payload|)
              && (b.active == None ==> b.commands[old(b).active.value] == old(b).commands[old(b).active.value].(done := true))
              && (b.active != None ==> old(b).taken != [] && b == Advanced(old(b), n))
      ensures OnlyCommand(old(b), b, old(b).active.value)
    {
      var id := b.active.value;
      var n := Min(writeChunk, |b.payload| - b.offset);
      var last := b.offset + n == |b.payload|;
      AdvancedInOrder(b, n);
      AdvancedHonest(b, n);
      b := Advanced(b, n);
      if last {
        assert b.taken[|b.taken| - 1] in b.taken;
        FinishedValid(b, b.commands[id].error);
        b := Finished(b, b.commands[id].error);
      }
    }

    /** The transport raises instead; an interrupt also ends the writer task. */
    method SendRaises(interrupted: bool)
      requires Bounded() && b.active.Some?
      modifies this
      ensures Bounded() && b.outbox == old(b).outbox && |b.commands| == |old(b).commands| && b.wire == old(b).wire
      ensures b.active == None && b.stopped == (old(b).stopped || interrupted)
      ensures b.commands[old(b).active.value].done && b.commands[old(b).active.value].error.Some?
      ensures OnlyCommand(old(b), b, old(b).active.value) && b.taken == old(b).taken && b.cut == old(b).cut
    {
      FinishedValid(b, Some("send"));
      b := Finished(b, Some("send"));
      if interrupted {
        b := b.(stopped := true);
      }
    }

    /** The writer task is cancelled at an await; only what `_fail_outbound` set before tells its waiter. */
    method CancelWriter()
      requires Bounded() && !b.stopped
      modifies this
      ensures Bounded() && b.stopped && b.active == None && b.outbox == old(b).outbox && b.wire == old(b).wire
      ensures |b.commands| == |old(b).commands|
      ensures old(b).active.Some? ==>
                b.commands[old(b).active.value] == old(b).commands[old(b).active.value].(done := true)
                && b.cut == old(b).active && b.taken == old(b).taken && OnlyCommand(old(b), b, old(b).active.value)
      ensures old(b).active == None ==> b == old(b).(stopped := true)
    {
      if b.active == None {
        b := b.(stopped := true);
      } else {
        var id := b.active.value;
        CutHonest(b);
        assert b.taken[|b.taken| - 1] in b.taken;
        b := b.(stopped := true, cut := b.active);
        FinishedValid(b, b.commands[id].error);
        b := Finished(b, b.commands[id].error);
      }
    }

    /** `_fail_outbound`: nothing stays queued, and every command that was queued or active is done with the error. */
    method FailOutbound(error: string)
      requires Bounded()
      modifies this
      ensures Bounded() && b == Failed(old(b), error)
      ensures forall i | i in old(b).outbox || old(b).active == Some(i) ::
                i < |b.commands| && b.commands[i].done && b.commands[i].error == Some(error)
    {
      ghost var before := b;
      FailedValid(b, error);
      QueueMembers(b);
      var failing := (if b.active.Some? then [b.active.value] else []) + b.outbox;
      FailingIds(b, failing);
      var commands := MarkFailed(b.commands, failing, error);
      assert commands == Failed(before, error).commands;
      b := b.(commands := commands, outbox := [], outboxBytes := 0);
    }
  }

  /** The loop of `_fail_outbound` over the commands it has gathered. */
  method MarkFailed(commands: seq<Command>, failing: seq<nat>, error: string) returns (marked: seq<Command>)
    requires forall i | i in failing :: i < |commands|
    ensures |marked| == |commands|
    ensures forall i | 0 <= i < |commands| ::
              marked[i] == if i in failing then commands[i].(done := true, error := Some(error)) else commands[i]
  {
    marked := commands;
    for k := 0 to |failing|
      invariant |marked| == |commands|
      invariant forall i | 0 <= i < |commands| ::
                  marked[i] == if i in failing[..k] then commands[i].(done := true, error := Some(error)) else commands[i]
    {
      assert failing[k] in failing && failing[..k + 1] == failing[..k] + [failing[k]];
      marked := marked[failing[k] := marked[failing[k]].(done := true, error := Some(error))];
    }
    assert failing[..|failing|] == failing;
  }

  lemma FailingIds(b: Box, failing: seq<nat>)
    requires Valid(b) && failing == (if b.active.Some? then [b.active.value] else []) + b.outbox
    ensures forall i | 0 <= i < |b.commands| :: i in failing <==> i >= Left(b) || b.active == Some(i)
    ensures forall i | i in failing :: i < |b.commands|
  {
    QueueMembers(b);
    forall i | 0 <= i < |b.commands| ensures i in failing <==> i >= Left(b) || b.active == Some(i) {
      if i >= Left(b) {
        assert b.outbox[i - Left(b)] == i;
      }
    }
  }

  lemma CutHonest(b: Box)
    requires Valid(b) && b.active.Some? && !b.stopped
    ensures Honest(b.(stopped := true, cut := b.active))
  {
    var c := b.(stopped := true, cut := b.active);
    forall i | 0 <= i < Left(c) && i < |c.commands| && c.commands[i].error == None && c.active != Some(i) && c.cut != Some(i)
      ensures exists t :: t in c.taken && t.id == i && t.sent == |t.payload|
    {
      assert b.cut == None;
    }
  }

  // ---------------------------------------------------------------- what a waiter and the peer can rely on

  function SentOf(t: Taken): bytes
  {
    if t.sent <= |t.payload| then t.payload[..t.sent] else t.payload
  }

  lemma {:induction false} WireSplit(taken: seq<Taken>, k: nat)
    requires k <= |taken|
    ensures Wire(taken) == Wire(taken[..k]) + Wire(taken[k..])
    decreases |taken|
  {
    if k == |taken| {
      assert taken[..k] == taken && taken[k..] == [];
    } else {
      var n := |taken| - 1;
      var front, back := taken[..n], taken[k..];
      WireSplit(front, k);
      assert front[..k] == taken[..k] && back[n - k] == taken[n];
      assert back[..n - k] == front[k..];
      WireLast(taken);
      WireLast(back);
      Regroup(Wire(taken[..k]), Wire(front[k..]), SentOf(taken[n]));
    }
  }

  lemma WireLast(taken: seq<Taken>)
    requires taken != []
    ensures Wire(taken) == Wire(taken[..|taken| - 1]) + SentOf(taken[|taken| - 1])
  {
  }

  lemma Regroup(a: bytes, b: bytes, c: bytes)
    ensures a + b + c == a + (b + c)
  {
  }

  lemma WireAt(taken: seq<Taken>, k: nat)
    requires k < |taken|
    ensures Wire(taken) == Wire(taken[..k]) + SentOf(taken[k]) + Wire(taken[k + 1..])
  {
    WireSplit(taken, k + 1);
    var upTo := taken[..k + 1];
    assert upTo[..k] == taken[..k] && upTo[k] == taken[k];
    WireLast(upTo);
  }

  /** The whole frame of a command is on the wire, in one piece. */
  ghost predicate WholeOnWire(b: Box, i: nat)
  {
    exists k: nat :: WholeAt(b, i, k)
  }

  /** It is the k-th command taken, and its frame stands between those before and behind it. */
  ghost predicate WholeAt(b: Box, i: nat, k: nat)
  {
    && k < |b.taken| && b.taken[k].id == i && b.taken[k].sent == |b.taken[k].payload|
    && b.wire == Wire(b.taken[..k]) + b.taken[k].payload + Wire(b.taken[k + 1..])
  }

  /**
   What a waiter told that its command went through can rely on: the whole frame is on the wire, if and only
   if the writer was not cancelled in it.
   */
  lemma AcknowledgedMeansWritten(b: Box, i: nat)
    requires Valid(b) && i < |b.commands| && b.commands[i].done && b.commands[i].error == None
    ensures WholeOnWire(b, i) <==> b.cut != Some(i)
  {
    assert i < Left(b) && b.active != Some(i);
    if b.cut != Some(i) {
      SentIsWhole(b, i);
    } else {
      CutIsNotWhole(b, i);
    }
  }

  lemma SentIsWhole(b: Box, i: nat)
    requires InOrder(b) && exists t :: t in b.taken && t.id == i && t.sent == |t.payload|
    ensures WholeOnWire(b, i)
  {
    var t :| t in b.taken && t.id == i && t.sent == |t.payload|;
    var k :| 0 <= k < |b.taken| && b.taken[k] == t;
    WireAt(b.taken, k);
    assert t.payload[..|t.payload|] == t.payload;
    assert WholeAt(b, i, k);
  }

  lemma CutIsNotWhole(b: Box, i: nat)
    requires InOrder(b) && exists t :: t in b.taken && t.id == i && t.sent < |t.payload|
    ensures !WholeOnWire(b, i)
  {
    var t :| t in b.taken && t.id == i && t.sent < |t.payload|;
    var j :| 0 <= j < |b.taken| && b.taken[j] == t;
    forall k | 0 <= k < |b.taken| && b.taken[k].id == i ensures b.taken[k].sent < |b.taken[k].payload| {
      assert k == j;
    }
  }

  /** The writer is cancelled in the middle of a frame: half of it is on the wire, and its waiter is told it went through. */
  method WriterCancelledInAFrame() returns (o: Outbox)
    ensures o.b.cut == Some(0) && o.b.wire == [1] && o.b.taken == [Taken(0, [1, 2], 1)]
    ensures |o.b.commands| == 1 && o.b.commands[0].done && o.b.commands[0].error == None && !WholeOnWire(o.b, 0)
  {
    o := new Outbox(1, 2, 1);
    var accepted := o.Enqueue(2);
    o.Take(Some([1, 2]));
    o.SendSlice();
    assert o.b == Advanced(Started(Queued(EMPTY, 2), [1, 2]), 1);
    o.CancelWriter();
    AcknowledgedMeansWritten(o.b, 0);
  }

  /** Commands leave in the order they were queued, and so do their bytes; what is still queued is younger. */
  lemma FirstInFirstOut(b: Box, j: nat, k: nat)
    requires Valid(b) && j < k < |b.taken|
    ensures b.taken[j].id < b.taken[k].id
    ensures b.wire == Wire(b.taken[..j]) + SentOf(b.taken[j]) + Wire(b.taken[j + 1..k]) + SentOf(b.taken[k]) + Wire(b.taken[k + 1..])
    ensures forall i | i in b.outbox :: i > b.taken[k].id
  {
    WireAtTwo(b.taken, j, k);
    QueueMembers(b);
    assert b.taken[k] in b.taken;
  }

  lemma WireAtTwo(taken: seq<Taken>, j: nat, k: nat)
    requires j < k < |taken|
    ensures Wire(taken) == Wire(taken[..j]) + SentOf(taken[j]) + Wire(taken[j + 1..k]) + SentOf(taken[k]) + Wire(taken[k + 1..])
  {
    WireAt(taken, k);
    WireAt(taken[..k], j);
    assert taken[..k][..j] == taken[..j] && taken[..k][j] == taken[j] && taken[..k][j + 1..] == taken[j + 1..k];
  }
}
