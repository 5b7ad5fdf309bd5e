/**
 The read side of a WebSocket connection: reassembly of fragmented messages (`_drain_protocol_events`),
 the bounded inbox (`_deliver_message`, `receive`) and the replies control frames call for.

 UTF-8 is a pair of functions with the two laws `Codec` names; the protocol engine is the source of events.
 */
module Inboxes {
  import opened Bytes
  import opened Optional
  import opened Outboxes

  datatype Codec = Codec(encode: string -> bytes, decode: bytes -> Option<string>)

  ghost predicate Lawful(codec: Codec)
  {
    && (forall a, b :: codec.encode(a + b) == codec.encode(a) + codec.encode(b))
    && (forall a :: codec.decode(codec.encode(a)) == Some(a))
  }

  datatype Data = Text(text: string) | Binary(octets: bytes)

  datatype Event =
    | Fragment(data: Data, finished: bool)
    | PingFrame(payload: bytes)
    | PongFrame(payload: bytes)
    | CloseFrame(code: int, reason: string)

  /** A control frame the reader queues: the answer to a Ping or to a Close. */
  datatype Reply = PongReply(payload: bytes) | CloseReply(code: int, reason: string)

  datatype Limits = Limits(maxMessage: nat, maxInboxMessages: nat, maxInboxBytes: nat)

  function Encoded(codec: Codec, d: Data): bytes
  {
    match d
    case Text(t) => codec.encode(t)
    case Binary(o) => o
  }

  /** `_message_size`. */
  function Size(codec: Codec, d: Data): nat { |Encoded(codec, d)| }

  function InboxBytes(codec: Codec, inbox: seq<Data>): nat
  {
    if inbox == [] then 0 else Size(codec, inbox[0]) + InboxBytes(codec, inbox[1..])
  }

  // ---------------------------------------------------------------- section 5.4 of RFC 6455, on whole histories

  function Join(a: Data, b: Data): Data
    requires a.Text? == b.Text?
  {
    if a.Text? then Text(a.text + b.text) else Binary(a.octets + b.octets)
  }

  /** The messages completed by a history, in order, and the one still open; Mixed if a message changes type. */
  datatype Assembly = Assembly(done: seq<Data>, open: Option<Data>) | Mixed

  function NextAssembly(before: Assembly, e: Event): Assembly
  {
    if before.Mixed? || !e.Fragment? then before
    else if before.open.Some? && before.open.value.Text? != e.data.Text? then Mixed
    else
      var whole := if before.open == None then e.data else Join(before.open.value, e.data);
      if e.finished then Assembly(before.done + [whole], None) else Assembly(before.done, Some(whole))
  }

  function Assemble(log: seq<Event>): Assembly
  {
    if log == [] then Assembly([], None) else NextAssembly(Assemble(log[..|log| - 1]), log[|log| - 1])
  }

  lemma AssembleMore(log: seq<Event>, e: Event)
    ensures Assemble(log + [e]) == NextAssembly(Assemble(log), e)
  {
    assert (log + [e])[..|log|] == log;
  }

  /** All fragments of a run of events joined. */
  function Joined(text: bool, events: seq<Event>): Data
    requires forall e | e in events && e.Fragment? :: e.data.Text? == text
    ensures Joined(text, events).Text? == text
  {
    if events == [] then if text then Text("") else Binary([])
    else
      var n := |events| - 1;
      assert events[n] in events && forall e | e in events[..n] :: e in events;
      var front := Joined(text, events[..n]);
      if events[n].Fragment? then Join(front, events[n].data) else front
  }

  lemma JoinEmpty(d: Data)
    ensures Join(if d.Text? then Text("") else Binary([]), d) == d
  {
    if d.Text? {
      assert "" + d.text == d.text;
    } else {
      assert [] + d.octets == d.octets;
    }
  }

  /** Unfinished fragments of one type, with control frames anywhere between them. */
  lemma {:induction false} OpenIsItsFragments(before: seq<Event>, text: bool, part: seq<Event>)
    requires Assemble(before).Assembly? && Assemble(before).open == None
    requires forall e | e in part && e.Fragment? :: e.data.Text? == text && !e.finished
    ensures Assemble(before + part) ==
            Assembly(Assemble(before).done, if exists e :: e in part && e.Fragment? then Some(Joined(text, part)) else None)
    ensures (forall e | e in part :: !e.Fragment?) ==> Joined(text, part) == if text then Text("") else Binary([])
  {
    if part == [] {
      assert before + part == before;
    } else {
      var n := |part| - 1;
      var front, e := part[..n], part[n];
      assert forall x :: x in part <==> x in front || x == e;
      OpenIsItsFragments(before, text, front);
      assert before + part == before + front + [e];
      AssembleMore(before + front, e);
      if e.Fragment? {
        JoinEmpty(e.data);
      }
    }
  }

  /**
   Section 5.4: fragments of one message, with control frames between them in any number, complete one
   message, and it is exactly the fragments joined.
   */
  lemma MessageIsItsFragments(before: seq<Event>, text: bool, part: seq<Event>, last: Data)
    requires Assemble(before).Assembly? && Assemble(before).open == None
    requires forall e | e in part && e.Fragment? :: e.data.Text? == text && !e.finished
    requires last.Text? == text
    ensures Assemble(before + part + [Fragment(last, true)]) ==
            Assembly(Assemble(before).done + [Join(Joined(text, part), last)], None)
  {
    OpenIsItsFragments(before, text, part);
    AssembleMore(before + part, Fragment(last, true));
    JoinEmpty(last);
  }

  // ---------------------------------------------------------------- sections 5.5.1 to 5.5.3, on whole histories

  /** The reason that is answered and reported: of a Close for a broken protocol or payload, a fixed one. */
  function ReasonOf(code: int, reason: string): string
  {
    if code == 1002 then "protocol error" else if code == 1007 then "invalid payload" else reason
  }

  predicate HasClose(events: seq<Event>)
  {
    exists e :: e in events && e.CloseFrame?
  }

  /** The control frames a history calls for, in order: a Pong for each Ping, and one Close unless one was sent before. */
  function Replies(events: seq<Event>, closeSent: bool): seq<Reply>
  {
    if events == [] then []
    else
      var rest, e := events[..|events| - 1], events[|events| - 1];
      Replies(rest, closeSent)
      + if e.PingFrame? then [PongReply(e.payload)]
        else if e.CloseFrame? && !closeSent && !HasClose(rest) then [CloseReply(e.code, ReasonOf(e.code, e.reason))]
        else []
  }

  function ReplySize(codec: Codec, reply: Reply): nat
  {
    match reply
    case PongReply(payload) => |payload|
    case CloseReply(code, reason) => if code == 1005 then 0 else 2 + |codec.encode(reason)|
  }

  /** The outbox with one command more for each of these frames. */
  function WithReplies(codec: Codec, b: Box, replies: seq<Reply>): Box
  {
    if replies == [] then b
    else Queued(WithReplies(codec, b, replies[..|replies| - 1]), ReplySize(codec, replies[|replies| - 1]))
  }

  lemma RepliesMore(events: seq<Event>, e: Event, closeSent: bool)
    ensures Replies(events + [e], closeSent) ==
            Replies(events, closeSent)
            + if e.PingFrame? then [PongReply(e.payload)]
              else if e.CloseFrame? && !closeSent && !HasClose(events) then [CloseReply(e.code, ReasonOf(e.code, e.reason))]
              else []
    ensures HasClose(events + [e]) <==> HasClose(events) || e.CloseFrame?
  {
    assert (events + [e])[..|events|] == events;
    assert forall x :: x in events + [e] <==> x in events || x == e;
  }

  lemma WithRepliesMore(codec: Codec, b: Box, replies: seq<Reply>, reply: Reply)
    ensures WithReplies(codec, b, replies + [reply]) == Queued(WithReplies(codec, b, replies), ReplySize(codec, reply))
  {
    assert (replies + [reply])[..|replies|] == replies;
  }

  // ---------------------------------------------------------------- the reader's state

  datatype Reader = Reader(
    isText: Option<bool>,        // `_message_kind`
    buffer: bytes,
    messageBytes: nat,
    inbox: seq<Data>,
    inboxBytes: nat,
    received: seq<Data>,         // handed to the application so far
    log: seq<Event>,             // events handled so far
    closeSent: bool,
    peerClosed: bool,
    disconnect: Option<(int, string)>,
    pendingPing: Option<bytes>,
    replies: seq<Reply>)         // control frames queued so far

  const START := Reader(None, [], 0, [], 0, [], [], false, false, None, None, [])

  /** The counter is exact and within its limits. */
  ghost predicate Bounded(codec: Codec, limits: Limits, r: Reader)
  {
    && r.inboxBytes == InboxBytes(codec, r.inbox) <= limits.maxInboxBytes
    && |r.inbox| <= limits.maxInboxMessages
  }

  /** What was handed out, then the inbox, are the completed messages; the buffer is the open one. */
  ghost predicate Faithful(codec: Codec, limits: Limits, r: Reader)
  {
    && Assemble(r.log).Assembly?
    && r.received + r.inbox == Assemble(r.log).done
    && var open := Assemble(r.log).open;
       && r.isText == (if open == None then None else Some(open.value.Text?))
       && (open.Some? ==> r.buffer == Encoded(codec, open.value) && r.messageBytes == |r.buffer| <= limits.maxMessage)
  }

  ghost predicate Intact(codec: Codec, limits: Limits, r: Reader)
  {
    Bounded(codec, limits, r) && Faithful(codec, limits, r)
  }

  lemma {:induction false} InboxMore(codec: Codec, inbox: seq<Data>, d: Data)
    ensures InboxBytes(codec, inbox + [d]) == InboxBytes(codec, inbox) + Size(codec, d)
  {
    if inbox != [] {
      InboxMore(codec, inbox[1..], d);
      assert (inbox + [d])[1..] == inbox[1..] + [d];
    }
  }

  lemma ControlKeeps(codec: Codec, limits: Limits, r: Reader, e: Event)
    requires Intact(codec, limits, r) && !e.Fragment?
    ensures Intact(codec, limits, r.(log := r.log + [e]))
  {
    AssembleMore(r.log, e);
  }

  /** The message the buffer and one more fragment make. */
  function Whole(r: Reader, d: Data): Data
  {
    var open := Assemble(r.log);
    if open.Mixed? || open.open == None || open.open.value.Text? != d.Text? then d else Join(open.open.value, d)
  }

  lemma WholeEncodes(codec: Codec, limits: Limits, r: Reader, d: Data)
    requires Lawful(codec) && Intact(codec, limits, r) && (r.isText == None || r.isText == Some(d.Text?))
    ensures Encoded(codec, Whole(r, d)) == (if r.isText == None then [] else r.buffer) + Encoded(codec, d)
    ensures Whole(r, d).Text? == d.Text?
  {
  }

  /** An unfinished fragment was added. */
  lemma MorePartKeeps(codec: Codec, limits: Limits, r: Reader, d: Data)
    requires Lawful(codec) && Intact(codec, limits, r) && (r.isText == None || r.isText == Some(d.Text?))
    requires |Encoded(codec, Whole(r, d))| <= limits.maxMessage
    ensures Intact(codec, limits, r.(isText := Some(d.Text?), buffer := Encoded(codec, Whole(r, d)),
                                    messageBytes := |Encoded(codec, Whole(r, d))|, log := r.log + [Fragment(d, false)]))
  {
    AssembleMore(r.log, Fragment(d, false));
    var t := r.(isText := Some(d.Text?), buffer := Encoded(codec, Whole(r, d)),
                messageBytes := |Encoded(codec, Whole(r, d))|, log := r.log + [Fragment(d, false)]);
    assert Assemble(t.log) == Assembly(Assemble(r.log).done, Some(Whole(r, d)));
  }

  /** A last fragment was added and the message delivered. */
  lemma DeliveredKeeps(codec: Codec, limits: Limits, r: Reader, d: Data)
    requires Lawful(codec) && Intact(codec, limits, r) && (r.isText == None || r.isText == Some(d.Text?))
    requires |r.inbox| < limits.maxInboxMessages
    requires r.inboxBytes + Size(codec, Whole(r, d)) <= limits.maxInboxBytes
    ensures Intact(codec, limits, r.(isText := None, buffer := [], messageBytes := 0, inbox := r.inbox + [Whole(r, d)],
                                    inboxBytes := r.inboxBytes + Size(codec, Whole(r, d)), log := r.log + [Fragment(d, true)]))
  {
    AssembleMore(r.log, Fragment(d, true));
    InboxMore(codec, r.inbox, Whole(r, d));
    assert r.received + (r.inbox + [Whole(r, d)]) == r.received + r.inbox + [Whole(r, d)];
    assert Assemble(r.log + [Fragment(d, true)]) == Assembly(Assemble(r.log).done + [Whole(r, d)], None);
  }

  /** What a raising event handler leaves: the messages before it, none skipped. */
  ghost predicate NothingSkipped(codec: Codec, limits: Limits, before: Reader, after: Reader)
  {
    && Bounded(codec, limits, after)
    && after.received == before.received && after.inbox == before.inbox && after.inboxBytes == before.inboxBytes
    && after.log == before.log && SameControl(before, after)
  }

  /** Control frames and their answers, and the reason to disconnect, stand as they were. */
  predicate SameControl(a: Reader, b: Reader)
  {
    && b.closeSent == a.closeSent && b.disconnect == a.disconnect
    && b.pendingPing == a.pendingPing && b.replies == a.replies
  }

  /** What one event does about control frames: the frames queued for it, in the outbox too; the pending Ping; the disconnect. */
  ghost predicate Answers(codec: Codec, a: Reader, box: Box, e: Event, b: Reader, after: Box)
  {
    && b.replies == a.replies + Replies([e], a.closeSent) && after == WithReplies(codec, box, Replies([e], a.closeSent))
    && b.closeSent == (a.closeSent || e.CloseFrame?)
    && b.pendingPing == (if e.PongFrame? && a.pendingPing == Some(e.payload) then None else a.pendingPing)
    && b.disconnect == (if e.CloseFrame? && a.disconnect == None then Some((e.code, ReasonOf(e.code, e.reason))) else a.disconnect)
  }

  /** The frames queued for some events, whether a Close was among them and whether one echoed the pending Ping. */
  predicate AnsweredBy(a: Reader, b: Reader, replies: seq<Reply>, closed: bool, echoed: bool)
  {
    && b.replies == a.replies + replies
    && b.closeSent == (a.closeSent || closed)
    && b.pendingPing == (if echoed then None else a.pendingPing)
    && (!closed || a.disconnect.Some? ==> b.disconnect == a.disconnect)
  }

  /** The same for the events handled since, and for those of a whole call. */
  ghost predicate AnswersAll(codec: Codec, a: Reader, box: Box, events: seq<Event>, b: Reader, after: Box)
  {
    && AnsweredBy(a, b, Replies(events, a.closeSent), HasClose(events), Echoed(events, a.pendingPing))
    && after == WithReplies(codec, box, Replies(events, a.closeSent))
  }

  lemma AnswersNothing(codec: Codec, a: Reader, box: Box)
    ensures AnswersAll(codec, a, box, [], a, box)
  {
    assert a.replies + [] == a.replies;
  }

  lemma OneReply(e: Event, closeSent: bool)
    ensures Replies([e], closeSent) ==
            if e.PingFrame? then [PongReply(e.payload)]
            else if e.CloseFrame? && !closeSent then [CloseReply(e.code, ReasonOf(e.code, e.reason))]
            else []
  {
    RepliesMore([], e, closeSent);
    assert [] + [e] == [e];
  }

  lemma OneQueued(codec: Codec, b: Box, reply: Reply)
    ensures WithReplies(codec, b, [reply]) == Queued(b, ReplySize(codec, reply)) && WithReplies(codec, b, []) == b
  {
    WithRepliesMore(codec, b, [], reply);
    assert [] + [reply] == [reply];
  }

  /** One event more: its answer comes behind the others. */
  lemma RepliesJoin(codec: Codec, box: Box, events: seq<Event>, e: Event, closeSent: bool)
    ensures Replies(events + [e], closeSent) == Replies(events, closeSent) + Replies([e], closeSent || HasClose(events))
    ensures WithReplies(codec, box, Replies(events + [e], closeSent)) ==
            WithReplies(codec, WithReplies(codec, box, Replies(events, closeSent)), Replies([e], closeSent || HasClose(events)))
  {
    RepliesMore(events, e, closeSent);
    OneReply(e, closeSent || HasClose(events));
    var before, one := Replies(events, closeSent), Replies([e], closeSent || HasClose(events));
    if one == [] {
      assert before + one == before;
    } else {
      assert one == [one[0]];
      WithRepliesMore(codec, box, before, one[0]);
      OneQueued(codec, WithReplies(codec, box, before), one[0]);
    }
  }

  /** One event more. */
  lemma AnsweredOn(a: Reader, from: Reader, b: Reader, replies: seq<Reply>, echoed: bool, e: Event, reply: seq<Reply>)
    requires AnsweredBy(a, from, replies, false, echoed)
    requires b.replies == from.replies + reply && b.closeSent == (from.closeSent || e.CloseFrame?)
    requires b.pendingPing == if e.PongFrame? && from.pendingPing == Some(e.payload) then None else from.pendingPing
    requires b.disconnect == if e.CloseFrame? && from.disconnect == None then Reported(e) else from.disconnect
    ensures AnsweredBy(a, b, replies + reply, e.CloseFrame?, echoed || (e.PongFrame? && a.pendingPing == Some(e.payload)))
  {
    assert a.replies + replies + reply == a.replies + (replies + reply);
  }

  lemma AnswersMore(codec: Codec, a: Reader, box: Box, events: seq<Event>, from: Reader, mid: Box, e: Event, b: Reader, after: Box)
    requires AnswersAll(codec, a, box, events, from, mid) && Answers(codec, from, mid, e, b, after) && !HasClose(events)
    ensures AnswersAll(codec, a, box, events + [e], b, after)
  {
    RepliesJoin(codec, box, events, e, a.closeSent);
    RepliesMore(events, e, a.closeSent);
    EchoMore(events, e, a.pendingPing);
    AnsweredOn(a, from, b, Replies(events, a.closeSent), Echoed(events, a.pendingPing), e, Replies([e], from.closeSent));
  }

  predicate Echoed(events: seq<Event>, ping: Option<bytes>)
  {
    exists e :: e in events && e.PongFrame? && ping == Some(e.payload)
  }

  lemma EchoMore(events: seq<Event>, e: Event, ping: Option<bytes>)
    ensures Echoed(events + [e], ping) <==> Echoed(events, ping) || (e.PongFrame? && ping == Some(e.payload))
  {
    assert forall x :: x in events + [e] <==> x in events || x == e;
  }

  predicate Full(box: Box, maxCommands: nat, maxBytes: nat, size: nat)
  {
    |box.outbox| >= maxCommands || box.outboxBytes + size > maxBytes
  }

  datatype Outcome = Continue | Closed | CapacityError | ProtocolError

  /** Where an event stands against the limits: a message of two types, too large, or one too many; an answer with no room. */
  ghost function Verdict(codec: Codec, limits: Limits, r: Reader, box: Box, maxCommands: nat, maxBytes: nat, e: Event): Outcome
  {
    match e
    case Fragment(data, finished) =>
      if r.isText.Some? && r.isText != Some(data.Text?) then ProtocolError
      else if Size(codec, Whole(r, data)) > limits.maxMessage
           || (finished && (|r.inbox| >= limits.maxInboxMessages
                            || r.inboxBytes + Size(codec, Whole(r, data)) > limits.maxInboxBytes)) then CapacityError
      else Continue
    case PingFrame(payload) => if Full(box, maxCommands, maxBytes, |payload|) then CapacityError else Continue
    case PongFrame(_) => Continue
    case CloseFrame(code, reason) =>
      if !r.closeSent && Full(box, maxCommands, maxBytes, ReplySize(codec, CloseReply(code, ReasonOf(code, reason))))
      then CapacityError else Closed
  }

  /** The reader once a Close was handled, but for its log. */
  function AfterClose(r: Reader, e: Event): Reader
    requires e.CloseFrame?
  {
    var reply := CloseReply(e.code, ReasonOf(e.code, e.reason));
    r.(peerClosed := true, closeSent := true, replies := if r.closeSent then r.replies else r.replies + [reply],
       disconnect := if r.disconnect == None then Reported(e) else r.disconnect)
  }

  lemma CloseAnswered(codec: Codec, limits: Limits, a: Reader, box: Box, e: Event, b: Reader)
    requires Intact(codec, limits, a) && e.CloseFrame? && b == AfterClose(a, e)
    ensures var after := if a.closeSent then box else Queued(box, ReplySize(codec, CloseReply(e.code, ReasonOf(e.code, e.reason))));
            Answers(codec, a, box, e, b.(log := a.log + [e]), after)
    ensures Intact(codec, limits, b.(log := a.log + [e]))
  {
    OneReply(e, a.closeSent);
    OneQueued(codec, box, CloseReply(e.code, ReasonOf(e.code, e.reason)));
    assert a.replies + [] == a.replies;
    ControlKeeps(codec, limits, b, e);
  }

  /** The code and reason of a Close, as they are reported. */
  function Reported(e: Event): Option<(int, string)>
    requires e.CloseFrame?
  {
    Some((e.code, ReasonOf(e.code, e.reason)))
  }

  /** The events are in the log, and all their answers in the outbox. */
  ghost predicate Drained(codec: Codec, a: Reader, box: Box, events: seq<Event>, b: Reader, after: Box)
  {
    && b.received == a.received && b.log == a.log + events
    && Assemble(b.log).Assembly? && AnswersAll(codec, a, box, events, b, after)
  }

  lemma DrainedMore(codec: Codec, a: Reader, box: Box, events: seq<Event>, from: Reader, mid: Box, e: Event, b: Reader, after: Box)
    requires Drained(codec, a, box, events, from, mid) && Answers(codec, from, mid, e, b, after) && !HasClose(events)
    requires b.received == from.received && b.log == from.log + [e] && Assemble(b.log).Assembly?
    ensures Drained(codec, a, box, events + [e], b, after)
    ensures b.disconnect == if e.CloseFrame? && a.disconnect == None then Reported(e) else a.disconnect
  {
    AnswersMore(codec, a, box, events, from, mid, e, b, after);
    assert a.log + events + [e] == a.log + (events + [e]);
  }

  lemma SkippedNothing(codec: Codec, limits: Limits, a: Reader, box: Box, events: seq<Event>, from: Reader, mid: Box, b: Reader)
    requires Drained(codec, a, box, events, from, mid) && Intact(codec, limits, from) && NothingSkipped(codec, limits, from, b)
    ensures Drained(codec, a, box, events, b, mid) && b.received + b.inbox == Assemble(b.log).done
  {
  }

  lemma NextPrefix(events: seq<Event>, n: nat)
    requires n < |events|
    ensures events[..n + 1] == events[..n] + [events[n]] && events[..n + 1][..n] == events[..n]
    ensures HasClose(events[..n + 1]) <==> HasClose(events[..n]) || events[n].CloseFrame?
  {
    RepliesMore(events[..n], events[n], false);
  }

  class WebSocketReader {
    const codec: Codec
    const limits: Limits
    const outbox: Outbox
    var r: Reader

    constructor (codec: Codec, limits: Limits, outbox: Outbox)
      requires Lawful(codec)
      ensures this.codec == codec && this.limits == limits && this.outbox == outbox && r == START && Intact(codec, limits, r)
    {
      this.codec, this.limits, this.outbox, r := codec, limits, outbox, START;
    }

    ghost predicate Ready()
      reads this, outbox
    {
      Lawful(codec) && Intact(codec, limits, r) && outbox.Bounded()
    }

    /** `_deliver_message`; false where the inbox is full, and then nothing changes. */
    method Deliver(value: Data) returns (accepted: bool)
      modifies this
      ensures accepted <==> |old(r).inbox| < limits.maxInboxMessages && old(r).inboxBytes + Size(codec, value) <= limits.maxInboxBytes
      ensures r == if accepted then old(r).(inbox := old(r).inbox + [value], inboxBytes := old(r).inboxBytes + Size(codec, value))
                   else old(r)
    {
      var size := |Encoded(codec, value)|;
      if |r.inbox| >= limits.maxInboxMessages || r.inboxBytes + size > limits.maxInboxBytes { return false; }
      r := r.(inbox := r.inbox + [value], inboxBytes := r.inboxBytes + size);
      accepted := true;
    }

    /** A data frame: the fragment joins the open message; the last one delivers it. */
    method DataFrame(data: Data, finished: bool) returns (outcome: Outcome)
      requires Ready()
      modifies this
      ensures outcome == Continue ==> Intact(codec, limits, r) && r.log == old(r).log + [Fragment(data, finished)]
      ensures outcome != Continue ==> NothingSkipped(codec, limits, old(r), r)
      ensures outcome != Closed && r.received == old(r).received && SameControl(old(r), r)
      ensures outcome == ProtocolError ==> r.isText == old(r).isText
      ensures outcome == CapacityError ==> r.isText == None || r.isText == Some(data.Text?)
      ensures outcome == ProtocolError <==> old(r).isText.Some? && old(r).isText != Some(data.Text?)
      ensures outcome == CapacityError <==>
                && (old(r).isText == None || old(r).isText == Some(data.Text?))
                && (|| Size(codec, Whole(old(r), data)) > limits.maxMessage
                    || (finished && (|| |old(r).inbox| >= limits.maxInboxMessages
                                     || old(r).inboxBytes + Size(codec, Whole(old(r), data)) > limits.maxInboxBytes)))
    {
      ghost var before := r;
      if r.isText == None {
        r := r.(isText := Some(data.Text?), buffer := [], messageBytes := 0);
      }
      if r.isText != Some(data.Text?) { return ProtocolError; }
      WholeEncodes(codec, limits, before, data);
      r := r.(messageBytes := r.messageBytes + |Encoded(codec, data)|);
      if r.messageBytes > limits.maxMessage { return CapacityError; }
      r := r.(buffer := r.buffer + Encoded(codec, data));
      ghost var whole := Whole(before, data);
      assert r.buffer == Encoded(codec, whole);
      if !finished {
        MorePartKeeps(codec, limits, before, data);
        r := r.(log := r.log + [Fragment(data, false)]);
        return Continue;
      }
      var value := if data.Text? then var t := codec.decode(r.buffer); if t.Some? then Text(t.value) else Text("")
                   else Binary(r.buffer);
      assert value == whole;
      r := r.(isText := None, buffer := [], messageBytes := 0);
      var accepted := Deliver(value);
      if !accepted { return CapacityError; }
      DeliveredKeeps(codec, limits, before, data);
      r := r.(log := r.log + [Fragment(data, true)]);
      outcome := Continue;
    }

    /** A Ping is answered with its payload; a Pong settles the pending Ping if it echoes it. */
    method PingOrPong(e: Event) returns (outcome: Outcome)
      requires Ready() && (e.PingFrame? || e.PongFrame?)
      modifies this, outbox
      ensures outbox.Bounded() && r.received == old(r).received && r.inbox == old(r).inbox
      ensures outcome == Continue ==>
                && Intact(codec, limits, r) && r.log == old(r).log + [e]
                && Answers(codec, old(r), old(outbox.b), e, r, outbox.b)
      ensures outcome == if e.PingFrame? && Full(old(outbox.b), outbox.maxCommands, outbox.maxBytes, |e.payload|)
                         then CapacityError else Continue
      ensures outcome != Continue ==> NothingSkipped(codec, limits, old(r), r) && outbox.b == old(outbox.b)
    {
      OneReply(e, r.closeSent);
      OneQueued(codec, outbox.b, if e.PingFrame? then PongReply(e.payload) else PongReply([]));
      if e.PingFrame? {
        var accepted := outbox.Enqueue(|e.payload|);
        if !accepted { return CapacityError; }
        r := r.(replies := r.replies + [PongReply(e.payload)]);
      } else if r.pendingPing == Some(e.payload) {
        r := r.(pendingPing := None);
      }
      ControlKeeps(codec, limits, r, e);
      r := r.(log := r.log + [e]);
      outcome := Continue;
    }

    /** The answer to a Close, unless one was sent already. */
    method AnswerClose(code: int, reason: string) returns (accepted: bool)
      requires outbox.Bounded()
      modifies this, outbox
      ensures outbox.Bounded()
      ensures accepted <==>
                old(r).closeSent || !Full(old(outbox.b), outbox.maxCommands, outbox.maxBytes, ReplySize(codec, CloseReply(code, reason)))
      ensures !accepted ==> r == old(r) && outbox.b == old(outbox.b)
      ensures accepted && old(r).closeSent ==> r == old(r) && outbox.b == old(outbox.b)
      ensures accepted && !old(r).closeSent ==>
                && r == old(r).(closeSent := true, replies := old(r).replies + [CloseReply(code, reason)])
                && outbox.b == Queued(old(outbox.b), ReplySize(codec, CloseReply(code, reason)))
    {
      if r.closeSent { return true; }
      accepted := outbox.Enqueue(if code == 1005 then 0 else 2 + |codec.encode(reason)|);
      if accepted {
        r := r.(closeSent := true, replies := r.replies + [CloseReply(code, reason)]);
      }
    }

    /** A Close is answered unless one was sent already; the first reason to disconnect stands. */
    method PeerCloses(e: Event) returns (outcome: Outcome)
      requires Ready() && e.CloseFrame?
      modifies this, outbox
      ensures outbox.Bounded() && r.received == old(r).received && r.inbox == old(r).inbox && r.peerClosed
      ensures outcome == Closed ==>
                && Intact(codec, limits, r) && r.log == old(r).log + [e]
                && Answers(codec, old(r), old(outbox.b), e, r, outbox.b)
      ensures outcome == if !old(r).closeSent && Full(old(outbox.b), outbox.maxCommands, outbox.maxBytes,
                                                      ReplySize(codec, CloseReply(e.code, ReasonOf(e.code, e.reason))))
                         then CapacityError else Closed
      ensures outcome != Closed ==> NothingSkipped(codec, limits, old(r), r) && outbox.b == old(outbox.b)
    {
      ghost var before, box := r, outbox.b;
      r := r.(peerClosed := true);
      var reason := if e.code == 1002 then "protocol error" else if e.code == 1007 then "invalid payload" else e.reason;
      var accepted := AnswerClose(e.code, reason);
      if !accepted { return CapacityError; }
      if r.disconnect == None {
        r := r.(disconnect := Some((e.code, reason)));
      }
      CloseAnswered(codec, limits, before, box, e, r);
      r := r.(log := r.log + [e]);
      outcome := Closed;
    }

    /** One event of the loop in `_drain_protocol_events`. */
    method HandleEvent(e: Event) returns (outcome: Outcome)
      requires Ready()
      modifies this, outbox
      ensures outbox.Bounded() && r.received == old(r).received
      ensures outcome == Continue || outcome == Closed ==>
                && Intact(codec, limits, r) && r.log == old(r).log + [e]
                && Answers(codec, old(r), old(outbox.b), e, r, outbox.b)
      ensures outcome == Closed ==> r.peerClosed
      ensures outcome == CapacityError || outcome == ProtocolError ==>
                NothingSkipped(codec, limits, old(r), r) && outbox.b == old(outbox.b)
      ensures outcome == Verdict(codec, limits, old(r), old(outbox.b), outbox.maxCommands, outbox.maxBytes, e)
      ensures outcome == CapacityError || outcome == ProtocolError ==>
                outcome == Verdict(codec, limits, r, outbox.b, outbox.maxCommands, outbox.maxBytes, e)
    {
      OneReply(e, r.closeSent);
      OneQueued(codec, outbox.b, PongReply([]));
      if e.Fragment? {
        outcome := DataFrame(e.data, e.finished);
      } else if e.CloseFrame? {
        outcome := PeerCloses(e);
      } else {
        outcome := PingOrPong(e);
      }
    }

    /** The loop body: `before` and `box` are the reader and the outbox at the start of the call, `n` events are handled. */
    method HandleNext(events: seq<Event>, n: nat, ghost before: Reader, ghost box: Box) returns (outcome: Outcome)
      requires Ready() && n < |events| && !HasClose(events[..n]) && Drained(codec, before, box, events[..n], r, outbox.b)
      modifies this, outbox
      ensures outbox.Bounded() && r.received == old(r).received
      ensures outcome == Continue || outcome == Closed ==>
                && Intact(codec, limits, r) && Drained(codec, before, box, events[..n + 1], r, outbox.b)
                && (HasClose(events[..n + 1]) <==> outcome == Closed)
      ensures outcome == Closed ==>
                && r.peerClosed && events[n].CloseFrame?
                && r.disconnect == if before.disconnect.Some? then before.disconnect else Reported(events[n])
      ensures outcome == CapacityError || outcome == ProtocolError ==>
                && Drained(codec, before, box, events[..n], r, outbox.b) && Bounded(codec, limits, r)
                && r.received + r.inbox == Assemble(r.log).done
                && outcome == Verdict(codec, limits, r, outbox.b, outbox.maxCommands, outbox.maxBytes, events[n])
    {
      ghost var from, mid := r, outbox.b;
      NextPrefix(events, n);
      outcome := HandleEvent(events[n]);
      if outcome == CapacityError || outcome == ProtocolError {
        SkippedNothing(codec, limits, before, box, events[..n], from, mid, r);
      } else {
        DrainedMore(codec, before, box, events[..n], from, mid, events[n], r, outbox.b);
      }
    }

    /**
     `_drain_protocol_events`.  Normally every event up to a Close is handled.  When it raises, the events
     before the offending one are handled and no message they completed is lost.
     */
    method Drain(events: seq<Event>) returns (outcome: Outcome, handled: nat)
      requires Ready()
      modifies this, outbox
      ensures outbox.Bounded() && handled <= |events|
      ensures Drained(codec, old(r), old(outbox.b), events[..handled], r, outbox.b)
      ensures outcome == Continue ==> handled == |events| && !HasClose(events)
      ensures outcome == Closed ==>
                && handled > 0 && events[handled - 1].CloseFrame? && !HasClose(events[..handled - 1]) && r.peerClosed
                && r.disconnect == if old(r).disconnect.Some? then old(r).disconnect else Reported(events[handled - 1])
      ensures outcome == Continue || outcome == Closed ==> Intact(codec, limits, r)
      ensures outcome == CapacityError || outcome == ProtocolError ==>
                && handled < |events| && Bounded(codec, limits, r) && !HasClose(events[..handled])
                && r.received + r.inbox == Assemble(r.log).done
                && outcome == Verdict(codec, limits, r, outbox.b, outbox.maxCommands, outbox.maxBytes, events[handled])
    {
      handled := 0;
      assert r.log + events[..0] == r.log;
      AnswersNothing(codec, r, outbox.b);
      while handled < |events|
        invariant handled <= |events| && Ready() && !HasClose(events[..handled])
        invariant Drained(codec, old(r), old(outbox.b), events[..handled], r, outbox.b)
      {
        outcome := HandleNext(events, handled, old(r), old(outbox.b));
        if outcome == CapacityError || outcome == ProtocolError { return; }
        handled := handled + 1;
        if outcome == Closed { return; }
      }
      outcome := Continue;
    }

    /**
     `receive` when it does not wait: the oldest message, or None where it raises the disconnect.  It needs no
     more than what the reader leaves even when it raises, and hands out every message in the order it was
     completed: received and inbox together stay the same.
     */
    method Receive() returns (message: Option<Data>)
      requires Bounded(codec, limits, r)
      modifies this
      ensures Bounded(codec, limits, r) && r.received + r.inbox == old(r).received + old(r).inbox
      ensures message == None <==> old(r).inbox == []
      ensures message == None ==> r == old(r)
      ensures message.Some? ==>
                && [message.value] + r.inbox == old(r).inbox && r.received == old(r).received + [message.value]
                && r == old(r).(inbox := r.inbox, inboxBytes := r.inboxBytes, received := r.received)
      ensures Intact(codec, limits, old(r)) ==> Intact(codec, limits, r)
      ensures Intact(codec, limits, old(r)) && message.Some? ==>
                && |old(r).received| < |Assemble(r.log).done|
                && message.value == Assemble(r.log).done[|old(r).received|]
    {
      if r.inbox == [] { return None; }
      var m := r.inbox[0];
      assert r.received + [m] + r.inbox[1..] == r.received + r.inbox;
      assert (r.received + r.inbox)[|r.received|] == m;
      r := r.(inbox := r.inbox[1..], inboxBytes := r.inboxBytes - |Encoded(codec, m)|, received := r.received + [m]);
      message := Some(m);
    }
  }
}
