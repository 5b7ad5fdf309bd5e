/**
 The HTTP/2 wire splitter (`_FrameBudget`).

 `FrameBudget.Feed` is the chunk-at-a-time loop.  It is proved against `Absorb`,
 an automaton that looks at one byte at a time, and that automaton is proved
 against `Legal`, the rules of sections 3.4, 4.1 and 6.10 of RFC 9113 stated on
 a list of whole frames.
 */
module FrameBudgetSplitter {
  import opened Bytes
  import opened Optional

  /** "PRI * HTTP/2.0\r\n\r\nSM\r\n\r\n" */
  const PREFACE: bytes := [80, 82, 73, 32, 42, 32, 72, 84, 84, 80, 47, 50, 46, 48, 13, 10, 13, 10, 83, 77, 13, 10, 13, 10]

  const HEADERS := 0x1
  const CONTINUATION := 0x9

  datatype Limits = Limits(maxFrame: nat, maxBlock: nat)

  // ---------------------------------------------------------------- one byte at a time

  datatype Splitter = Splitter(
    preface: bytes, header: bytes, payload: bytes,
    frameLength: nat, frameType: nat, frameFlags: byte, frameStream: nat,
    prefaceReceived: bool, headerStream: Option<nat>, headerBytes: nat,
    ready: seq<bytes>)

  const EMPTY := Splitter([], [], [], 0, 0, 0, 0, false, None, 0, [])

  function LengthField(header: bytes): nat requires |header| >= 9 { BigEndian(header[..3]) }

  function TypeField(header: bytes): nat requires |header| >= 9 { header[3] }

  predicate EndHeaders(header: bytes) requires |header| >= 9 { Bit(header[4], 4) }

  function StreamField(header: bytes): nat requires |header| >= 9 { BigEndian(header[5..9]) % 0x8000_0000 }

  predicate IsBlockFrame(header: bytes) requires |header| >= 9 {
    TypeField(header) == HEADERS || TypeField(header) == CONTINUATION
  }

  function Begin(lim: Limits, s: Splitter): Option<Splitter>
    requires |s.header| == 9
  {
    var length := LengthField(s.header);
    if length > lim.maxFrame then None else
    var t := s.(frameLength := length, frameType := TypeField(s.header),
                frameFlags := s.header[4], frameStream := StreamField(s.header));
    if t.frameType == HEADERS && t.headerStream.Some? then None
    else if t.frameType == CONTINUATION && t.headerStream != Some(t.frameStream) then None
    else
      var u := if t.frameType == HEADERS then t.(headerStream := Some(t.frameStream), headerBytes := length)
               else if t.frameType == CONTINUATION then t.(headerBytes := t.headerBytes + length)
               else t;
      if u.headerBytes > lim.maxBlock then None else Some(u)
  }

  function Complete(s: Splitter): Splitter
  {
    var closes := (s.frameType == HEADERS || s.frameType == CONTINUATION) && Bit(s.frameFlags, 4);
    s.(ready := s.ready + [s.header + s.payload],
       headerStream := if closes then None else s.headerStream,
       headerBytes := if closes then 0 else s.headerBytes,
       header := [], payload := [], frameLength := 0)
  }

  function AbsorbByte(lim: Limits, s: Splitter, b: byte): Option<Splitter>
  {
    if !s.prefaceReceived then
      var p := s.preface + [b];
      if !(p <= PREFACE) then None
      else if p == PREFACE then Some(s.(preface := [], ready := s.ready + [p], prefaceReceived := true))
      else Some(s.(preface := p))
    else if |s.header| < 9 then
      var t := s.(header := s.header + [b]);
      if |t.header| < 9 then Some(t) else
      match Begin(lim, t)
      case None => None
      case Some(u) => Some(if u.frameLength == 0 then Complete(u) else u)
    else
      var t := s.(payload := s.payload + [b]);
      Some(if |t.payload| == t.frameLength then Complete(t) else t)
  }

  function Absorb(lim: Limits, s: Splitter, data: bytes): Option<Splitter>
    decreases |data|
  {
    if data == [] then Some(s) else
    match AbsorbByte(lim, s, data[0])
    case None => None
    case Some(t) => Absorb(lim, t, data[1..])
  }

  /** What the fields promise each other between two calls. */
  predicate Coherent(s: Splitter)
  {
    && s.preface <= PREFACE && |s.preface| < |PREFACE|
    && (s.prefaceReceived ==> s.preface == [])
    && (!s.prefaceReceived ==> s.header == [] && s.ready == [])
    && |s.header| <= 9
    && (|s.header| < 9 ==> s.payload == [])
    && (|s.header| == 9 ==>
          |s.payload| < s.frameLength == LengthField(s.header)
          && s.frameType == TypeField(s.header) && s.frameFlags == s.header[4]
          && s.frameStream == StreamField(s.header))
  }

  lemma {:induction false} AbsorbCoherent(lim: Limits, s: Splitter, data: bytes)
    requires Coherent(s) && Absorb(lim, s, data).Some?
    ensures Coherent(Absorb(lim, s, data).value)
    decreases |data|
  {
    if data != [] {
      AbsorbCoherent(lim, AbsorbByte(lim, s, data[0]).value, data[1..]);
    }
  }

  /** How the bytes are cut into chunks decides nothing: neither acceptance nor any field. */
  lemma {:induction false} ChunkingIsInvisible(lim: Limits, s: Splitter, a: bytes, b: bytes)
    ensures Absorb(lim, s, a + b) ==
            match Absorb(lim, s, a) { case None => None case Some(t) => Absorb(lim, t, b) }
    decreases |a|
  {
    if a == [] {
      assert a + b == b;
    } else {
      assert (a + b)[1..] == a[1..] + b;
      match AbsorbByte(lim, s, a[0]) {
        case None =>
        case Some(t) => ChunkingIsInvisible(lim, t, a[1..], b);
      }
    }
  }

  function AbsorbAll(lim: Limits, s: Splitter, chunks: seq<bytes>): Option<Splitter>
    decreases |chunks|
  {
    if chunks == [] then Some(s) else
    match Absorb(lim, s, chunks[0])
    case None => None
    case Some(t) => AbsorbAll(lim, t, chunks[1..])
  }

  /** Any list of chunks is as good as their concatenation. */
  lemma {:induction false} AnyChunking(lim: Limits, s: Splitter, chunks: seq<bytes>)
    ensures AbsorbAll(lim, s, chunks) == Absorb(lim, s, Concat(chunks))
    decreases |chunks|
  {
    if chunks != [] {
      ChunkingIsInvisible(lim, s, chunks[0], Concat(chunks[1..]));
      match Absorb(lim, s, chunks[0]) {
        case None =>
        case Some(t) => AnyChunking(lim, t, chunks[1..]);
      }
    }
  }

  // ---------------------------------------------------------------- the rules on whole frames

  /** Exactly one frame: nine octets of header and the payload they announce. */
  predicate IsFrame(f: bytes)
  {
    |f| >= 9 && |f| == 9 + LengthField(f)
  }

  /** The header block left open, if any: its stream and its bytes so far. */
  datatype Block = Closed | Open(stream: nat, size: nat)

  /** May a frame with these nine octets start while `block` is open?  Then what is open during it. */
  function Enter(lim: Limits, block: Block, header: bytes): Option<Block>
    requires |header| >= 9
  {
    var length, stream := LengthField(header), StreamField(header);
    if length > lim.maxFrame then None
    else if TypeField(header) == HEADERS then
      if block.Closed? && length <= lim.maxBlock then Some(Open(stream, length)) else None
    else if TypeField(header) == CONTINUATION then
      if block.Open? && block.stream == stream && block.size + length <= lim.maxBlock
      then Some(Open(stream, block.size + length)) else None
    else Some(block)
  }

  function Leave(block: Block, header: bytes): Block
    requires |header| >= 9
  {
    if IsBlockFrame(header) && EndHeaders(header) then Closed else block
  }

  /** The block open after a list of whole frames, or None if one of them is illegal. */
  function Legal(lim: Limits, frames: seq<bytes>): Option<Block>
  {
    if frames == [] then Some(Closed) else
    var last := frames[|frames| - 1];
    match Legal(lim, frames[..|frames| - 1])
    case None => None
    case Some(block) =>
      if !IsFrame(last) then None else
      match Enter(lim, block, last)
      case None => None
      case Some(during) => Some(Leave(during, last))
  }

  /** A received octet stream, read as the RFC lays it out. */
  datatype Stream =
    | InPreface(count: nat)
    | AfterPreface(frames: seq<bytes>, header: bytes, payload: bytes)

  function Octets(d: Stream): bytes
  {
    match d
    case InPreface(n) => if n <= |PREFACE| then PREFACE[..n] else PREFACE
    case AfterPreface(frames, header, payload) => PREFACE + Concat(frames) + header + payload
  }

  /** Every whole frame is legal, and so is the header of the unfinished one. */
  predicate LegalStream(lim: Limits, d: Stream)
  {
    match d
    case InPreface(n) => n < |PREFACE|
    case AfterPreface(frames, header, payload) =>
      && Legal(lim, frames).Some?
      && |header| <= 9
      && (|header| < 9 ==> payload == [])
      && (|header| == 9 ==> |payload| < LengthField(header) && Enter(lim, Legal(lim, frames).value, header).Some?)
  }

  /** The splitter state that stands for a legal stream. */
  predicate Represents(lim: Limits, s: Splitter, d: Stream)
  {
    && Coherent(s)
    && LegalStream(lim, d)
    && match d
       case InPreface(n) => !s.prefaceReceived && s.preface == PREFACE[..n]
                            && s.headerStream == None && s.headerBytes == 0
       case AfterPreface(frames, header, payload) =>
         && s.prefaceReceived && s.ready == [PREFACE] + frames && s.header == header && s.payload == payload
         && var before := Legal(lim, frames).value;
            var now := if |header| < 9 then before else Enter(lim, before, header).value;
            && s.headerStream == (if now.Open? then Some(now.stream) else None)
            && s.headerBytes == (if now.Open? then now.size else 0)
            && s.headerBytes <= lim.maxBlock
  }

  /** What the octet stream becomes when one more octet arrives. */
  function Extend(d: Stream, b: byte): Stream
  {
    match d
    case InPreface(n) => if n + 1 == |PREFACE| then AfterPreface([], [], []) else InPreface(n + 1)
    case AfterPreface(frames, header, payload) =>
      if |header| < 9 then
        if |header| == 8 && LengthField(header + [b]) == 0 then AfterPreface(frames + [header + [b]], [], [])
        else AfterPreface(frames, header + [b], payload)
      else if |header| == 9 && |payload| + 1 == LengthField(header) then AfterPreface(frames + [header + (payload + [b])], [], [])
      else AfterPreface(frames, header, payload + [b])
  }

  lemma FrameFromParts(header: bytes, payload: bytes)
    requires |header| == 9
    ensures var f := header + payload;
            LengthField(f) == LengthField(header) && TypeField(f) == TypeField(header)
            && EndHeaders(f) == EndHeaders(header) && StreamField(f) == StreamField(header)
  {
    var f := header + payload;
    assert f[..3] == header[..3] && f[5..9] == header[5..9];
  }

  /** One octet: accepted exactly when the extended stream is legal, and then the state represents it. */
  lemma ByteStep(lim: Limits, s: Splitter, d: Stream, b: byte)
    requires Represents(lim, s, d)
    requires d.InPreface? ==> b == PREFACE[d.count]
    ensures AbsorbByte(lim, s, b).Some? ==> Represents(lim, AbsorbByte(lim, s, b).value, Extend(d, b))
    ensures LegalStream(lim, Extend(d, b)) ==> AbsorbByte(lim, s, b).Some?
  {
    match d
    case InPreface(n) =>
      assert PREFACE[..n] + [b] == PREFACE[..n + 1];
      assert PREFACE[..|PREFACE|] == PREFACE;
      assert [PREFACE] + [] == [PREFACE];
    case AfterPreface(frames, header, payload) =>
      if |header| == 8 {
        HeaderStep(lim, s, frames, header, b);
      } else if |header| == 9 {
        PayloadStep(lim, s, frames, header, payload, b);
      }
  }

  lemma LegalSnoc(lim: Limits, frames: seq<bytes>, f: bytes)
    ensures Legal(lim, frames + [f]) ==
            match Legal(lim, frames)
            case None => None
            case Some(block) => if !IsFrame(f) then None else
                                match Enter(lim, block, f)
                                case None => None
                                case Some(during) => Some(Leave(during, f))
  {
    assert (frames + [f])[..|frames|] == frames;
  }

  /** A whole frame in the buffers, legal behind the frames before it, joins them. */
  lemma CompleteStep(lim: Limits, s: Splitter, frames: seq<bytes>)
    requires s.prefaceReceived && s.preface == [] && s.ready == [PREFACE] + frames
    requires |s.header| == 9 && |s.payload| == LengthField(s.header)
    requires s.frameType == TypeField(s.header) && s.frameFlags == s.header[4]
    requires Legal(lim, frames).Some? && Enter(lim, Legal(lim, frames).value, s.header).Some?
    requires Holds(s, Enter(lim, Legal(lim, frames).value, s.header).value) && s.headerBytes <= lim.maxBlock
    ensures Represents(lim, Complete(s), AfterPreface(frames + [s.header + s.payload], [], []))
  {
    var f := s.header + s.payload;
    FrameFromParts(s.header, s.payload);
    LegalSnoc(lim, frames, f);
    assert [PREFACE] + frames + [f] == [PREFACE] + (frames + [f]);
    assert Enter(lim, Legal(lim, frames).value, f) == Enter(lim, Legal(lim, frames).value, s.header);
  }

  /** The splitter's two fields for the open header block. */
  predicate Holds(s: Splitter, block: Block)
  {
    && s.headerStream == (if block.Open? then Some(block.stream) else None)
    && s.headerBytes == (if block.Open? then block.size else 0)
  }

  /** Starting a frame succeeds exactly when its header may follow, and then holds the block it opens. */
  lemma BeginStep(lim: Limits, s: Splitter, block: Block)
    requires |s.header| == 9 && Holds(s, block) && s.headerBytes <= lim.maxBlock
    ensures Begin(lim, s).Some? <==> Enter(lim, block, s.header).Some?
    ensures Begin(lim, s).Some? ==>
              var u := Begin(lim, s).value;
              && Holds(u, Enter(lim, block, s.header).value) && u.headerBytes <= lim.maxBlock
              && u == s.(frameLength := LengthField(s.header), frameType := TypeField(s.header), frameFlags := s.header[4],
                         frameStream := StreamField(s.header), headerStream := u.headerStream, headerBytes := u.headerBytes)
  {
  }

  lemma HeaderStep(lim: Limits, s: Splitter, frames: seq<bytes>, header: bytes, b: byte)
    requires |header| == 8 && Represents(lim, s, AfterPreface(frames, header, []))
    ensures AbsorbByte(lim, s, b).Some? ==> Represents(lim, AbsorbByte(lim, s, b).value, Extend(AfterPreface(frames, header, []), b))
    ensures LegalStream(lim, Extend(AfterPreface(frames, header, []), b)) ==> AbsorbByte(lim, s, b).Some?
  {
    var h := header + [b];
    var t := s.(header := h);
    assert h + [] == h;
    BeginStep(lim, t, Legal(lim, frames).value);
    if LengthField(h) == 0 {
      FrameFromParts(h, []);
      LegalSnoc(lim, frames, h);
      if Begin(lim, t).Some? {
        CompleteStep(lim, Begin(lim, t).value, frames);
      }
    }
  }

  lemma PayloadStep(lim: Limits, s: Splitter, frames: seq<bytes>, header: bytes, payload: bytes, b: byte)
    requires |header| == 9 && Represents(lim, s, AfterPreface(frames, header, payload))
    ensures AbsorbByte(lim, s, b).Some? ==> Represents(lim, AbsorbByte(lim, s, b).value, Extend(AfterPreface(frames, header, payload), b))
    ensures LegalStream(lim, Extend(AfterPreface(frames, header, payload), b)) ==> AbsorbByte(lim, s, b).Some?
  {
    if |payload| + 1 == LengthField(header) {
      CompleteStep(lim, s.(payload := payload + [b]), frames);
    }
  }

  lemma ExtendOctets(lim: Limits, d: Stream, b: byte)
    requires LegalStream(lim, d)
    requires d.InPreface? ==> b == PREFACE[d.count]
    ensures Octets(Extend(d, b)) == Octets(d) + [b]
  {
    match d
    case InPreface(n) =>
      assert PREFACE[..n] + [b] == PREFACE[..n + 1];
    case AfterPreface(frames, header, payload) =>
      var e := Extend(d, b);
      if e.frames != frames {
        ExtendFrame(frames, header, payload, b);
        Regroup(PREFACE, Concat(frames), header, payload, b);
      } else {
        ExtendPartial(PREFACE + Concat(frames), header, payload, b);
      }
  }

  lemma Regroup(p: bytes, c: bytes, header: bytes, payload: bytes, b: byte)
    ensures p + (c + (header + (payload + [b]))) == p + c + header + payload + [b]
  {
  }

  lemma ExtendPartial(before: bytes, header: bytes, payload: bytes, b: byte)
    ensures before + header + (payload + [b]) == before + header + payload + [b]
    ensures payload == [] ==> before + (header + [b]) + payload == before + header + payload + [b]
  {
  }

  lemma ExtendFrame(frames: seq<bytes>, header: bytes, payload: bytes, b: byte)
    requires |header| < 9 ==> payload == []
    requires Extend(AfterPreface(frames, header, payload), b).frames != frames
    ensures Octets(Extend(AfterPreface(frames, header, payload), b)) == PREFACE + (Concat(frames) + (header + (payload + [b])))
  {
    var f := header + (payload + [b]);
    assert |header| < 9 ==> f == header + [b];
    ConcatSnoc(frames, f);
    assert PREFACE + (Concat(frames) + f) + [] + [] == PREFACE + (Concat(frames) + f);
  }

  /**
   Conservation for a splitter nothing is taken from: the ready chunks and the partial buffers are the
   input, octet for octet, read as a legal stream.
   */
  lemma {:induction false} Accepted(lim: Limits, data: bytes) returns (d: Stream)
    requires Absorb(lim, EMPTY, data).Some?
    ensures Represents(lim, Absorb(lim, EMPTY, data).value, d) && Octets(d) == data
  {
    if data == [] {
      d := InPreface(0);
    } else {
      var init, b := data[..|data| - 1], data[|data| - 1];
      assert data == init + [b];
      ChunkingIsInvisible(lim, EMPTY, init, [b]);
      var before := Accepted(lim, init);
      var s := Absorb(lim, EMPTY, init).value;
      assert Absorb(lim, s, [b]) == AbsorbByte(lim, s, b) by {
        assert [b][1..] == [];
      }
      if before.InPreface? {
        var n := before.count;
        assert s.preface + [b] <= PREFACE;
        assert (s.preface + [b])[n] == b;
      }
      ByteStep(lim, s, before, b);
      ExtendOctets(lim, before, b);
      d := Extend(before, b);
    }
  }

  /** Cutting the last octet off a legal stream leaves a legal stream. */
  lemma Shorten(lim: Limits, d: Stream) returns (c: Stream, b: byte)
    requires LegalStream(lim, d) && Octets(d) != []
    ensures LegalStream(lim, c) && (c.InPreface? ==> b == PREFACE[c.count])
    ensures Extend(c, b) == d && Octets(d) == Octets(c) + [b]
  {
    match d
    case InPreface(n) =>
      c, b := InPreface(n - 1), PREFACE[n - 1];
    case AfterPreface(frames, header, payload) =>
      if payload != [] {
        var k := |payload| - 1;
        c, b := AfterPreface(frames, header, payload[..k]), payload[k];
        assert payload[..k] + [b] == payload;
      } else if header != [] {
        var k := |header| - 1;
        c, b := AfterPreface(frames, header[..k], []), header[k];
        assert header[..k] + [b] == header;
      } else if frames == [] {
        c, b := InPreface(|PREFACE| - 1), PREFACE[|PREFACE| - 1];
      } else {
        c, b := ShortenFrame(lim, frames);
      }
    ExtendOctets(lim, c, b);
  }

  lemma ShortenFrame(lim: Limits, frames: seq<bytes>) returns (c: Stream, b: byte)
    requires frames != [] && Legal(lim, frames).Some?
    ensures c.AfterPreface? && LegalStream(lim, c) && Extend(c, b) == AfterPreface(frames, [], [])
  {
    var rest, f := frames[..|frames| - 1], frames[|frames| - 1];
    assert rest + [f] == frames;
    var h, p := f[..9], f[9..];
    FrameFromParts(h, p);
    assert h + p == f;
    if p == [] {
      c, b := AfterPreface(rest, h[..8], []), h[8];
      assert h[..8] + [b] == h == f;
    } else {
      var k := |p| - 1;
      c, b := AfterPreface(rest, h, p[..k]), p[k];
      assert p[..k] + [b] == p;
    }
    assert Extend(c, b).frames == rest + [f];
  }

  /** Completeness: a legal stream is accepted, however long, and split exactly into its frames. */
  lemma {:induction false} LegalIsAccepted(lim: Limits, d: Stream)
    requires LegalStream(lim, d)
    ensures Absorb(lim, EMPTY, Octets(d)).Some?
    ensures Represents(lim, Absorb(lim, EMPTY, Octets(d)).value, d)
    decreases |Octets(d)|
  {
    if Octets(d) == [] {
      assert d == InPreface(0);
    } else {
      var c, b := Shorten(lim, d);
      LegalIsAccepted(lim, c);
      ChunkingIsInvisible(lim, EMPTY, Octets(c), [b]);
      var s := Absorb(lim, EMPTY, Octets(c)).value;
      assert Absorb(lim, s, [b]) == AbsorbByte(lim, s, b) by {
        assert [b][1..] == [];
      }
      ByteStep(lim, s, c, b);
    }
  }

  /** The splitter accepts exactly the prefixes of legal streams: no more and no less. */
  lemma AcceptsExactlyLegalStreams(lim: Limits, data: bytes)
    ensures Absorb(lim, EMPTY, data).Some? <==> exists d :: LegalStream(lim, d) && Octets(d) == data
  {
    if Absorb(lim, EMPTY, data).Some? {
      var d := Accepted(lim, data);
    }
    forall d | LegalStream(lim, d) && Octets(d) == data
      ensures Absorb(lim, EMPTY, data).Some?
    {
      LegalIsAccepted(lim, d);
    }
  }

  // ---------------------------------------------------------------- feeds and takes in any order

  datatype Call = Feeding(data: bytes) | Taking(limit: nat)

  /** A splitter in use: its state, and the chunks taken from it so far. */
  datatype Usage = Usage(s: Splitter, taken: seq<bytes>)

  const UNUSED := Usage(EMPTY, [])

  function TakeSome(u: Usage, limit: nat): Usage
  {
    var n := Min(limit, |u.s.ready|);
    Usage(u.s.(ready := u.s.ready[n..]), u.taken + u.s.ready[..n])
  }

  /** What a list of calls leaves; None once a feed raises. */
  function Use(lim: Limits, u: Usage, calls: seq<Call>): Option<Usage>
    decreases |calls|
  {
    if calls == [] then Some(u) else
    match calls[0]
    case Taking(limit) => Use(lim, TakeSome(u, limit), calls[1..])
    case Feeding(data) =>
      match Absorb(lim, u.s, data)
      case None => None
      case Some(s) => Use(lim, u.(s := s), calls[1..])
  }

  /** Every byte fed by a list of calls, in order. */
  function FedBytes(calls: seq<Call>): bytes
    decreases |calls|
  {
    if calls == [] then []
    else (if calls[0].Feeding? then calls[0].data else []) + FedBytes(calls[1..])
  }

  /** The splitter with the chunks put back that were taken from it. */
  function PutBack(u: Usage): Splitter
  {
    u.s.(ready := u.taken + u.s.ready)
  }

  lemma {:induction false} ReadyIsWriteOnly(lim: Limits, u: Usage, data: bytes)
    ensures Absorb(lim, PutBack(u), data) ==
            match Absorb(lim, u.s, data) { case None => None case Some(s) => Some(PutBack(u.(s := s))) }
    decreases |data|
  {
    if data != [] {
      ByteReadyIsWriteOnly(lim, u, data[0]);
      match AbsorbByte(lim, u.s, data[0]) {
        case None =>
        case Some(s) => ReadyIsWriteOnly(lim, u.(s := s), data[1..]);
      }
    }
  }

  lemma ByteReadyIsWriteOnly(lim: Limits, u: Usage, b: byte)
    ensures AbsorbByte(lim, PutBack(u), b) ==
            match AbsorbByte(lim, u.s, b) { case None => None case Some(s) => Some(PutBack(u.(s := s))) }
  {
    assert forall chunk :: u.taken + u.s.ready + [chunk] == u.taken + (u.s.ready + [chunk]);
  }

  /** Feeds and takes in any order are one feed of all the bytes, once what was taken is put back. */
  lemma {:induction false} TakingIsInvisible(lim: Limits, u: Usage, calls: seq<Call>)
    ensures Absorb(lim, PutBack(u), FedBytes(calls)) ==
            match Use(lim, u, calls) { case None => None case Some(v) => Some(PutBack(v)) }
    decreases |calls|
  {
    if calls != [] {
      match calls[0] {
        case Taking(limit) =>
          var n := Min(limit, |u.s.ready|);
          assert u.taken + u.s.ready[..n] + u.s.ready[n..] == u.taken + u.s.ready;
          assert FedBytes(calls) == FedBytes(calls[1..]);
          TakingIsInvisible(lim, TakeSome(u, limit), calls[1..]);
        case Feeding(data) =>
          ReadyIsWriteOnly(lim, u, data);
          ChunkingIsInvisible(lim, PutBack(u), data, FedBytes(calls[1..]));
          if Absorb(lim, u.s, data).Some? {
            TakingIsInvisible(lim, u.(s := Absorb(lim, u.s, data).value), calls[1..]);
          }
      }
    }
  }

  /**
   Conservation, for feeds and takes in any order: the chunks taken, the chunks ready and the partial
   buffers are all the bytes fed, octet for octet, read as a legal stream; the chunks are the preface and
   then exactly the whole frames of that stream.
   */
  lemma Conserved(lim: Limits, calls: seq<Call>) returns (d: Stream)
    requires Use(lim, UNUSED, calls).Some?
    ensures var u := Use(lim, UNUSED, calls).value;
            && Represents(lim, PutBack(u), d) && Octets(d) == FedBytes(calls) && Coherent(u.s)
            && Concat(u.taken + u.s.ready) + u.s.preface + u.s.header + u.s.payload == FedBytes(calls)
            && u.taken + u.s.ready == Chunks(d)
  {
    TakingIsInvisible(lim, UNUSED, calls);
    assert PutBack(UNUSED) == EMPTY;
    d := Accepted(lim, FedBytes(calls));
    var u := Use(lim, UNUSED, calls).value;
    ChunksAreTheOctets(lim, PutBack(u), d);
  }

  /** The chunks a stream is split into: nothing before the preface is whole, then the preface and the whole frames. */
  function Chunks(d: Stream): seq<bytes>
  {
    if d.InPreface? then [] else [PREFACE] + d.frames
  }

  lemma ChunksAreTheOctets(lim: Limits, s: Splitter, d: Stream)
    requires Represents(lim, s, d)
    ensures s.ready == Chunks(d)
    ensures Concat(s.ready) + s.preface + s.header + s.payload == Octets(d)
  {
    if d.AfterPreface? {
      assert ([PREFACE] + d.frames)[1..] == d.frames;
      assert Concat(s.ready) == PREFACE + Concat(d.frames);
      assert PREFACE + Concat(d.frames) + [] == PREFACE + Concat(d.frames);
    }
  }

  /** Whatever was fed and taken: the next bytes are accepted exactly when all the bytes together are a legal stream. */
  lemma UseAcceptsExactlyLegalStreams(lim: Limits, calls: seq<Call>)
    ensures Use(lim, UNUSED, calls).Some? <==> exists d :: LegalStream(lim, d) && Octets(d) == FedBytes(calls)
  {
    TakingIsInvisible(lim, UNUSED, calls);
    assert PutBack(UNUSED) == EMPTY;
    AcceptsExactlyLegalStreams(lim, FedBytes(calls));
  }

  /** What is held back is less than one preface or one frame of the largest size, whatever was fed and taken. */
  lemma PartialBuffersAreBounded(lim: Limits, calls: seq<Call>)
    requires Use(lim, UNUSED, calls).Some?
    ensures var s := Use(lim, UNUSED, calls).value.s;
            |s.preface| < |PREFACE| && |s.header| <= 9 && |s.payload| <= lim.maxFrame && s.headerBytes <= lim.maxBlock
  {
    var d := Conserved(lim, calls);
  }

  // ---------------------------------------------------------------- header blocks (section 6.10)

  /** Bytes of header block carried by the HEADERS and CONTINUATION frames of a list. */
  function BlockBytes(frames: seq<bytes>): nat
  {
    if frames == [] then 0 else
    var f := frames[|frames| - 1];
    BlockBytes(frames[..|frames| - 1]) + if |f| >= 9 && IsBlockFrame(f) then LengthField(f) else 0
  }

  /** Frames `from..to` belong to one header block of `stream` that is still open after them. */
  ghost predicate OpenSince(frames: seq<bytes>, from: nat, stream: nat)
  {
    && from < |frames|
    && IsFrame(frames[from]) && TypeField(frames[from]) == HEADERS && StreamField(frames[from]) == stream
    && forall k | from <= k < |frames| && |frames[k]| >= 9 && IsBlockFrame(frames[k]) ::
         !EndHeaders(frames[k]) && StreamField(frames[k]) == stream
         && (k > from ==> TypeField(frames[k]) == CONTINUATION)
  }

  lemma BlockBytesSnoc(frames: seq<bytes>, from: nat)
    requires from < |frames|
    ensures var n := |frames| - 1;
            var f := frames[n];
            BlockBytes(frames[from..]) ==
            BlockBytes(frames[..n][from..]) + if |f| >= 9 && IsBlockFrame(f) then LengthField(f) else 0
  {
    var n := |frames| - 1;
    assert frames[from..][..n - from] == frames[..n][from..];
    assert frames[from..][n - from] == frames[n];
  }

  lemma OpenSinceSnoc(frames: seq<bytes>, from: nat, stream: nat)
    requires frames != [] && OpenSince(frames[..|frames| - 1], from, stream)
    requires var f := frames[|frames| - 1];
             |f| >= 9 && IsBlockFrame(f) ==> !EndHeaders(f) && StreamField(f) == stream && TypeField(f) == CONTINUATION
    ensures OpenSince(frames, from, stream)
  {
    var rest := frames[..|frames| - 1];
    forall k | from <= k < |frames| && |frames[k]| >= 9 && IsBlockFrame(frames[k])
      ensures !EndHeaders(frames[k]) && StreamField(frames[k]) == stream
      ensures k > from ==> TypeField(frames[k]) == CONTINUATION
    {
      if k < |rest| {
        assert frames[k] == rest[k];
      }
    }
    assert frames[from] == rest[from];
  }

  /** The open block of a legal list is where it seems to be, and its size is the bytes it carried. */
  lemma {:induction false} BlockHistory(lim: Limits, frames: seq<bytes>) returns (from: nat)
    requires Legal(lim, frames).Some? && Legal(lim, frames).value.Open?
    ensures OpenSince(frames, from, Legal(lim, frames).value.stream)
    ensures from <= |frames| && BlockBytes(frames[from..]) == Legal(lim, frames).value.size <= lim.maxBlock
    decreases |frames|
  {
    var n := |frames| - 1;
    var rest, f := frames[..n], frames[n];
    if TypeField(f) == HEADERS {
      from := n;
      assert rest[n..] == [];
    } else {
      from := BlockHistory(lim, rest);
      OpenSinceSnoc(frames, from, Legal(lim, frames).value.stream);
    }
    BlockBytesSnoc(frames, from);
  }

  /**
   In a legal list (and the frames passed on are one, by `Accepted`) every CONTINUATION frame continues
   a HEADERS frame of the same stream with no other header block in between, and the block so far keeps
   within the compressed-header budget.
   */
  lemma ContinuationBelongsToItsBlock(lim: Limits, frames: seq<bytes>, i: nat) returns (from: nat)
    requires Legal(lim, frames).Some? && i < |frames|
    requires |frames[i]| >= 9 && TypeField(frames[i]) == CONTINUATION
    ensures from < i && OpenSince(frames[..i], from, StreamField(frames[i]))
    ensures BlockBytes(frames[from..i + 1]) <= lim.maxBlock
  {
    LegalPrefix(lim, frames, i + 1);
    var upTo := frames[..i + 1];
    assert upTo[..i] == frames[..i];
    from := BlockHistory(lim, frames[..i]);
    BlockBytesSnoc(upTo, from);
    assert upTo[from..] == frames[from..i + 1];
  }

  lemma {:induction false} LegalPrefix(lim: Limits, frames: seq<bytes>, n: nat)
    requires Legal(lim, frames).Some? && n <= |frames|
    ensures Legal(lim, frames[..n]).Some?
    decreases |frames|
  {
    if n < |frames| {
      LegalPrefix(lim, frames[..|frames| - 1], n);
      assert frames[..|frames| - 1][..n] == frames[..n];
    } else {
      assert frames[..n] == frames;
    }
  }

  // ---------------------------------------------------------------- chunk at a time

  /** A stretch of the preface swallowed at once. */
  lemma {:induction false} AbsorbPreface(lim: Limits, s: Splitter, chunk: bytes, rest: bytes)
    requires Coherent(s) && !s.prefaceReceived && |s.preface| + |chunk| <= |PREFACE|
    ensures var p := s.preface + chunk;
            Absorb(lim, s, chunk + rest) ==
            if !(p <= PREFACE) then None
            else if p == PREFACE then Absorb(lim, s.(preface := [], ready := s.ready + [p], prefaceReceived := true), rest)
            else Absorb(lim, s.(preface := p), rest)
    decreases |chunk|
  {
    if chunk == [] {
      assert chunk + rest == rest && s.preface + chunk == s.preface;
    } else {
      var b, more := chunk[0], chunk[1..];
      assert (chunk + rest)[1..] == more + rest;
      assert s.preface + chunk == s.preface + [b] + more;
      var q := s.preface + [b];
      if q <= PREFACE {
        if q == PREFACE {
          assert more == [] && more + rest == rest;
        } else {
          AbsorbPreface(lim, s.(preface := q), more, rest);
        }
      } else {
        assert (q + more)[..|q|] == q;
      }
    }
  }

  /** A stretch of a frame header that does not complete it. */
  lemma {:induction false} AbsorbHeader(lim: Limits, s: Splitter, chunk: bytes, rest: bytes)
    requires s.prefaceReceived && |s.header| + |chunk| < 9
    ensures Absorb(lim, s, chunk + rest) == Absorb(lim, s.(header := s.header + chunk), rest)
    decreases |chunk|
  {
    if chunk == [] {
      assert chunk + rest == rest && s.header + chunk == s.header;
    } else {
      var b, more := chunk[0], chunk[1..];
      assert (chunk + rest)[1..] == more + rest;
      assert s.header + [b] + more == s.header + chunk;
      AbsorbHeader(lim, s.(header := s.header + [b]), more, rest);
    }
  }

  /** A stretch that ends with the ninth octet of a frame header. */
  lemma AbsorbWholeHeader(lim: Limits, s: Splitter, chunk: bytes, rest: bytes)
    requires s.prefaceReceived && |s.header| + |chunk| == 9 && chunk != []
    ensures var t := s.(header := s.header + chunk);
            Absorb(lim, s, chunk + rest) ==
            match Begin(lim, t)
            case None => None
            case Some(u) => Absorb(lim, if u.frameLength == 0 then Complete(u) else u, rest)
  {
    var k := |chunk| - 1;
    AbsorbHeader(lim, s, chunk[..k], [chunk[k]] + rest);
    assert chunk[..k] + ([chunk[k]] + rest) == chunk + rest;
    assert s.header + chunk[..k] + [chunk[k]] == s.header + chunk;
    assert ([chunk[k]] + rest)[1..] == rest;
  }

  /** A stretch of payload, possibly its last. */
  lemma {:induction false} AbsorbPayload(lim: Limits, s: Splitter, chunk: bytes, rest: bytes)
    requires Coherent(s) && s.prefaceReceived && |s.header| == 9 && |s.payload| + |chunk| <= s.frameLength
    ensures var t := s.(payload := s.payload + chunk);
            Absorb(lim, s, chunk + rest) == Absorb(lim, if |t.payload| == t.frameLength then Complete(t) else t, rest)
    decreases |chunk|
  {
    if chunk == [] {
      assert chunk + rest == rest && s.payload + chunk == s.payload;
    } else {
      var b, more := chunk[0], chunk[1..];
      assert (chunk + rest)[1..] == more + rest;
      assert s.payload + [b] + more == s.payload + chunk;
      var t := s.(payload := s.payload + [b]);
      if |t.payload| == t.frameLength {
        assert more == [] && more + rest == rest;
        assert s.payload + chunk == t.payload;
      } else {
        AbsorbPayload(lim, t, more, rest);
      }
    }
  }

  class FrameBudget {
    const lim: Limits
    var preface: bytes
    var header: bytes
    var payload: bytes
    var frameLength: nat
    var frameType: nat
    var frameFlags: byte
    var frameStream: nat
    var prefaceReceived: bool
    var headerStream: Option<nat>
    var headerBytes: nat
    var ready: seq<bytes>

    ghost function View(): Splitter
      reads this
    {
      Splitter(preface, header, payload, frameLength, frameType, frameFlags, frameStream,
               prefaceReceived, headerStream, headerBytes, ready)
    }

    constructor (lim: Limits)
      ensures this.lim == lim && View() == EMPTY && Coherent(View())
    {
      this.lim := lim;
      preface, header, payload := [], [], [];
      frameLength, frameType, frameFlags, frameStream := 0, 0, 0, 0;
      prefaceReceived, headerStream, headerBytes, ready := false, None, 0, [];
    }

    /** `feed`; false where the source raises ValueError, after which the splitter is not used again. */
    method Feed(data: bytes) returns (ok: bool)
      requires Coherent(View())
      modifies this
      ensures ok <==> Absorb(lim, old(View()), data).Some?
      ensures ok ==> View() == Absorb(lim, old(View()), data).value && Coherent(View())
    {
      var offset := 0;
      ghost var spec := Absorb(lim, View(), data);
      assert data[0..] == data;
      ok := true;
      if !prefaceReceived {
        ok, offset := FeedPreface(data);
        if !ok || !prefaceReceived { return; }
      }
      while offset < |data|
        invariant offset <= |data|
        invariant ok && prefaceReceived && Coherent(View())
        invariant Absorb(lim, View(), data[offset..]) == spec
        decreases |data| - offset
      {
        if |header| < 9 {
          ok, offset := FeedHeader(data, offset);
          if !ok { return; }
          if |header| < 9 { continue; }
        }
        offset := FeedPayload(data, offset);
      }
      assert data[offset..] == [];
    }

    /** The first part of `feed`: octets that belong to the connection preface. */
    method FeedPreface(data: bytes) returns (ok: bool, offset: nat)
      requires Coherent(View()) && !prefaceReceived
      modifies this
      ensures offset <= |data|
      ensures !ok ==> Absorb(lim, old(View()), data) == None
      ensures ok ==> Coherent(View()) && Absorb(lim, old(View()), data) == Absorb(lim, View(), data[offset..])
      ensures ok && !prefaceReceived ==> Absorb(lim, old(View()), data) == Some(View())
    {
      offset := Min(|PREFACE| - |preface|, |data|);
      AbsorbPreface(lim, View(), data[..offset], data[offset..]);
      assert data[..offset] + data[offset..] == data;
      preface := preface + data[..offset];
      if preface != PREFACE[..|preface|] { return false, offset; }
      if |preface| < |PREFACE| {
        assert data[offset..] == [];
        return true, offset;
      }
      ready := ready + [preface];
      preface := [];
      prefaceReceived := true;
      ok := true;
    }

    /** Octets of a frame header; the ninth starts the frame, and finishes it when it has no payload. */
    method FeedHeader(data: bytes, from: nat) returns (ok: bool, offset: nat)
      requires Coherent(View()) && prefaceReceived && |header| < 9 && from < |data|
      modifies this
      ensures from < offset <= |data|
      ensures !ok ==> Absorb(lim, old(View()), data[from..]) == None
      ensures ok ==> Coherent(View()) && prefaceReceived
      ensures ok ==> Absorb(lim, old(View()), data[from..]) == Absorb(lim, View(), data[offset..])
    {
      var take := Min(9 - |header|, |data| - from);
      var chunk := data[from..from + take];
      offset := from + take;
      assert chunk + data[offset..] == data[from..];
      if |header| + take < 9 {
        AbsorbHeader(lim, View(), chunk, data[offset..]);
      } else {
        AbsorbWholeHeader(lim, View(), chunk, data[offset..]);
      }
      header := header + chunk;
      ok := true;
      if |header| == 9 {
        ok := StartFrame();
        if ok && frameLength == 0 {
          FinishFrame();
        }
      }
    }

    /** Octets of payload, possibly none; the last one finishes the frame. */
    method FeedPayload(data: bytes, from: nat) returns (offset: nat)
      requires Coherent(View()) && prefaceReceived && |header| == 9 && from <= |data|
      modifies this
      ensures from <= offset <= |data| && (from < |data| ==> from < offset)
      ensures Coherent(View()) && prefaceReceived
      ensures Absorb(lim, old(View()), data[from..]) == Absorb(lim, View(), data[offset..])
    {
      var take := Min(frameLength - |payload|, |data| - from);
      var chunk := data[from..from + take];
      offset := from + take;
      assert chunk + data[offset..] == data[from..];
      AbsorbPayload(lim, View(), chunk, data[offset..]);
      payload := payload + chunk;
      if |payload| == frameLength {
        FinishFrame();
      }
    }

    method StartFrame() returns (ok: bool)
      requires |header| == 9
      modifies this
      ensures ok <==> Begin(lim, old(View())).Some?
      ensures ok ==> View() == Begin(lim, old(View())).value
    {
      var length := BigEndian(header[..3]);
      if length > lim.maxFrame { return false; }
      frameLength := length;
      frameType := header[3];
      frameFlags := header[4];
      frameStream := BigEndian(header[5..9]) % 0x8000_0000;
      if frameType == 0x1 {
        if headerStream != None { return false; }
        headerStream := Some(frameStream);
        headerBytes := length;
      } else if frameType == 0x9 {
        if headerStream != Some(frameStream) { return false; }
        headerBytes := headerBytes + length;
      }
      ok := headerBytes <= lim.maxBlock;
    }

    method FinishFrame()
      modifies this
      ensures View() == Complete(old(View()))
    {
      ready := ready + [header + payload];
      if frameType in {0x1, 0x9} && Bit(frameFlags, 4) {
        headerStream := None;
        headerBytes := 0;
      }
      header := [];
      payload := [];
      frameLength := 0;
    }

    /** `take`: the oldest `limit` chunks leave, in order, and nothing else changes. */
    method Take(limit: nat) returns (chunks: seq<bytes>)
      modifies this
      ensures chunks + ready == old(ready)
      ensures |chunks| == Min(limit, |old(ready)|)
      ensures View() == old(View()).(ready := ready)
    {
      var n := Min(limit, |ready|);
      chunks := ready[..n];
      ready := ready[n..];
    }
  }
}
