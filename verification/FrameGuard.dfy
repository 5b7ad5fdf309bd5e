/**
 The client-frame check of a WebSocket connection (`_FrameGuard`).

 `FrameGuard.Feed` is the chunk-at-a-time loop.  It is proved against `Absorb`, which looks at one byte at
 a time, and that is proved against `LegalStream`, sections 5.2 and 5.5 of RFC 6455 stated on whole frames.
 */
module FrameGuards {
  import opened Bytes
  import opened Optional

  /** Size of a frame header with this second octet: two octets, the extended length, the mask. */
  function HeaderSize(second: byte): (n: nat)
    ensures 2 <= n <= 14
  {
    var marker := second % 128;
    2 + (if marker == 126 then 2 else if marker == 127 then 8 else 0) + (if Bit(second, 128) then 4 else 0)
  }

  datatype Check = Fits(length: nat) | BadFrame | TooLarge

  /** The checks on a complete header, in the source's order. */
  function Validate(max: nat, h: bytes): Check
    requires |h| >= 2 && |h| == HeaderSize(h[1])
  {
    if !Bit(h[1], 128) then BadFrame
    else
      var marker := h[1] % 128;
      var length := PayloadLength(h);
      if marker == 126 && length < 126 then BadFrame
      else if marker == 127 && (length < 0x1_0000 || length >= 0x8000_0000_0000_0000) then BadFrame
      else if h[0] % 16 >= 8 && (!Bit(h[0], 128) || length > 125) then BadFrame
      else if length > max then TooLarge
      else Fits(length)
  }

  function PayloadLength(h: bytes): nat
    requires |h| >= 2 && |h| >= HeaderSize(h[1])
  {
    var marker := h[1] % 128;
    if marker == 126 then BigEndian(h[2..4]) else if marker == 127 then BigEndian(h[2..10]) else marker
  }

  // ---------------------------------------------------------------- one byte at a time

  datatype Guard = Guard(header: bytes, headerLength: Option<nat>, remaining: nat)

  const FRESH := Guard([], None, 0)

  /** Passed carries the bytes forwarded to the protocol engine. */
  datatype Verdict = Passed(guard: Guard, forwarded: bytes) | Malformed | Oversized

  function Step(max: nat, g: Guard, b: byte): Verdict
  {
    if g.remaining > 0 then
      Passed(g.(remaining := g.remaining - 1, headerLength := if g.remaining == 1 then None else g.headerLength), [b])
    else
      var h := g.header + [b];
      if |h| < 2 then Passed(g.(header := h), [])
      else if |h| < HeaderSize(h[1]) then Passed(g.(header := h, headerLength := Some(HeaderSize(h[1]))), [])
      else if |h| > HeaderSize(h[1]) then Malformed
      else match Validate(max, h)
           case BadFrame => Malformed
           case TooLarge => Oversized
           case Fits(n) => Passed(Guard([], if n == 0 then None else Some(HeaderSize(h[1])), n), h)
  }

  function Absorb(max: nat, g: Guard, data: bytes): Verdict
    decreases |data|
  {
    if data == [] then Passed(g, [])
    else
      var first := Step(max, g, data[0]);
      if !first.Passed? then first
      else
        var rest := Absorb(max, first.guard, data[1..]);
        if !rest.Passed? then rest else Passed(rest.guard, first.forwarded + rest.forwarded)
  }

  /** What the fields promise each other between two calls; the pending header stays under 14 octets. */
  predicate Coherent(g: Guard)
  {
    if g.remaining > 0 then g.header == [] && g.headerLength.Some?
    else if |g.header| < 2 then g.headerLength == None
    else |g.header| < HeaderSize(g.header[1]) && g.headerLength == Some(HeaderSize(g.header[1]))
  }

  lemma {:induction false} AbsorbCoherent(max: nat, g: Guard, data: bytes)
    requires Coherent(g) && Absorb(max, g, data).Passed?
    ensures Coherent(Absorb(max, g, data).guard) && |Absorb(max, g, data).guard.header| < 14
    decreases |data|
  {
    if data != [] {
      AbsorbCoherent(max, Step(max, g, data[0]).guard, data[1..]);
    }
  }

  /** `Absorb` after a verdict on what came before. */
  function Then(max: nat, before: Verdict, data: bytes): Verdict
  {
    if !before.Passed? then before
    else
      var rest := Absorb(max, before.guard, data);
      if !rest.Passed? then rest else Passed(rest.guard, before.forwarded + rest.forwarded)
  }

  /** Bytes already forwarded, before a verdict on the rest. */
  function After(out: bytes, v: Verdict): Verdict
  {
    if v.Passed? then Passed(v.guard, out + v.forwarded) else v
  }

  lemma AfterAfter(a: bytes, b: bytes, v: Verdict)
    ensures After(a, After(b, v)) == After(a + b, v) && After([], v) == v
  {
    if v.Passed? {
      assert a + (b + v.forwarded) == a + b + v.forwarded && [] + v.forwarded == v.forwarded;
    }
  }

  /** Neither the verdict nor, when it is to pass, the bytes forwarded depend on how the data are cut. */
  lemma {:induction false} ChunkingIsInvisible(max: nat, g: Guard, a: bytes, b: bytes)
    ensures Absorb(max, g, a + b) == Then(max, Absorb(max, g, a), b)
    decreases |a|
  {
    if a == [] {
      assert a + b == b;
      AfterAfter([], [], Absorb(max, g, b));
    } else {
      assert (a + b)[0] == a[0] && (a + b)[1..] == a[1..] + b;
      var first := Step(max, g, a[0]);
      if first.Passed? {
        ChunkingIsInvisible(max, first.guard, a[1..], b);
        var mid := Absorb(max, first.guard, a[1..]);
        if mid.Passed? {
          AfterAfter(first.forwarded, mid.forwarded, Absorb(max, mid.guard, b));
        }
      }
    }
  }

  function AbsorbAll(max: nat, g: Guard, chunks: seq<bytes>): Verdict
    decreases |chunks|
  {
    if chunks == [] then Passed(g, [])
    else
      var first := Absorb(max, g, chunks[0]);
      if !first.Passed? then first
      else
        var rest := AbsorbAll(max, first.guard, chunks[1..]);
        if !rest.Passed? then rest else Passed(rest.guard, first.forwarded + rest.forwarded)
  }

  lemma {:induction false} AnyChunking(max: nat, g: Guard, chunks: seq<bytes>)
    ensures AbsorbAll(max, g, chunks) == Absorb(max, g, Concat(chunks))
    decreases |chunks|
  {
    if chunks != [] {
      ChunkingIsInvisible(max, g, chunks[0], Concat(chunks[1..]));
      var first := Absorb(max, g, chunks[0]);
      if first.Passed? {
        AnyChunking(max, first.guard, chunks[1..]);
      }
    }
  }

  // ---------------------------------------------------------------- stretches of bytes

  /** Header octets that do not complete the header. */
  lemma {:induction false} HeaderPart(max: nat, g: Guard, part: bytes, rest: bytes)
    requires Coherent(g) && g.remaining == 0
    requires var h := g.header + part; |h| < 2 || |h| < HeaderSize(h[1])
    ensures var h := g.header + part;
            Absorb(max, g, part + rest) ==
            Absorb(max, Guard(h, if |h| < 2 then None else Some(HeaderSize(h[1])), 0), rest)
    decreases |part|
  {
    if part == [] {
      assert part + rest == rest && g.header + part == g.header;
    } else {
      var b, more := part[0], part[1..];
      assert (part + rest)[1..] == more + rest;
      var h := g.header + [b];
      assert h + more == g.header + part;
      var next := Guard(h, if |h| < 2 then None else Some(HeaderSize(h[1])), 0);
      assert Step(max, g, b) == Passed(next, []);
      HeaderPart(max, next, more, rest);
      Forwards(max, next, more + rest, []);
    }
  }

  lemma Forwards(max: nat, g: Guard, data: bytes, prefix: bytes)
    ensures prefix == [] ==> Then(max, Passed(g, prefix), data) == Absorb(max, g, data)
  {
    var r := Absorb(max, g, data);
    if r.Passed? {
      assert [] + r.forwarded == r.forwarded;
    }
  }

  /** Header octets up to and including the last one. */
  lemma LastOctetApart(header: bytes, part: bytes, rest: bytes)
    requires part != []
    ensures var k := |part| - 1;
            && header + part[..k] == (header + part)[..|header + part| - 1]
            && header + part[..k] + [part[k]] == header + part
            && part[..k] + ([part[k]] + rest) == part + rest
  {
  }

  lemma WholeHeader(max: nat, g: Guard, part: bytes, rest: bytes)
    requires Coherent(g) && g.remaining == 0 && part != []
    requires var h := g.header + part; |h| >= 2 && |h| == HeaderSize(h[1])
    ensures var h := g.header + part;
            Absorb(max, g, part + rest) ==
            match Validate(max, h)
            case BadFrame => Malformed
            case TooLarge => Oversized
            case Fits(n) => Then(max, Passed(Guard([], if n == 0 then None else Some(HeaderSize(h[1])), n), h), rest)
  {
    var k := |part| - 1;
    var h := g.header + part;
    var front := g.header + part[..k];
    LastOctetApart(g.header, part, rest);
    HeaderPart(max, g, part[..k], [part[k]] + rest);
    LastHeaderOctet(max, Guard(front, if |front| < 2 then None else Some(HeaderSize(front[1])), 0), part[k], rest);
  }

  lemma LastHeaderOctet(max: nat, g: Guard, b: byte, rest: bytes)
    requires g.remaining == 0
    requires var h := g.header + [b]; |h| >= 2 && |h| == HeaderSize(h[1])
    ensures var h := g.header + [b];
            Absorb(max, g, [b] + rest) ==
            match Validate(max, h)
            case BadFrame => Malformed
            case TooLarge => Oversized
            case Fits(n) => Then(max, Passed(Guard([], if n == 0 then None else Some(HeaderSize(h[1])), n), h), rest)
  {
    assert ([b] + rest)[0] == b && ([b] + rest)[1..] == rest;
  }

  /** The guard after n octets of payload. */
  function Drained(g: Guard, n: nat): Guard
    requires n <= g.remaining
  {
    g.(remaining := g.remaining - n, headerLength := if n > 0 && n == g.remaining then None else g.headerLength)
  }

  /** Payload octets. */
  lemma {:induction false} PayloadPart(max: nat, g: Guard, part: bytes, rest: bytes)
    requires Coherent(g) && |part| <= g.remaining
    ensures Absorb(max, g, part + rest) == Then(max, Passed(Drained(g, |part|), part), rest)
    decreases |part|
  {
    if part == [] {
      assert part + rest == rest;
      Forwards(max, g, rest, []);
    } else {
      var b, more := part[0], part[1..];
      assert (part + rest)[1..] == more + rest;
      assert [b] + more == part;
      var next := Drained(g, 1);
      assert Step(max, g, b) == Passed(next, [b]);
      PayloadPart(max, next, more, rest);
      assert Drained(next, |more|) == Drained(g, |part|);
      Rejoin(max, Drained(g, |part|), [b], more, rest);
    }
  }

  /** What was forwarded may be accounted before or after. */
  lemma Rejoin(max: nat, g: Guard, out: bytes, part: bytes, rest: bytes)
    ensures var r := Then(max, Passed(g, part), rest);
            Then(max, Passed(g, out + part), rest) == if !r.Passed? then r else Passed(r.guard, out + r.forwarded)
  {
    var r := Absorb(max, g, rest);
    if r.Passed? {
      assert out + part + r.forwarded == out + (part + r.forwarded);
    }
  }

  const GOOD_FRAME: bytes := [0x82, 0x80, 1, 2, 3, 4]
  const UNMASKED_FRAME: bytes := [0x82, 0]

  lemma GoodFramePasses(max: nat)
    ensures Absorb(max, FRESH, GOOD_FRAME) == Passed(FRESH, GOOD_FRAME)
  {
    var h := [] + GOOD_FRAME;
    assert h == GOOD_FRAME;
    assert Bit(0x80, 128) && HeaderSize(h[1]) == 6;
    assert Validate(max, h) == Fits(0);
    WholeHeader(max, FRESH, GOOD_FRAME, []);
    assert GOOD_FRAME + [] == GOOD_FRAME;
  }

  lemma UnmaskedFrameFails(max: nat)
    ensures Absorb(max, FRESH, UNMASKED_FRAME) == Malformed
  {
    var h := [] + UNMASKED_FRAME;
    assert h == UNMASKED_FRAME;
    assert !Bit(0, 128) && HeaderSize(h[1]) == 2;
    assert Validate(max, h) == BadFrame;
    WholeHeader(max, FRESH, UNMASKED_FRAME, []);
    assert UNMASKED_FRAME + [] == UNMASKED_FRAME;
  }

  // ---------------------------------------------------------------- what a rejected stream has forwarded

  /** The bytes a list of calls hands to the protocol engine; the call that rejects hands over nothing. */
  function ForwardedBy(max: nat, g: Guard, chunks: seq<bytes>): bytes
    decreases |chunks|
  {
    if chunks == [] then []
    else
      match Absorb(max, g, chunks[0])
      case Passed(next, out) => out + ForwardedBy(max, next, chunks[1..])
      case Malformed => []
      case Oversized => []
  }

  /** They are what some passing prefix of the data forwards, and all of it when the data pass. */
  lemma {:induction false} ForwardedPrefix(max: nat, g: Guard, chunks: seq<bytes>) returns (p: bytes)
    ensures p <= Concat(chunks) && Absorb(max, g, p).Passed? && Absorb(max, g, p).forwarded == ForwardedBy(max, g, chunks)
    ensures Absorb(max, g, Concat(chunks)).Passed? ==> p == Concat(chunks)
    decreases |chunks|
  {
    p := [];
    if chunks != [] {
      var first := Absorb(max, g, chunks[0]);
      ChunkingIsInvisible(max, g, chunks[0], Concat(chunks[1..]));
      if first.Passed? {
        var q := ForwardedPrefix(max, first.guard, chunks[1..]);
        ChunkingIsInvisible(max, g, chunks[0], q);
        p := chunks[0] + q;
      }
    }
  }

  /** Every way to cut the data forwards the same bytes. */
  ghost predicate CutsAgree(max: nat, g: Guard, data: bytes)
  {
    forall a: seq<bytes>, b: seq<bytes> | Concat(a) == data && Concat(b) == data :: ForwardedBy(max, g, a) == ForwardedBy(max, g, b)
  }

  /** Some prefix of the data passes and has bytes forwarded. */
  ghost predicate ForwardsSomething(max: nat, g: Guard, data: bytes)
  {
    exists p :: p <= data && Absorb(max, g, p).Passed? && Absorb(max, g, p).forwarded != []
  }

  /**
   When the bytes forwarded depend on the cut: `feed` raises with the chunks it had gathered, so a rejected
   stream forwards the same bytes however it is cut if and only if none of its prefixes that pass forwards any.
   */
  lemma CutsAgreeExactly(max: nat, g: Guard, data: bytes)
    ensures CutsAgree(max, g, data) <==> Absorb(max, g, data).Passed? || !ForwardsSomething(max, g, data)
  {
    if Absorb(max, g, data).Passed? || !ForwardsSomething(max, g, data) {
      forall a: seq<bytes>, b: seq<bytes> | Concat(a) == data && Concat(b) == data
        ensures ForwardedBy(max, g, a) == ForwardedBy(max, g, b)
      {
        var p := ForwardedPrefix(max, g, a);
        var q := ForwardedPrefix(max, g, b);
      }
    } else {
      var p :| p <= data && Absorb(max, g, p).Passed? && Absorb(max, g, p).forwarded != [];
      OneOrTwoChunks(p, data[|p|..]);
      assert p + data[|p|..] == data;
      assert ForwardedBy(max, g, [data]) == [];
      assert ForwardedBy(max, g, [p, data[|p|..]]) != [];
    }
  }

  lemma OneOrTwoChunks(a: bytes, b: bytes)
    ensures Concat([a + b]) == a + b && Concat([a, b]) == a + b
  {
    assert [a, b][1..] == [b] && Concat([b]) == b;
  }

  /** A good frame before an unmasked one is forwarded only if it came in an earlier call. */
  lemma RejectionLosesItsOwnCall(max: nat)
    ensures ForwardedBy(max, FRESH, [GOOD_FRAME, UNMASKED_FRAME]) == GOOD_FRAME
    ensures ForwardedBy(max, FRESH, [GOOD_FRAME + UNMASKED_FRAME]) == []
  {
    GoodFramePasses(max);
    UnmaskedFrameFails(max);
    ChunkingIsInvisible(max, FRESH, GOOD_FRAME, UNMASKED_FRAME);
    assert [GOOD_FRAME, UNMASKED_FRAME][1..] == [UNMASKED_FRAME];
    assert GOOD_FRAME + [] == GOOD_FRAME;
  }

  /** The data complete a header, with no payload before it, and that header is rejected. */
  ghost predicate FirstHeaderRejected(max: nat, g: Guard, data: bytes)
  {
    g.remaining == 0 && exists k: nat :: CompletesHeader(g, data, k) && !Validate(max, g.header + data[..k]).Fits?
  }

  predicate CompletesHeader(g: Guard, data: bytes, k: nat)
  {
    0 < k <= |data| && var h := g.header + data[..k]; |h| >= 2 && |h| == HeaderSize(h[1])
  }

  /** Data that are rejected at a header complete one, at one place only. */
  lemma HeaderEnds(max: nat, g: Guard, data: bytes) returns (k: nat)
    requires Coherent(g) && g.remaining == 0 && !Absorb(max, g, data).Passed?
    ensures CompletesHeader(g, data, k) && forall j: nat | CompletesHeader(g, data, j) :: j == k
  {
    assert data + [] == data;
    var all := g.header + data;
    if |all| < 2 || |all| < HeaderSize(all[1]) {
      HeaderPart(max, g, data, []);
    }
    k := HeaderSize(all[1]) - |g.header|;
    assert (g.header + data[..k])[1] == all[1];
    forall j: nat | CompletesHeader(g, data, j) ensures j == k {
      assert (g.header + data[..j])[1] == all[1];
    }
  }

  /** Nothing is forwarded before a rejection exactly when the first header the data complete is the one rejected. */
  lemma NothingForwardedExactly(max: nat, g: Guard, data: bytes)
    requires Coherent(g) && !Absorb(max, g, data).Passed?
    ensures !ForwardsSomething(max, g, data) <==> FirstHeaderRejected(max, g, data)
  {
    if g.remaining > 0 {
      assert data[..1] <= data && [data[0]] == data[..1];
      assert Absorb(max, g, data[..1]) == Passed(Step(max, g, data[0]).guard, [data[0]] + []);
    } else {
      var k := HeaderEnds(max, g, data);
      var h := g.header + data[..k];
      assert data[..k] + [] == data[..k];
      WholeHeader(max, g, data[..k], []);
      if Validate(max, h).Fits? {
        assert data[..k] <= data && h != [];
      } else {
        forall p | p <= data && Absorb(max, g, p).Passed? ensures Absorb(max, g, p).forwarded == [] {
          BeforeTheHeader(max, g, data, k, p);
        }
      }
    }
  }

  lemma BeforeTheHeader(max: nat, g: Guard, data: bytes, k: nat, p: bytes)
    requires Coherent(g) && g.remaining == 0 && CompletesHeader(g, data, k) && !Validate(max, g.header + data[..k]).Fits?
    requires p <= data && Absorb(max, g, p).Passed?
    ensures Absorb(max, g, p).forwarded == []
  {
    if |p| >= k {
      assert p == data[..k] + p[k..];
      WholeHeader(max, g, data[..k], p[k..]);
    } else {
      assert p + [] == p;
      var h, front := g.header + data[..k], g.header + p;
      assert front == h[..|front|];
      HeaderPart(max, g, p, []);
    }
  }

  // ---------------------------------------------------------------- the rules on whole frames

  /** Sections 5.2 and 5.5 of RFC 6455, and the configured limit, for one complete header. */
  predicate LegalHeader(max: nat, h: bytes)
  {
    && |h| >= 2 && |h| == HeaderSize(h[1])
    && Bit(h[1], 128)
    && var n := PayloadLength(h);
       && n <= max && n < 0x8000_0000_0000_0000
       && (h[1] % 128 == 126 ==> n >= 126) && (h[1] % 128 == 127 ==> n >= 0x1_0000)
       && (h[0] % 16 >= 8 ==> Bit(h[0], 128) && n <= 125)
  }

  /** A whole client frame: a legal header and as much payload as it declares. */
  datatype Frame = Frame(header: bytes, payload: bytes)

  predicate LegalFrame(max: nat, f: Frame)
  {
    LegalHeader(max, f.header) && |f.payload| == PayloadLength(f.header)
  }

  function FrameBytes(frames: seq<Frame>): bytes
  {
    if frames == [] then []
    else FrameBytes(frames[..|frames| - 1]) + frames[|frames| - 1].header + frames[|frames| - 1].payload
  }

  /** A received stream: whole frames, then a partial header or a legal header with part of its payload. */
  datatype Stream =
    | InHeader(frames: seq<Frame>, part: bytes)
    | InPayload(frames: seq<Frame>, header: bytes, part: bytes)

  function Octets(d: Stream): bytes
  {
    match d
    case InHeader(frames, part) => FrameBytes(frames) + part
    case InPayload(frames, header, part) => FrameBytes(frames) + header + part
  }

  predicate LegalStream(max: nat, d: Stream)
  {
    && (forall f | f in d.frames :: LegalFrame(max, f))
    && match d
       case InHeader(_, part) => |part| < 2 || |part| < HeaderSize(part[1])
       case InPayload(_, header, part) => LegalHeader(max, header) && |part| < PayloadLength(header)
  }

  /** The guard's state after a legal stream, and what it has forwarded by then: all but a partial header. */
  function StateOf(max: nat, d: Stream): Guard
    requires LegalStream(max, d)
  {
    match d
    case InHeader(_, part) => Guard(part, if |part| < 2 then None else Some(HeaderSize(part[1])), 0)
    case InPayload(_, header, part) => Guard([], Some(HeaderSize(header[1])), PayloadLength(header) - |part|)
  }

  function ForwardedOf(d: Stream): bytes
  {
    match d
    case InHeader(frames, _) => FrameBytes(frames)
    case InPayload(frames, header, part) => FrameBytes(frames) + header + part
  }

  lemma ValidateIsLegal(max: nat, h: bytes)
    requires |h| >= 2 && |h| == HeaderSize(h[1])
    ensures Validate(max, h).Fits? <==> LegalHeader(max, h)
    ensures Validate(max, h).Fits? ==> Validate(max, h).length == PayloadLength(h)
  {
    if h[1] % 128 == 126 {
      BigEndianBound(h[2..4]);
    }
  }

  lemma {:induction false} BigEndianBound(b: bytes)
    ensures BigEndian(b) < Power(|b|)
  {
    if b != [] {
      BigEndianBound(b[..|b| - 1]);
    }
  }

  /** 256 to the n. */
  function Power(n: nat): (p: nat)
    ensures p > 0
  {
    if n == 0 then 1 else 256 * Power(n - 1)
  }

  /** What one more octet makes of a stream. */
  function Extend(max: nat, d: Stream, b: byte): Stream
  {
    match d
    case InHeader(frames, part) =>
      var h := part + [b];
      if |h| < 2 || |h| != HeaderSize(h[1]) then InHeader(frames, h)
      else if PayloadLength(h) == 0 then InHeader(frames + [Frame(h, [])], [])
      else InPayload(frames, h, [])
    case InPayload(frames, header, part) =>
      if |header| >= 2 && |header| == HeaderSize(header[1]) && |part| + 1 == PayloadLength(header)
      then InHeader(frames + [Frame(header, part + [b])], [])
      else InPayload(frames, header, part + [b])
  }

  lemma FramesSnoc(frames: seq<Frame>, f: Frame)
    ensures FrameBytes(frames + [f]) == FrameBytes(frames) + f.header + f.payload
  {
    assert (frames + [f])[..|frames|] == frames;
  }

  lemma ExtendOctets(max: nat, d: Stream, b: byte)
    ensures Octets(Extend(max, d, b)) == Octets(d) + [b]
  {
    var e := Extend(max, d, b);
    match d
    case InHeader(frames, part) =>
      var h := part + [b];
      assert FrameBytes(frames) + h == FrameBytes(frames) + part + [b];
      if e.InHeader? && e.frames != frames {
        FramesSnoc(frames, Frame(h, []));
        assert FrameBytes(frames) + h + [] + [] == FrameBytes(frames) + h;
      } else if e.InPayload? {
        assert FrameBytes(frames) + h + [] == FrameBytes(frames) + h;
      }
    case InPayload(frames, header, part) =>
      assert FrameBytes(frames) + header + (part + [b]) == FrameBytes(frames) + header + part + [b];
      if e.InHeader? {
        FramesSnoc(frames, Frame(header, part + [b]));
        assert Octets(e) == FrameBytes(frames) + header + (part + [b]) + [];
      }
  }

  /** One octet passes exactly when the stream stays legal, and is forwarded exactly as the stream says. */
  lemma OctetStep(max: nat, d: Stream, b: byte)
    requires LegalStream(max, d)
    ensures var r, e := Step(max, StateOf(max, d), b), Extend(max, d, b);
            && (r.Passed? <==> LegalStream(max, e))
            && (r.Passed? ==> r.guard == StateOf(max, e) && ForwardedOf(d) + r.forwarded == ForwardedOf(e))
  {
    match d
    case InHeader(frames, part) => HeaderOctet(max, frames, part, b);
    case InPayload(frames, header, part) => PayloadOctet(max, frames, header, part, b);
  }

  lemma HeaderOctet(max: nat, frames: seq<Frame>, part: bytes, b: byte)
    requires LegalStream(max, InHeader(frames, part))
    ensures var d := InHeader(frames, part);
            var r, e := Step(max, StateOf(max, d), b), Extend(max, d, b);
            && (r.Passed? <==> LegalStream(max, e))
            && (r.Passed? ==> r.guard == StateOf(max, e) && ForwardedOf(d) + r.forwarded == ForwardedOf(e))
  {
    var h := part + [b];
    assert FrameBytes(frames) + [] == FrameBytes(frames);
    assert |part| >= 2 ==> h[1] == part[1];
    if |h| >= 2 && |h| == HeaderSize(h[1]) {
      ValidateIsLegal(max, h);
      assert FrameBytes(frames) + h + [] == FrameBytes(frames) + h;
      if PayloadLength(h) == 0 {
        FramesSnoc(frames, Frame(h, []));
        OneMoreFrame(max, frames, Frame(h, []));
      }
    }
  }

  lemma OneMoreFrame(max: nat, frames: seq<Frame>, f: Frame)
    requires forall x | x in frames :: LegalFrame(max, x)
    ensures (forall x | x in frames + [f] :: LegalFrame(max, x)) <==> LegalFrame(max, f)
  {
    assert f in frames + [f];
  }

  lemma PayloadOctet(max: nat, frames: seq<Frame>, header: bytes, part: bytes, b: byte)
    requires LegalStream(max, InPayload(frames, header, part))
    ensures var d := InPayload(frames, header, part);
            var r, e := Step(max, StateOf(max, d), b), Extend(max, d, b);
            r.Passed? && LegalStream(max, e) && r.guard == StateOf(max, e) && ForwardedOf(d) + r.forwarded == ForwardedOf(e)
  {
    var f := Frame(header, part + [b]);
    assert FrameBytes(frames) + header + (part + [b]) == FrameBytes(frames) + header + part + [b];
    if |part| + 1 == PayloadLength(header) {
      FramesSnoc(frames, f);
      assert forall x :: x in frames + [f] <==> x in frames || x == f;
    }
  }

  /** Soundness and conservation: what the guard lets pass is a legal stream, forwarded octet for octet. */
  lemma {:induction false} Accepted(max: nat, data: bytes) returns (d: Stream)
    requires Absorb(max, FRESH, data).Passed?
    ensures LegalStream(max, d) && Octets(d) == data
    ensures Absorb(max, FRESH, data) == Passed(StateOf(max, d), ForwardedOf(d))
    decreases |data|
  {
    if data == [] {
      d := InHeader([], []);
    } else {
      var n := |data| - 1;
      var before, b := data[..n], data[n];
      assert before + [b] == data;
      ChunkingIsInvisible(max, FRESH, before, [b]);
      var c := Accepted(max, before);
      OneOctet(max, StateOf(max, c), b);
      OctetStep(max, c, b);
      ExtendOctets(max, c, b);
      d := Extend(max, c, b);
    }
  }

  lemma OneOctet(max: nat, g: Guard, b: byte)
    ensures Absorb(max, g, [b]) == Step(max, g, b)
  {
    var r := Step(max, g, b);
    assert [b][1..] == [];
    if r.Passed? {
      assert r.forwarded + [] == r.forwarded;
    }
  }

  /** Every legal stream but the empty one is a shorter legal stream and one octet. */
  lemma Shorten(max: nat, d: Stream) returns (c: Stream, b: byte)
    requires LegalStream(max, d) && Octets(d) != []
    ensures LegalStream(max, c) && Extend(max, c, b) == d && |Octets(c)| < |Octets(d)|
  {
    match d {
      case InHeader(frames, part) =>
        if part != [] {
          c, b := ShortenHeader(max, frames, part);
        } else {
          c, b := ShortenFrames(max, frames);
        }
      case InPayload(frames, header, part) =>
        c, b := ShortenPayload(max, frames, header, part);
    }
    ExtendOctets(max, c, b);
  }

  lemma ShortenHeader(max: nat, frames: seq<Frame>, part: bytes) returns (c: Stream, b: byte)
    requires part != [] && LegalStream(max, InHeader(frames, part))
    ensures LegalStream(max, c) && Extend(max, c, b) == InHeader(frames, part)
  {
    var k := |part| - 1;
    c, b := InHeader(frames, part[..k]), part[k];
    assert part[..k] + [b] == part;
  }

  lemma ShortenPayload(max: nat, frames: seq<Frame>, header: bytes, part: bytes) returns (c: Stream, b: byte)
    requires LegalStream(max, InPayload(frames, header, part))
    ensures LegalStream(max, c) && Extend(max, c, b) == InPayload(frames, header, part)
  {
    if part != [] {
      var k := |part| - 1;
      c, b := InPayload(frames, header, part[..k]), part[k];
      assert part[..k] + [b] == part;
    } else {
      var k := |header| - 1;
      c, b := InHeader(frames, header[..k]), header[k];
      assert header[..k] + [b] == header;
    }
  }

  lemma ShortenFrames(max: nat, frames: seq<Frame>) returns (c: Stream, b: byte)
    requires frames != [] && LegalStream(max, InHeader(frames, []))
    ensures LegalStream(max, c) && Extend(max, c, b) == InHeader(frames, [])
  {
    var n := |frames| - 1;
    var rest, f := frames[..n], frames[n];
    assert f in frames && forall x | x in rest :: x in frames;
    assert rest + [f] == frames;
    if f.payload != [] {
      var k := |f.payload| - 1;
      c, b := InPayload(rest, f.header, f.payload[..k]), f.payload[k];
      assert f.payload[..k] + [b] == f.payload;
    } else {
      var k := |f.header| - 1;
      c, b := InHeader(rest, f.header[..k]), f.header[k];
      assert f.header[..k] + [b] == f.header;
    }
  }

  /** Completeness: every legal stream passes. */
  lemma {:induction false} LegalPasses(max: nat, d: Stream)
    requires LegalStream(max, d)
    ensures Absorb(max, FRESH, Octets(d)) == Passed(StateOf(max, d), ForwardedOf(d))
    decreases |Octets(d)|
  {
    if Octets(d) == [] {
      OnlyEmpty(max, d);
    } else {
      var c, b := Shorten(max, d);
      LegalPasses(max, c);
      ExtendOctets(max, c, b);
      ChunkingIsInvisible(max, FRESH, Octets(c), [b]);
      OneOctet(max, StateOf(max, c), b);
      OctetStep(max, c, b);
    }
  }

  lemma FrameBytesGrow(max: nat, frames: seq<Frame>)
    requires frames != [] && forall f | f in frames :: LegalFrame(max, f)
    ensures |FrameBytes(frames)| >= 2
  {
    assert frames[|frames| - 1] in frames;
  }

  lemma OnlyEmpty(max: nat, d: Stream)
    requires LegalStream(max, d) && Octets(d) == []
    ensures d == InHeader([], [])
  {
    if d.frames != [] {
      FrameBytesGrow(max, d.frames);
      assert false;
    }
  }

  /** The guard passes exactly the prefixes of sequences of legal client frames. */
  lemma PassesExactlyLegalStreams(max: nat, data: bytes)
    ensures Absorb(max, FRESH, data).Passed? <==> exists d :: LegalStream(max, d) && Octets(d) == data
  {
    if Absorb(max, FRESH, data).Passed? {
      var d := Accepted(max, data);
    }
    forall d | LegalStream(max, d) && Octets(d) == data
      ensures Absorb(max, FRESH, data).Passed?
    {
      LegalPasses(max, d);
    }
  }

  // ---------------------------------------------------------------- the length field

  /** The n octets of a number, most significant first. */
  function ToBytes(v: nat, n: nat): (b: bytes)
    ensures |b| == n
  {
    if n == 0 then [] else ToBytes(v / 256, n - 1) + [v % 256]
  }

  lemma {:induction false} ToBytesReadsBack(v: nat, n: nat)
    requires v < Power(n)
    ensures BigEndian(ToBytes(v, n)) == v
  {
    if n > 0 {
      ToBytesReadsBack(v / 256, n - 1);
      var b := ToBytes(v, n);
      assert b[..|b| - 1] == ToBytes(v / 256, n - 1);
    }
  }

  lemma {:induction false} BytesReadBack(b: bytes)
    ensures ToBytes(BigEndian(b), |b|) == b
  {
    if b != [] {
      var n := |b| - 1;
      BytesReadBack(b[..n]);
      assert BigEndian(b) / 256 == BigEndian(b[..n]) && BigEndian(b) % 256 == b[n];
      assert b[..n] + [b[n]] == b;
    }
  }

  /** Section 5.2 of RFC 6455: the shortest header of a masked frame of this length. */
  function MinimalHeader(first: byte, length: nat, mask: bytes): bytes
    requires length < 0x8000_0000_0000_0000
  {
    if length < 126 then [first, 128 + length] + mask
    else if length < 0x1_0000 then [first, 254] + ToBytes(length, 2) + mask
    else [first, 255] + ToBytes(length, 8) + mask
  }

  lemma Powers()
    ensures Power(2) == 0x1_0000 && Power(8) == 0x1_0000_0000_0000_0000
  {
    assert Power(1) == 256;
    assert Power(4) == 256 * (256 * Power(2));
    assert Power(6) == 256 * (256 * Power(4));
    assert Power(8) == 256 * (256 * Power(6));
  }

  /** The minimal encoding of any length in range is accepted and decodes back to that length. */
  lemma MinimalHeaderReadsBack(max: nat, first: byte, length: nat, mask: bytes)
    requires |mask| == 4 && length <= max && length < 0x8000_0000_0000_0000
    requires first % 16 >= 8 ==> Bit(first, 128) && length <= 125
    ensures LegalHeader(max, MinimalHeader(first, length, mask))
    ensures PayloadLength(MinimalHeader(first, length, mask)) == length
  {
    var h := MinimalHeader(first, length, mask);
    Powers();
    if length < 126 {
      assert Bit(128 + length, 128) && (128 + length) % 128 == length;
    } else if length < 0x1_0000 {
      ToBytesReadsBack(length, 2);
      assert h[2..4] == ToBytes(length, 2);
      assert Bit(254, 128);
    } else {
      ToBytesReadsBack(length, 8);
      assert h[2..10] == ToBytes(length, 8);
      assert Bit(255, 128);
    }
  }

  /** And no other header is accepted: a legal header is the minimal one for its length. */
  lemma LegalHeaderIsMinimal(max: nat, h: bytes)
    requires LegalHeader(max, h)
    ensures h == MinimalHeader(h[0], PayloadLength(h), h[|h| - 4..])
  {
    var marker := h[1] % 128;
    var n := PayloadLength(h);
    MaskedMarker(h[1]);
    if marker == 126 {
      BytesReadBack(h[2..4]);
      BigEndianBound(h[2..4]);
      Powers();
      assert h == [h[0], h[1]] + h[2..4] + h[4..];
    } else if marker == 127 {
      BytesReadBack(h[2..10]);
      assert h == [h[0], h[1]] + h[2..10] + h[10..];
    } else {
      assert h == [h[0], h[1]] + h[2..];
    }
  }

  lemma MaskedMarker(b: byte)
    requires Bit(b, 128)
    ensures b == 128 + b % 128
  {
  }

  // ---------------------------------------------------------------- the chunk-at-a-time loop

  datatype Fed = Chunks(chunks: seq<bytes>) | ProtocolError | CapacityError

  class FrameGuard {
    const max: nat
    var header: bytes
    var headerLength: Option<nat>
    var remaining: nat

    ghost function View(): Guard
      reads this
    {
      Guard(header, headerLength, remaining)
    }

    constructor (max: nat)
      ensures this.max == max && View() == FRESH
    {
      this.max, header, headerLength, remaining := max, [], None, 0;
    }

    /** `feed`; after an error the guard is not used again. */
    method Feed(data: bytes) returns (fed: Fed)
      requires Coherent(View())
      modifies this
      ensures match Absorb(max, old(View()), data)
              case Passed(g, out) => fed.Chunks? && Concat(fed.chunks) == out && View() == g && Coherent(g)
              case Malformed => fed == ProtocolError
              case Oversized => fed == CapacityError
      ensures fed.Chunks? ==> forall c | c in fed.chunks :: c != []
    {
      var chunks: seq<bytes> := [];
      var offset := 0;
      ghost var spec := Absorb(max, View(), data);
      assert data[0..] == data;
      Forwards(max, View(), data, []);
      while offset < |data|
        invariant offset <= |data| && Coherent(View())
        invariant Then(max, Passed(View(), Concat(chunks)), data[offset..]) == spec
        invariant forall c | c in chunks :: c != []
        decreases |data| - offset
      {
        ghost var out := Concat(chunks);
        if remaining > 0 {
          chunks, offset := ReadPayload(data, offset, chunks);
          continue;
        }
        var done: Option<Check>;
        done, offset := ReadHeader(data, offset);
        if done == None { continue; }
        ghost var h := header;
        match done.value {
          case BadFrame => return ProtocolError;
          case TooLarge => return CapacityError;
          case Fits(length) =>
            ConcatSnoc(chunks, header);
            chunks := chunks + [header];
            header := [];
            remaining := length;
            if length == 0 {
              headerLength := None;
            }
            Rejoin(max, View(), out, h, data[offset..]);
        }
      }
      assert data[offset..] == [];
      assert Concat(chunks) + [] == Concat(chunks);
      fed := Chunks(chunks);
    }

    /** The payload octets available, forwarded as one chunk. */
    method ReadPayload(data: bytes, from: nat, chunks: seq<bytes>) returns (more: seq<bytes>, offset: nat)
      requires Coherent(View()) && remaining > 0 && from < |data|
      modifies this
      ensures from < offset <= |data| && Coherent(View())
      ensures more == chunks + [data[from..offset]]
      ensures Then(max, Passed(View(), Concat(more)), data[offset..])
              == Then(max, Passed(old(View()), Concat(chunks)), data[from..])
    {
      ghost var before := View();
      var length := Min(remaining, |data| - from);
      offset := from + length;
      var part := data[from..offset];
      assert part + data[offset..] == data[from..];
      PayloadPart(max, before, part, data[offset..]);
      ThenMore(max, before, Concat(chunks), data[from..]);
      ConcatSnoc(chunks, part);
      more := chunks + [part];
      remaining := remaining - length;
      if remaining == 0 {
        headerLength := None;
      }
      Rejoin(max, View(), Concat(chunks), part, data[offset..]);
    }

    /** The header octets available; None while the header is incomplete, else the verdict on it. */
    method ReadHeader(data: bytes, from: nat) returns (done: Option<Check>, offset: nat)
      requires Coherent(View()) && remaining == 0 && from < |data|
      modifies this
      ensures from < offset <= |data| && remaining == 0
      ensures done == None ==> Coherent(View()) && Absorb(max, old(View()), data[from..]) == Absorb(max, View(), data[offset..])
      ensures done.Some? ==>
                && |header| >= 2 && |header| == HeaderSize(header[1]) && headerLength == Some(|header|)
                && done.value == Validate(max, header)
                && Absorb(max, old(View()), data[from..]) ==
                   match done.value
                   case BadFrame => Malformed
                   case TooLarge => Oversized
                   case Fits(n) => Then(max, Passed(Guard([], if n == 0 then None else Some(|header|), n), header), data[offset..])
    {
      offset := from;
      ghost var before := View();
      if headerLength == None {
        var length := Min(2 - |header|, |data| - offset);
        header := header + data[offset..offset + length];
        offset := offset + length;
        if |header| < 2 {
          assert data[from..offset] + data[offset..] == data[from..];
          HeaderPart(max, before, data[from..offset], data[offset..]);
          return None, offset;
        }
        headerLength := Some(HeaderSize(header[1]));
      }
      var length := Min(headerLength.value - |header|, |data| - offset);
      header := header + data[offset..offset + length];
      offset := offset + length;
      assert before.header + data[from..offset] == header;
      assert data[from..offset] + data[offset..] == data[from..];
      if |header| < headerLength.value {
        HeaderPart(max, before, data[from..offset], data[offset..]);
        return None, offset;
      }
      WholeHeader(max, before, data[from..offset], data[offset..]);
      done := Some(Validate(max, header));
    }
  }

  lemma ThenMore(max: nat, g: Guard, out: bytes, data: bytes)
    ensures Then(max, Passed(g, out), data) ==
            var r := Absorb(max, g, data);
            if !r.Passed? then r else Passed(r.guard, out + r.forwarded)
  {
  }
}
