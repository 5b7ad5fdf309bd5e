/**
 The incremental HTTP/1.1 request parser (`HTTPRequestParser`).

 `Outcome` says what the parser decides once it has been fed given bytes.  The class keeps a buffer and is
 proved to give that outcome at every call, so what is proved about `Outcome` holds for every chunking.
 */
module HttpParser {
  import opened Bytes
  import opened Optional
  import opened Decimals
  import opened Http

  /** `maxDigits` is how many digits Python's `int` reads from a string, 0 for any number of them. */
  datatype Config = Config(
    maxHeader: nat, maxCount: nat, maxBody: nat, maxTarget: nat, preserveTrailing: bool, maxDigits: nat)

  datatype RequestHead = RequestHead(verb: bytes, target: bytes, headers: seq<Pair>, length: nat)

  /** Unread: `int` raises a ValueError, which is no HTTPParseError. */
  datatype HeadResult = Parsed(head: RequestHead) | BadHead(status: nat) | Unread

  datatype Outcome =
    | NeedMore
    | Rejected(status: nat)
    | Raised   // the ValueError of `int` leaves the parser
    | Accepted(verb: bytes, path: bytes, query: bytes, headers: seq<Pair>, body: bytes, trailing: bytes)

  const SLASH: byte := 47
  const HASH: byte := 35
  const QUESTION: byte := 63
  const VERSION: bytes := [72, 84, 84, 80, 47, 49, 46, 49]
  const HOST: bytes := [104, 111, 115, 116]
  const TRANSFER_ENCODING: bytes := [116, 114, 97, 110, 115, 102, 101, 114, 45, 101, 110, 99, 111, 100, 105, 110, 103]

  predicate IsDigits(b: bytes)
  {
    b != [] && forall c | c in b :: 48 <= c <= 57
  }

  /** `int(value)` for a string of ASCII digits. */
  function NumberOf(b: bytes): nat
    requires forall c | c in b :: 48 <= c <= 57
  {
    if b == [] then 0
    else
      var n := |b| - 1;
      assert 48 <= b[n] by { assert b[n] in b; }
      assert forall c | c in b[..n] :: c in b;
      10 * NumberOf(b[..n]) + (b[n] - 48)
  }

  // ---------------------------------------------------------------- the head

  /** The header lines in order, and the values given for content-length; None at a line that is refused. */
  datatype Scan = Scan(pairs: seq<Pair>, lengths: seq<bytes>)

  function ScanLines(lines: seq<bytes>): Option<Scan>
  {
    if lines == [] then Some(Scan([], []))
    else
      var n := |lines| - 1;
      match ScanLines(lines[..n])
      case None => None
      case Some(before) => ScanLine(before, lines[n])
  }

  function ScanLine(before: Scan, line: bytes): Option<Scan>
  {
    match ReadLine(line)
    case None => None
    case Some(pair) =>
      if Lower(pair.0) == TRANSFER_ENCODING then None
      else Some(Scan(before.pairs + [pair], if Lower(pair.0) == CONTENT_LENGTH then before.lengths + [pair.1] else before.lengths))
  }

  predicate OriginForm(target: bytes)
  {
    HASH !in target && forall c | c in target :: 0x21 <= c <= 0x7E
  }

  /** The checks behind the header lines, in the source's order. */
  function FinishHead(cfg: Config, verb: bytes, target: bytes, scan: Scan): HeadResult
  {
    if |scan.lengths| > 1 then BadHead(400)
    else if !ValidHeaders(scan.pairs) then BadHead(400)
    else if scan.lengths != [] && !IsDigits(scan.lengths[0]) then BadHead(400)
    else if scan.lengths != [] && 0 < cfg.maxDigits < |scan.lengths[0]| then Unread
    else
      var length := if scan.lengths == [] then 0 else NumberOf(scan.lengths[0]);
      if length > cfg.maxBody then BadHead(413)
      else if Get(scan.pairs, HOST) == None || Get(scan.pairs, HOST) == Some([]) then BadHead(400)
      else Parsed(RequestHead(verb, target, scan.pairs, length))
  }

  function ParseHead(cfg: Config, raw: bytes): HeadResult
  {
    var lines := Lines(raw);
    var parts := Split(lines[0], SPACE);
    if |parts| != 3 then BadHead(400)
    else if parts[2] != VERSION || parts[1] == [] || parts[1][0] != SLASH then BadHead(400)
    else if |parts[1]| > cfg.maxTarget then BadHead(414)
    else if !OriginForm(parts[1]) then BadHead(400)
    else if |lines| - 1 > cfg.maxCount then BadHead(413)
    else match ScanLines(lines[1..])
         case None => BadHead(400)
         case Some(scan) => FinishHead(cfg, parts[0], parts[1], scan)
  }

  /** `_parse_head`, with the loop over the header lines. */
  method ParseHeadLoop(cfg: Config, raw: bytes) returns (result: HeadResult)
    ensures result == ParseHead(cfg, raw)
  {
    var lines := Lines(raw);
    var parts := Split(lines[0], SPACE);
    if |parts| != 3 { return BadHead(400); }
    var verb, target, version := parts[0], parts[1], parts[2];
    if version != VERSION || target == [] || target[0] != SLASH { return BadHead(400); }
    if |target| > cfg.maxTarget { return BadHead(414); }
    if !OriginForm(target) { return BadHead(400); }
    if |lines| - 1 > cfg.maxCount { return BadHead(413); }
    var rest := lines[1..];
    var pairs: seq<Pair>, lengths: seq<bytes> := [], [];
    for i := 0 to |rest|
      invariant ScanLines(rest[..i]) == Some(Scan(pairs, lengths))
    {
      assert rest[..i + 1][..i] == rest[..i];
      var colon := IndexOf(rest[i], COLON);
      if colon == None {
        ScanFails(rest, i + 1);
        return BadHead(400);
      }
      var name, value := rest[i][..colon.value], Strip(rest[i][colon.value + 1..]);
      if Lower(name) == TRANSFER_ENCODING {
        ScanFails(rest, i + 1);
        return BadHead(400);
      }
      if Lower(name) == CONTENT_LENGTH {
        lengths := lengths + [value];
      }
      pairs := pairs + [(name, value)];
    }
    assert rest[..|rest|] == rest;
    result := FinishHead(cfg, verb, target, Scan(pairs, lengths));
  }

  lemma {:induction false} ScanFails(lines: seq<bytes>, k: nat)
    requires k <= |lines| && ScanLines(lines[..k]) == None
    ensures ScanLines(lines) == None
    decreases |lines|
  {
    if k == |lines| {
      assert lines[..k] == lines;
    } else {
      var n := |lines| - 1;
      assert lines[..n][..k] == lines[..k];
      ScanFails(lines[..n], k);
    }
  }

  // ---------------------------------------------------------------- the whole request

  function Path(target: bytes): bytes
  {
    var q := IndexOf(target, QUESTION);
    if q == None then target else target[..q.value]
  }

  function Query(target: bytes): bytes
  {
    var q := IndexOf(target, QUESTION);
    if q == None then [] else target[q.value + 1..]
  }

  /** The decision once the head is known and `rest` has come in behind it. */
  function WithBody(cfg: Config, head: RequestHead, rest: bytes): Outcome
  {
    if |rest| > head.length && !cfg.preserveTrailing then Rejected(400)
    else if |rest| < head.length then NeedMore
    else if !IsToken(head.verb) then Rejected(400)
    else Accepted(head.verb, Path(head.target), Query(head.target), head.headers, rest[..head.length], rest[head.length..])
  }

  /** What the parser decides after these bytes. */
  function Decide(cfg: Config, fed: bytes): Outcome
  {
    match Find(fed)
    case None => if |fed| > cfg.maxHeader then Rejected(413) else NeedMore
    case Some(m) =>
      if m + 4 > cfg.maxHeader then Rejected(413)
      else match ParseHead(cfg, fed[..m])
           case BadHead(status) => Rejected(status)
           case Unread => Raised
           case Parsed(head) => WithBody(cfg, head, fed[m + 4..])
  }

  class HTTPRequestParser {
    const cfg: Config
    var buffer: bytes
    var head: Option<RequestHead>
    var trailing: bytes
    ghost var fed: bytes

    /** The buffer is what is left of the input behind the head, if the head was parsed. */
    ghost predicate Valid()
      reads this
    {
      if head == None then buffer == fed && Find(fed) == None && |fed| <= cfg.maxHeader
      else
        && Find(fed).Some? && Find(fed).value + 4 <= cfg.maxHeader
        && ParseHead(cfg, fed[..Find(fed).value]) == Parsed(head.value)
        && buffer == fed[Find(fed).value + 4..]
    }

    constructor (cfg: Config)
      ensures Valid() && this.cfg == cfg && fed == []
    {
      this.cfg, buffer, head, trailing, fed := cfg, [], None, [], [];
    }

    /** `feed`; after an exception the parser is not used again. */
    method Feed(data: bytes) returns (outcome: Outcome)
      requires Valid()
      modifies this
      ensures fed == old(fed) + data && outcome == Decide(cfg, fed)
      ensures outcome == NeedMore || outcome.Accepted? ==> Valid()
      ensures outcome.Accepted? ==> trailing == outcome.trailing
    {
      buffer, fed := buffer + data, fed + data;
      if head == None {
        var early := TakeHead();
        if early.Some? { return early.value; }
      } else {
        HeadStands(old(fed), data);
      }
      outcome := Answer();
    }

    /** The part of `feed` that looks for the head; Some where it returns or raises already. */
    method TakeHead() returns (early: Option<Outcome>)
      requires head == None && buffer == fed
      modifies this
      ensures fed == old(fed)
      ensures early.Some? ==> early.value == Decide(cfg, fed) && !early.value.Accepted? && (early.value == NeedMore ==> Valid())
      ensures early == None ==> Valid() && head.Some?
    {
      var marker := Find(buffer);
      if marker == None {
        return Some(if |buffer| > cfg.maxHeader then Rejected(413) else NeedMore);
      }
      var headerLength := marker.value + 4;
      if headerLength > cfg.maxHeader { return Some(Rejected(413)); }
      var parsed := ParseHeadLoop(cfg, buffer[..marker.value]);
      if parsed.BadHead? { return Some(Rejected(parsed.status)); }
      if parsed == Unread { return Some(Raised); }
      head := Some(parsed.head);
      buffer := buffer[headerLength..];
      early := None;
    }

    /** The part behind it, with the head known. */
    method Answer() returns (outcome: Outcome)
      requires Valid() && head.Some?
      modifies this
      ensures fed == old(fed) && Valid() && outcome == Decide(cfg, fed)
      ensures outcome.Accepted? ==> trailing == outcome.trailing
    {
      var known := head.value;
      if |buffer| > known.length && !cfg.preserveTrailing { return Rejected(400); }
      if |buffer| < known.length { return NeedMore; }
      if !IsToken(known.verb) { return Rejected(400); }
      trailing := buffer[known.length..];
      outcome := Accepted(known.verb, Path(known.target), Query(known.target), known.headers, buffer[..known.length], trailing);
    }
  }

  /** Once the head is complete, more bytes only come behind it. */
  lemma HeadStands(fed: bytes, more: bytes)
    requires Find(fed).Some?
    ensures Find(fed + more) == Find(fed)
    ensures var m := Find(fed).value;
            (fed + more)[..m] == fed[..m] && (fed + more)[m + 4..] == fed[m + 4..] + more
  {
    FindStays(fed, more);
  }

  // ---------------------------------------------------------------- chunking, stability, conservation

  /** The same decision with more trailing data. */
  function Extended(o: Outcome, more: bytes): Outcome
  {
    if o.Accepted? then o.(trailing := o.trailing + more) else o
  }

  /** A delimiter found only with more bytes ends behind the bytes before. */
  lemma NoEarlier(fed: bytes, more: bytes)
    requires Find(fed) == None && Find(fed + more).Some?
    ensures Find(fed + more).value + 4 > |fed|
  {
    var m := Find(fed + more).value;
    if m + 4 <= |fed| {
      assert fed[m..m + 4] == (fed + more)[m..m + 4];
      FindIsFirst(fed, m);
      assert false;
    }
  }

  lemma TooLongStays(cfg: Config, fed: bytes, more: bytes)
    requires Find(fed) == None && |fed| > cfg.maxHeader
    ensures Decide(cfg, fed + more) == Rejected(413)
  {
    if Find(fed + more).Some? {
      NoEarlier(fed, more);
    }
  }

  lemma BodyStands(cfg: Config, head: RequestHead, rest: bytes, more: bytes)
    requires cfg.preserveTrailing && WithBody(cfg, head, rest) != NeedMore
    ensures WithBody(cfg, head, rest + more) == Extended(WithBody(cfg, head, rest), more)
  {
    var n := head.length;
    assert (rest + more)[..n] == rest[..n] && (rest + more)[n..] == rest[n..] + more;
  }

  /** In trailing-data mode a decision, once made, is not changed by any bytes that follow. */
  lemma DecisionStands(cfg: Config, fed: bytes, more: bytes)
    requires cfg.preserveTrailing && Decide(cfg, fed) != NeedMore
    ensures Decide(cfg, fed + more) == Extended(Decide(cfg, fed), more)
  {
    if Find(fed) == None {
      TooLongStays(cfg, fed, more);
    } else {
      HeadStands(fed, more);
      var m := Find(fed).value;
      var parsed := ParseHead(cfg, fed[..m]);
      if m + 4 <= cfg.maxHeader && parsed.Parsed? {
        BodyStands(cfg, parsed.head, fed[m + 4..], more);
      }
    }
  }

  /** The first decision made while the chunks come in. */
  function FirstDecision(cfg: Config, fed: bytes, chunks: seq<bytes>): Outcome
    decreases |chunks|
  {
    if chunks == [] then NeedMore
    else
      var now := Decide(cfg, fed + chunks[0]);
      if now != NeedMore then now else FirstDecision(cfg, fed + chunks[0], chunks[1..])
  }

  /** Any chunking gives the first decision that the whole stream gives: the same request, or the same error. */
  lemma {:induction false} AnyChunking(cfg: Config, fed: bytes, chunks: seq<bytes>) returns (late: bytes)
    requires cfg.preserveTrailing && chunks != []
    ensures Decide(cfg, fed + Concat(chunks)) == Extended(FirstDecision(cfg, fed, chunks), late)
    decreases |chunks|
  {
    var now := Decide(cfg, fed + chunks[0]);
    assert fed + Concat(chunks) == fed + chunks[0] + Concat(chunks[1..]);
    if now != NeedMore {
      late := Concat(chunks[1..]);
      DecisionStands(cfg, fed + chunks[0], late);
    } else if |chunks| == 1 {
      late := [];
      assert fed + chunks[0] + [] == fed + chunks[0];
    } else {
      late := AnyChunking(cfg, fed + chunks[0], chunks[1..]);
    }
  }

  /** An accepted request, its head, the delimiter and the trailing data are the bytes fed, none missing. */
  lemma Conservation(cfg: Config, fed: bytes)
    requires Decide(cfg, fed).Accepted?
    ensures var o := Decide(cfg, fed);
            && Find(fed).Some? && ParseHead(cfg, fed[..Find(fed).value]).Parsed?
            && |o.body| == ParseHead(cfg, fed[..Find(fed).value]).head.length <= cfg.maxBody
            && fed == fed[..Find(fed).value] + DELIMITER + o.body + o.trailing
  {
    var m := Find(fed).value;
    PutTogether(fed, m, ParseHead(cfg, fed[..m]).head.length);
  }

  lemma PutTogether(b: bytes, m: nat, n: nat)
    requires m + 4 + n <= |b|
    ensures b == b[..m] + b[m..m + 4] + b[m + 4..][..n] + b[m + 4..][n..]
  {
  }

  /** Without trailing-data mode the parser decides the same, except that any byte behind a request is an error. */
  lemma StrictMode(cfg: Config, fed: bytes)
    requires cfg.preserveTrailing
    ensures var o := Decide(cfg, fed);
            Decide(cfg.(preserveTrailing := false), fed) == if o.Accepted? && o.trailing != [] then Rejected(400) else o
  {
    StrictHead(cfg, if Find(fed).Some? then fed[..Find(fed).value] else []);
  }

  lemma StrictHead(cfg: Config, raw: bytes)
    ensures ParseHead(cfg.(preserveTrailing := false), raw) == ParseHead(cfg, raw)
  {
  }

  /**
   So in that mode a decision can be taken back, and chunking matters: an accepted request stands exactly
   if nothing follows, while an exception always stands.
   */
  lemma StrictDecisionStands(cfg: Config, fed: bytes, more: bytes)
    requires !cfg.preserveTrailing && Decide(cfg, fed) != NeedMore
    ensures Decide(cfg, fed + more) == Decide(cfg, fed) <==> !Decide(cfg, fed).Accepted? || more == []
    ensures Decide(cfg, fed + more) == if Decide(cfg, fed).Accepted? && more != [] then Rejected(400) else Decide(cfg, fed)
  {
    var loose := cfg.(preserveTrailing := true);
    assert loose.(preserveTrailing := false) == cfg;
    StrictMode(loose, fed);
    StrictMode(loose, fed + more);
    DecisionStands(loose, fed, more);
    if more == [] {
      assert fed + more == fed;
    }
  }

  // ---------------------------------------------------------------- reading back what was printed

  lemma {:induction false} DigitsReadBack(text: string)
    requires forall c | c in text :: IsDigit(c)
    ensures forall c | c in Octets(text) :: 48 <= c <= 57
    ensures NumberOf(Octets(text)) == Number(text)
  {
    forall c | c in Octets(text) ensures 48 <= c <= 57 {
      var i :| 0 <= i < |text| && Octets(text)[i] == c;
      assert text[i] in text;
    }
    if text != "" {
      var n := |text| - 1;
      assert text[n] in text && forall c | c in text[..n] :: c in text;
      DigitsReadBack(text[..n]);
      assert Octets(text)[..n] == Octets(text[..n]);
    }
  }

  /** The Content-Length of a printed response reads back as the length of its body. */
  lemma PrintedLengthReadsBack(r: Response)
    requires ValidResponse(r)
    ensures var own := Get(PrintedPairs(r), CONTENT_LENGTH);
            own.Some? && IsDigits(own.value) && NumberOf(own.value) == |r.body|
  {
    PrintedPairsValid(r);
    DecimalReadsBack(|r.body|);
    DigitsReadBack(Decimal(|r.body|));
  }

  /** The pairs with their values as a reader keeps them. */
  function Trimmed(pairs: seq<Pair>): seq<Pair>
  {
    seq(|pairs|, i requires 0 <= i < |pairs| => (pairs[i].0, Strip(pairs[i].1)))
  }

  /** The header lines of any message without transfer-encoding scan back to its pairs, in order. */
  lemma {:induction false} PrintedLinesScan(pairs: seq<Pair>)
    requires forall p | p in pairs :: IsToken(p.0) && Lower(p.0) != TRANSFER_ENCODING
    ensures ScanLines(PrintLines(pairs)).Some? && ScanLines(PrintLines(pairs)).value.pairs == Trimmed(pairs)
  {
    var lines := PrintLines(pairs);
    if pairs != [] {
      var n := |pairs| - 1;
      var rest := pairs[..n];
      assert forall p | p in rest :: p in pairs;
      assert pairs[n] in pairs;
      PrintedLinesScan(rest);
      assert lines[..n] == PrintLines(rest) && lines[n] == PrintLine(pairs[n]);
      LineReadsBack(pairs[n]);
      assert Trimmed(pairs) == Trimmed(rest) + [(pairs[n].0, Strip(pairs[n].1))];
    }
  }
}
