/**
 HTTP/1.1 values and their printed form (`Headers`, `Response`, `Response.to_http1`), and how a head is
 taken apart into lines, names and values.  Text is latin-1, so it is modelled by its octets.
 */
module Http {
  import opened Bytes
  import opened Optional
  import opened Decimals

  const CR: byte := 13
  const LF: byte := 10
  const SPACE: byte := 32
  const TAB: byte := 9
  const COLON: byte := 58
  const CRLF: bytes := [13, 10]
  const DELIMITER: bytes := [13, 10, 13, 10]

  /** The octets of a literal. */
  function Octets(text: string): (b: bytes)
    ensures |b| == |text|
  {
    seq(|text|, i requires 0 <= i < |text| => (text[i] as int) % 256)
  }

  type Pair = (bytes, bytes)

  // ---------------------------------------------------------------- characters

  /** The characters of an HTTP token, section 5.6.2 of RFC 9110. */
  predicate IsTokenByte(b: byte)
  {
    || 48 <= b <= 57 || 65 <= b <= 90 || 97 <= b <= 122
    || b in [33, 35, 36, 37, 38, 39, 42, 43, 45, 46, 94, 95, 96, 124, 126]
  }

  predicate IsToken(name: bytes)
  {
    name != [] && forall b | b in name :: IsTokenByte(b)
  }

  predicate IsValue(value: bytes)
  {
    forall b | b in value :: b == TAB || (b >= 32 && b != 127)
  }

  function LowerByte(b: byte): byte { if 65 <= b <= 90 then b + 32 else b }

  function Lower(b: bytes): (r: bytes)
    ensures |r| == |b|
  {
    seq(|b|, i requires 0 <= i < |b| => LowerByte(b[i]))
  }

  /** `strip(" \t")`. */
  function Strip(b: bytes): bytes
  {
    if b == [] then []
    else if b[0] == SPACE || b[0] == TAB then Strip(b[1..])
    else if b[|b| - 1] == SPACE || b[|b| - 1] == TAB then Strip(b[..|b| - 1])
    else b
  }

  // ---------------------------------------------------------------- searching and splitting

  /** Where a byte first stands. */
  function IndexOf(b: bytes, c: byte): (r: Option<nat>)
    ensures r.Some? ==> r.value < |b| && b[r.value] == c && forall k | 0 <= k < r.value :: b[k] != c
    ensures r == None ==> c !in b
  {
    if b == [] then None
    else if b[0] == c then Some(0)
    else
      var r := IndexOf(b[1..], c);
      if r == None then None else Some(r.value + 1)
  }

  /** `find(b"\r\n\r\n")`. */
  function Find(b: bytes): (r: Option<nat>)
    ensures r.Some? ==> r.value + 4 <= |b| && b[r.value..r.value + 4] == DELIMITER
  {
    if |b| < 4 then None
    else if b[..4] == DELIMITER then Some(0)
    else
      var r := Find(b[1..]);
      if r == None then None
      else
        assert b[r.value + 1..r.value + 5] == b[1..][r.value..r.value + 4];
        Some(r.value + 1)
  }

  /** The first occurrence is the first one, however the bytes go on. */
  lemma {:induction false} FindIsFirst(b: bytes, k: nat)
    requires k + 4 <= |b| && b[k..k + 4] == DELIMITER
    ensures Find(b).Some? && Find(b).value <= k
  {
    if b[..4] != DELIMITER {
      assert b[1..][k - 1..k + 3] == b[k..k + 4];
      FindIsFirst(b[1..], k - 1);
    }
  }

  lemma {:induction false} FindStays(b: bytes, more: bytes)
    requires Find(b).Some?
    ensures Find(b + more) == Find(b)
  {
    assert (b + more)[..4] == b[..4];
    if b[..4] != DELIMITER {
      assert (b + more)[1..] == b[1..] + more;
      FindStays(b[1..], more);
    }
  }

  /** `split(sep)` on one byte. */
  function Split(b: bytes, sep: byte): (parts: seq<bytes>)
    ensures |parts| >= 1
  {
    if b == [] then [[]]
    else
      var rest := Split(b[1..], sep);
      if b[0] == sep then [[]] + rest else [[b[0]] + rest[0]] + rest[1..]
  }

  /** `split("\r\n")`. */
  function Lines(b: bytes): (lines: seq<bytes>)
    ensures |lines| >= 1
  {
    if b == [] then [[]]
    else if |b| >= 2 && b[0] == CR && b[1] == LF then [[]] + Lines(b[2..])
    else
      var rest := Lines(b[1..]);
      [[b[0]] + rest[0]] + rest[1..]
  }

  /** `"\r\n".join(lines)`. */
  function JoinLines(lines: seq<bytes>): bytes
  {
    if lines == [] then []
    else if |lines| == 1 then lines[0]
    else lines[0] + CRLF + JoinLines(lines[1..])
  }

  /** A header line, `name: value`. */
  function PrintLine(pair: Pair): bytes { pair.0 + [COLON, SPACE] + pair.1 }

  /** A header line taken apart; None where it has no colon. */
  function ReadLine(line: bytes): Option<Pair>
  {
    var k := IndexOf(line, COLON);
    if k == None then None else Some((line[..k.value], Strip(line[k.value + 1..])))
  }

  // ---------------------------------------------------------------- headers and responses

  /** What `Headers` accepts: token names, values without controls, no name twice in any case. */
  predicate ValidHeaders(pairs: seq<Pair>)
  {
    && (forall p | p in pairs :: IsToken(p.0) && IsValue(p.1))
    && forall i, j | 0 <= i < j < |pairs| :: Lower(pairs[i].0) != Lower(pairs[j].0)
  }

  /** `Headers.get`, for a name in lower case. */
  function Get(pairs: seq<Pair>, name: bytes): (r: Option<bytes>)
    ensures r.Some? <==> exists p :: p in pairs && Lower(p.0) == name
    ensures r.Some? ==> exists p :: p in pairs && Lower(p.0) == name && p.1 == r.value
  {
    if pairs == [] then None
    else if Lower(pairs[0].0) == name then
      assert pairs[0] in pairs;
      Some(pairs[0].1)
    else
      var r := Get(pairs[1..], name);
      assert forall p :: p in pairs <==> p == pairs[0] || p in pairs[1..];
      r
  }

  const CONTENT_LENGTH: bytes := [99, 111, 110, 116, 101, 110, 116, 45, 108, 101, 110, 103, 116, 104]

  datatype Response = Response(status: nat, body: bytes, headers: seq<Pair>)

  /** `Response.__post_init__`: the status is in range and a given content-length is that of the body. */
  predicate ValidResponse(r: Response)
  {
    && 100 <= r.status <= 599
    && ValidHeaders(r.headers)
    && (Get(r.headers, CONTENT_LENGTH).Some? ==> Get(r.headers, CONTENT_LENGTH) == Some(Octets(Decimal(|r.body|))))
  }

  function Reason(status: nat): string
  {
    if status < 404 then EarlyReason(status)
    else if status < 414 then MiddleReason(status)
    else if status < 500 then LateReason(status)
    else ServerReason(status)
  }

  function EarlyReason(status: nat): string
  {
    if status == 101 then "Switching Protocols"
    else if status == 200 then "OK"
    else if status == 201 then "Created"
    else if status == 204 then "No Content"
    else if status == 400 then "Bad Request"
    else if status == 403 then "Forbidden"
    else ""
  }

  function MiddleReason(status: nat): string
  {
    if status == 404 then "Not Found"
    else if status == 405 then "Method Not Allowed"
    else if status == 408 then "Request Timeout"
    else if status == 413 then "Payload Too Large"
    else ""
  }

  function LateReason(status: nat): string
  {
    if status == 414 then "URI Too Long"
    else if status == 426 then "Upgrade Required"
    else ""
  }

  function ServerReason(status: nat): string
  {
    if status == 500 then "Internal Server Error"
    else if status == 503 then "Service Unavailable"
    else ""
  }

  /** The status line; `rstrip` takes the space away when there is no reason. */
  function StatusLine(status: nat): bytes
  {
    Octets("HTTP/1.1 " + Decimal(status) + if Reason(status) == "" then "" else " " + Reason(status))
  }

  /** The header pairs that are printed: the response's own, behind a Content-Length unless they have one. */
  function PrintedPairs(r: Response): seq<Pair>
  {
    (if Get(r.headers, CONTENT_LENGTH) == None then [(Octets("Content-Length"), Octets(Decimal(|r.body|)))] else []) + r.headers
  }

  function PrintLines(pairs: seq<Pair>): (lines: seq<bytes>)
    ensures |lines| == |pairs| && forall i | 0 <= i < |pairs| :: lines[i] == PrintLine(pairs[i])
  {
    seq(|pairs|, i requires 0 <= i < |pairs| => PrintLine(pairs[i]))
  }

  function Head(r: Response): bytes
  {
    JoinLines([StatusLine(r.status)] + PrintLines(PrintedPairs(r)))
  }

  function Printed(r: Response): bytes { Head(r) + DELIMITER + r.body }

  lemma PrintOneMore(pairs: seq<Pair>, pair: Pair)
    ensures PrintLines(pairs + [pair]) == PrintLines(pairs) + [PrintLine(pair)]
  {
  }

  /** `to_http1`. */
  method ToHttp1(r: Response) returns (output: bytes)
    requires ValidResponse(r)
    ensures output == Printed(r)
  {
    var lines := [StatusLine(r.status)];
    var own := Get(r.headers, CONTENT_LENGTH);
    if own == None {
      lines := lines + [PrintLine((Octets("Content-Length"), Octets(Decimal(|r.body|))))];
    }
    var more := HeaderLines(r.headers);
    assert lines + more == [StatusLine(r.status)] + PrintLines(PrintedPairs(r));
    output := JoinLines(lines + more) + DELIMITER + r.body;
  }

  /** The loop over `self.headers.items()`. */
  method HeaderLines(headers: seq<Pair>) returns (lines: seq<bytes>)
    ensures lines == PrintLines(headers)
  {
    lines := [];
    for i := 0 to |headers|
      invariant lines == PrintLines(headers[..i])
    {
      PrintOneMore(headers[..i], headers[i]);
      assert headers[..i + 1] == headers[..i] + [headers[i]];
      lines := lines + [PrintLine(headers[i])];
    }
    assert headers[..|headers|] == headers;
  }

  // ---------------------------------------------------------------- the printed form is unambiguous

  predicate Plain(line: bytes)
  {
    line != [] && CR !in line && LF !in line
  }

  /** A delimiter stands at j. */
  predicate DelimiterAt(b: bytes, j: nat)
  {
    j + 4 <= |b| && b[j] == CR && b[j + 1] == LF && b[j + 2] == CR && b[j + 3] == LF
  }

  /** The first delimiter stands at k. */
  predicate FirstAt(b: bytes, k: nat)
  {
    DelimiterAt(b, k) && forall j | 0 <= j < k :: !DelimiterAt(b, j)
  }

  lemma DelimiterPrefix(b: bytes)
    requires |b| >= 4
    ensures b[..4] == DELIMITER <==> DelimiterAt(b, 0)
  {
    assert b[..4] == [b[0], b[1], b[2], b[3]];
  }

  lemma {:induction false} FindIsFirstAt(b: bytes, k: nat)
    requires FirstAt(b, k)
    ensures Find(b) == Some(k)
  {
    DelimiterPrefix(b);
    if k > 0 {
      assert !DelimiterAt(b, 0);
      forall j | 0 <= j < k - 1 ensures !DelimiterAt(b[1..], j) {
        assert !DelimiterAt(b, j + 1);
      }
      FindIsFirstAt(b[1..], k - 1);
    }
  }

  /** Octets before the first delimiter that start none themselves. */
  lemma FirstBehind(front: bytes, rest: bytes, k: nat)
    requires FirstAt(rest, k)
    requires forall j | 0 <= j < |front| :: !DelimiterAt(front + rest, j)
    ensures FirstAt(front + rest, |front| + k)
  {
    var b := front + rest;
    forall j | |front| <= j < |front| + k ensures !DelimiterAt(b, j) {
      assert !DelimiterAt(rest, j - |front|);
    }
  }

  /** In lines without CR and none of them empty, the delimiter behind the last one is the first. */
  lemma {:induction false} DelimiterEndsTheLines(lines: seq<bytes>, body: bytes)
    requires lines != [] && forall l | l in lines :: Plain(l)
    ensures FirstAt(JoinLines(lines) + (DELIMITER + body), |JoinLines(lines)|)
  {
    assert lines[0] in lines;
    if |lines| == 1 {
      LastLine(lines[0], body);
    } else {
      assert forall l | l in lines[1..] :: l in lines;
      DelimiterEndsTheLines(lines[1..], body);
      FirstOfLines(lines[1..]);
      InnerLine(lines[0], JoinLines(lines[1..]), DELIMITER + body);
    }
  }

  lemma LastLine(line: bytes, body: bytes)
    requires CR !in line
    ensures FirstAt(line + (DELIMITER + body), |line|)
  {
    var b := line + (DELIMITER + body);
    forall j | 0 <= j < |line| ensures !DelimiterAt(b, j) {
      assert b[j] == line[j] && line[j] in line;
    }
  }

  lemma InnerLine(line: bytes, more: bytes, end: bytes)
    requires CR !in line && more != [] && more[0] != CR && FirstAt(more + end, |more|)
    ensures FirstAt(line + CRLF + more + end, |line + CRLF + more|)
  {
    var front, rest := line + CRLF, more + end;
    var b := front + rest;
    forall j | 0 <= j < |front| ensures !DelimiterAt(b, j) {
      if j < |line| {
        assert b[j] == line[j] && line[j] in line;
      } else if j == |line| {
        assert b[j + 2] == more[0];
      } else {
        assert b[j] == LF;
      }
    }
    FirstBehind(front, rest, |more|);
    assert b == line + CRLF + more + end;
  }

  lemma FirstOfLines(lines: seq<bytes>)
    requires lines != [] && Plain(lines[0])
    ensures JoinLines(lines) != [] && JoinLines(lines)[0] == lines[0][0] && lines[0][0] != CR
  {
    assert lines[0][0] in lines[0];
  }

  /** Splitting the joined lines gives them back. */
  lemma {:induction false} LinesReadBack(lines: seq<bytes>)
    requires lines != [] && forall l | l in lines :: CR !in l
    ensures Lines(JoinLines(lines)) == lines
  {
    assert lines[0] in lines;
    if |lines| == 1 {
      OneLine(lines[0], []);
      assert lines[0] + [] == lines[0];
    } else {
      assert forall l | l in lines[1..] :: l in lines;
      LinesReadBack(lines[1..]);
      LineAndRest(lines[0], JoinLines(lines[1..]));
    }
  }

  lemma LineAndRest(line: bytes, rest: bytes)
    requires CR !in line
    ensures Lines(line + CRLF + rest) == [line] + Lines(rest)
  {
    OneLine(line, CRLF + rest);
    assert (CRLF + rest)[2..] == rest;
    assert line + (CRLF + rest) == line + CRLF + rest;
  }

  lemma {:induction false} OneLine(line: bytes, rest: bytes)
    requires CR !in line && (rest == [] || (|rest| >= 2 && rest[0] == CR && rest[1] == LF))
    ensures Lines(line + rest) == [line] + if rest == [] then [] else Lines(rest[2..])
  {
    if line == [] {
      assert line + rest == rest;
    } else {
      assert line[0] in line && (line + rest)[0] == line[0];
      assert (line + rest)[1..] == line[1..] + rest;
      OneLine(line[1..], rest);
      assert [line[0]] + line[1..] == line;
    }
  }

  lemma {:induction false} StripLeading(b: bytes)
    ensures Strip([SPACE] + b) == Strip(b)
  {
    assert ([SPACE] + b)[1..] == b;
  }

  lemma {:induction false} IndexOfColon(name: bytes, rest: bytes)
    requires COLON !in name
    ensures IndexOf(name + [COLON] + rest, COLON) == Some(|name|)
  {
    var line := name + [COLON] + rest;
    if name != [] {
      assert name[0] in name && line[1..] == name[1..] + [COLON] + rest;
      IndexOfColon(name[1..], rest);
    }
  }

  /** A printed header line reads back as its pair, up to outer spaces and tabs of the value. */
  lemma LineReadsBack(pair: Pair)
    requires IsToken(pair.0)
    ensures ReadLine(PrintLine(pair)) == Some((pair.0, Strip(pair.1)))
  {
    assert !IsTokenByte(COLON);
    var line := PrintLine(pair);
    assert line == pair.0 + [COLON] + ([SPACE] + pair.1);
    IndexOfColon(pair.0, [SPACE] + pair.1);
    assert line[..|pair.0|] == pair.0 && line[|pair.0| + 1..] == [SPACE] + pair.1;
    StripLeading(pair.1);
  }

  lemma PrintedLinePlain(pair: Pair)
    requires IsToken(pair.0) && IsValue(pair.1)
    ensures Plain(PrintLine(pair))
  {
    var line := PrintLine(pair);
    forall b | b in line ensures b != CR && b != LF {
      assert b in pair.0 || b == COLON || b == SPACE || b in pair.1;
    }
  }

  lemma DecimalOctets(n: nat)
    ensures IsValue(Octets(Decimal(n))) && Octets(Decimal(n)) != []
  {
    var text := Decimal(n);
    forall b | b in Octets(text) ensures 48 <= b <= 57 {
      var i :| 0 <= i < |text| && Octets(text)[i] == b;
      assert text[i] in text;
    }
  }

  lemma PrintedPairsValid(r: Response)
    requires ValidResponse(r)
    ensures ValidHeaders(PrintedPairs(r))
    ensures Get(PrintedPairs(r), CONTENT_LENGTH) == Some(Octets(Decimal(|r.body|)))
  {
    DecimalOctets(|r.body|);
    var name := Octets("Content-Length");
    assert name == [67, 111, 110, 116, 101, 110, 116, 45, 76, 101, 110, 103, 116, 104];
    assert Lower(name) == CONTENT_LENGTH;
    if Get(r.headers, CONTENT_LENGTH) == None {
      var all := PrintedPairs(r);
      forall i, j | 0 <= i < j < |all| ensures Lower(all[i].0) != Lower(all[j].0) {
        assert all[j] in r.headers;
        if i > 0 {
          assert all[i] == r.headers[i - 1] && all[j] == r.headers[j - 1];
        }
      }
    } else {
      assert PrintedPairs(r) == r.headers;
    }
  }

  predicate AllPrintable(text: string)
  {
    forall i | 0 <= i < |text| :: ' ' <= text[i] <= 'z'
  }

  lemma PrintableOctets(text: string)
    requires AllPrintable(text)
    ensures CR !in Octets(text) && LF !in Octets(text)
  {
    forall b | b in Octets(text) ensures b != CR && b != LF {
      var i :| 0 <= i < |text| && Octets(text)[i] == b;
    }
  }

  lemma EarlyPrintable(status: nat)
    ensures AllPrintable(EarlyReason(status))
  {
  }

  lemma MiddlePrintable(status: nat)
    ensures AllPrintable(MiddleReason(status))
  {
  }

  lemma LatePrintable(status: nat)
    ensures AllPrintable(LateReason(status))
  {
  }

  lemma ServerPrintable(status: nat)
    ensures AllPrintable(ServerReason(status))
  {
  }

  lemma ReasonPrintable(status: nat)
    ensures AllPrintable(Reason(status))
  {
    ServerPrintable(status);
    EarlyPrintable(status);
    MiddlePrintable(status);
    LatePrintable(status);
  }

  lemma StatusLinePlain(status: nat)
    ensures Plain(StatusLine(status))
  {
    var number, reason := Decimal(status), if Reason(status) == "" then "" else " " + Reason(status);
    ReasonPrintable(status);
    PrintableJoin(" ", Reason(status));
    assert AllPrintable(number) by {
      assert forall i | 0 <= i < |number| :: number[i] in number && IsDigit(number[i]);
    }
    PrintableJoin("HTTP/1.1 ", number);
    PrintableJoin("HTTP/1.1 " + number, reason);
    PrintableOctets("HTTP/1.1 " + number + reason);
  }

  lemma PrintableJoin(a: string, b: string)
    requires AllPrintable(a) && AllPrintable(b)
    ensures AllPrintable(a + b)
  {
  }

  /**
   The printed response is unambiguous: the first blank line ends the head exactly; the head's lines are
   the status line and the printed pairs, each recovered up to outer spaces and tabs; there is exactly one
   Content-Length, and it is the number of octets that follow.
   */
  lemma PrintedIsUnambiguous(r: Response)
    requires ValidResponse(r)
    ensures Find(Printed(r)) == Some(|Head(r)|)
    ensures Printed(r)[..|Head(r)|] == Head(r) && Printed(r)[|Head(r)| + 4..] == r.body
    ensures Lines(Head(r)) == [StatusLine(r.status)] + PrintLines(PrintedPairs(r))
    ensures forall p | p in PrintedPairs(r) :: ReadLine(PrintLine(p)) == Some((p.0, Strip(p.1)))
    ensures exists i :: 0 <= i < |PrintedPairs(r)| && Lower(PrintedPairs(r)[i].0) == CONTENT_LENGTH
                        && PrintedPairs(r)[i].1 == Octets(Decimal(|r.body|))
                        && forall j | 0 <= j < |PrintedPairs(r)| && j != i :: Lower(PrintedPairs(r)[j].0) != CONTENT_LENGTH
  {
    var lines := [StatusLine(r.status)] + PrintLines(PrintedPairs(r));
    PrintedPairsValid(r);
    AllLinesPlain(r);
    DelimiterEndsTheLines(lines, r.body);
    assert Head(r) + (DELIMITER + r.body) == Printed(r);
    FindIsFirstAt(Printed(r), |Head(r)|);
    LinesReadBack(lines);
    forall p | p in PrintedPairs(r) ensures ReadLine(PrintLine(p)) == Some((p.0, Strip(p.1))) {
      LineReadsBack(p);
    }
    OneLength(r);
  }

  lemma AllLinesPlain(r: Response)
    requires ValidResponse(r)
    ensures forall l | l in [StatusLine(r.status)] + PrintLines(PrintedPairs(r)) :: Plain(l)
  {
    var pairs := PrintedPairs(r);
    PrintedPairsValid(r);
    StatusLinePlain(r.status);
    forall l | l in [StatusLine(r.status)] + PrintLines(pairs) ensures Plain(l) {
      if l != StatusLine(r.status) {
        var i :| 0 <= i < |pairs| && l == PrintLine(pairs[i]);
        assert pairs[i] in pairs;
        PrintedLinePlain(pairs[i]);
      }
    }
  }

  lemma OneLength(r: Response)
    requires ValidResponse(r)
    ensures exists i :: 0 <= i < |PrintedPairs(r)| && Lower(PrintedPairs(r)[i].0) == CONTENT_LENGTH
                        && PrintedPairs(r)[i].1 == Octets(Decimal(|r.body|))
                        && forall j | 0 <= j < |PrintedPairs(r)| && j != i :: Lower(PrintedPairs(r)[j].0) != CONTENT_LENGTH
  {
    PrintedPairsValid(r);
    var pairs := PrintedPairs(r);
    var p :| p in pairs && Lower(p.0) == CONTENT_LENGTH && p.1 == Octets(Decimal(|r.body|));
    var i :| 0 <= i < |pairs| && pairs[i] == p;
    assert forall j | 0 <= j < |pairs| && j != i :: Lower(pairs[j].0) != CONTENT_LENGTH;
  }
}
