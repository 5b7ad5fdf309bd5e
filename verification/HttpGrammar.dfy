/**
 What the request parser accepts, said without the parser: a request as it is written, and the two directions
 between being written so and being accepted (sections 3, 5 and 6 of RFC 9112, as far as the parser follows them).
 */
module RequestGrammar {
  import opened Bytes
  import opened Optional
  import opened Decimals
  import opened Http
  import opened HttpParser

  /** A request as it is written; `fields` have their values with the spaces around them. */
  datatype Written = Written(verb: bytes, target: bytes, fields: seq<Pair>, body: bytes, trailing: bytes)

  function RequestLine(w: Written): bytes { w.verb + [SPACE] + (w.target + [SPACE] + VERSION) }

  function FieldLine(field: Pair): bytes { field.0 + [COLON] + field.1 }

  function FieldLines(fields: seq<Pair>): (lines: seq<bytes>)
    ensures |lines| == |fields| && forall i | 0 <= i < |fields| :: lines[i] == FieldLine(fields[i])
  {
    seq(|fields|, i requires 0 <= i < |fields| => FieldLine(fields[i]))
  }

  function HeadText(w: Written): bytes { JoinLines([RequestLine(w)] + FieldLines(w.fields)) }

  function Text(w: Written): bytes { HeadText(w) + DELIMITER + w.body + w.trailing }

  /** The field gives this body its length. */
  predicate Gives(cfg: Config, field: Pair, body: bytes)
  {
    && IsDigits(Strip(field.1)) && (cfg.maxDigits > 0 ==> |Strip(field.1)| <= cfg.maxDigits)
    && NumberOf(Strip(field.1)) == |body|
  }

  /** The fields: tokens, none twice in any case, values without controls, a Host, and the length of the body. */
  ghost predicate LegalFields(cfg: Config, fields: seq<Pair>, body: bytes)
  {
    && |fields| <= cfg.maxCount && ValidHeaders(fields)
    && (forall f | f in fields :: Lower(f.0) != TRANSFER_ENCODING)
    && (exists f :: f in fields && Lower(f.0) == HOST && Strip(f.1) != [])
    && (forall f | f in fields && Lower(f.0) == CONTENT_LENGTH :: Gives(cfg, f, body))
    && ((forall f | f in fields :: Lower(f.0) != CONTENT_LENGTH) ==> body == [])
  }

  ghost predicate Legal(cfg: Config, w: Written)
  {
    && IsToken(w.verb)
    && w.target != [] && w.target[0] == SLASH && |w.target| <= cfg.maxTarget && OriginForm(w.target)
    && LegalFields(cfg, w.fields, w.body)
    && |HeadText(w)| + 4 <= cfg.maxHeader && |w.body| <= cfg.maxBody
    && (w.trailing == [] || cfg.preserveTrailing)
  }

  /** The target is the path and, behind its first question mark, the query. */
  predicate SplitsInto(target: bytes, path: bytes, query: bytes)
  {
    QUESTION !in path && (target == path + [QUESTION] + query || (target == path && query == []))
  }

  /** The request handed out is the one written. */
  predicate Reads(o: Outcome, w: Written)
  {
    && o.Accepted? && o.verb == w.verb && SplitsInto(w.target, o.path, o.query)
    && o.headers == Trimmed(w.fields) && o.body == w.body && o.trailing == w.trailing
  }

  // ---------------------------------------------------------------- splitting and joining

  lemma {:induction false} SplitAtFirst(a: bytes, sep: byte, b: bytes)
    requires sep !in a
    ensures Split(a + [sep] + b, sep) == [a] + Split(b, sep)
  {
    var all := a + [sep] + b;
    if a == [] {
      assert all[1..] == b;
    } else {
      assert a[0] in a && all[1..] == a[1..] + [sep] + b;
      SplitAtFirst(a[1..], sep, b);
      assert [a[0]] + a[1..] == a;
    }
  }

  lemma {:induction false} SplitNowhere(a: bytes, sep: byte)
    requires sep !in a
    ensures Split(a, sep) == [a]
  {
    if a != [] {
      assert a[0] in a;
      SplitNowhere(a[1..], sep);
      assert [a[0]] + a[1..] == a;
    }
  }

  /** The first part of a split, and what is behind its separator. */
  lemma {:induction false} SplitFirst(b: bytes, sep: byte) returns (rest: bytes)
    ensures var parts := Split(b, sep);
            && sep !in parts[0] && (|parts| == 1 ==> b == parts[0])
            && (|parts| > 1 ==> b == parts[0] + [sep] + rest && Split(rest, sep) == parts[1..])
  {
    rest := [];
    if b != [] {
      var more := SplitFirst(b[1..], sep);
      assert b == [b[0]] + b[1..];
      var parts := Split(b, sep);
      if b[0] == sep {
        rest := b[1..];
        assert parts[1..] == Split(rest, sep) && b == [] + [sep] + rest;
      } else {
        rest := more;
        var tail := Split(b[1..], sep);
        assert parts[0] == [b[0]] + tail[0] && parts[1..] == tail[1..];
        if |parts| > 1 {
          assert b == [b[0]] + (tail[0] + [sep] + rest) == parts[0] + [sep] + rest;
        }
      }
    }
  }

  /** Three parts are the line between its spaces. */
  lemma ThreeParts(line: bytes)
    requires |Split(line, SPACE)| == 3
    ensures var parts := Split(line, SPACE); line == parts[0] + [SPACE] + (parts[1] + [SPACE] + parts[2])
  {
    var parts := Split(line, SPACE);
    var rest := SplitFirst(line, SPACE);
    var last := SplitFirst(rest, SPACE);
    var end := SplitFirst(last, SPACE);
    assert Split(rest, SPACE) == [parts[1], parts[2]] && Split(last, SPACE) == [parts[2]];
  }

  lemma JoinHead(front: bytes, lines: seq<bytes>)
    requires lines != []
    ensures JoinLines([front + lines[0]] + lines[1..]) == front + JoinLines(lines)
  {
    var all := [front + lines[0]] + lines[1..];
    assert all[1..] == lines[1..];
    if |lines| > 1 {
      assert front + lines[0] + CRLF + JoinLines(lines[1..]) == front + (lines[0] + CRLF + JoinLines(lines[1..]));
    } else {
      assert all == [front + lines[0]];
    }
  }

  lemma {:induction false} LinesJoin(b: bytes)
    ensures JoinLines(Lines(b)) == b
  {
    if b == [] {
    } else if |b| >= 2 && b[0] == CR && b[1] == LF {
      LinesJoin(b[2..]);
      var rest := Lines(b[2..]);
      assert ([[]] + rest)[1..] == rest;
      assert [] + CRLF + b[2..] == b;
    } else {
      LinesJoin(b[1..]);
      JoinHead([b[0]], Lines(b[1..]));
      assert b == [b[0]] + b[1..];
    }
  }

  lemma {:induction false} IndexIsFirst(b: bytes, c: byte, k: nat)
    requires k < |b| && b[k] == c && c !in b[..k]
    ensures IndexOf(b, c) == Some(k)
  {
    if k > 0 {
      assert b[0] in b[..k] && b[1..][..k - 1] == b[..k][1..];
      IndexIsFirst(b[1..], c, k - 1);
    }
  }

  lemma TargetSplits(target: bytes)
    ensures SplitsInto(target, Path(target), Query(target))
  {
    var q := IndexOf(target, QUESTION);
    if q.Some? {
      assert target == target[..q.value] + [QUESTION] + target[q.value + 1..];
    }
  }

  /** Nothing else is the path and the query. */
  lemma OneSplit(target: bytes, path: bytes, query: bytes)
    requires SplitsInto(target, path, query)
    ensures target == path + [QUESTION] + query ==> path == Path(target) && query == Query(target)
    ensures target == path ==> path == Path(target) && query == Query(target)
  {
    if target == path + [QUESTION] + query {
      assert target[..|path|] == path;
      IndexIsFirst(target, QUESTION, |path|);
    }
  }

  // ---------------------------------------------------------------- the fields

  lemma ValueJoin(a: bytes, b: bytes)
    ensures IsValue(a + b) <==> IsValue(a) && IsValue(b)
  {
    assert forall c :: c in a + b <==> c in a || c in b;
  }

  lemma {:induction false} StripValue(b: bytes)
    ensures IsValue(Strip(b)) <==> IsValue(b)
  {
    if b != [] {
      var n := |b| - 1;
      if b[0] == SPACE || b[0] == TAB {
        StripValue(b[1..]);
        ValueJoin([b[0]], b[1..]);
        assert b == [b[0]] + b[1..];
      } else if b[n] == SPACE || b[n] == TAB {
        StripValue(b[..n]);
        ValueJoin(b[..n], [b[n]]);
        assert b == b[..n] + [b[n]];
      }
    }
  }

  /** The values given for a name, in order. */
  function Values(pairs: seq<Pair>, name: bytes): seq<bytes>
  {
    if pairs == [] then []
    else
      var p := pairs[|pairs| - 1];
      Values(pairs[..|pairs| - 1], name) + if Lower(p.0) == name then [p.1] else []
  }

  lemma {:induction false} ValueMembers(pairs: seq<Pair>, name: bytes)
    ensures forall v :: v in Values(pairs, name) <==> exists p :: p in pairs && Lower(p.0) == name && p.1 == v
  {
    if pairs != [] {
      var n := |pairs| - 1;
      ValueMembers(pairs[..n], name);
      assert pairs == pairs[..n] + [pairs[n]];
    }
  }

  lemma {:induction false} NoValue(pairs: seq<Pair>, name: bytes)
    requires forall p | p in pairs :: Lower(p.0) != name
    ensures Values(pairs, name) == []
  {
    if pairs != [] {
      var n := |pairs| - 1;
      assert pairs[n] in pairs && forall p | p in pairs[..n] :: p in pairs;
      NoValue(pairs[..n], name);
    }
  }

  lemma {:induction false} OneValue(pairs: seq<Pair>, name: bytes)
    requires forall i, j | 0 <= i < j < |pairs| :: Lower(pairs[i].0) != Lower(pairs[j].0)
    ensures |Values(pairs, name)| <= 1
  {
    if pairs != [] {
      var n := |pairs| - 1;
      if Lower(pairs[n].0) == name {
        forall p | p in pairs[..n] ensures Lower(p.0) != name {
          var i :| 0 <= i < n && pairs[i] == p;
        }
        NoValue(pairs[..n], name);
      } else {
        OneValue(pairs[..n], name);
      }
    }
  }

  /** One line more. */
  lemma ScanMore(lines: seq<bytes>, line: bytes)
    ensures ScanLines(lines + [line]) == if ScanLines(lines) == None then None else ScanLine(ScanLines(lines).value, line)
  {
    assert (lines + [line])[..|lines|] == lines;
  }

  lemma TrimMore(fields: seq<Pair>, f: Pair, name: bytes)
    ensures Trimmed(fields + [f]) == Trimmed(fields) + [(f.0, Strip(f.1))]
    ensures Values(Trimmed(fields + [f]), name) ==
            Values(Trimmed(fields), name) + if Lower(f.0) == name then [Strip(f.1)] else []
  {
    var all := Trimmed(fields + [f]);
    assert all == Trimmed(fields) + [(f.0, Strip(f.1))];
    assert all[..|all| - 1] == Trimmed(fields);
  }

  lemma ScanField(before: Scan, line: bytes, f: Pair)
    requires ReadLine(line) == Some((f.0, Strip(f.1))) && Lower(f.0) != TRANSFER_ENCODING
    ensures ScanLine(before, line) ==
            Some(Scan(before.pairs + [(f.0, Strip(f.1))],
                      before.lengths + if Lower(f.0) == CONTENT_LENGTH then [Strip(f.1)] else []))
  {
    assert before.lengths + [] == before.lengths;
  }

  /** What the written lines of these fields scan to: the pairs with their values trimmed. */
  function Scanned(fields: seq<Pair>): Scan { Scan(Trimmed(fields), Values(Trimmed(fields), CONTENT_LENGTH)) }

  lemma FieldLinesMore(fields: seq<Pair>, f: Pair)
    ensures FieldLines(fields + [f]) == FieldLines(fields) + [FieldLine(f)]
  {
  }

  lemma ScanFieldMore(fields: seq<Pair>, f: Pair)
    requires IsToken(f.0) && Lower(f.0) != TRANSFER_ENCODING && ScanLines(FieldLines(fields)) == Some(Scanned(fields))
    ensures ScanLines(FieldLines(fields + [f])) == Some(Scanned(fields + [f]))
  {
    FieldLinesMore(fields, f);
    ScanMore(FieldLines(fields), FieldLine(f));
    ReadField(f);
    ScanField(Scanned(fields), FieldLine(f), f);
    TrimMore(fields, f, CONTENT_LENGTH);
  }

  lemma {:induction false} FieldsScan(fields: seq<Pair>)
    requires forall f | f in fields :: IsToken(f.0) && Lower(f.0) != TRANSFER_ENCODING
    ensures ScanLines(FieldLines(fields)) == Some(Scanned(fields))
  {
    if fields == [] {
      NothingScans();
    } else {
      var n := |fields| - 1;
      var rest, f := fields[..n], fields[n];
      assert fields == rest + [f];
      assert f in fields && forall x | x in rest :: x in fields;
      FieldsScan(rest);
      ScanFieldMore(rest, f);
    }
  }

  lemma NothingScans()
    ensures ScanLines(FieldLines([])) == Some(Scanned([]))
  {
    assert FieldLines([]) == [] && Trimmed([]) == [];
  }

  lemma ReadField(field: Pair)
    requires IsToken(field.0)
    ensures ReadLine(FieldLine(field)) == Some((field.0, Strip(field.1)))
  {
    assert !IsTokenByte(COLON);
    IndexOfColon(field.0, field.1);
    var line := FieldLine(field);
    assert line[..|field.0|] == field.0 && line[|field.0| + 1..] == field.1;
  }

  /** A line with a colon is a written field. */
  lemma LineIsField(line: bytes) returns (f: Pair)
    requires ReadLine(line).Some?
    ensures FieldLine(f) == line && ReadLine(line) == Some((f.0, Strip(f.1)))
  {
    var k := IndexOf(line, COLON).value;
    f := (line[..k], line[k + 1..]);
    assert line == line[..k] + [COLON] + line[k + 1..];
  }

  lemma LastScanned(lines: seq<bytes>, line: bytes, fields: seq<Pair>) returns (f: Pair)
    requires ScanLines(lines) == Some(Scanned(fields)) && ScanLines(lines + [line]).Some?
    ensures FieldLine(f) == line && Lower(f.0) != TRANSFER_ENCODING
    ensures ScanLines(lines + [line]) == Some(Scanned(fields + [f]))
  {
    ScanMore(lines, line);
    f := LineIsField(line);
    ScanField(Scanned(fields), line, f);
    TrimMore(fields, f, CONTENT_LENGTH);
  }

  /** Lines that scan are written fields. */
  lemma {:induction false} ScannedFields(lines: seq<bytes>) returns (fields: seq<Pair>)
    requires ScanLines(lines).Some?
    ensures lines == FieldLines(fields) && ScanLines(lines) == Some(Scanned(fields))
    ensures forall f | f in fields :: Lower(f.0) != TRANSFER_ENCODING
  {
    fields := [];
    if lines != [] {
      var n := |lines| - 1;
      assert lines == lines[..n] + [lines[n]];
      var before := ScannedFields(lines[..n]);
      var f := LastScanned(lines[..n], lines[n], before);
      fields := before + [f];
      FieldLinesMore(before, f);
    }
  }

  lemma TrimmedMembers(fields: seq<Pair>)
    ensures forall f :: f in fields ==> (f.0, Strip(f.1)) in Trimmed(fields)
    ensures forall p :: p in Trimmed(fields) ==> exists f :: f in fields && p == (f.0, Strip(f.1))
  {
    forall f | f in fields ensures (f.0, Strip(f.1)) in Trimmed(fields) {
      var i :| 0 <= i < |fields| && fields[i] == f;
      assert Trimmed(fields)[i] == (f.0, Strip(f.1));
    }
  }

  lemma TrimmedValid(fields: seq<Pair>)
    ensures ValidHeaders(Trimmed(fields)) <==> ValidHeaders(fields)
  {
    var t := Trimmed(fields);
    TrimmedMembers(fields);
    forall f | f in fields ensures IsValue(Strip(f.1)) <==> IsValue(f.1) {
      StripValue(f.1);
    }
    if ValidHeaders(t) {
      forall i, j | 0 <= i < j < |fields| ensures Lower(fields[i].0) != Lower(fields[j].0) {
        assert t[i].0 == fields[i].0 && t[j].0 == fields[j].0;
      }
      forall f | f in fields ensures IsToken(f.0) && IsValue(f.1) {
        assert (f.0, Strip(f.1)) in t;
      }
    }
  }

  lemma SameName(pairs: seq<Pair>, i: nat, j: nat)
    requires i < |pairs| && j < |pairs| && Lower(pairs[i].0) == Lower(pairs[j].0)
    requires forall a, b | 0 <= a < b < |pairs| :: Lower(pairs[a].0) != Lower(pairs[b].0)
    ensures i == j
  {
  }

  /** A name that occurs is found with the value of the only pair that has it. */
  lemma GetOnly(pairs: seq<Pair>, p: Pair)
    requires ValidHeaders(pairs) && p in pairs
    ensures Get(pairs, Lower(p.0)) == Some(p.1)
  {
    var q :| q in pairs && Lower(q.0) == Lower(p.0) && Some(q.1) == Get(pairs, Lower(p.0));
    var i :| 0 <= i < |pairs| && pairs[i] == p;
    var j :| 0 <= j < |pairs| && pairs[j] == q;
    SameName(pairs, i, j);
  }

  /** The one pair of the name, if there is one, has the value found. */
  lemma ValueFound(fields: seq<Pair>, name: bytes)
    requires ValidHeaders(fields)
    ensures var values := Values(Trimmed(fields), name);
            && |values| <= 1
            && (values == [] ==> forall f | f in fields :: Lower(f.0) != name)
            && (values != [] ==> exists f :: f in fields && Lower(f.0) == name && values[0] == Strip(f.1))
            && forall f | f in fields && Lower(f.0) == name :: values == [Strip(f.1)]
  {
    var pairs := Trimmed(fields);
    TrimmedMembers(fields);
    TrimmedValid(fields);
    OneValue(pairs, name);
    ValueMembers(pairs, name);
    forall f | f in fields && Lower(f.0) == name ensures Values(pairs, name) == [Strip(f.1)] {
      assert (f.0, Strip(f.1)) in pairs;
      assert Strip(f.1) in Values(pairs, name);
    }
    if Values(pairs, name) != [] {
      assert Values(pairs, name)[0] in Values(pairs, name);
      var p :| p in pairs && Lower(p.0) == name && p.1 == Values(pairs, name)[0];
      var f :| f in fields && p == (f.0, Strip(f.1));
    }
  }

  /** The one content-length there may be is that of the body. */
  lemma LengthsGive(cfg: Config, fields: seq<Pair>, body: bytes)
    requires LegalFields(cfg, fields, body)
    ensures var lengths := Values(Trimmed(fields), CONTENT_LENGTH);
            && |lengths| <= 1 && (lengths == [] ==> body == [])
            && (lengths != [] ==> exists f :: Gives(cfg, f, body) && lengths[0] == Strip(f.1))
  {
    ValueFound(fields, CONTENT_LENGTH);
    var lengths := Values(Trimmed(fields), CONTENT_LENGTH);
    if lengths != [] {
      var f :| f in fields && Lower(f.0) == CONTENT_LENGTH && lengths[0] == Strip(f.1);
      assert Gives(cfg, f, body);
    }
  }

  lemma HostGiven(cfg: Config, fields: seq<Pair>, body: bytes)
    requires LegalFields(cfg, fields, body)
    ensures Get(Trimmed(fields), HOST).Some? && Get(Trimmed(fields), HOST).value != []
  {
    var host :| host in fields && Lower(host.0) == HOST && Strip(host.1) != [];
    TrimmedValid(fields);
    TrimmedMembers(fields);
    GetOnly(Trimmed(fields), (host.0, Strip(host.1)));
  }

  /** What the checks behind the lines make of legal fields. */
  lemma FieldsFinish(cfg: Config, verb: bytes, target: bytes, fields: seq<Pair>, body: bytes)
    requires LegalFields(cfg, fields, body) && |body| <= cfg.maxBody
    ensures FinishHead(cfg, verb, target, Scanned(fields))
            == Parsed(RequestHead(verb, target, Trimmed(fields), |body|))
  {
    TrimmedValid(fields);
    LengthsGive(cfg, fields, body);
    HostGiven(cfg, fields, body);
  }

  /** What a head that passes the checks says of its pairs. */
  lemma FinishFacts(cfg: Config, verb: bytes, target: bytes, scan: Scan)
    requires FinishHead(cfg, verb, target, scan).Parsed?
    ensures var head := FinishHead(cfg, verb, target, scan).head;
            && head.verb == verb && head.target == target && head.headers == scan.pairs && head.length <= cfg.maxBody
            && ValidHeaders(scan.pairs) && |scan.lengths| <= 1
            && (scan.lengths == [] ==> head.length == 0)
            && (scan.lengths != [] ==>
                  && IsDigits(scan.lengths[0]) && (cfg.maxDigits > 0 ==> |scan.lengths[0]| <= cfg.maxDigits)
                  && NumberOf(scan.lengths[0]) == head.length)
            && Get(scan.pairs, HOST).Some? && Get(scan.pairs, HOST).value != []
  {
  }

  /** And only of legal ones: the length found is that of the body there is. */
  lemma FinishedFields(cfg: Config, verb: bytes, target: bytes, fields: seq<Pair>, body: bytes)
    requires var r := FinishHead(cfg, verb, target, Scanned(fields));
             r.Parsed? && r.head.length == |body|
    requires |fields| <= cfg.maxCount && forall f | f in fields :: Lower(f.0) != TRANSFER_ENCODING
    ensures LegalFields(cfg, fields, body) && |body| <= cfg.maxBody
  {
    var pairs := Trimmed(fields);
    FinishFacts(cfg, verb, target, Scanned(fields));
    TrimmedValid(fields);
    ValueFound(fields, CONTENT_LENGTH);
    assert forall f | f in fields && Lower(f.0) == CONTENT_LENGTH :: Gives(cfg, f, body);
    HostFound(fields);
  }

  lemma HostFound(fields: seq<Pair>)
    requires Get(Trimmed(fields), HOST).Some? && Get(Trimmed(fields), HOST).value != []
    ensures exists f :: f in fields && Lower(f.0) == HOST && Strip(f.1) != []
  {
    var pairs := Trimmed(fields);
    TrimmedMembers(fields);
    var h :| h in pairs && Lower(h.0) == HOST && Some(h.1) == Get(pairs, HOST);
    var f :| f in fields && h == (f.0, Strip(f.1));
  }

  // ---------------------------------------------------------------- the head

  lemma TokenPlain(b: bytes)
    requires IsToken(b)
    ensures CR !in b && LF !in b && SPACE !in b
  {
  }

  lemma RequestLineParts(w: Written)
    requires IsToken(w.verb) && OriginForm(w.target)
    ensures Split(RequestLine(w), SPACE) == [w.verb, w.target, VERSION]
  {
    TokenPlain(w.verb);
    assert SPACE !in w.target;
    SplitAtFirst(w.verb, SPACE, w.target + [SPACE] + VERSION);
    SplitAtFirst(w.target, SPACE, VERSION);
    SplitNowhere(VERSION, SPACE);
  }

  lemma RequestLinePlain(w: Written)
    requires IsToken(w.verb) && OriginForm(w.target)
    ensures Plain(RequestLine(w))
  {
    TokenPlain(w.verb);
    forall b | b in RequestLine(w) ensures b != CR && b != LF {
      assert b in w.verb || b == SPACE || b in w.target || b in VERSION;
    }
  }

  lemma FieldLinePlain(field: Pair)
    requires IsToken(field.0) && IsValue(field.1)
    ensures Plain(FieldLine(field))
  {
    forall b | b in FieldLine(field) ensures b != CR && b != LF {
      assert b in field.0 || b == COLON || b in field.1;
    }
  }

  lemma AllPlain(w: Written)
    requires IsToken(w.verb) && OriginForm(w.target) && ValidHeaders(w.fields)
    ensures forall l | l in [RequestLine(w)] + FieldLines(w.fields) :: Plain(l)
  {
    RequestLinePlain(w);
    forall l | l in [RequestLine(w)] + FieldLines(w.fields) ensures Plain(l) {
      if l != RequestLine(w) {
        var i :| 0 <= i < |w.fields| && l == FieldLine(w.fields[i]);
        assert w.fields[i] in w.fields;
        FieldLinePlain(w.fields[i]);
      }
    }
  }

  /** The head is found where it ends. */
  lemma HeadEnds(lines: seq<bytes>, rest: bytes)
    requires lines != [] && forall l | l in lines :: Plain(l)
    ensures var head, fed := JoinLines(lines), JoinLines(lines) + DELIMITER + rest;
            Find(fed) == Some(|head|) && fed[..|head|] == head && fed[|head| + 4..] == rest
  {
    var head := JoinLines(lines);
    DelimiterEndsTheLines(lines, rest);
    assert head + (DELIMITER + rest) == head + DELIMITER + rest;
    FindIsFirstAt(head + DELIMITER + rest, |head|);
  }

  lemma TextForm(w: Written)
    ensures Text(w) == JoinLines([RequestLine(w)] + FieldLines(w.fields)) + DELIMITER + (w.body + w.trailing)
  {
  }

  lemma HeadParses(cfg: Config, w: Written)
    requires Legal(cfg, w)
    ensures ParseHead(cfg, HeadText(w)) == Parsed(HeadOf(w))
  {
    AllPlain(w);
    LinesReadBack([RequestLine(w)] + FieldLines(w.fields));
    RequestLineParts(w);
    FieldsScan(w.fields);
    FieldsFinish(cfg, w.verb, w.target, w.fields, w.body);
    LinesParse(cfg, HeadText(w), RequestLine(w), FieldLines(w.fields), w.verb, w.target, Scanned(w.fields));
  }

  lemma LinesParse(cfg: Config, raw: bytes, first: bytes, rest: seq<bytes>, verb: bytes, target: bytes, scan: Scan)
    requires Lines(raw) == [first] + rest && Split(first, SPACE) == [verb, target, VERSION]
    requires target != [] && target[0] == SLASH && |target| <= cfg.maxTarget && OriginForm(target)
    requires |rest| <= cfg.maxCount && ScanLines(rest) == Some(scan)
    ensures ParseHead(cfg, raw) == FinishHead(cfg, verb, target, scan)
  {
    assert ([first] + rest)[1..] == rest;
  }

  // ---------------------------------------------------------------- the theorems

  /**
   Every request that is written as the grammar says, within the limits, is accepted, and what is handed out
   is what was written: its method, its path and query, its fields in order with their values trimmed, exactly
   the body its content-length announces, and the bytes behind it.
   */
  lemma LegalIsAccepted(cfg: Config, w: Written)
    requires Legal(cfg, w)
    ensures Reads(Decide(cfg, Text(w)), w)
  {
    LegalDecides(cfg, w);
    TargetSplits(w.target);
  }

  lemma LegalDecides(cfg: Config, w: Written)
    requires Legal(cfg, w)
    ensures Decide(cfg, Text(w)) == Accepted(w.verb, Path(w.target), Query(w.target), Trimmed(w.fields), w.body, w.trailing)
  {
    HeadDecides(cfg, w);
    BodyTaken(cfg, HeadOf(w), w.body, w.trailing);
  }

  function HeadOf(w: Written): RequestHead { RequestHead(w.verb, w.target, Trimmed(w.fields), |w.body|) }

  /** Plain lines are parsed as the head, and what is behind the delimiter comes behind it. */
  lemma LinesDecide(cfg: Config, lines: seq<bytes>, rest: bytes, head: RequestHead)
    requires lines != [] && (forall l | l in lines :: Plain(l)) && |JoinLines(lines)| + 4 <= cfg.maxHeader
    requires ParseHead(cfg, JoinLines(lines)) == Parsed(head)
    ensures Decide(cfg, JoinLines(lines) + DELIMITER + rest) == WithBody(cfg, head, rest)
  {
    HeadEnds(lines, rest);
    DecidedBehind(cfg, JoinLines(lines) + DELIMITER + rest, JoinLines(lines), rest, head);
  }

  lemma HeadDecides(cfg: Config, w: Written)
    requires Legal(cfg, w)
    ensures Decide(cfg, Text(w)) == WithBody(cfg, HeadOf(w), w.body + w.trailing)
  {
    AllPlain(w);
    HeadParses(cfg, w);
    LinesDecide(cfg, [RequestLine(w)] + FieldLines(w.fields), w.body + w.trailing, HeadOf(w));
    TextForm(w);
  }

  lemma DecidedBehind(cfg: Config, fed: bytes, raw: bytes, rest: bytes, head: RequestHead)
    requires Find(fed) == Some(|raw|) && |raw| + 4 <= cfg.maxHeader && fed[..|raw|] == raw && fed[|raw| + 4..] == rest
    requires ParseHead(cfg, raw) == Parsed(head)
    ensures Decide(cfg, fed) == WithBody(cfg, head, rest)
  {
  }

  lemma BodyTaken(cfg: Config, head: RequestHead, body: bytes, trailing: bytes)
    requires IsToken(head.verb) && head.length == |body| && (trailing == [] || cfg.preserveTrailing)
    ensures WithBody(cfg, head, body + trailing)
            == Accepted(head.verb, Path(head.target), Query(head.target), head.headers, body, trailing)
  {
    assert (body + trailing)[..|body|] == body && (body + trailing)[|body|..] == trailing;
  }

  /** What a head that parses was written as. */
  lemma ParsedHead(cfg: Config, raw: bytes, body: bytes) returns (fields: seq<Pair>)
    requires ParseHead(cfg, raw).Parsed? && ParseHead(cfg, raw).head.length == |body|
    ensures var head := ParseHead(cfg, raw).head;
            && head.headers == Trimmed(fields) && LegalFields(cfg, fields, body) && |body| <= cfg.maxBody
            && head.target != [] && head.target[0] == SLASH && |head.target| <= cfg.maxTarget && OriginForm(head.target)
            && HeadText(Written(head.verb, head.target, fields, body, [])) == raw
  {
    var head := ParseHead(cfg, raw).head;
    var lines := Lines(raw);
    ThreeParts(lines[0]);
    LinesJoin(raw);
    fields := ScannedFields(lines[1..]);
    FinishFacts(cfg, Split(lines[0], SPACE)[0], Split(lines[0], SPACE)[1], Scanned(fields));
    assert lines == [lines[0]] + lines[1..];
    assert RequestLine(Written(head.verb, head.target, fields, body, [])) == lines[0];
    FinishedFields(cfg, head.verb, head.target, fields, body);
  }

  /** The parts of an acceptance. */
  lemma AcceptedParts(cfg: Config, fed: bytes)
    requires Decide(cfg, fed).Accepted?
    ensures Find(fed).Some? && Find(fed).value + 4 <= cfg.maxHeader && ParseHead(cfg, fed[..Find(fed).value]).Parsed?
    ensures var o := Decide(cfg, fed);
            var m, head := Find(fed).value, ParseHead(cfg, fed[..Find(fed).value]).head;
            && o == Accepted(head.verb, Path(head.target), Query(head.target), head.headers, o.body, o.trailing)
            && IsToken(head.verb) && head.length == |o.body| && (o.trailing == [] || cfg.preserveTrailing)
            && fed == fed[..m] + DELIMITER + o.body + o.trailing
  {
    var m := Find(fed).value;
    PutTogether(fed, m, ParseHead(cfg, fed[..m]).head.length);
  }

  /** Nothing else is accepted. */
  lemma AcceptedIsLegal(cfg: Config, fed: bytes) returns (w: Written)
    requires Decide(cfg, fed).Accepted?
    ensures Legal(cfg, w) && Text(w) == fed && Reads(Decide(cfg, fed), w)
  {
    AcceptedParts(cfg, fed);
    var raw, o := fed[..Find(fed).value], Decide(cfg, fed);
    var head := ParseHead(cfg, raw).head;
    var fields := ParsedHead(cfg, raw, o.body);
    w := Written(head.verb, head.target, fields, o.body, o.trailing);
    assert HeadText(w) == HeadText(Written(head.verb, head.target, fields, o.body, []));
    TargetSplits(head.target);
  }

  /** Both directions: a request is accepted if and only if it is written as the grammar says. */
  lemma AcceptsExactlyWrittenRequests(cfg: Config, fed: bytes)
    ensures Decide(cfg, fed).Accepted? <==> exists w :: Legal(cfg, w) && Text(w) == fed
  {
    if Decide(cfg, fed).Accepted? {
      var w := AcceptedIsLegal(cfg, fed);
      assert Legal(cfg, w);
    }
    forall w | Legal(cfg, w) && Text(w) == fed ensures Decide(cfg, fed).Accepted? {
      LegalIsAccepted(cfg, w);
    }
  }

  /**
   A request that is legal but for a content-length of more digits than `int` reads leaves the parser by an
   exception that is no parse error; and only such digits do.
   */
  lemma LongDigitsRaise(cfg: Config, w: Written)
    requires Legal(cfg.(maxDigits := 0), w)
    ensures if Legal(cfg, w) then Reads(Decide(cfg, Text(w)), w) else Decide(cfg, Text(w)) == Raised
  {
    if Legal(cfg, w) {
      LegalIsAccepted(cfg, w);
    } else {
      LongDigits(cfg, w.fields, w.body);
      FieldsRaise(cfg, w);
      RaisedHead(cfg, w);
    }
  }

  lemma LongDigits(cfg: Config, fields: seq<Pair>, body: bytes)
    requires LegalFields(cfg.(maxDigits := 0), fields, body) && !LegalFields(cfg, fields, body)
    ensures exists f :: f in fields && Lower(f.0) == CONTENT_LENGTH && IsDigits(Strip(f.1)) && 0 < cfg.maxDigits < |Strip(f.1)|
  {
    var f :| f in fields && Lower(f.0) == CONTENT_LENGTH && !Gives(cfg, f, body);
    assert Gives(cfg.(maxDigits := 0), f, body);
  }

  lemma FieldsRaise(cfg: Config, w: Written)
    requires LegalFields(cfg.(maxDigits := 0), w.fields, w.body)
    requires exists f :: f in w.fields && Lower(f.0) == CONTENT_LENGTH && IsDigits(Strip(f.1)) && 0 < cfg.maxDigits < |Strip(f.1)|
    ensures FinishHead(cfg, w.verb, w.target, Scanned(w.fields)) == Unread
  {
    var f :| f in w.fields && Lower(f.0) == CONTENT_LENGTH && IsDigits(Strip(f.1)) && 0 < cfg.maxDigits < |Strip(f.1)|;
    TrimmedValid(w.fields);
    ValueFound(w.fields, CONTENT_LENGTH);
  }

  lemma RaisedHead(cfg: Config, w: Written)
    requires Legal(cfg.(maxDigits := 0), w) && FinishHead(cfg, w.verb, w.target, Scanned(w.fields)) == Unread
    ensures Decide(cfg, Text(w)) == Raised
  {
    var lines := [RequestLine(w)] + FieldLines(w.fields);
    AllPlain(w);
    LinesReadBack(lines);
    RequestLineParts(w);
    FieldsScan(w.fields);
    LinesParse(cfg, HeadText(w), RequestLine(w), FieldLines(w.fields), w.verb, w.target, Scanned(w.fields));
    TextForm(w);
    LinesRaise(cfg, lines, w.body + w.trailing);
  }

  lemma LinesRaise(cfg: Config, lines: seq<bytes>, rest: bytes)
    requires lines != [] && (forall l | l in lines :: Plain(l)) && |JoinLines(lines)| + 4 <= cfg.maxHeader
    requires ParseHead(cfg, JoinLines(lines)) == Unread
    ensures Decide(cfg, JoinLines(lines) + DELIMITER + rest) == Raised
  {
    HeadEnds(lines, rest);
  }

  /** Without a limit on digits the parser never raises but to reject. */
  lemma OnlyDigitsRaise(cfg: Config, fed: bytes)
    requires Decide(cfg, fed) == Raised
    ensures Decide(cfg.(maxDigits := 0), fed) != Raised && cfg.maxDigits > 0
  {
  }

  // ---------------------------------------------------------------- when the parser waits

  lemma NotYetFound(front: bytes, more: bytes)
    requires Find(front + more).Some? && |front| < Find(front + more).value + 4
    ensures Find(front) == None
  {
    if Find(front).Some? {
      FindStays(front, more);
    }
  }

  lemma FoundInFront(front: bytes, more: bytes)
    requires Find(front + more).Some? && Find(front + more).value + 4 <= |front|
    ensures Find(front) == Find(front + more)
  {
    var m := Find(front + more).value;
    assert front[m..m + 4] == (front + more)[m..m + 4];
    FindIsFirst(front, m);
    FindStays(front, more);
  }

  lemma BodyMissing(cfg: Config, fed: bytes, raw: bytes, rest: bytes, head: RequestHead)
    requires Find(fed) == Some(|raw|) && |raw| + 4 <= cfg.maxHeader && fed[..|raw|] == raw && fed[|raw| + 4..] == rest
    requires ParseHead(cfg, raw) == Parsed(head) && |rest| < head.length
    ensures Decide(cfg, fed) == NeedMore
  {
    DecidedBehind(cfg, fed, raw, rest, head);
  }

  /** As long as not all of a legal request has come in, the parser waits: it neither rejects it nor accepts a part of it. */
  lemma PrefixNeedsMore(cfg: Config, w: Written, front: bytes)
    requires Legal(cfg, w) && front <= Text(w) && |front| < |HeadText(w)| + 4 + |w.body|
    ensures Decide(cfg, front) == NeedMore
  {
    var lines := [RequestLine(w)] + FieldLines(w.fields);
    AllPlain(w);
    TextForm(w);
    HeadParses(cfg, w);
    LinesNeedMore(cfg, lines, w.body + w.trailing, HeadOf(w), front, Text(w)[|front|..]);
  }

  lemma LinesNeedMore(cfg: Config, lines: seq<bytes>, rest: bytes, head: RequestHead, front: bytes, more: bytes)
    requires lines != [] && (forall l | l in lines :: Plain(l)) && |JoinLines(lines)| + 4 <= cfg.maxHeader
    requires ParseHead(cfg, JoinLines(lines)) == Parsed(head)
    requires front + more == JoinLines(lines) + DELIMITER + rest && |front| < |JoinLines(lines)| + 4 + head.length
    ensures Decide(cfg, front) == NeedMore
  {
    var raw := JoinLines(lines);
    HeadEnds(lines, rest);
    if |front| < |raw| + 4 {
      NotYetFound(front, more);
    } else {
      FoundInFront(front, more);
      assert front[..|raw|] == (front + more)[..|raw|];
      BodyMissing(cfg, front, raw, front[|raw| + 4..], head);
    }
  }

  lemma CutAtDelimiter(fed: bytes, m: nat, more: bytes)
    requires m + 4 <= |fed| && fed[m..m + 4] == DELIMITER
    ensures fed == fed[..m] + DELIMITER + fed[m + 4..] && fed + more == fed[..m] + DELIMITER + (fed[m + 4..] + more)
    ensures fed[..m] + DELIMITER <= fed <= fed + more
  {
    assert fed == fed[..m] + fed[m..m + 4] + fed[m + 4..];
    assert fed + more == fed[..m] + DELIMITER + (fed[m + 4..] + more);
  }

  /** What is decided once the head has ended and was read. */
  function Decided(cfg: Config, result: HeadResult, m: nat, rest: bytes): Outcome
  {
    if m + 4 > cfg.maxHeader then Rejected(413)
    else if result.BadHead? then Rejected(result.status)
    else if result.Unread? then Raised
    else WithBody(cfg, result.head, rest)
  }

  lemma DecidedAs(cfg: Config, fed: bytes, m: nat, result: HeadResult)
    requires Find(fed) == Some(m) && ParseHead(cfg, fed[..m]) == result
    ensures Decide(cfg, fed) == Decided(cfg, result, m, fed[m + 4..])
  {
  }

  /** What is known while the body is awaited. */
  lemma AwaitsBody(cfg: Config, result: HeadResult, m: nat, rest: bytes)
    requires Decided(cfg, result, m, rest) == NeedMore
    ensures m + 4 <= cfg.maxHeader && result.Parsed? && |rest| < result.head.length
  {
  }

  lemma AwaitedBody(cfg: Config, fed: bytes, m: nat) returns (w: Written)
    requires m + 4 <= |fed| && fed[m..m + 4] == DELIMITER && ParseHead(cfg, fed[..m]).Parsed?
    requires |fed| - m - 4 < ParseHead(cfg, fed[..m]).head.length
    ensures LegalFields(cfg, w.fields, w.body) && |w.body| <= cfg.maxBody
    ensures HeadText(w) == fed[..m] && HeadText(w) + DELIMITER <= fed <= HeadText(w) + DELIMITER + w.body
    ensures |fed| < m + 4 + |w.body|
  {
    var raw, rest := fed[..m], fed[m + 4..];
    var head := ParseHead(cfg, raw).head;
    var missing := Zeros(head.length - |rest|);
    var body := rest + missing;
    var fields := ParsedHead(cfg, raw, body);
    w := Written(head.verb, head.target, fields, body, []);
    CutAtDelimiter(fed, m, missing);
  }

  /**
   And it waits for nothing else: for the blank line, within the limit on the head, or for the rest of a body
   whose length legal fields give; never beyond the limits on head and body.
   */
  lemma WaitsOnlyForARequest(cfg: Config, fed: bytes) returns (w: Written)
    requires Decide(cfg, fed) == NeedMore
    ensures |fed| <= cfg.maxHeader + cfg.maxBody
    ensures Find(fed) == None ==> |fed| <= cfg.maxHeader
    ensures Find(fed).Some? ==>
              && LegalFields(cfg, w.fields, w.body) && HeadText(w) + DELIMITER <= fed <= HeadText(w) + DELIMITER + w.body
              && |fed| < |HeadText(w)| + 4 + |w.body|
  {
    w := Written([], [], [], [], []);
    if Find(fed).Some? {
      var m := Find(fed).value;
      DecidedAs(cfg, fed, m, ParseHead(cfg, fed[..m]));
      AwaitsBody(cfg, ParseHead(cfg, fed[..m]), m, fed[m + 4..]);
      w := AwaitedBody(cfg, fed, m);
    }
  }

  // ---------------------------------------------------------------- which status a rejection has

  /** The same limits or larger ones. */
  predicate Roomier(cfg: Config, more: Config)
  {
    && more == cfg.(maxHeader := more.maxHeader, maxCount := more.maxCount, maxBody := more.maxBody, maxTarget := more.maxTarget)
    && cfg.maxHeader <= more.maxHeader && cfg.maxCount <= more.maxCount
    && cfg.maxBody <= more.maxBody && cfg.maxTarget <= more.maxTarget
  }

  predicate TooLarge(o: Outcome) { o == Rejected(413) || o == Rejected(414) }

  lemma RoomierHead(cfg: Config, more: Config, raw: bytes)
    requires Roomier(cfg, more) && ParseHead(cfg, raw) != BadHead(413) && ParseHead(cfg, raw) != BadHead(414)
    ensures ParseHead(more, raw) == ParseHead(cfg, raw)
  {
  }

  /** What is decided otherwise than by a limit is decided the same within larger limits. */
  lemma LimitsOnlyRefuse(cfg: Config, more: Config, fed: bytes)
    requires Roomier(cfg, more) && !TooLarge(Decide(cfg, fed))
    ensures Decide(more, fed) == Decide(cfg, fed)
  {
    if Find(fed).Some? {
      RoomierHead(cfg, more, fed[..Find(fed).value]);
    }
  }

  /** The largest length the head gives. */
  function LengthGiven(lines: seq<bytes>): nat
  {
    match ScanLines(lines)
    case None => 0
    case Some(scan) => if scan.lengths == [] || !IsDigits(scan.lengths[0]) then 0 else NumberOf(scan.lengths[0])
  }

  lemma FirstLineFits(raw: bytes)
    ensures |Lines(raw)[0]| <= |raw|
  {
    LinesJoin(raw);
  }

  lemma TargetFits(raw: bytes)
    requires |Split(Lines(raw)[0], SPACE)| == 3
    ensures |Split(Lines(raw)[0], SPACE)[1]| <= |raw|
  {
    FirstLineFits(raw);
    ThreeParts(Lines(raw)[0]);
  }

  lemma TargetLifts(cfg: Config, raw: bytes)
    requires cfg.maxTarget >= |raw|
    ensures ParseHead(cfg, raw) != BadHead(414)
  {
    if |Split(Lines(raw)[0], SPACE)| == 3 {
      TargetFits(raw);
    }
  }

  lemma SizesLift(cfg: Config, raw: bytes)
    requires cfg.maxCount >= |Lines(raw)| && cfg.maxBody >= LengthGiven(Lines(raw)[1..])
    ensures ParseHead(cfg, raw) != BadHead(413)
  {
  }

  lemma KnownStatus(cfg: Config, raw: bytes)
    requires ParseHead(cfg, raw).BadHead?
    ensures var status := ParseHead(cfg, raw).status; status == 400 || status == 413 || status == 414
  {
  }

  /** The head as far as it is known, and the limits that are large enough for it. */
  function RawHead(fed: bytes): bytes
  {
    if Find(fed) == None then [] else fed[..Find(fed).value]
  }

  function RoomForTarget(cfg: Config, fed: bytes): Config { cfg.(maxTarget := Max(cfg.maxTarget, |fed|)) }

  function RoomForSizes(cfg: Config, fed: bytes): Config
  {
    var lines := Lines(RawHead(fed));
    cfg.(maxHeader := Max(cfg.maxHeader, |fed|), maxCount := Max(cfg.maxCount, |lines|),
         maxBody := Max(cfg.maxBody, LengthGiven(lines[1..])))
  }

  /**
   A rejection has status 400, 413 or 414.  A 414 is one that a larger limit on the target alone lifts, a 413
   one that larger limits on head, header count and body lift, and a 400 stands whatever the limits.
   */
  lemma StatusNamesTheLimit(cfg: Config, fed: bytes)
    requires Decide(cfg, fed).Rejected?
    ensures var status := Decide(cfg, fed).status; status == 400 || status == 413 || status == 414
    ensures Decide(RoomForTarget(cfg, fed), fed) != Rejected(414)
    ensures Decide(RoomForSizes(cfg, fed), fed) != Rejected(413)
    ensures Decide(cfg, fed) == Rejected(400) ==> forall more | Roomier(cfg, more) :: Decide(more, fed) == Rejected(400)
  {
    var raw := RawHead(fed);
    if Find(fed).Some? {
      TargetLifts(RoomForTarget(cfg, fed), raw);
      SizesLift(RoomForSizes(cfg, fed), raw);
      if ParseHead(cfg, raw).BadHead? {
        KnownStatus(cfg, raw);
      }
    }
    forall more | Roomier(cfg, more) && Decide(cfg, fed) == Rejected(400) ensures Decide(more, fed) == Rejected(400) {
      LimitsOnlyRefuse(cfg, more, fed);
    }
  }

  // ---------------------------------------------------------------- numbers

  function Zeros(k: nat): (z: bytes)
    ensures |z| == k && forall c | c in z :: c == 48
  {
    seq(k, _ => 48)
  }

  lemma OneDigit(b: bytes)
    requires IsDigits(b) && |b| == 1
    ensures b == Octets(Decimal(NumberOf(b)))
  {
    assert b[0] in b && NumberOf(b[..0]) == 0 && NumberOf(b) == b[0] - 48;
  }

  /** One digit more. */
  lemma DigitMore(n: nat, c: byte)
    requires 48 <= c <= 57
    ensures Octets(Decimal(10 * n + (c - 48))) == if n == 0 then [c] else Octets(Decimal(n)) + [c]
  {
    var v := 10 * n + (c - 48);
    assert v / 10 == n && v % 10 == c - 48;
  }

  lemma NumberMore(front: bytes, c: byte)
    requires (forall x | x in front :: 48 <= x <= 57) && 48 <= c <= 57
    ensures forall x | x in front + [c] :: 48 <= x <= 57
    ensures NumberOf(front + [c]) == 10 * NumberOf(front) + (c - 48)
  {
    assert (front + [c])[..|front|] == front;
  }

  lemma OneMoreZero(k: nat)
    ensures Zeros(k) + [48] == Zeros(k + 1) && Octets(Decimal(0)) == [48]
  {
  }

  lemma DecimalMore(front: bytes, c: byte, k: nat) returns (j: nat)
    requires IsDigits(front) && 48 <= c <= 57 && front == Zeros(k) + Octets(Decimal(NumberOf(front)))
    ensures (forall x | x in front + [c] :: 48 <= x <= 57) && front + [c] == Zeros(j) + Octets(Decimal(NumberOf(front + [c])))
  {
    NumberMore(front, c);
    DigitMore(NumberOf(front), c);
    OneMoreZero(k);
    j := if NumberOf(front) == 0 then k + 1 else k;
  }

  lemma {:induction false} NumberIsDecimal(b: bytes) returns (k: nat)
    requires IsDigits(b)
    ensures b == Zeros(k) + Octets(Decimal(NumberOf(b)))
  {
    var n := |b| - 1;
    if n == 0 {
      OneDigit(b);
      k := 0;
    } else {
      var front := b[..n];
      assert b == front + [b[n]];
      assert b[n] in b && forall c | c in front :: c in b;
      k := NumberIsDecimal(front);
      k := DecimalMore(front, b[n], k);
    }
  }

  lemma {:induction false} LeadingZeros(k: nat, b: bytes)
    requires forall c | c in b :: 48 <= c <= 57
    ensures forall c | c in Zeros(k) + b :: 48 <= c <= 57
    ensures NumberOf(Zeros(k) + b) == NumberOf(b)
    decreases k + |b|
  {
    var all := Zeros(k) + b;
    if b != [] {
      var n := |b| - 1;
      assert all[..|all| - 1] == Zeros(k) + b[..n] && all[|all| - 1] == b[n];
      assert forall c | c in b[..n] :: c in b;
      LeadingZeros(k, b[..n]);
    } else if k > 0 {
      assert all[..k - 1] == Zeros(k - 1) + [] && all[k - 1] == 48;
      LeadingZeros(k - 1, []);
    }
  }

  /** The digits of a content-length stand for n exactly when they are n in decimal, with any zeros before it. */
  lemma DigitsMean(b: bytes, n: nat)
    requires IsDigits(b)
    ensures NumberOf(b) == n <==> exists k :: b == Zeros(k) + Octets(Decimal(n))
  {
    var j := NumberIsDecimal(b);
    forall k: nat | b == Zeros(k) + Octets(Decimal(n)) ensures NumberOf(b) == n {
      DigitsReadBack(Decimal(n));
      DecimalReadsBack(n);
      LeadingZeros(k, Octets(Decimal(n)));
    }
  }

  // ---------------------------------------------------------------- reading a printed response

  /** The printed status is the response's, as three digits behind the version. */
  lemma StatusReadsBack(r: Response)
    requires ValidResponse(r)
    ensures var parts := Split(StatusLine(r.status), SPACE);
            && |parts| >= 2 && parts[0] == VERSION && |parts[1]| == 3 && IsDigits(parts[1]) && NumberOf(parts[1]) == r.status
            && (Reason(r.status) == "" ==> |parts| == 2)
            && (Reason(r.status) != "" ==> parts[2..] == Split(Octets(Reason(r.status)), SPACE))
  {
    var status, reason := Octets(Decimal(r.status)), Octets(Reason(r.status));
    DecimalReadsBack(r.status);
    DigitsReadBack(Decimal(r.status));
    ThreeDigits(r.status);
    StatusLineForm(r.status);
    assert SPACE !in VERSION && SPACE !in status;
    if Reason(r.status) == "" {
      SplitAtFirst(VERSION, SPACE, status);
      SplitNowhere(status, SPACE);
    } else {
      SplitAtFirst(VERSION, SPACE, status + [SPACE] + reason);
      SplitAtFirst(status, SPACE, reason);
      assert ([VERSION] + ([status] + Split(reason, SPACE)))[2..] == Split(reason, SPACE);
    }
  }

  lemma OctetsJoin(a: string, b: string)
    ensures Octets(a + b) == Octets(a) + Octets(b)
  {
  }

  /** The status line with or without a reason. */
  lemma LineForm(digits: string, reason: string)
    ensures Octets("HTTP/1.1 " + digits + "") == VERSION + [SPACE] + Octets(digits)
    ensures Octets("HTTP/1.1 " + digits + (" " + reason)) == VERSION + [SPACE] + (Octets(digits) + [SPACE] + Octets(reason))
  {
    VersionOctets();
    OctetsJoin("HTTP/1.1 ", digits);
    OctetsJoin("HTTP/1.1 " + digits, "");
    OctetsJoin("HTTP/1.1 " + digits, " " + reason);
    OctetsJoin(" ", reason);
  }

  lemma StatusLineForm(status: nat)
    ensures var digits, reason := Octets(Decimal(status)), Octets(Reason(status));
            StatusLine(status) == VERSION + [SPACE] + if Reason(status) == "" then digits else digits + [SPACE] + reason
  {
    LineForm(Decimal(status), Reason(status));
  }

  lemma VersionOctets()
    ensures Octets("HTTP/1.1 ") == VERSION + [SPACE] && Octets(" ") == [SPACE]
  {
  }

  lemma ThreeDigits(n: nat)
    requires 100 <= n <= 999
    ensures |Decimal(n)| == 3
  {
    assert |Decimal(n / 100)| == 1;
    assert n / 10 / 10 == n / 100;
    assert |Decimal(n / 10)| == 2;
  }

  /**
   A reader of the printed lines gets the response's own headers, all of them and in order; before them there
   is a Content-Length if and only if the response has none.
   */
  lemma HeadersReadBack(r: Response)
    requires ValidResponse(r)
    ensures var lines := Lines(Head(r));
            var own := |lines| - 1 - |r.headers|;
            && own == (if Get(r.headers, CONTENT_LENGTH) == None then 1 else 0)
            && (forall i | 0 <= i < |r.headers| :: ReadLine(lines[1 + own + i]) == Some((r.headers[i].0, Strip(r.headers[i].1))))
            && (own == 1 ==> ReadLine(lines[1]) == Some((Octets("Content-Length"), Strip(Octets(Decimal(|r.body|))))))
  {
    PrintedLinesRead(r);
    OwnPairs(r);
    PairsReadBack(StatusLine(r.status), PrintedPairs(r), r.headers);
  }

  lemma PrintedLinesRead(r: Response)
    requires ValidResponse(r)
    ensures Lines(Head(r)) == [StatusLine(r.status)] + PrintLines(PrintedPairs(r))
    ensures forall p | p in PrintedPairs(r) :: ReadLine(PrintLine(p)) == Some((p.0, Strip(p.1)))
  {
    PrintedIsUnambiguous(r);
  }

  lemma OwnPairs(r: Response)
    ensures var pairs, none := PrintedPairs(r), Get(r.headers, CONTENT_LENGTH) == None;
            && |pairs| == |r.headers| + (if none then 1 else 0)
            && pairs[|pairs| - |r.headers|..] == r.headers
            && (none ==> pairs[0] == (Octets("Content-Length"), Octets(Decimal(|r.body|))))
  {
  }

  lemma PairsReadBack(first: bytes, pairs: seq<Pair>, last: seq<Pair>)
    requires |last| <= |pairs| && pairs[|pairs| - |last|..] == last
    requires forall p | p in pairs :: ReadLine(PrintLine(p)) == Some((p.0, Strip(p.1)))
    ensures var lines, own := [first] + PrintLines(pairs), |pairs| - |last|;
            && (forall i | 0 <= i < |last| :: ReadLine(lines[1 + own + i]) == Some((last[i].0, Strip(last[i].1))))
            && (own > 0 ==> ReadLine(lines[1]) == Some((pairs[0].0, Strip(pairs[0].1))))
  {
    var lines, own := [first] + PrintLines(pairs), |pairs| - |last|;
    forall i | 0 <= i < |last| ensures ReadLine(lines[1 + own + i]) == Some((last[i].0, Strip(last[i].1))) {
      assert pairs[own + i] == last[i] && pairs[own + i] in pairs && lines[1 + own + i] == PrintLine(pairs[own + i]);
    }
    if own > 0 {
      assert pairs[0] in pairs && lines[1] == PrintLine(pairs[0]);
    }
  }
}
