/**
 The request grammar down to single characters: which ones a token, a value and a target may hold, when two names are
 the same, what is left of a value, which digits stand for a length.  A request is accepted if and only if it is
 proper in this sense, and what is handed out is what was written.
 */
module RequestSyntax {
  import opened Bytes
  import opened Optional
  import opened Decimals
  import opened Http
  import opened HttpParser
  import opened RequestGrammar

  /** The delimiters of section 5.6.2 of RFC 9110. */
  const SEPARATORS: bytes := [34, 40, 41, 44, 47, 58, 59, 60, 61, 62, 63, 64, 91, 92, 93, 123, 125]

  /** A token: visible characters, none a delimiter. */
  predicate TokenText(b: bytes)
  {
    b != [] && forall c | c in b :: 0x21 <= c <= 0x7E && c !in SEPARATORS
  }

  /** A value: no control character but a tab. */
  predicate ValueText(b: bytes)
  {
    forall c | c in b :: !(c < 0x20 && c != TAB) && c != 0x7F
  }

  /** A target in origin form: visible characters behind a slash, none a number sign. */
  predicate TargetText(b: bytes)
  {
    b != [] && b[0] == SLASH && forall c | c in b :: 0x20 < c < 0x7F && c != HASH
  }

  /** A letter in both cases. */
  predicate Twins(x: byte, y: byte)
  {
    (65 <= x <= 90 && y == x + 32) || (65 <= y <= 90 && x == y + 32)
  }

  predicate SameField(a: bytes, b: bytes)
  {
    |a| == |b| && forall i | 0 <= i < |a| :: a[i] == b[i] || Twins(a[i], b[i])
  }

  predicate Blank(b: bytes)
  {
    forall c | c in b :: c == SPACE || c == TAB
  }

  /** What is left of a value once the blanks around it are gone. */
  ghost predicate Bare(value: bytes, bare: bytes)
  {
    && (exists l, r :: value == l + bare + r && Blank(l) && Blank(r))
    && (bare != [] ==> !Blank(bare[..1]) && !Blank(bare[|bare| - 1..]))
  }

  /** The value is the length of the body in decimal, with any zeros before it. */
  ghost predicate Declares(cfg: Config, value: bytes, body: bytes)
  {
    exists k: nat :: Bare(value, Zeros(k) + Octets(Decimal(|body|)))
                && (cfg.maxDigits > 0 ==> k + |Decimal(|body|)| <= cfg.maxDigits)
  }

  ghost predicate ProperFields(cfg: Config, fields: seq<Pair>, body: bytes)
  {
    && |fields| <= cfg.maxCount
    && (forall f | f in fields :: TokenText(f.0) && ValueText(f.1) && !SameField(f.0, TRANSFER_ENCODING))
    && (forall i, j | 0 <= i < j < |fields| :: !SameField(fields[i].0, fields[j].0))
    && (exists f :: f in fields && SameField(f.0, HOST) && !Blank(f.1))
    && (forall f | f in fields && SameField(f.0, CONTENT_LENGTH) :: Declares(cfg, f.1, body))
    && ((forall f | f in fields :: !SameField(f.0, CONTENT_LENGTH)) ==> body == [])
  }

  /** A request as RFC 9110 and RFC 9112 have it, within the limits. */
  ghost predicate Proper(cfg: Config, w: Written)
  {
    && TokenText(w.verb) && TargetText(w.target) && |w.target| <= cfg.maxTarget
    && ProperFields(cfg, w.fields, w.body)
    && |HeadText(w)| + 4 <= cfg.maxHeader && |w.body| <= cfg.maxBody
    && (w.trailing == [] || cfg.preserveTrailing)
  }

  /** The request handed out is the one written, its values without the blanks around them. */
  ghost predicate Conveys(o: Outcome, w: Written)
  {
    && o.Accepted? && o.verb == w.verb && SplitsInto(w.target, o.path, o.query)
    && |o.headers| == |w.fields|
    && (forall i | 0 <= i < |w.fields| :: o.headers[i].0 == w.fields[i].0 && Bare(w.fields[i].1, o.headers[i].1))
    && o.body == w.body && o.trailing == w.trailing
  }

  // ---------------------------------------------------------------- characters

  lemma TokenIs(b: bytes)
    ensures TokenText(b) <==> IsToken(b)
  {
    forall c: byte ensures (0x21 <= c <= 0x7E && c !in SEPARATORS) <==> IsTokenByte(c) {
      TokenByteIs(c);
    }
  }

  lemma TokenByteIs(c: byte)
    ensures (0x21 <= c <= 0x7E && c !in SEPARATORS) <==> IsTokenByte(c)
  {
    if c < 48 {
    } else if c < 65 {
    } else if c < 97 {
    }
  }

  lemma NameIs(a: bytes, b: bytes)
    ensures SameField(a, b) <==> Lower(a) == Lower(b)
  {
    if |a| == |b| {
      forall i | 0 <= i < |a| ensures a[i] == b[i] || Twins(a[i], b[i]) <==> Lower(a)[i] == Lower(b)[i] {
      }
    }
  }

  /** The names that matter, as they are spelled. */
  lemma NamesSpelled()
    ensures HOST == Octets("host") && CONTENT_LENGTH == Octets("content-length")
    ensures TRANSFER_ENCODING == Octets("transfer-encoding")
  {
  }

  lemma LowerAlready()
    ensures Lower(HOST) == HOST && Lower(CONTENT_LENGTH) == CONTENT_LENGTH && Lower(TRANSFER_ENCODING) == TRANSFER_ENCODING
  {
  }

  lemma BlankJoin(a: bytes, b: bytes)
    ensures Blank(a + b) <==> Blank(a) && Blank(b)
  {
    assert forall c :: c in a + b <==> c in a || c in b;
  }

  lemma BlankMore(c: byte, b: bytes)
    requires Blank(b) && (c == SPACE || c == TAB)
    ensures Blank([c] + b) && Blank(b + [c])
  {
  }

  lemma {:induction false} StripTakesBlanks(b: bytes) returns (l: bytes, r: bytes)
    ensures b == l + Strip(b) + r && Blank(l) && Blank(r)
  {
    l, r := [], [];
    if b != [] {
      var n := |b| - 1;
      if b[0] == SPACE || b[0] == TAB {
        l, r := StripTakesBlanks(b[1..]);
        BlankMore(b[0], l);
        l := [b[0]] + l;
        assert b == [b[0]] + b[1..];
      } else if b[n] == SPACE || b[n] == TAB {
        l, r := StripTakesBlanks(b[..n]);
        BlankMore(b[n], r);
        r := r + [b[n]];
        assert b == b[..n] + [b[n]];
      }
    }
  }

  lemma StripIsBare(b: bytes) returns (l: bytes, r: bytes)
    ensures b == l + Strip(b) + r && Blank(l) && Blank(r) && Bare(b, Strip(b))
  {
    l, r := StripTakesBlanks(b);
    BareEnds(b);
  }

  lemma {:induction false} BareEnds(b: bytes)
    ensures Strip(b) != [] ==> !Blank(Strip(b)[..1]) && !Blank(Strip(b)[|Strip(b)| - 1..])
  {
    if b != [] {
      var n := |b| - 1;
      if b[0] == SPACE || b[0] == TAB {
        BareEnds(b[1..]);
      } else if b[n] == SPACE || b[n] == TAB {
        BareEnds(b[..n]);
      } else {
        assert b[..1] == [b[0]] && b[0] in b[..1] && b[n..] == [b[n]] && b[n] in b[n..];
      }
    }
  }

  /** Nothing else is left. */
  lemma {:induction false} BareIsStrip(l: bytes, bare: bytes, r: bytes)
    requires Blank(l) && Blank(r) && (bare != [] ==> !Blank(bare[..1]) && !Blank(bare[|bare| - 1..]))
    ensures Strip(l + bare + r) == bare
    decreases |l| + |r|
  {
    var all := l + bare + r;
    if l != [] {
      assert l[0] in l && forall c | c in l[1..] :: c in l;
      assert all[1..] == l[1..] + bare + r;
      BareIsStrip(l[1..], bare, r);
    } else if bare != [] {
      assert bare[..1] == [bare[0]] && bare[|bare| - 1..] == [bare[|bare| - 1]];
      if r != [] {
        var n := |r| - 1;
        assert r[n] in r && forall c | c in r[..n] :: c in r;
        assert all[..|all| - 1] == l + bare + r[..n] && all[0] == bare[0];
        BareIsStrip(l, bare, r[..n]);
      } else {
        assert all == bare;
      }
    } else if r != [] {
      assert r[0] in r && forall c | c in r[1..] :: c in r;
      assert all[1..] == [] + [] + r[1..];
      BareIsStrip([], [], r[1..]);
    }
  }

  lemma BareIs(value: bytes, bare: bytes)
    ensures Bare(value, bare) <==> bare == Strip(value)
  {
    var l, r := StripIsBare(value);
    if Bare(value, bare) {
      var a, b :| value == a + bare + b && Blank(a) && Blank(b);
      BareIsStrip(a, bare, b);
    }
  }

  lemma BlankIs(value: bytes)
    ensures Blank(value) <==> Strip(value) == []
  {
    var l, r := StripIsBare(value);
    if Strip(value) == [] {
      assert value == l + r;
      BlankJoin(l, r);
    } else {
      var bare := Strip(value);
      assert bare == bare[..1] + bare[1..];
      BlankJoin(bare[..1], bare[1..]);
      BlankJoin(l + bare, r);
      BlankJoin(l, bare);
    }
  }

  /** Decimal digits behind zeros are digits. */
  lemma DigitsBehindZeros(k: nat, n: nat)
    ensures IsDigits(Zeros(k) + Octets(Decimal(n))) && |Zeros(k) + Octets(Decimal(n))| == k + |Decimal(n)|
  {
    DigitsReadBack(Decimal(n));
    LeadingZeros(k, Octets(Decimal(n)));
  }

  lemma DeclaresGives(cfg: Config, f: Pair, body: bytes)
    requires Declares(cfg, f.1, body)
    ensures Gives(cfg, f, body)
  {
    var k: nat :| Bare(f.1, Zeros(k) + Octets(Decimal(|body|))) && (cfg.maxDigits > 0 ==> k + |Decimal(|body|)| <= cfg.maxDigits);
    BareIs(f.1, Zeros(k) + Octets(Decimal(|body|)));
    DigitsBehindZeros(k, |body|);
    DigitsMean(Strip(f.1), |body|);
  }

  lemma GivesDeclares(cfg: Config, f: Pair, body: bytes)
    requires Gives(cfg, f, body)
    ensures Declares(cfg, f.1, body)
  {
    DigitsMean(Strip(f.1), |body|);
    var k: nat :| Strip(f.1) == Zeros(k) + Octets(Decimal(|body|));
    DigitsBehindZeros(k, |body|);
    BareIs(f.1, Zeros(k) + Octets(Decimal(|body|)));
  }

  // ---------------------------------------------------------------- the two grammars agree

  /** Both grammars say the same of one field. */
  ghost predicate SameVerdict(cfg: Config, f: Pair, body: bytes)
  {
    && (TokenText(f.0) <==> IsToken(f.0))
    && (ValueText(f.1) <==> IsValue(f.1))
    && (SameField(f.0, TRANSFER_ENCODING) <==> Lower(f.0) == TRANSFER_ENCODING)
    && (SameField(f.0, HOST) <==> Lower(f.0) == HOST)
    && (SameField(f.0, CONTENT_LENGTH) <==> Lower(f.0) == CONTENT_LENGTH)
    && (Blank(f.1) <==> Strip(f.1) == [])
    && (Declares(cfg, f.1, body) <==> Gives(cfg, f, body))
  }

  lemma FieldIs(cfg: Config, f: Pair, body: bytes)
    ensures SameVerdict(cfg, f, body)
  {
    TokenIs(f.0);
    LowerAlready();
    NameIs(f.0, TRANSFER_ENCODING);
    NameIs(f.0, HOST);
    NameIs(f.0, CONTENT_LENGTH);
    BlankIs(f.1);
    if Declares(cfg, f.1, body) {
      DeclaresGives(cfg, f, body);
    }
    if Gives(cfg, f, body) {
      GivesDeclares(cfg, f, body);
    }
  }

  /** Names are the same in one sense and the other. */
  lemma NamesAre(fields: seq<Pair>)
    ensures (forall i, j | 0 <= i < j < |fields| :: !SameField(fields[i].0, fields[j].0))
            <==> forall i, j | 0 <= i < j < |fields| :: Lower(fields[i].0) != Lower(fields[j].0)
  {
    forall i, j | 0 <= i < j < |fields| ensures SameField(fields[i].0, fields[j].0) <==> Lower(fields[i].0) == Lower(fields[j].0) {
      NameIs(fields[i].0, fields[j].0);
    }
  }

  lemma FieldsAre(cfg: Config, fields: seq<Pair>, body: bytes)
    ensures ProperFields(cfg, fields, body) <==> LegalFields(cfg, fields, body)
  {
    forall f: Pair ensures SameVerdict(cfg, f, body) {
      FieldIs(cfg, f, body);
    }
    NamesAre(fields);
    VerdictsAre(cfg, fields, body);
  }

  lemma VerdictsAre(cfg: Config, fields: seq<Pair>, body: bytes)
    requires forall f: Pair :: SameVerdict(cfg, f, body)
    requires (forall i, j | 0 <= i < j < |fields| :: !SameField(fields[i].0, fields[j].0))
             <==> forall i, j | 0 <= i < j < |fields| :: Lower(fields[i].0) != Lower(fields[j].0)
    ensures ProperFields(cfg, fields, body) <==> LegalFields(cfg, fields, body)
  {
    assert forall f | f in fields :: SameVerdict(cfg, f, body);
    if LegalFields(cfg, fields, body) {
      var f :| f in fields && Lower(f.0) == HOST && Strip(f.1) != [];
      assert SameVerdict(cfg, f, body);
    }
    if ProperFields(cfg, fields, body) {
      var f :| f in fields && SameField(f.0, HOST) && !Blank(f.1);
      assert SameVerdict(cfg, f, body);
    }
  }

  lemma TargetIs(target: bytes)
    ensures TargetText(target) <==> target != [] && target[0] == SLASH && OriginForm(target)
  {
  }

  lemma ProperIsLegal(cfg: Config, w: Written)
    ensures Proper(cfg, w) <==> Legal(cfg, w)
  {
    TokenIs(w.verb);
    TargetIs(w.target);
    FieldsAre(cfg, w.fields, w.body);
  }

  lemma ConveysIs(o: Outcome, w: Written)
    ensures Conveys(o, w) <==> Reads(o, w)
  {
    if o.Accepted? && |o.headers| == |w.fields| {
      forall i | 0 <= i < |w.fields| ensures Bare(w.fields[i].1, o.headers[i].1) <==> o.headers[i].1 == Strip(w.fields[i].1) {
        BareIs(w.fields[i].1, o.headers[i].1);
      }
    }
  }

  // ---------------------------------------------------------------- the theorems

  /** Every proper request is accepted and conveyed. */
  lemma ProperIsAccepted(cfg: Config, w: Written)
    requires Proper(cfg, w)
    ensures Conveys(Decide(cfg, Text(w)), w)
  {
    ProperIsLegal(cfg, w);
    LegalIsAccepted(cfg, w);
    ConveysIs(Decide(cfg, Text(w)), w);
  }

  /** Nothing else is accepted. */
  lemma AcceptedIsProper(cfg: Config, fed: bytes) returns (w: Written)
    requires Decide(cfg, fed).Accepted?
    ensures Proper(cfg, w) && Text(w) == fed && Conveys(Decide(cfg, fed), w)
  {
    w := AcceptedIsLegal(cfg, fed);
    ProperIsLegal(cfg, w);
    ConveysIs(Decide(cfg, fed), w);
  }

  /** Both directions. */
  lemma AcceptsExactlyProperRequests(cfg: Config, fed: bytes)
    ensures Decide(cfg, fed).Accepted? <==> exists w :: Proper(cfg, w) && Text(w) == fed
  {
    if Decide(cfg, fed).Accepted? {
      var w := AcceptedIsProper(cfg, fed);
      assert Proper(cfg, w);
    }
    forall w | Proper(cfg, w) && Text(w) == fed ensures Decide(cfg, fed).Accepted? {
      ProperIsAccepted(cfg, w);
    }
  }
}
