/** The canonical bytes determine every field, ignore key order, and are the same in both implementations. */
module CanonicalTheorems {
  import opened Wrappers
  import opened Unicode
  import opened Canonical

  // ---------- the two printers agree ----------

  lemma EscapeOneDecodes(c: int)
    requires 0 <= c && !Surrogate(c)
    ensures WellFormed(EscapeOne(c)) && Decode(EscapeOne(c)) == EscapeOne(c)
  {
    DecodePlain(EscapeOne(c));
  }

  lemma PairDecodes(high: int, low: int)
    requires High(high) && Low(low)
    ensures WellFormed([high, low]) && Decode([high, low]) == [Combine(high, low)]
  {
    assert [high, low][2..] == [];
  }

  /** Escaping units and then decoding is decoding and then escaping code points. */
  lemma {:induction false} EscapeCommutes(s: seq<int>)
    requires Units(s) && WellFormed(s)
    ensures WellFormed(EscapeUnits(s)) && Decode(EscapeUnits(s)) == EscapePoints(Decode(s))
    decreases |s|
  {
    hide EscapeOne;
    if s == [] {
    } else if PairAhead(s) {
      EscapeCommutes(s[2..]);
      PairDecodes(s[0], s[1]);
      DecodeConcat([s[0], s[1]], EscapeUnits(s[2..]));
      CopiedPoint(Combine(s[0], s[1]));
      assert Decode(s)[1..] == Decode(s[2..]);
    } else {
      EscapeCommutes(s[1..]);
      EscapeOneDecodes(s[0]);
      DecodeConcat(EscapeOne(s[0]), EscapeUnits(s[1..]));
      assert Decode(s)[1..] == Decode(s[1..]);
    }
  }

  lemma CopiedPoint(p: int)
    requires p >= 0x10000
    ensures EscapeOne(p) == [p]
  {
  }

  lemma QuotedDecodes(body: seq<int>)
    requires WellFormed(body)
    ensures WellFormed(Quoted(body)) && Decode(Quoted(body)) == Quoted(Decode(body))
  {
    DecodePlain([34]);
    DecodeConcat([34], body);
    DecodeConcat([34] + body, [34]);
  }

  lemma {:induction false} DigitsPlain(n: nat)
    ensures |Digits(n)| > 0 && forall i :: 0 <= i < |Digits(n)| ==> Digit(Digits(n)[i])
  {
    if n >= 10 { DigitsPlain(n / 10); }
  }

  /** Values the printers print: well-formed text and whole numbers that are not negative. */
  predicate Printable(v: Value) {
    match v
    case Str(text) => Units(text) && WellFormed(text)
    case Num(r) => WholeNumber(r) && r >= 0.0
    case Other => false
  }

  predicate AllPrintable(o: Object) { forall i :: 0 <= i < |o| ==> Printable(o[i].1) && AsciiName(o[i].0) }

  predicate AsciiName(s: string) { forall i :: 0 <= i < |s| ==> (s[i] as int) < 0x80 }

  lemma ValueCommutes(v: Value)
    requires Printable(v)
    ensures WellFormed(PrintValue(v)) && Decode(PrintValue(v)) == DumpValue(RereadValue(v))
  {
    match v
    case Str(text) =>
      EscapeCommutes(text);
      QuotedDecodes(EscapeUnits(text));
    case Num(r) =>
      DigitsPlain(r.Floor);
      DecodePlain(Digits(r.Floor));
  }

  lemma AsciiDecodes(s: string)
    requires AsciiName(s)
    ensures Units(Ascii(s)) && WellFormed(Ascii(s)) && Decode(Ascii(s)) == Ascii(s)
  {
    DecodePlain(Ascii(s));
  }

  lemma MemberCommutes(e: Entry)
    requires Printable(e.1) && AsciiName(e.0)
    ensures WellFormed(PrintMember(e)) && Decode(PrintMember(e)) == DumpMember((e.0, RereadValue(e.1)))
  {
    hide Printable, PrintValue, DumpValue, Quoted, AsciiName, EscapeUnits, EscapePoints;
    AsciiDecodes(e.0);
    EscapeCommutes(Ascii(e.0));
    QuotedDecodes(EscapeUnits(Ascii(e.0)));
    var name, colon := Quoted(EscapeUnits(Ascii(e.0))), [58];
    DecodePlain(colon);
    DecodeConcat(name, colon);
    ValueCommutes(e.1);
    DecodeConcat(name + colon, PrintValue(e.1));
  }

  lemma {:induction false} MembersCommute(o: Object)
    requires AllPrintable(o)
    ensures WellFormed(PrintMembers(o)) && Decode(PrintMembers(o)) == DumpMembers(Reread(o))
    decreases |o|
  {
    hide Printable, PrintMember, DumpMember, AsciiName;
    if o == [] {
    } else {
      MemberCommutes(o[0]);
      if |o| > 1 {
        MembersCommute(o[1..]);
        assert Reread(o)[1..] == Reread(o[1..]);
        DecodePlain([44]);
        DecodeConcat(PrintMember(o[0]), [44]);
        DecodeConcat(PrintMember(o[0]) + [44], PrintMembers(o[1..]));
      }
    }
  }

  lemma ObjectCommutes(o: Object)
    requires AllPrintable(o)
    ensures WellFormed(PrintObject(o)) && Decode(PrintObject(o)) == DumpObject(Reread(o))
  {
    hide AllPrintable, PrintMembers, DumpMembers;
    MembersCommute(o);
    DecodePlain([123]);
    DecodePlain([125]);
    DecodeConcat([123], PrintMembers(o));
    DecodeConcat([123] + PrintMembers(o), [125]);
  }

  // ---------- looking fields up ----------

  lemma {:induction false} RereadLookup(o: Object, key: string)
    ensures Lookup(Reread(o), key)
         == if Lookup(o, key).Some? then Some(RereadValue(Lookup(o, key).value)) else None
    decreases |o|
  {
    if o != [] {
      assert Reread(o)[..|o| - 1] == Reread(o[..|o| - 1]);
      RereadLookup(o[..|o| - 1], key);
    }
  }

  lemma {:induction false} RereadOrdered(o: Object, keys: seq<string>)
    ensures Ordered(Reread(o), keys) == Reread(Ordered(o, keys))
    decreases |keys|
  {
    if keys != [] {
      RereadOrdered(o, keys[..|keys| - 1]);
      RereadLookup(o, keys[|keys| - 1]);
    }
  }

  /** Every value of the ordered record is the value of its field. */
  lemma {:induction false} OrderedEntries(o: Object, keys: seq<string>)
    ensures forall e <- Ordered(o, keys) :: e.0 in keys && Lookup(o, e.0) == Some(e.1)
    decreases |keys|
  {
    if keys != [] {
      OrderedEntries(o, keys[..|keys| - 1]);
    }
  }

  ghost predicate UnitsIn(o: Object) { forall key :: Lookup(o, key).Some? && Lookup(o, key).value.Str? ==> Units(Lookup(o, key).value.text) }

  lemma OrderIsAscii()
    ensures forall key <- ORDER :: AsciiName(key)
  {
    hide AsciiName;
    FirstNamesAscii();
    LastNamesAscii();
  }

  lemma FirstNamesAscii()
    ensures AsciiName("protocolVersion") && AsciiName("purpose") && AsciiName("challengeId") && AsciiName("subjectId")
    ensures AsciiName("accountId") && AsciiName("paymentTokenId") && AsciiName("trustedDeviceId")
  {
  }

  lemma LastNamesAscii()
    ensures AsciiName("transactionId") && AsciiName("merchantId") && AsciiName("amountMinor") && AsciiName("currency")
    ensures AsciiName("issuedAt") && AsciiName("expiresAt") && AsciiName("audience")
  {
  }

  lemma OrderSplits()
    ensures forall key <- ORDER :: key in COMMON_REQUIRED || key in TRANSACTION_ONLY
  {
  }

  lemma InSeq(keys: seq<string>, key: string)
    requires key in keys
    ensures exists i :: 0 <= i < |keys| && keys[i] == key
  {
  }

  /** The fields of a valid binding are printable. */
  lemma ValidFieldPrintable(o: Object, instant: TimeReader, key: string)
    requires Valid(o, instant) && UnitsIn(o) && key in ORDER && Lookup(o, key).Some?
    ensures Printable(Lookup(o, key).value)
  {
    hide WellFormed, Units, Ascii, ValidWindow;
    OrderSplits();
    if key in COMMON_REQUIRED {
      InSeq(COMMON_REQUIRED, key);
      assert ValidText(o, key);
    } else {
      InSeq(TRANSACTION_ONLY, key);
    }
  }

  lemma ValidPrintable(o: Object, instant: TimeReader)
    requires Valid(o, instant) && UnitsIn(o)
    ensures AllPrintable(Ordered(o, ORDER))
  {
    hide Valid, UnitsIn, Printable, AsciiName;
    OrderedEntries(o, ORDER);
    OrderIsAscii();
    var p := Ordered(o, ORDER);
    forall i | 0 <= i < |p| ensures Printable(p[i].1) && AsciiName(p[i].0) {
      assert p[i] in p;
      ValidFieldPrintable(o, instant, p[i].0);
    }
  }

  lemma ReplacedScalars(points: seq<int>)
    requires Scalars(points)
    ensures Replaced(points) == points
  {
  }

  lemma PrintedUnits(o: Object)
    requires AllPrintable(o)
    ensures Points(DumpObject(Reread(o)))
  {
    hide Printable, AsciiName;
    DumpMembersPoints(Reread(o), o);
  }

  lemma EscapeOnePoints(p: int)
    requires 0 <= p <= 0x10FFFF
    ensures Points(EscapeOne(p))
  {
  }

  lemma {:induction false} EscapePointsPoints(s: seq<int>)
    requires Points(s)
    ensures Points(EscapePoints(s))
  {
    hide EscapeOne;
    if s != [] { EscapeOnePoints(s[0]); }
    if s != [] { EscapePointsPoints(s[1..]); }
  }

  lemma {:induction false} DigitsPoints(n: nat)
    ensures Points(Digits(n))
  {
    DigitsPlain(n);
  }

  lemma DumpMemberPoints(e: Entry)
    requires Printable(e.1) && AsciiName(e.0)
    ensures Points(DumpMember((e.0, RereadValue(e.1))))
  {
    hide EscapePoints;
    EscapePointsPoints(Ascii(e.0));
    match e.1 {
      case Str(text) =>
        ScanIsTotality(text);
        EscapePointsPoints(Decode(text));
      case Num(r) => DigitsPoints(r.Floor);
    }
  }

  lemma {:induction false} DumpMembersPoints(q: Object, o: Object)
    requires AllPrintable(o) && q == Reread(o)
    ensures Points(DumpMembers(q))
    decreases |o|
  {
    hide Printable, AsciiName, DumpMember, RereadValue;
    if o != [] {
      DumpMemberPoints(o[0]);
      if |o| > 1 { DumpMembersPoints(q[1..], o[1..]); }
    }
  }

  /** What a valid binding's bytes are, seen from the second implementation. */
  lemma CanonicalIsDump(o: Object, instant: TimeReader)
    requires Valid(o, instant) && UnitsIn(o)
    ensures var points := DumpObject(Ordered(Reread(o), ORDER));
            Scalars(points) && Canonicalize(o, instant) == Some(Utf8(points))
  {
    hide Valid, UnitsIn, AllPrintable, PrintObject, DumpObject;
    ValidPrintable(o, instant);
    RereadOrdered(o, ORDER);
    var p := Ordered(o, ORDER);
    ObjectCommutes(p);
    PrintedUnits(p);
    DecodedIsScalar(PrintObject(p));
    ReplacedScalars(Decode(PrintObject(p)));
  }

  /** What a well-formed string decodes to has no surrogates, whatever its units. */
  lemma {:induction false} DecodedIsScalar(s: seq<int>)
    requires WellFormed(s)
    ensures forall i :: 0 <= i < |Decode(s)| ==> !Surrogate(Decode(s)[i])
    decreases |s|
  {
    if s == [] {
    } else if PairAhead(s) {
      DecodedIsScalar(s[2..]);
    } else {
      DecodedIsScalar(s[1..]);
    }
  }

  /** On every binding both implementations accept, they give the same bytes, whatever instants their
      readers see. */
  lemma SameBytes(o: Object, instant: TimeReader, pointInstant: TimeReader)
    requires UnitsIn(o) && Valid(o, instant) && PointValid(Reread(o), pointInstant)
    ensures Canonicalize(o, instant).Some? && PointCanonicalize(Reread(o), pointInstant) == Canonicalize(o, instant)
  {
    hide Valid, PointValid, UnitsIn, DumpObject;
    CanonicalIsDump(o, instant);
  }

  // ---------- both accept the same bindings ----------

  lemma TextAgrees(o: Object, key: string)
    requires UnitsIn(o)
    ensures ValidText(o, key) <==> PointText(Reread(o), key)
  {
    RereadLookup(o, key);
    hide Reread, Lookup;
    var v := Lookup(o, key);
    if v.Some? && v.value.Str? {
      ScanIsTotality(v.value.text);
    }
    hide WellFormed, Decode;
    if v.Some? && v.value.Str? && v.value.text != [] { DecodeNonEmpty(v.value.text); }
  }

  lemma DecodeNonEmpty(s: seq<int>)
    requires s != []
    ensures Decode(s) != []
  {
  }

  /** A field is a given ASCII text for one reader exactly when it is for the other. */
  lemma IsTextAgrees(o: Object, key: string, s: string)
    requires UnitsIn(o) && AsciiName(s)
    ensures IsText(o, key, s) <==> IsText(Reread(o), key, s)
  {
    RereadLookup(o, key);
    AsciiDecodes(s);
    hide Reread, Lookup, Decode, Ascii, WellFormed;
    var v := Lookup(o, key);
    if v.Some? && v.value.Str? && Decode(v.value.text) == Ascii(s) {
      EncodeDecode(v.value.text);
      EncodeDecode(Ascii(s));
    }
  }

  lemma ConstantsAreAscii()
    ensures AsciiName("airlock.v1") && AsciiName("airlock-issuer") && AsciiName("confirm-transaction")
    ensures AsciiName("provision-payment-token") && forall i :: 0 <= i < |CURRENCIES| ==> AsciiName(CURRENCIES[i])
  {
  }

  lemma PurposeAgrees(o: Object)
    requires UnitsIn(o)
    ensures ValidPurpose(o) <==> PointPurpose(Reread(o))
  {
    hide UnitsIn, IsText, Lookup, Reread, ValidText, PointText, AsciiName;
    ConstantsAreAscii();
    IsTextAgrees(o, "purpose", "confirm-transaction");
    IsTextAgrees(o, "purpose", "provision-payment-token");
    TextAgrees(o, "transactionId");
    TextAgrees(o, "merchantId");
    TextAgrees(o, "currency");
    RereadLookup(o, "amountMinor");
    forall i | 0 <= i < |CURRENCIES| ensures IsText(o, "currency", CURRENCIES[i]) <==> IsText(Reread(o), "currency", CURRENCIES[i]) {
      IsTextAgrees(o, "currency", CURRENCIES[i]);
    }
    forall i | 0 <= i < |TRANSACTION_ONLY| ensures Lookup(o, TRANSACTION_ONLY[i]).None? <==> Lookup(Reread(o), TRANSACTION_ONLY[i]).None? {
      RereadLookup(o, TRANSACTION_ONLY[i]);
    }
  }

  ghost predicate ReadersAgree(instant: TimeReader, pointInstant: TimeReader) {
    forall s :: instant(s) == pointInstant(Decode(s))
  }

  /** With readers that agree on timestamps, the two implementations accept the same bindings. */
  lemma SameAcceptance(o: Object, instant: TimeReader, pointInstant: TimeReader)
    requires UnitsIn(o) && ReadersAgree(instant, pointInstant)
    ensures Valid(o, instant) <==> PointValid(Reread(o), pointInstant)
  {
    hide UnitsIn, IsText, Lookup, ValidText, PointText, AsciiName, ValidPurpose, PointPurpose, Decode;
    ConstantsAreAscii();
    IsTextAgrees(o, "protocolVersion", "airlock.v1");
    IsTextAgrees(o, "audience", "airlock-issuer");
    PurposeAgrees(o);
    RereadLookup(o, "issuedAt");
    RereadLookup(o, "expiresAt");
    forall i | 0 <= i < |COMMON_REQUIRED| ensures ValidText(o, COMMON_REQUIRED[i]) <==> PointText(Reread(o), COMMON_REQUIRED[i]) {
      TextAgrees(o, COMMON_REQUIRED[i]);
    }
    NamesAgree(o);
  }

  /** And so they give one answer to every binding, the same bytes or a refusal by both. */
  lemma SameAnswer(o: Object, instant: TimeReader, pointInstant: TimeReader)
    requires UnitsIn(o) && ReadersAgree(instant, pointInstant)
    ensures PointCanonicalize(Reread(o), pointInstant) == Canonicalize(o, instant)
  {
    hide UnitsIn, ReadersAgree, Valid, PointValid, DumpObject, PrintObject, EncodeText, StrictUtf8;
    SameAcceptance(o, instant, pointInstant);
    if Valid(o, instant) { SameBytes(o, instant, pointInstant); }
  }

  lemma NamesAgree(o: Object)
    ensures (forall e <- o :: e.0 in ORDER) <==> (forall e <- Reread(o) :: e.0 in ORDER)
  {
    var r := Reread(o);
    if forall e <- r :: e.0 in ORDER {
      forall e | e in o ensures e.0 in ORDER {
        var i :| 0 <= i < |o| && o[i] == e;
        assert r[i] in r;
      }
    }
  }

  // ---------- the parser recovers every field ----------

  lemma HexInverse(n: int)
    requires 0 <= n < 16
    ensures UnHex(HexDigit(n)) == n
  {
  }

  ghost predicate ReadsBack(t: seq<int>, c: int, more: seq<int>) {
    ParseString(t) == var rest := ParseString(more); if rest.None? then None else Some(([c] + rest.value.0, rest.value.1))
  }

  lemma ParseHex(c: int, more: seq<int>)
    requires 0 <= c < 32
    ensures ReadsBack([92, 117, 48, 48, HexDigit(c / 16), HexDigit(c % 16)] + more, c, more)
  {
    var t := [92, 117, 48, 48, HexDigit(c / 16), HexDigit(c % 16)] + more;
    HexInverse(c / 16);
    HexInverse(c % 16);
    assert t[6..] == more && t[4] == HexDigit(c / 16) && t[5] == HexDigit(c % 16);
    hide HexDigit, UnHex;
    assert UnHex(48) == 0 by { HexInverse(0); assert HexDigit(0) == 48; }
  }

  lemma ParseShort(x: int, c: int, more: seq<int>)
    requires x != 117 && Unescape(x) == c
    ensures ReadsBack([92, x] + more, c, more)
  {
    var t := [92, x] + more;
    assert t[2..] == more;
    hide Unescape, UnHex;
  }

  lemma ParsePlain(c: int, more: seq<int>)
    requires c != 34 && c != 92
    ensures ReadsBack([c] + more, c, more)
  {
    assert ([c] + more)[1..] == more;
  }

  /** Reading one escaped code point back. */
  lemma ParseEscaped(c: int, more: seq<int>)
    requires c >= 0
    ensures ReadsBack(EscapeOne(c) + more, c, more)
  {
    hide ReadsBack, HexDigit;
    if c in {34, 92, 8, 12, 10, 13, 9} {
      ParseShort(EscapeOne(c)[1], c, more);
      assert EscapeOne(c) == [92, EscapeOne(c)[1]];
    } else if c < 32 {
      ParseHex(c, more);
    } else {
      ParsePlain(c, more);
    }
  }

  lemma {:induction false} ParseStringInverse(s: seq<int>, rest: seq<int>)
    requires Points(s)
    ensures ParseString(EscapePoints(s) + [34] + rest) == Some((s, rest))
  {
    hide EscapeOne;
    if s == [] {
      assert [] + [34] + rest == [34] + rest;
      assert ([34] + rest)[1..] == rest;
    } else {
      var more := EscapePoints(s[1..]) + [34] + rest;
      ParseStringInverse(s[1..], rest);
      ParseEscaped(s[0], more);
      assert EscapePoints(s) + [34] + rest == EscapeOne(s[0]) + more;
      assert s == [s[0]] + s[1..];
    }
  }

  lemma {:induction false} ParseDigits(n: nat, rest: seq<int>)
    ensures ParseNumber(Digits(n) + rest, 0) == ParseNumber(rest, n)
    decreases n
  {
    if n < 10 {
      assert (Digits(n) + rest)[1..] == rest;
    } else {
      var d := [48 + n % 10];
      ParseDigits(n / 10, d + rest);
      assert Digits(n) + rest == Digits(n / 10) + (d + rest);
      assert (d + rest)[1..] == rest;
    }
  }

  function ParsedOf(e: Entry): Parsed { (Ascii(e.0), e.1) }

  /** A value as the second implementation holds it. */
  predicate Dumpable(v: Value) {
    match v
    case Str(text) => Points(text)
    case Num(r) => WholeNumber(r) && r >= 0.0
    case Other => false
  }

  lemma ParseValueInverse(v: Value, rest: seq<int>)
    requires Dumpable(v) && rest != [] && !Digit(rest[0])
    ensures ParseValue(DumpValue(v) + rest) == Some((v, rest))
  {
    match v
    case Str(text) =>
      ParseStringInverse(text, rest);
      assert (Quoted(EscapePoints(text)) + rest)[1..] == EscapePoints(text) + [34] + rest;
    case Num(r) =>
      DigitsPlain(r.Floor);
      ParseDigits(r.Floor, rest);
  }

  lemma ParseMemberInverse(e: Entry, rest: seq<int>)
    requires Dumpable(e.1) && rest != [] && !Digit(rest[0]) && AsciiName(e.0)
    ensures ParseMember(DumpMember(e) + rest) == Some((ParsedOf(e), rest))
  {
    hide ParseString, ParseValue, EscapePoints, DumpValue, Dumpable;
    var name := EscapePoints(Ascii(e.0));
    var tail := [58] + DumpValue(e.1) + rest;
    ParseStringInverse(Ascii(e.0), tail);
    ParseValueInverse(e.1, rest);
    var t := DumpMember(e) + rest;
    assert t[1..] == name + [34] + tail;
    assert tail[1..] == DumpValue(e.1) + rest;
  }

  predicate AllDumpable(q: Object) { forall i :: 0 <= i < |q| ==> Dumpable(q[i].1) && AsciiName(q[i].0) }

  function AllParsed(q: Object): seq<Parsed> { seq(|q|, i requires 0 <= i < |q| => ParsedOf(q[i])) }

  lemma {:induction false} ParseMembersInverse(q: Object, fuel: nat)
    requires AllDumpable(q) && q != [] && fuel >= |q|
    ensures ParseMembers(DumpMembers(q) + [125], fuel) == Some(AllParsed(q))
    decreases |q|
  {
    hide Dumpable, AsciiName, ParseMember, DumpMember, ParsedOf;
    if |q| == 1 {
      ParseMemberInverse(q[0], [125]);
      assert AllParsed(q) == [ParsedOf(q[0])];
    } else {
      var more := DumpMembers(q[1..]) + [125];
      ParseMembersInverse(q[1..], fuel - 1);
      ParseMemberInverse(q[0], [44] + more);
      assert DumpMembers(q) + [125] == DumpMember(q[0]) + ([44] + more);
      assert ([44] + more)[1..] == more;
      assert AllParsed(q) == [ParsedOf(q[0])] + AllParsed(q[1..]);
    }
  }

  lemma {:induction false} DumpLongEnough(q: Object)
    ensures |DumpMembers(q)| >= |q|
    decreases |q|
  {
    hide EscapePoints, DumpValue;
    if |q| > 1 { DumpLongEnough(q[1..]); }
  }

  lemma ParseObjectInverse(q: Object)
    requires AllDumpable(q) && q != []
    ensures ParseObject(DumpObject(q)) == Some(AllParsed(q))
  {
    hide AllDumpable, DumpMembers, ParseMembers, AllParsed;
    DumpLongEnough(q);
    ParseMembersInverse(q, |DumpObject(q)|);
    assert DumpObject(q)[1..] == DumpMembers(q) + [125];
  }

  lemma RereadDumpable(o: Object)
    requires AllPrintable(o)
    ensures AllDumpable(Reread(o))
  {
    hide AsciiName, WellFormed, Decode;
    forall i | 0 <= i < |o| ensures Dumpable(Reread(o)[i].1) && AsciiName(Reread(o)[i].0) {
      if o[i].1.Str? { ScanIsTotality(o[i].1.text); }
    }
  }

  lemma OrderedNonEmpty(o: Object, instant: TimeReader)
    requires Valid(o, instant)
    ensures Ordered(o, ORDER) != []
  {
    hide WellFormed, ValidWindow, ValidPurpose, IsText;
    assert ValidText(o, COMMON_REQUIRED[9]);
    LastOrdered(o, ORDER);
  }

  lemma LastOrdered(o: Object, keys: seq<string>)
    requires keys != [] && Lookup(o, keys[|keys| - 1]).Some?
    ensures Ordered(o, keys) != []
  {
  }

  /** Parsing the canonical bytes of a valid binding gives exactly its fields, in the fixed order. */
  lemma ParserRecovers(o: Object, instant: TimeReader)
    requires Valid(o, instant) && UnitsIn(o)
    ensures Canonicalize(o, instant).Some?
    ensures ParseBinding(Canonicalize(o, instant).value) == Some(AllParsed(Reread(Ordered(o, ORDER))))
  {
    hide Valid, UnitsIn, AllPrintable, DumpObject, ParseObject, AllDumpable;
    CanonicalIsDump(o, instant);
    ValidPrintable(o, instant);
    RereadOrdered(o, ORDER);
    RereadDumpable(Ordered(o, ORDER));
    OrderedNonEmpty(o, instant);
    var q := Reread(Ordered(o, ORDER));
    ParseObjectInverse(q);
    Utf8Inverse(DumpObject(q));
  }

  lemma ParsedValues(a: Object, b: Object)
    requires AllParsed(Reread(a)) == AllParsed(Reread(b)) && AllPrintable(a) && AllPrintable(b)
    ensures a == b
  {
    hide WellFormed, Decode, AsciiName;
    var p, q := AllParsed(Reread(a)), AllParsed(Reread(b));
    assert |p| == |a| && |q| == |b|;
    forall i | 0 <= i < |a| ensures a[i] == b[i] {
      assert p[i] == q[i];
      AsciiInjective(a[i].0, b[i].0);
      if a[i].1.Str? {
        EncodeDecode(a[i].1.text);
        EncodeDecode(b[i].1.text);
      }
    }
  }

  lemma AsciiInjective(s: string, t: string)
    requires Ascii(s) == Ascii(t)
    ensures s == t
  {
    assert |Ascii(s)| == |s| && |Ascii(t)| == |t|;
    forall i | 0 <= i < |s| ensures s[i] == t[i] {
      assert Ascii(s)[i] == Ascii(t)[i];
    }
  }

  lemma {:induction false} OrderedLookup(o: Object, keys: seq<string>, key: string)
    requires key in keys
    ensures Lookup(o, key).Some? <==> exists e :: e in Ordered(o, keys) && e.0 == key
    decreases |keys|
  {
    var last := keys[|keys| - 1];
    OrderedEntries(o, keys);
    if key in keys[..|keys| - 1] {
      OrderedLookup(o, keys[..|keys| - 1], key);
      if Lookup(o, key).Some? {
        var e :| e in Ordered(o, keys[..|keys| - 1]) && e.0 == key;
        assert e in Ordered(o, keys);
      }
    } else {
      assert key == last;
      if Lookup(o, key).Some? { assert (key, Lookup(o, key).value) in Ordered(o, keys); }
    }
  }

  lemma SameOrderedSameFields(a: Object, b: Object, key: string)
    requires Ordered(a, ORDER) == Ordered(b, ORDER) && key in ORDER
    ensures Lookup(a, key) == Lookup(b, key)
  {
    OrderedLookup(a, ORDER, key);
    OrderedLookup(b, ORDER, key);
    OrderedEntries(a, ORDER);
    OrderedEntries(b, ORDER);
  }

  /** No field outside the fixed list is present in a valid binding. */
  lemma {:induction false} UnknownAbsent(o: Object, key: string)
    requires forall e <- o :: e.0 in ORDER
    requires key !in ORDER
    ensures Lookup(o, key).None?
    decreases |o|
  {
    if o != [] { UnknownAbsent(o[..|o| - 1], key); }
  }

  /** The canonical bytes are injective: two valid bindings with the same bytes have the same fields. */
  lemma BytesDetermineBinding(a: Object, b: Object, instant: TimeReader)
    requires Valid(a, instant) && Valid(b, instant) && UnitsIn(a) && UnitsIn(b)
    requires Canonicalize(a, instant) == Canonicalize(b, instant)
    ensures forall key :: Lookup(a, key) == Lookup(b, key)
  {
    hide UnitsIn, AllPrintable, ParseBinding, AllParsed, ValidText, ValidWindow, ValidPurpose, IsText, Canonicalize;
    ParserRecovers(a, instant);
    ParserRecovers(b, instant);
    ValidPrintable(a, instant);
    ValidPrintable(b, instant);
    ParsedValues(Ordered(a, ORDER), Ordered(b, ORDER));
    forall key ensures Lookup(a, key) == Lookup(b, key) {
      if key in ORDER {
        SameOrderedSameFields(a, b, key);
      } else {
        UnknownAbsent(a, key);
        UnknownAbsent(b, key);
      }
    }
  }

  // ---------- key order ----------

  lemma {:induction false} LookupMember(o: Object, e: Entry)
    requires Distinct(o) && e in o
    ensures Lookup(o, e.0) == Some(e.1)
    decreases |o|
  {
    var n := |o| - 1;
    if o[n] != e {
      var i :| 0 <= i < n && o[i] == e;
      assert o[..n][i] == e;
      LookupMember(o[..n], e);
    }
  }

  lemma {:induction false} LookupFound(o: Object, key: string)
    ensures Lookup(o, key).Some? ==> (key, Lookup(o, key).value) in o
    decreases |o|
  {
    if o != [] { LookupFound(o[..|o| - 1], key); }
  }

  lemma SameEntriesSameLookup(a: Object, b: Object, key: string)
    requires Distinct(a) && Distinct(b) && forall e :: e in a <==> e in b
    ensures Lookup(a, key) == Lookup(b, key)
  {
    LookupFound(a, key);
    LookupFound(b, key);
    if Lookup(a, key).Some? { LookupMember(b, (key, Lookup(a, key).value)); }
    if Lookup(b, key).Some? { LookupMember(a, (key, Lookup(b, key).value)); }
  }

  lemma {:induction false} SameLookupSameOrdered(a: Object, b: Object, keys: seq<string>)
    requires forall key :: Lookup(a, key) == Lookup(b, key)
    ensures Ordered(a, keys) == Ordered(b, keys)
    decreases |keys|
  {
    if keys != [] { SameLookupSameOrdered(a, b, keys[..|keys| - 1]); }
  }

  /** Key order does not matter, for acceptance or for the bytes. */
  lemma KeyOrderIgnored(a: Object, b: Object, instant: TimeReader)
    requires Distinct(a) && Distinct(b) && forall e :: e in a <==> e in b
    ensures Canonicalize(a, instant) == Canonicalize(b, instant)
  {
    hide Lookup, Ordered, PrintObject, EncodeText, WellFormed, Ascii;
    forall key ensures Lookup(a, key) == Lookup(b, key) { SameEntriesSameLookup(a, b, key); }
    SameLookupSameOrdered(a, b, ORDER);
    assert Valid(a, instant) <==> Valid(b, instant) by { SameLookupSameValid(a, b, instant); }
    hide Valid;
  }

  lemma SameLookupSamePurpose(a: Object, b: Object)
    requires forall key :: Lookup(a, key) == Lookup(b, key)
    ensures ValidPurpose(a) <==> ValidPurpose(b)
  {
    hide Lookup, WellFormed, Ascii, ValidAmount;
    assert KnownCurrency(a) <==> KnownCurrency(b) by {
      forall s ensures IsText(a, "currency", s) <==> IsText(b, "currency", s) {}
      hide IsText;
    }
    hide KnownCurrency;
  }

  lemma SameLookupSameValid(a: Object, b: Object, instant: TimeReader)
    requires forall key :: Lookup(a, key) == Lookup(b, key)
    requires forall e :: e in a <==> e in b
    ensures Valid(a, instant) <==> Valid(b, instant)
  {
    hide Lookup, WellFormed, Ascii, ValidPurpose;
    SameLookupSamePurpose(a, b);
    assert ValidWindow(a, instant) <==> ValidWindow(b, instant);
    hide ValidWindow;
    forall key ensures ValidText(a, key) <==> ValidText(b, key) {}
    hide ValidText;
    assert IsText(a, "protocolVersion", "airlock.v1") <==> IsText(b, "protocolVersion", "airlock.v1");
    assert IsText(a, "audience", "airlock-issuer") <==> IsText(b, "audience", "airlock-issuer");
    hide IsText;
    assert (forall e <- a :: e.0 in ORDER) <==> (forall e <- b :: e.0 in ORDER);
  }

  // ---------- the loops ----------

  /** The index loop over code units. */
  method ContainsUnpairedSurrogate(value: seq<int>) returns (found: bool)
    ensures found <==> !WellFormed(value)
  {
    var index := 0;
    while index < |value|
      invariant 0 <= index <= |value|
      invariant WellFormed(value) <==> WellFormed(value[index..])
    {
      var rest := value[index..];
      var code := value[index];
      if High(code) {
        if index + 1 >= |value| { return true; }
        var next := value[index + 1];
        if !Low(next) { return true; }
        assert rest[2..] == value[index + 2..];
        index := index + 1;
      } else if Low(code) {
        return true;
      }
      assert !PairAhead(rest) ==> rest[1..] == value[index + 1..];
      index := index + 1;
    }
    return false;
  }

  /** The loop that fills the record in the fixed order. */
  method CanonicalizeBinding(binding: Object, instant: TimeReader) returns (bytes: Option<seq<int>>)
    ensures bytes == Canonicalize(binding, instant)
  {
    hide Valid, PrintObject, EncodeText;
    if !Valid(binding, instant) { return None; }
    var ordered: Object := [];
    for i := 0 to |ORDER|
      invariant ordered == Ordered(binding, ORDER[..i])
    {
      assert ORDER[..i + 1][..i] == ORDER[..i];
      var value := Lookup(binding, ORDER[i]);
      if value.Some? { ordered := ordered + [(ORDER[i], value.value)]; }
    }
    assert ORDER[..|ORDER|] == ORDER;
    return Some(EncodeText(PrintObject(ordered)));
  }
}
