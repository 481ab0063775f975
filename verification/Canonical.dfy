/** Canonical binding bytes: the printer over UTF-16 strings, its second implementation over code
    points, and the parser that recovers every field. */
module Canonical {
  import opened Common
  import opened Wrappers
  import opened Unicode

  const ORDER: seq<string> := [
    "protocolVersion", "purpose", "challengeId", "subjectId", "accountId", "paymentTokenId", "trustedDeviceId",
    "transactionId", "merchantId", "amountMinor", "currency", "issuedAt", "expiresAt", "audience"]

  const COMMON_REQUIRED: seq<string> := [
    "protocolVersion", "purpose", "challengeId", "subjectId", "accountId", "paymentTokenId", "trustedDeviceId",
    "issuedAt", "expiresAt", "audience"]

  const TRANSACTION_ONLY: seq<string> := ["transactionId", "merchantId", "amountMinor", "currency"]

  const CURRENCIES: seq<string> := ["USD", "EUR", "GBP", "CAD", "AUD"]

  /** A JSON value: its string as code units or code points, a finite number, or anything else. */
  datatype Value = Str(text: seq<int>) | Num(number: real) | Other

  type Entry = (string, Value)
  /** The own properties of a parsed object, in any order. */
  type Object = seq<Entry>

  predicate Distinct(o: Object) { forall i, j :: 0 <= i < j < |o| ==> o[i].0 != o[j].0 }

  function Lookup(o: Object, key: string): Option<Value> {
    if o == [] then None
    else if o[|o| - 1].0 == key then Some(o[|o| - 1].1)
    else Lookup(o[..|o| - 1], key)
  }

  function Ascii(s: string): seq<int> { seq(|s|, i requires 0 <= i < |s| => s[i] as int) }

  // ---------- validation over UTF-16 ----------

  predicate ValidText(o: Object, key: string) {
    var v := Lookup(o, key);
    v.Some? && v.value.Str? && v.value.text != [] && WellFormed(v.value.text)
  }

  predicate IsText(o: Object, key: string, s: string) { Lookup(o, key) == Some(Str(Ascii(s))) }

  predicate WholeNumber(r: real) { r == r.Floor as real }

  predicate ValidAmount(v: Option<Value>) {
    v.Some? && v.value.Num? && WholeNumber(v.value.number) && 0.0 < v.value.number <= MAX_SAFE_INTEGER as real
  }

  /** The instant a canonical timestamp denotes, if it is one: each implementation brings its own reader. */
  type TimeReader = seq<int> -> Option<int>

  predicate ValidWindow(o: Object, instant: TimeReader) {
    var issued, expires := Lookup(o, "issuedAt"), Lookup(o, "expiresAt");
    && issued.Some? && issued.value.Str? && expires.Some? && expires.value.Str?
    && instant(issued.value.text).Some? && instant(expires.value.text).Some?
    && instant(expires.value.text).value > instant(issued.value.text).value
  }

  predicate KnownCurrency(o: Object) { exists i :: 0 <= i < |CURRENCIES| && IsText(o, "currency", CURRENCIES[i]) }

  predicate ValidPurpose(o: Object) {
    if IsText(o, "purpose", "confirm-transaction") then
      ValidText(o, "transactionId") && ValidText(o, "merchantId") && ValidText(o, "currency")
      && ValidAmount(Lookup(o, "amountMinor")) && KnownCurrency(o)
    else if IsText(o, "purpose", "provision-payment-token") then
      forall i :: 0 <= i < |TRANSACTION_ONLY| ==> Lookup(o, TRANSACTION_ONLY[i]).None?
    else false
  }

  predicate Valid(o: Object, instant: TimeReader) {
    && (forall e <- o :: e.0 in ORDER)
    && (forall i :: 0 <= i < |COMMON_REQUIRED| ==> ValidText(o, COMMON_REQUIRED[i]))
    && IsText(o, "protocolVersion", "airlock.v1") && IsText(o, "audience", "airlock-issuer")
    && ValidWindow(o, instant)
    && ValidPurpose(o)
  }

  // ---------- printing over UTF-16 ----------

  function HexDigit(n: int): int { if n < 10 then 48 + n else 87 + n }

  /** The escapes of section 7 of RFC 8259 that both implementations use. */
  function EscapeOne(c: int): seq<int> {
    if c == 34 || c == 92 then [92, c]
    else if c == 8 then [92, 98]
    else if c == 12 then [92, 102]
    else if c == 10 then [92, 110]
    else if c == 13 then [92, 114]
    else if c == 9 then [92, 116]
    else if 0 <= c < 32 then [92, 117, 48, 48, HexDigit(c / 16), HexDigit(c % 16)]
    else [c]
  }

  function EscapeSurrogate(u: int): seq<int> {
    [92, 117, HexDigit(u / 4096 % 16), HexDigit(u / 256 % 16), HexDigit(u / 16 % 16), HexDigit(u % 16)]
  }

  /** JSON.stringify of a string, unit by unit: pairs are copied, unpaired surrogates escaped. */
  function EscapeUnits(s: seq<int>): seq<int> {
    if s == [] then []
    else if PairAhead(s) then [s[0], s[1]] + EscapeUnits(s[2..])
    else if Surrogate(s[0]) then EscapeSurrogate(s[0]) + EscapeUnits(s[1..])
    else EscapeOne(s[0]) + EscapeUnits(s[1..])
  }

  function Digits(n: nat): seq<int> { if n < 10 then [48 + n] else Digits(n / 10) + [48 + n % 10] }

  function Quoted(body: seq<int>): seq<int> { [34] + body + [34] }

  function PrintValue(v: Value): seq<int> {
    match v
    case Str(text) => Quoted(EscapeUnits(text))
    case Num(r) => if r.Floor >= 0 then Digits(r.Floor) else []
    case Other => []
  }

  function PrintMember(e: Entry): seq<int> { Quoted(EscapeUnits(Ascii(e.0))) + [58] + PrintValue(e.1) }

  function PrintMembers(o: Object): seq<int> {
    if o == [] then []
    else if |o| == 1 then PrintMember(o[0])
    else PrintMember(o[0]) + [44] + PrintMembers(o[1..])
  }

  /** The fields present, in the fixed order. */
  function Ordered(o: Object, keys: seq<string>): Object {
    if keys == [] then []
    else
      var front := Ordered(o, keys[..|keys| - 1]);
      var v := Lookup(o, keys[|keys| - 1]);
      if v.Some? then front + [(keys[|keys| - 1], v.value)] else front
  }

  function PrintObject(o: Object): seq<int> { [123] + PrintMembers(o) + [125] }

  /** TextEncoder: unpaired surrogates become U+FFFD. */
  function Replaced(points: seq<int>): seq<int> {
    seq(|points|, i requires 0 <= i < |points| => if Surrogate(points[i]) then 0xFFFD else points[i])
  }

  function EncodeText(units: seq<int>): seq<int> { Utf8(Replaced(Decode(units))) }

  function Canonicalize(o: Object, instant: TimeReader): Option<seq<int>> {
    if Valid(o, instant) then Some(EncodeText(PrintObject(Ordered(o, ORDER)))) else None
  }

  // ---------- the second implementation, over code points ----------

  predicate PointText(o: Object, key: string) {
    var v := Lookup(o, key);
    v.Some? && v.value.Str? && v.value.text != [] && forall i :: 0 <= i < |v.value.text| ==> !Surrogate(v.value.text[i])
  }

  predicate PointPurpose(o: Object) {
    if IsText(o, "purpose", "confirm-transaction") then
      PointText(o, "transactionId") && PointText(o, "merchantId") && PointText(o, "currency")
      && ValidAmount(Lookup(o, "amountMinor")) && KnownCurrency(o)
    else if IsText(o, "purpose", "provision-payment-token") then
      forall i :: 0 <= i < |TRANSACTION_ONLY| ==> Lookup(o, TRANSACTION_ONLY[i]).None?
    else false
  }

  predicate PointValid(o: Object, instant: TimeReader) {
    && (forall e <- o :: e.0 in ORDER)
    && (forall i :: 0 <= i < |COMMON_REQUIRED| ==> PointText(o, COMMON_REQUIRED[i]))
    && IsText(o, "protocolVersion", "airlock.v1") && IsText(o, "audience", "airlock-issuer")
    && ValidWindow(o, instant)
    && PointPurpose(o)
  }

  /** json.dumps without ASCII escaping: one code point at a time. */
  function EscapePoints(s: seq<int>): seq<int> {
    if s == [] then [] else EscapeOne(s[0]) + EscapePoints(s[1..])
  }

  function DumpValue(v: Value): seq<int> {
    match v
    case Str(text) => Quoted(EscapePoints(text))
    case Num(r) => if r.Floor >= 0 then Digits(r.Floor) else []
    case Other => []
  }

  function DumpMember(e: Entry): seq<int> { Quoted(EscapePoints(Ascii(e.0))) + [58] + DumpValue(e.1) }

  function DumpMembers(o: Object): seq<int> {
    if o == [] then []
    else if |o| == 1 then DumpMember(o[0])
    else DumpMember(o[0]) + [44] + DumpMembers(o[1..])
  }

  function DumpObject(o: Object): seq<int> { [123] + DumpMembers(o) + [125] }

  /** `str.encode` refuses surrogates. */
  function StrictUtf8(points: seq<int>): Option<seq<int>> { if Scalars(points) then Some(Utf8(points)) else None }

  function PointCanonicalize(o: Object, instant: TimeReader): Option<seq<int>> {
    if PointValid(o, instant) then StrictUtf8(DumpObject(Ordered(o, ORDER))) else None
  }

  /** The same document as the second implementation reads it. */
  function Reread(o: Object): Object {
    seq(|o|, i requires 0 <= i < |o| => (o[i].0, RereadValue(o[i].1)))
  }

  function RereadValue(v: Value): Value {
    match v
    case Str(text) => Str(Decode(text))
    case _ => v
  }

  // ---------- a parser ----------

  function UnHex(h: int): int { if h < 58 then h - 48 else h - 87 }

  function Unescape(c: int): int {
    if c == 98 then 8 else if c == 102 then 12 else if c == 110 then 10 else if c == 114 then 13 else if c == 116 then 9 else c
  }

  /** The code points up to the closing quote, and what follows it. */
  function ParseString(t: seq<int>): Option<(seq<int>, seq<int>)> {
    if t == [] then None
    else if t[0] == 34 then Some(([], t[1..]))
    else if t[0] == 92 && |t| >= 6 && t[1] == 117 then
      var rest := ParseString(t[6..]);
      if rest.None? then None
      else Some(([((UnHex(t[2]) * 16 + UnHex(t[3])) * 16 + UnHex(t[4])) * 16 + UnHex(t[5])] + rest.value.0, rest.value.1))
    else if t[0] == 92 && |t| >= 2 then
      var rest := ParseString(t[2..]);
      if rest.None? then None else Some(([Unescape(t[1])] + rest.value.0, rest.value.1))
    else
      var rest := ParseString(t[1..]);
      if rest.None? then None else Some(([t[0]] + rest.value.0, rest.value.1))
  }

  predicate Digit(c: int) { 48 <= c <= 57 }

  function ParseNumber(t: seq<int>, sofar: nat): (nat, seq<int>)
    decreases |t|
  {
    if t == [] || !Digit(t[0]) then (sofar, t) else ParseNumber(t[1..], sofar * 10 + (t[0] - 48))
  }

  function ParseValue(t: seq<int>): Option<(Value, seq<int>)> {
    if t == [] then None
    else if t[0] == 34 then
      var s := ParseString(t[1..]);
      if s.None? then None else Some((Str(s.value.0), s.value.1))
    else if Digit(t[0]) then
      var (n, rest) := ParseNumber(t, 0);
      Some((Num(n as real), rest))
    else None
  }

  /** A field as parsed: its name as code points, its value. */
  type Parsed = (seq<int>, Value)

  function ParseMember(t: seq<int>): Option<(Parsed, seq<int>)> {
    if t == [] || t[0] != 34 then None
    else
      var name := ParseString(t[1..]);
      if name.None? || name.value.1 == [] || name.value.1[0] != 58 then None
      else
        var v := ParseValue(name.value.1[1..]);
        if v.None? then None else Some(((name.value.0, v.value.0), v.value.1))
  }

  function ParseMembers(t: seq<int>, fuel: nat): Option<seq<Parsed>>
    decreases fuel
  {
    var m := ParseMember(t);
    if m.None? || m.value.1 == [] then None
    else if m.value.1[0] == 125 && |m.value.1| == 1 then Some([m.value.0])
    else if m.value.1[0] == 44 && fuel > 0 then
      var rest := ParseMembers(m.value.1[1..], fuel - 1);
      if rest.None? then None else Some([m.value.0] + rest.value)
    else None
  }

  function ParseObject(t: seq<int>): Option<seq<Parsed>> {
    if t == [] || t[0] != 123 then None else ParseMembers(t[1..], |t|)
  }

  /** From bytes to fields. */
  function ParseBinding(bytes: seq<int>): Option<seq<Parsed>> {
    var points := DecodeUtf8(bytes);
    if points.None? then None else ParseObject(points.value)
  }
}
