/** The canonical text of a binding, field by field: which bindings have one, and what it is. */
module CanonicalText {
  import opened Wrappers
  import opened Unicode
  import opened Canonical

  // ---------- which bindings are accepted ----------

  /** The field is a string with at least one unit and no unpaired surrogate. */
  predicate HasText(o: Object, key: string) {
    match Lookup(o, key)
    case Some(Str(text)) => |text| > 0 && WellFormed(text)
    case _ => false
  }

  predicate HasConstant(o: Object, key: string, text: string) { Lookup(o, key) == Some(Str(Ascii(text))) }

  /** The window opens before it closes. */
  predicate HasWindow(o: Object, instant: TimeReader) {
    match (Lookup(o, "issuedAt"), Lookup(o, "expiresAt"))
    case (Some(Str(issued)), Some(Str(expires))) =>
      instant(issued).Some? && instant(expires).Some? && instant(issued).value < instant(expires).value
    case _ => false
  }

  /** A positive safe integer. */
  predicate HasAmount(o: Object) {
    match Lookup(o, "amountMinor")
    case Some(Num(x)) => x == x.Floor as real && 1 <= x.Floor <= 9_007_199_254_740_991
    case _ => false
  }

  predicate HasCommonFields(o: Object) {
    && HasConstant(o, "protocolVersion", "airlock.v1") && HasConstant(o, "audience", "airlock-issuer")
    && HasText(o, "challengeId") && HasText(o, "subjectId") && HasText(o, "accountId")
    && HasText(o, "paymentTokenId") && HasText(o, "trustedDeviceId")
    && HasText(o, "issuedAt") && HasText(o, "expiresAt")
  }

  predicate IsTransaction(o: Object) {
    && HasConstant(o, "purpose", "confirm-transaction")
    && HasText(o, "transactionId") && HasText(o, "merchantId") && HasAmount(o)
    && (HasConstant(o, "currency", "USD") || HasConstant(o, "currency", "EUR") || HasConstant(o, "currency", "GBP")
        || HasConstant(o, "currency", "CAD") || HasConstant(o, "currency", "AUD"))
  }

  predicate IsProvisioning(o: Object) {
    && HasConstant(o, "purpose", "provision-payment-token")
    && Lookup(o, "transactionId").None? && Lookup(o, "merchantId").None?
    && Lookup(o, "amountMinor").None? && Lookup(o, "currency").None?
  }

  predicate KnownName(key: string) {
    key in {
      "protocolVersion", "purpose", "challengeId", "subjectId", "accountId", "paymentTokenId", "trustedDeviceId",
      "transactionId", "merchantId", "amountMinor", "currency", "issuedAt", "expiresAt", "audience"}
  }

  predicate HasOnlyKnownFields(o: Object) { forall e <- o :: KnownName(e.0) }

  lemma TextIff(o: Object, key: string)
    ensures ValidText(o, key) <==> HasText(o, key)
  {
    hide Lookup, WellFormed;
  }

  lemma {:induction false} PlainWellFormed(text: seq<int>)
    requires forall i :: 0 <= i < |text| ==> 32 <= text[i] < 127
    ensures WellFormed(text)
  {
    if text != [] { PlainWellFormed(text[1..]); }
  }

  /** Printable ASCII without quotes or backslashes. */
  predicate Plain(s: string) { forall i :: 0 <= i < |s| ==> 32 <= s[i] as int < 127 && s[i] != '"' && s[i] != '\\' }

  lemma ConstantIsText(o: Object, key: string, text: string)
    requires HasConstant(o, key, text) && Plain(text) && text != ""
    ensures ValidText(o, key)
  {
    hide Lookup;
    PlainWellFormed(Ascii(text));
  }

  lemma CommonNames(o: Object)
    ensures (forall i :: 0 <= i < |COMMON_REQUIRED| ==> ValidText(o, COMMON_REQUIRED[i])) <==>
              && ValidText(o, "protocolVersion") && ValidText(o, "purpose") && ValidText(o, "challengeId")
              && ValidText(o, "subjectId") && ValidText(o, "accountId") && ValidText(o, "paymentTokenId")
              && ValidText(o, "trustedDeviceId") && ValidText(o, "issuedAt") && ValidText(o, "expiresAt")
              && ValidText(o, "audience")
  {
    hide ValidText;
    var names := COMMON_REQUIRED;
    assert names[0] == "protocolVersion" && names[1] == "purpose" && names[2] == "challengeId" && names[3] == "subjectId";
    assert names[4] == "accountId" && names[5] == "paymentTokenId" && names[6] == "trustedDeviceId";
    assert names[7] == "issuedAt" && names[8] == "expiresAt" && names[9] == "audience" && |names| == 10;
  }

  lemma AmountIff(o: Object)
    ensures ValidAmount(Lookup(o, "amountMinor")) <==> HasAmount(o)
  {
    hide Lookup;
  }

  lemma NoneOfFour(o: Object)
    ensures (forall i :: 0 <= i < |TRANSACTION_ONLY| ==> Lookup(o, TRANSACTION_ONLY[i]).None?) <==>
              && Lookup(o, "transactionId").None? && Lookup(o, "merchantId").None?
              && Lookup(o, "amountMinor").None? && Lookup(o, "currency").None?
  {
    hide Lookup;
    var names := TRANSACTION_ONLY;
    assert names[0] == "transactionId" && names[1] == "merchantId" && names[2] == "amountMinor" && names[3] == "currency";
  }

  lemma CurrencyIff(o: Object)
    ensures KnownCurrency(o) <==>
              || HasConstant(o, "currency", "USD") || HasConstant(o, "currency", "EUR") || HasConstant(o, "currency", "GBP")
              || HasConstant(o, "currency", "CAD") || HasConstant(o, "currency", "AUD")
  {
    hide Lookup, Ascii;
    var names := CURRENCIES;
    assert names[0] == "USD" && names[1] == "EUR" && names[2] == "GBP" && names[3] == "CAD" && names[4] == "AUD";
  }

  lemma CurrencyIsText(o: Object)
    requires KnownCurrency(o)
    ensures ValidText(o, "currency")
  {
    hide Lookup;
    CurrencyIff(o);
    hide KnownCurrency;
    var text := Lookup(o, "currency").value.text;
    assert |text| == 3;
    PlainWellFormed(text);
  }

  lemma PurposeIff(o: Object)
    ensures ValidPurpose(o) <==> IsTransaction(o) || IsProvisioning(o)
  {
    hide Lookup, WellFormed, ValidText, HasText, ValidAmount, HasAmount, KnownCurrency;
    TextIff(o, "transactionId");
    TextIff(o, "merchantId");
    AmountIff(o);
    CurrencyIff(o);
    NoneOfFour(o);
    if KnownCurrency(o) { CurrencyIsText(o); }
    assert Ascii("confirm-transaction") != Ascii("provision-payment-token") by {
      assert |Ascii("confirm-transaction")| != |Ascii("provision-payment-token")|;
    }
  }

  lemma KnownIff(key: string)
    ensures key in ORDER <==> KnownName(key)
  {
  }

  lemma ConstantsArePlain()
    ensures Plain("airlock.v1") && Plain("airlock-issuer") && Plain("confirm-transaction") && Plain("provision-payment-token")
  {
  }

  /** A binding is accepted exactly when it has the common fields with the fixed version and audience and a
      window that opens before it closes, is either a transaction with its four fields or a provisioning request
      with none of them, and has no other field. */
  lemma AcceptedIff(o: Object, instant: TimeReader)
    ensures Canonicalize(o, instant).Some? <==>
              HasOnlyKnownFields(o) && HasCommonFields(o) && HasWindow(o, instant) && (IsTransaction(o) || IsProvisioning(o))
  {
    hide Lookup, KnownName, ORDER, Ascii, ValidPurpose, PrintObject, EncodeText, ValidText, HasText;
    assert (forall e <- o :: e.0 in ORDER) <==> HasOnlyKnownFields(o) by {
      hide KnownName, ORDER;
      forall key ensures key in ORDER <==> KnownName(key) { KnownIff(key); }
    }
    CommonNames(o);
    PurposeIff(o);
    TextIff(o, "challengeId");
    TextIff(o, "subjectId");
    TextIff(o, "accountId");
    TextIff(o, "paymentTokenId");
    TextIff(o, "trustedDeviceId");
    TextIff(o, "issuedAt");
    TextIff(o, "expiresAt");
    ConstantsArePlain();
    hide Plain;
    if HasConstant(o, "protocolVersion", "airlock.v1") { ConstantIsText(o, "protocolVersion", "airlock.v1"); }
    if HasConstant(o, "audience", "airlock-issuer") { ConstantIsText(o, "audience", "airlock-issuer"); }
    if HasConstant(o, "purpose", "confirm-transaction") { ConstantIsText(o, "purpose", "confirm-transaction"); }
    if HasConstant(o, "purpose", "provision-payment-token") { ConstantIsText(o, "purpose", "provision-payment-token"); }
  }

  // ---------- the text ----------

  /** The JSON of a field's value. */
  function Json(o: Object, key: string): seq<int> {
    match Lookup(o, key)
    case Some(v) => PrintValue(v)
    case None => []
  }

  function Named(name: string, value: seq<int>): seq<int> { Ascii("\"") + Ascii(name) + Ascii("\":") + value }

  function Joined(parts: seq<seq<int>>): seq<int> {
    if parts == [] then []
    else if |parts| == 1 then parts[0]
    else parts[0] + Ascii(",") + Joined(parts[1..])
  }

  function Fields(o: Object, names: seq<string>): seq<seq<int>> {
    seq(|names|, i requires 0 <= i < |names| => Named(names[i], Json(o, names[i])))
  }

  lemma {:induction false} PlainEscape(s: string)
    requires Plain(s)
    ensures EscapeUnits(Ascii(s)) == Ascii(s)
  {
    var text := Ascii(s);
    if s != "" {
      assert text[1..] == Ascii(s[1..]);
      PlainEscape(s[1..]);
      assert text == [text[0]] + text[1..];
    }
  }

  lemma MemberNamed(e: Entry)
    requires Plain(e.0)
    ensures PrintMember(e) == Named(e.0, PrintValue(e.1))
  {
    hide PrintValue, EscapeUnits;
    PlainEscape(e.0);
  }

  /** When every field is there the ordered record lists them all. */
  lemma {:induction false} AllThere(o: Object, keys: seq<string>)
    requires forall key <- keys :: Lookup(o, key).Some?
    ensures var q := Ordered(o, keys);
            |q| == |keys| && forall i :: 0 <= i < |q| ==> q[i] == (keys[i], Lookup(o, keys[i]).value)
    decreases |keys|
  {
    hide Lookup;
    if keys != [] {
      assert keys[|keys| - 1] in keys;
      AllThere(o, keys[..|keys| - 1]);
    }
  }

  lemma {:induction false} NoneThere(o: Object, keys: seq<string>)
    requires forall key <- keys :: Lookup(o, key).None?
    ensures Ordered(o, keys) == []
    decreases |keys|
  {
    hide Lookup;
    if keys != [] {
      assert keys[|keys| - 1] in keys;
      NoneThere(o, keys[..|keys| - 1]);
    }
  }

  lemma {:induction false} OrderedConcat(o: Object, a: seq<string>, b: seq<string>)
    ensures Ordered(o, a + b) == Ordered(o, a) + Ordered(o, b)
    decreases |b|
  {
    hide Lookup;
    if b == [] {
      assert a + b == a;
    } else {
      assert (a + b)[..|a + b| - 1] == a + b[..|b| - 1];
      OrderedConcat(o, a, b[..|b| - 1]);
    }
  }

  lemma {:induction false} MembersJoined(o: Object, q: Object, names: seq<string>)
    requires |q| == |names| && forall i :: 0 <= i < |q| ==> Lookup(o, names[i]).Some? && q[i] == (names[i], Lookup(o, names[i]).value)
    requires forall name <- names :: Plain(name)
    ensures PrintMembers(q) == Joined(Fields(o, names))
    decreases |q|
  {
    hide Lookup, PrintMember, Named, Plain, PrintValue;
    if q != [] {
      assert names[0] in names;
      MemberNamed(q[0]);
      assert Fields(o, names)[0] == PrintMember(q[0]);
      if |q| > 1 {
        MembersJoined(o, q[1..], names[1..]);
        assert Fields(o, names)[1..] == Fields(o, names[1..]);
      }
    }
  }

  const FIRST: seq<string> :=
    ["protocolVersion", "purpose", "challengeId", "subjectId", "accountId", "paymentTokenId", "trustedDeviceId"]

  const LAST: seq<string> := ["issuedAt", "expiresAt", "audience"]

  lemma NamesArePlain()
    ensures (forall name <- FIRST :: Plain(name)) && (forall name <- TRANSACTION_ONLY :: Plain(name)) && (forall name <- LAST :: Plain(name))
  {
    hide Plain;
    FirstPlain();
    LastPlain();
  }

  lemma FirstPlain()
    ensures Plain("protocolVersion") && Plain("purpose") && Plain("challengeId") && Plain("subjectId")
    ensures Plain("accountId") && Plain("paymentTokenId") && Plain("trustedDeviceId")
  {
  }

  lemma LastPlain()
    ensures Plain("transactionId") && Plain("merchantId") && Plain("amountMinor") && Plain("currency")
    ensures Plain("issuedAt") && Plain("expiresAt") && Plain("audience")
  {
  }

  lemma CommonThere(o: Object, instant: TimeReader)
    requires Valid(o, instant)
    ensures (forall name <- FIRST :: Lookup(o, name).Some?) && (forall name <- LAST :: Lookup(o, name).Some?)
  {
    CommonNames(o);
    hide Lookup, WellFormed, ValidPurpose, ValidWindow, IsText;
  }

  lemma OrderSplits()
    ensures ORDER == FIRST + TRANSACTION_ONLY + LAST
  {
  }

  lemma JoinedText(o: Object, names: seq<string>, instant: TimeReader)
    requires Valid(o, instant) && forall name <- names :: Plain(name) && Lookup(o, name).Some?
    requires Ordered(o, ORDER) == Ordered(o, names)
    ensures Canonicalize(o, instant) == Some(EncodeText(Ascii("{") + Joined(Fields(o, names)) + Ascii("}")))
  {
    hide Lookup, Plain, Valid, PrintMembers, Joined, Fields, EncodeText, Ordered;
    AllThere(o, names);
    forall i | 0 <= i < |names| ensures Lookup(o, names[i]).Some? { assert names[i] in names; }
    MembersJoined(o, Ordered(o, names), names);
    assert Ascii("{") == [123] && Ascii("}") == [125];
  }

  lemma MiddleThere(o: Object)
    requires IsTransaction(o)
    ensures forall name <- TRANSACTION_ONLY :: Lookup(o, name).Some?
  {
    hide Lookup, WellFormed, Ascii;
  }

  lemma MiddleMissing(o: Object)
    requires IsProvisioning(o)
    ensures forall name <- TRANSACTION_ONLY :: Lookup(o, name).None?
  {
    hide Lookup, Ascii;
  }

  lemma TransactionJoined(o: Object, instant: TimeReader)
    requires Valid(o, instant) && IsTransaction(o)
    ensures Canonicalize(o, instant) ==
              Some(EncodeText(Ascii("{") + Joined(Fields(o, FIRST + TRANSACTION_ONLY + LAST)) + Ascii("}")))
  {
    hide Valid, IsTransaction, Lookup, Plain, Canonicalize, EncodeText, Joined, Fields, Ascii, FIRST, LAST, TRANSACTION_ONLY, ORDER;
    OrderSplits();
    NamesArePlain();
    CommonThere(o, instant);
    MiddleThere(o);
    JoinedText(o, FIRST + TRANSACTION_ONLY + LAST, instant);
  }

  lemma ProvisioningJoined(o: Object, instant: TimeReader)
    requires Valid(o, instant) && IsProvisioning(o)
    ensures Canonicalize(o, instant) == Some(EncodeText(Ascii("{") + Joined(Fields(o, FIRST + LAST)) + Ascii("}")))
  {
    hide Valid, IsProvisioning, Lookup, Plain, Canonicalize, EncodeText, Joined, Fields, Ascii, FIRST, LAST, TRANSACTION_ONLY, ORDER;
    OrderSplits();
    NamesArePlain();
    CommonThere(o, instant);
    MiddleMissing(o);
    NoneThere(o, TRANSACTION_ONLY);
    OrderedConcat(o, FIRST + TRANSACTION_ONLY, LAST);
    OrderedConcat(o, FIRST, TRANSACTION_ONLY);
    OrderedConcat(o, FIRST, LAST);
    JoinedText(o, FIRST + LAST, instant);
  }

  function TransactionFields(o: Object): seq<seq<int>> {
    [Named("protocolVersion", Json(o, "protocolVersion")), Named("purpose", Json(o, "purpose")),
     Named("challengeId", Json(o, "challengeId")), Named("subjectId", Json(o, "subjectId")),
     Named("accountId", Json(o, "accountId")), Named("paymentTokenId", Json(o, "paymentTokenId")),
     Named("trustedDeviceId", Json(o, "trustedDeviceId")), Named("transactionId", Json(o, "transactionId")),
     Named("merchantId", Json(o, "merchantId")), Named("amountMinor", Json(o, "amountMinor")),
     Named("currency", Json(o, "currency")), Named("issuedAt", Json(o, "issuedAt")),
     Named("expiresAt", Json(o, "expiresAt")), Named("audience", Json(o, "audience"))]
  }

  function ProvisioningFields(o: Object): seq<seq<int>> {
    [Named("protocolVersion", Json(o, "protocolVersion")), Named("purpose", Json(o, "purpose")),
     Named("challengeId", Json(o, "challengeId")), Named("subjectId", Json(o, "subjectId")),
     Named("accountId", Json(o, "accountId")), Named("paymentTokenId", Json(o, "paymentTokenId")),
     Named("trustedDeviceId", Json(o, "trustedDeviceId")), Named("issuedAt", Json(o, "issuedAt")),
     Named("expiresAt", Json(o, "expiresAt")), Named("audience", Json(o, "audience"))]
  }

  /** A transaction's bytes: an object of its fourteen fields, each at its fixed place. */
  lemma TransactionText(o: Object, instant: TimeReader)
    requires Canonicalize(o, instant).Some? && IsTransaction(o)
    ensures Canonicalize(o, instant) == Some(EncodeText(Ascii("{") + Joined(TransactionFields(o)) + Ascii("}")))
    ensures Json(o, "purpose") == Quoted(Ascii("confirm-transaction"))
    ensures Json(o, "protocolVersion") == Quoted(Ascii("airlock.v1")) && Json(o, "audience") == Quoted(Ascii("airlock-issuer"))
  {
    hide Valid, Canonicalize, Named, EncodeText, Joined, Json, Plain, Fields, Ascii, HasText, HasAmount;
    ConstantsJson(o, instant);
    ConstantsArePlain();
    ConstantJson(o, "purpose", "confirm-transaction");
    FirstNames(o);
    MiddleNames(o);
    LastNames(o);
    FieldsConcat(o, FIRST + TRANSACTION_ONLY, LAST);
    FieldsConcat(o, FIRST, TRANSACTION_ONLY);
    TransactionJoined(o, instant);
    assert Fields(o, FIRST) + Fields(o, TRANSACTION_ONLY) + Fields(o, LAST) == TransactionFields(o);
  }

  /** A provisioning request's bytes: an object of its ten fields, each at its fixed place. */
  lemma ProvisioningText(o: Object, instant: TimeReader)
    requires Canonicalize(o, instant).Some? && IsProvisioning(o)
    ensures Canonicalize(o, instant) == Some(EncodeText(Ascii("{") + Joined(ProvisioningFields(o)) + Ascii("}")))
    ensures Json(o, "purpose") == Quoted(Ascii("provision-payment-token"))
    ensures Json(o, "protocolVersion") == Quoted(Ascii("airlock.v1")) && Json(o, "audience") == Quoted(Ascii("airlock-issuer"))
  {
    hide Valid, Canonicalize, Named, EncodeText, Joined, Json, Plain, Fields, Ascii;
    ConstantsJson(o, instant);
    ConstantsArePlain();
    ConstantJson(o, "purpose", "provision-payment-token");
    FirstNames(o);
    LastNames(o);
    FieldsConcat(o, FIRST, LAST);
    ProvisioningJoined(o, instant);
    assert Fields(o, FIRST) + Fields(o, LAST) == ProvisioningFields(o);
  }

  lemma ConstantJson(o: Object, key: string, text: string)
    requires HasConstant(o, key, text) && Plain(text)
    ensures Json(o, key) == Quoted(Ascii(text))
  {
    hide Lookup, EscapeUnits, Plain;
    PlainEscape(text);
  }

  lemma ConstantsJson(o: Object, instant: TimeReader)
    requires Canonicalize(o, instant).Some?
    ensures Valid(o, instant)
    ensures Json(o, "protocolVersion") == Quoted(Ascii("airlock.v1")) && Json(o, "audience") == Quoted(Ascii("airlock-issuer"))
  {
    hide PrintObject, EncodeText, Lookup, Plain, ValidPurpose, ValidWindow, ValidText, Json, Ascii;
    ConstantsArePlain();
    ConstantJson(o, "protocolVersion", "airlock.v1");
    ConstantJson(o, "audience", "airlock-issuer");
  }

  lemma FieldsConcat(o: Object, a: seq<string>, b: seq<string>)
    ensures Fields(o, a + b) == Fields(o, a) + Fields(o, b)
  {
    hide Named, Json;
  }

  lemma FirstNames(o: Object)
    ensures Fields(o, FIRST) == [
              Named("protocolVersion", Json(o, "protocolVersion")), Named("purpose", Json(o, "purpose")),
              Named("challengeId", Json(o, "challengeId")), Named("subjectId", Json(o, "subjectId")),
              Named("accountId", Json(o, "accountId")), Named("paymentTokenId", Json(o, "paymentTokenId")),
              Named("trustedDeviceId", Json(o, "trustedDeviceId"))]
  {
    hide Named, Json;
  }

  lemma MiddleNames(o: Object)
    ensures Fields(o, TRANSACTION_ONLY) == [
              Named("transactionId", Json(o, "transactionId")), Named("merchantId", Json(o, "merchantId")),
              Named("amountMinor", Json(o, "amountMinor")), Named("currency", Json(o, "currency"))]
  {
    hide Named, Json;
  }

  lemma LastNames(o: Object)
    ensures Fields(o, LAST) == [
              Named("issuedAt", Json(o, "issuedAt")), Named("expiresAt", Json(o, "expiresAt")), Named("audience", Json(o, "audience"))]
  {
    hide Named, Json;
  }

  // ---------- the JSON of a value ----------

  /** The escapes by letter. */
  lemma ShortEscapes()
    ensures EscapeOne('"' as int) == Ascii("\\\"") && EscapeOne('\\' as int) == Ascii("\\\\")
    ensures EscapeOne(8) == Ascii("\\b") && EscapeOne(9) == Ascii("\\t") && EscapeOne(10) == Ascii("\\n")
    ensures EscapeOne(12) == Ascii("\\f") && EscapeOne(13) == Ascii("\\r")
  {
  }

  lemma HexDigits(n: int)
    requires 0 <= n < 16
    ensures HexDigit(n) == "0123456789abcdef"[n] as int
  {
  }

  /** All other control characters are escaped by their two lower-case hexadecimal digits, and no other code point
      but the quote and the backslash is escaped. */
  lemma OtherEscapes(c: int)
    requires 0 <= c <= 0x10FFFF && c !in {8, 9, 10, 12, 13, 34, 92}
    ensures EscapeOne(c) == if c < 32 then Ascii("\\u00") + Ascii(["0123456789abcdef"[c / 16], "0123456789abcdef"[c % 16]]) else [c]
  {
    if c < 32 {
      HexDigits(c / 16);
      HexDigits(c % 16);
    }
  }

  /** An amount's JSON is its decimal numeral: it has the value of the amount, only digits, and no leading zero. */
  lemma {:induction false} AmountNumeral(n: nat)
    requires n > 0
    ensures Digits(n) != [] && Digits(n)[0] != 48 && NumeralValue(Digits(n)) == n
    ensures forall i :: 0 <= i < |Digits(n)| ==> 48 <= Digits(n)[i] <= 57
  {
    if n >= 10 {
      AmountNumeral(n / 10);
      assert Digits(n)[..|Digits(n)| - 1] == Digits(n / 10);
    }
  }

  function NumeralValue(digits: seq<int>): int {
    if digits == [] then 0 else NumeralValue(digits[..|digits| - 1]) * 10 + digits[|digits| - 1] - 48
  }
}
