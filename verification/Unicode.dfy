/** UTF-16 decoding (section 2.2 of RFC 2781) and UTF-8 encoding (section 3 of RFC 3629), over
    sequences of code units, code points and bytes given as integers. */
module Unicode {
  import opened Wrappers

  predicate High(u: int) { 0xD800 <= u <= 0xDBFF }
  predicate Low(u: int) { 0xDC00 <= u <= 0xDFFF }
  predicate Surrogate(u: int) { 0xD800 <= u <= 0xDFFF }

  predicate Units(s: seq<int>) { forall i :: 0 <= i < |s| ==> 0 <= s[i] <= 0xFFFF }
  predicate Points(s: seq<int>) { forall i :: 0 <= i < |s| ==> 0 <= s[i] <= 0x10FFFF }
  /** Code points that are no surrogates. */
  predicate Scalars(s: seq<int>) { Points(s) && forall i :: 0 <= i < |s| ==> !Surrogate(s[i]) }

  function Combine(high: int, low: int): int { 0x10000 + (high - 0xD800) * 0x400 + (low - 0xDC00) }

  predicate PairAhead(s: seq<int>) { |s| >= 2 && High(s[0]) && Low(s[1]) }

  /** The surrogate scan: every high surrogate is followed by a low one, which it consumes. */
  predicate WellFormed(s: seq<int>) {
    if s == [] then true
    else if PairAhead(s) then WellFormed(s[2..])
    else !Surrogate(s[0]) && WellFormed(s[1..])
  }

  /** Decoding that fails on an unpaired surrogate. */
  function StrictDecode(s: seq<int>): Option<seq<int>> {
    if s == [] then Some([])
    else if PairAhead(s) then
      var rest := StrictDecode(s[2..]);
      if rest.Some? then Some([Combine(s[0], s[1])] + rest.value) else None
    else if Surrogate(s[0]) then None
    else
      var rest := StrictDecode(s[1..]);
      if rest.Some? then Some([s[0]] + rest.value) else None
  }

  /** Decoding that leaves an unpaired surrogate as a code point of its own, as a JSON reader over code
      points does. */
  function Decode(s: seq<int>): seq<int> {
    if s == [] then []
    else if PairAhead(s) then [Combine(s[0], s[1])] + Decode(s[2..])
    else [s[0]] + Decode(s[1..])
  }

  function EncodeOne(p: int): seq<int> {
    if p < 0x10000 then [p] else [0xD800 + (p - 0x10000) / 0x400, 0xDC00 + (p - 0x10000) % 0x400]
  }

  function Encode(points: seq<int>): seq<int> {
    if points == [] then [] else EncodeOne(points[0]) + Encode(points[1..])
  }

  /** The scan accepts exactly the strings whose decoding is total, which are those whose code points
      are no surrogates; decoding then loses nothing. */
  lemma {:induction false} ScanIsTotality(s: seq<int>)
    requires Units(s)
    ensures WellFormed(s) <==> StrictDecode(s).Some?
    ensures WellFormed(s) ==> StrictDecode(s) == Some(Decode(s))
    ensures WellFormed(s) <==> Scalars(Decode(s))
    ensures Points(Decode(s))
    decreases |s|
  {
    if s == [] {
    } else if PairAhead(s) {
      ScanIsTotality(s[2..]);
      ScalarsCons(Combine(s[0], s[1]), Decode(s[2..]));
    } else {
      ScanIsTotality(s[1..]);
      ScalarsCons(s[0], Decode(s[1..]));
    }
  }

  lemma ScalarsCons(p: int, rest: seq<int>)
    requires 0 <= p <= 0x10FFFF && Points(rest)
    ensures Points([p] + rest) && (Scalars([p] + rest) <==> !Surrogate(p) && Scalars(rest))
  {
    var all := [p] + rest;
    assert all[0] == p && forall i :: 0 <= i < |rest| ==> all[i + 1] == rest[i];
    if Scalars(all) {
      forall i | 0 <= i < |rest| ensures !Surrogate(rest[i]) { assert !Surrogate(all[i + 1]); }
    }
  }

  lemma EncodePair(high: int, low: int)
    requires High(high) && Low(low)
    ensures EncodeOne(Combine(high, low)) == [high, low]
  {
    var offset := (high - 0xD800) * 0x400 + (low - 0xDC00);
    assert offset / 0x400 == high - 0xD800;
  }

  lemma EncodeCons(p: int, rest: seq<int>)
    ensures Encode([p] + rest) == EncodeOne(p) + Encode(rest)
  {
    hide EncodeOne;
    assert ([p] + rest)[1..] == rest;
  }

  /** Decoding is one-to-one: encoding the code points again gives the units back. */
  lemma {:induction false} EncodeDecode(s: seq<int>)
    requires Units(s)
    ensures Encode(Decode(s)) == s
    decreases |s|
  {
    hide Combine, EncodeOne, High, Low, Encode;
    if s == [] {
      EncodeNothing();
    } else if PairAhead(s) {
      EncodeDecode(s[2..]);
      EncodePair(s[0], s[1]);
      EncodeCons(Combine(s[0], s[1]), Decode(s[2..]));
      assert s == [s[0], s[1]] + s[2..];
    } else {
      EncodeDecode(s[1..]);
      EncodeUnit(s[0]);
      EncodeCons(s[0], Decode(s[1..]));
      assert s == [s[0]] + s[1..];
    }
  }

  lemma EncodeNothing()
    ensures Encode([]) == []
  {
  }

  lemma EncodeUnit(u: int)
    requires u <= 0xFFFF
    ensures EncodeOne(u) == [u]
  {
  }

  /** What follows a well-formed text does not change how it starts. */
  lemma SameStart(a: seq<int>, b: seq<int>)
    requires a != [] && WellFormed(a)
    ensures PairAhead(a + b) <==> PairAhead(a)
    ensures (a + b)[0] == a[0] && (PairAhead(a) ==> (a + b)[1] == a[1] && (a + b)[2..] == a[2..] + b)
    ensures (a + b)[1..] == a[1..] + b
  {
  }

  /** A well-formed prefix decodes on its own. */
  lemma {:induction false} DecodeConcat(a: seq<int>, b: seq<int>)
    requires WellFormed(a)
    ensures Decode(a + b) == Decode(a) + Decode(b)
    ensures WellFormed(a + b) <==> WellFormed(b)
    decreases |a|
  {
    hide Combine, High, Low, Surrogate;
    if a == [] {
      assert a + b == b;
    } else {
      SameStart(a, b);
      DecodeConcat(if PairAhead(a) then a[2..] else a[1..], b);
    }
  }

  /** Text without surrogates is its own decoding. */
  lemma {:induction false} DecodePlain(s: seq<int>)
    requires forall i :: 0 <= i < |s| ==> !Surrogate(s[i])
    ensures WellFormed(s) && Decode(s) == s
  {
    if s != [] {
      DecodePlain(s[1..]);
      assert s == [s[0]] + s[1..];
    }
  }

  // ---------- UTF-8 ----------

  /** The bits above the low six. */
  function Shift6(p: int): int { p / 64 }

  function Tail(p: int): int { 0x80 + p % 64 }

  function Utf8One(p: int): seq<int> {
    var a := Shift6(p);
    var b := Shift6(a);
    if p < 0x80 then [p]
    else if p < 0x800 then [0xC0 + a, Tail(p)]
    else if p < 0x10000 then [0xE0 + b, Tail(a), Tail(p)]
    else [0xF0 + Shift6(b), Tail(b), Tail(a), Tail(p)]
  }

  function Utf8(points: seq<int>): seq<int> {
    if points == [] then [] else Utf8One(points[0]) + Utf8(points[1..])
  }

  function Utf8Length(first: int): nat { if first < 0x80 then 1 else if first < 0xE0 then 2 else if first < 0xF0 then 3 else 4 }

  function Utf8Point(b: seq<int>): int
    requires 1 <= |b| && |b| == Utf8Length(b[0])
  {
    if |b| == 1 then b[0]
    else if |b| == 2 then (b[0] - 0xC0) * 64 + (b[1] - 0x80)
    else if |b| == 3 then (b[0] - 0xE0) * 4096 + (b[1] - 0x80) * 64 + (b[2] - 0x80)
    else (b[0] - 0xF0) * 262144 + (b[1] - 0x80) * 4096 + (b[2] - 0x80) * 64 + (b[3] - 0x80)
  }

  function DecodeUtf8(bytes: seq<int>): Option<seq<int>> {
    if bytes == [] then Some([])
    else
      var n := Utf8Length(bytes[0]);
      if n > |bytes| then None
      else
        var rest := DecodeUtf8(bytes[n..]);
        if rest.Some? then Some([Utf8Point(bytes[..n])] + rest.value) else None
  }

  lemma ShiftTail(p: int)
    requires p >= 0
    ensures Shift6(p) * 64 + (Tail(p) - 0x80) == p && 0x80 <= Tail(p) <= 0xBF && Shift6(p) >= 0
  {
  }

  lemma ShiftBound(p: int, bound: int)
    requires 0 <= p < bound * 64
    ensures 0 <= Shift6(p) < bound
  {
  }

  lemma Utf8OneInverse(p: int)
    requires 0 <= p <= 0x10FFFF
    ensures var b := Utf8One(p); b != [] && |b| == Utf8Length(b[0]) && Utf8Point(b) == p
    ensures forall i :: 0 <= i < |Utf8One(p)| ==> 0 <= Utf8One(p)[i] <= 0xFF
  {
    hide Shift6, Tail;
    var a := Shift6(p);
    ShiftTail(p);
    ShiftTail(a);
    var b := Shift6(a);
    ShiftTail(b);
    if p < 0x800 {
      ShiftBound(p, 32);
    } else if p < 0x10000 {
      ShiftBound(p, 1024);
      ShiftBound(a, 16);
    } else {
      ShiftBound(p, 17408);
      ShiftBound(a, 272);
      ShiftBound(b, 5);
    }
  }

  /** UTF-8 is one-to-one on code points: decoding gives them back. */
  lemma {:induction false} Utf8Inverse(points: seq<int>)
    requires Points(points)
    ensures DecodeUtf8(Utf8(points)) == Some(points)
  {
    hide Utf8One, Utf8Length, Utf8Point;
    if points != [] {
      var b, rest := Utf8One(points[0]), Utf8(points[1..]);
      Utf8OneInverse(points[0]);
      Utf8Inverse(points[1..]);
      assert (b + rest)[0] == b[0] && (b + rest)[..|b|] == b && (b + rest)[|b|..] == rest;
      assert points == [points[0]] + points[1..];
    }
  }
}
