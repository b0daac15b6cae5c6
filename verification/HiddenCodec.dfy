/**
 * The invisible wire encoding of types.ts: bytes become base64url (section 5 of RFC 4648), every
 * base64url character becomes three zero-width characters, and two-character markers delimit the
 * payload inside visible text. Text is a sequence of UTF-16 code units.
 */
module HiddenCodec {
  import opened Domain

  newtype Byte = b: int | 0 <= b < 256
  newtype Sextet = v: int | 0 <= v < 64
  newtype CodeUnit = c: int | 0 <= c < 0x10000
  type Bytes = seq<Byte>
  type Text = seq<CodeUnit>

  const EVENT_START: Text := [0x2063, 0x2062]
  const EVENT_END: Text := [0x2063, 0x2061]

  // ---------------------------------------------------------------- base64url

  // The four sextets of three bytes, and the three bytes of four sextets.
  function S0(x: Byte): Sextet { (x as int / 4) as Sextet }
  function S1(x: Byte, y: Byte): Sextet { (x as int % 4 * 16 + y as int / 16) as Sextet }
  function S2(y: Byte, z: Byte): Sextet { (y as int % 16 * 4 + z as int / 64) as Sextet }
  function S3(z: Byte): Sextet { (z as int % 64) as Sextet }
  function O0(p: Sextet, q: Sextet): Byte { (p as int * 4 + q as int / 16) as Byte }
  function O1(q: Sextet, r: Sextet): Byte { (q as int % 16 * 16 + r as int / 4) as Byte }
  function O2(r: Sextet, t: Sextet): Byte { (r as int % 4 * 64 + t as int) as Byte }

  function Sextets(b: Bytes): (s: seq<Sextet>)
    ensures |s| == (4 * |b| + 2) / 3
  {
    if |b| == 0 then []
    else if |b| == 1 then [S0(b[0]), S1(b[0], 0)]
    else if |b| == 2 then [S0(b[0]), S1(b[0], b[1]), S2(b[1], 0)]
    else [S0(b[0]), S1(b[0], b[1]), S2(b[1], b[2]), S3(b[2])] + Sextets(b[3..])
  }

  /** The lenient reader: a lone trailing character and spare low bits are dropped. */
  function Octets(s: seq<Sextet>): Bytes {
    if |s| <= 1 then []
    else if |s| == 2 then [O0(s[0], s[1])]
    else if |s| == 3 then [O0(s[0], s[1]), O1(s[1], s[2])]
    else [O0(s[0], s[1]), O1(s[1], s[2]), O2(s[2], s[3])] + Octets(s[4..])
  }

  lemma FirstByte(x: Byte, y: Byte)
    ensures O0(S0(x), S1(x, y)) == x
  {
  }

  lemma SecondByte(x: Byte, y: Byte, z: Byte)
    ensures O1(S1(x, y), S2(y, z)) == y
  {
    Nibble(x as int % 4, y as int / 16);
    Crumb(y as int % 16, z as int / 64);
  }

  lemma Nibble(high: int, low: int)
    requires 0 <= low < 16
    ensures (high * 16 + low) % 16 == low
  {
  }

  lemma Crumb(high: int, low: int)
    requires 0 <= low < 4
    ensures (high * 4 + low) / 4 == high && (high * 4 + low) % 4 == low
  {
  }

  lemma ThirdByte(y: Byte, z: Byte)
    ensures O2(S2(y, z), S3(z)) == z
  {
    Crumb(y as int % 16, z as int / 64);
  }

  lemma OneRoundTrip(b: Bytes)
    requires |b| == 1
    ensures Octets(Sextets(b)) == b
  {
    FirstByte(b[0], 0);
    var s := Sextets(b);
    assert |s| == 2 && s[0] == S0(b[0]) && s[1] == S1(b[0], 0);
    assert Octets(s) == [O0(s[0], s[1])];
  }

  lemma TwoRoundTrip(b: Bytes)
    requires |b| == 2
    ensures Octets(Sextets(b)) == b
  {
    FirstByte(b[0], b[1]);
    SecondByte(b[0], b[1], 0);
    var s := Sextets(b);
    assert |s| == 3 && s[0] == S0(b[0]) && s[1] == S1(b[0], b[1]) && s[2] == S2(b[1], 0);
    assert Octets(s) == [O0(s[0], s[1]), O1(s[1], s[2])];
  }

  lemma QuadFirst(q: seq<Sextet>, rest: seq<Sextet>)
    requires |q| == 4
    ensures Octets(q + rest) == [O0(q[0], q[1]), O1(q[1], q[2]), O2(q[2], q[3])] + Octets(rest)
  {
    assert (q + rest)[4..] == rest;
  }

  lemma ThreeFirst(x: Byte, y: Byte, z: Byte, rest: Bytes)
    ensures Octets(Sextets([x, y, z] + rest)) == [x, y, z] + Octets(Sextets(rest))
  {
    FirstByte(x, y);
    SecondByte(x, y, z);
    ThirdByte(y, z);
    var q := [S0(x), S1(x, y), S2(y, z), S3(z)];
    assert ([x, y, z] + rest)[3..] == rest;
    assert Sextets([x, y, z] + rest) == q + Sextets(rest);
    QuadFirst(q, Sextets(rest));
  }

  lemma {:induction false} SextetRoundTrip(b: Bytes)
    ensures Octets(Sextets(b)) == b
  {
    if |b| == 1 {
      OneRoundTrip(b);
    } else if |b| == 2 {
      TwoRoundTrip(b);
    } else if |b| >= 3 {
      assert b == [b[0], b[1], b[2]] + b[3..];
      ThreeFirst(b[0], b[1], b[2], b[3..]);
      SextetRoundTrip(b[3..]);
    }
  }

  /** The character that table 2 of RFC 4648 gives a value, and the value of a character (-1: none). */
  function UrlChar(v: Sextet): char {
    var n := v as int;
    if n < 26 then (65 + n) as char
    else if n < 52 then (97 + n - 26) as char
    else if n < 62 then (48 + n - 52) as char
    else if n == 62 then '-' else '_'
  }

  function UrlValue(c: char): (v: Option<Sextet>)
    ensures v.Some? ==> UrlChar(v.value) == c
  {
    if 'A' <= c <= 'Z' then Some((c as int - 65) as Sextet)
    else if 'a' <= c <= 'z' then Some((c as int - 97 + 26) as Sextet)
    else if '0' <= c <= '9' then Some((c as int - 48 + 52) as Sextet)
    else if c == '-' then Some(62) else if c == '_' then Some(63) else None
  }

  function ToBase64Url(b: Bytes): (t: string)
    ensures |t| == (4 * |b| + 2) / 3
  {
    Chars(Sextets(b))
  }

  function Chars(s: seq<Sextet>): (t: string)
    ensures |t| == |s|
  {
    if s == [] then [] else [UrlChar(s[0])] + Chars(s[1..])
  }

  /** Characters outside the alphabet are skipped, as the runtime's decoder does. */
  function Values(t: string): seq<Sextet> {
    if t == [] then [] else (match UrlValue(t[0]) case None => [] case Some(v) => [v]) + Values(t[1..])
  }

  function FromBase64Url(t: string): Bytes {
    Octets(Values(t))
  }

  lemma {:induction false} CharsRoundTrip(s: seq<Sextet>)
    ensures Values(Chars(s)) == s
  {
    if s != [] {
      assert Chars(s)[1..] == Chars(s[1..]);
      CharsRoundTrip(s[1..]);
    }
  }

  lemma Base64UrlRoundTrip(b: Bytes)
    ensures FromBase64Url(ToBase64Url(b)) == b
  {
    CharsRoundTrip(Sextets(b));
    SextetRoundTrip(b);
  }

  /** The source's private alphabet is a 64-character literal: it is the RFC's table. */
  lemma AlphabetIsUrl(v: Sextet)
    ensures var alphabet := "ABCDEFGHIJKLM" + "NOPQRSTUVWXYZ" + "abcdefghijklm" + "nopqrstuvwxyz" + "0123456789-_";
            |alphabet| == 64 && alphabet[v as int] == UrlChar(v)
  {
    var n := v as int;
    var alphabet := "ABCDEFGHIJKLM" + "NOPQRSTUVWXYZ" + "abcdefghijklm" + "nopqrstuvwxyz" + "0123456789-_";
    if n < 13 {
      assert alphabet[n] == "ABCDEFGHIJKLM"[n];
    } else if n < 26 {
      assert alphabet[n] == "NOPQRSTUVWXYZ"[n - 13];
    } else if n < 39 {
      assert alphabet[n] == "abcdefghijklm"[n - 26];
    } else if n < 52 {
      assert alphabet[n] == "nopqrstuvwxyz"[n - 39];
    } else {
      assert alphabet[n] == "0123456789-_"[n - 52];
    }
  }

  // ---------------------------------------------------------------- zero-width expansion

  /** The four zero-width symbols, used as base-4 digits. */
  function Symbol(d: nat): CodeUnit
    requires d < 4
  {
    if d == 0 then 0x200B else if d == 1 then 0x200C else if d == 2 then 0x200D else 0x2060
  }

  function Digit(u: CodeUnit): (d: int)
    ensures -1 <= d < 4
    ensures d >= 0 ==> Symbol(d) == u
  {
    if u == 0x200B then 0 else if u == 0x200C then 1 else if u == 0x200D then 2 else if u == 0x2060 then 3 else -1
  }

  function Triple(v: Sextet): (t: Text)
    ensures |t| == 3
  {
    var n := v as int;
    [Symbol(n / 16 % 4), Symbol(n / 4 % 4), Symbol(n % 4)]
  }

  /** Base64url output, three symbols a character; every lookup succeeds. */
  function Expand(encoded: string): (t: Text)
    requires forall c :: c in encoded ==> UrlValue(c).Some?
    ensures |t| == 3 * |encoded|
  {
    if encoded == [] then [] else Triple(UrlValue(encoded[0]).value) + Expand(encoded[1..])
  }

  /** Any code unit outside the four symbols makes the whole payload unreadable. */
  function Collapse(hidden: Text): Option<string>
    requires |hidden| % 3 == 0
  {
    if hidden == [] then Some("") else
    var x, y, z := Digit(hidden[0]), Digit(hidden[1]), Digit(hidden[2]);
    if x < 0 || y < 0 || z < 0 then None else
    match Collapse(hidden[3..])
    case None => None
    case Some(rest) => Some([UrlChar((16 * x + 4 * y + z) as Sextet)] + rest)
  }

  lemma TripleDigits(v: Sextet)
    ensures var t := Triple(v);
            && Digit(t[0]) >= 0 && Digit(t[1]) >= 0 && Digit(t[2]) >= 0
            && 16 * Digit(t[0]) + 4 * Digit(t[1]) + Digit(t[2]) == v as int
  {
  }

  lemma CollapseStep(v: Sextet, rest: Text)
    requires |rest| % 3 == 0
    ensures Collapse(Triple(v) + rest)
         == match Collapse(rest) case None => None case Some(t) => Some([UrlChar(v)] + t)
  {
    TripleDigits(v);
    assert (Triple(v) + rest)[3..] == rest;
  }

  lemma ExpandStep(v: Sextet, rest: string)
    requires forall c :: c in rest ==> UrlValue(c).Some?
    ensures UrlValue(UrlChar(v)) == Some(v)
    ensures forall c :: c in [UrlChar(v)] + rest ==> UrlValue(c).Some?
    ensures Expand([UrlChar(v)] + rest) == Triple(v) + Expand(rest)
  {
    var t := [UrlChar(v)] + rest;
    assert t[0] == UrlChar(v) && t[1..] == rest;
  }

  lemma {:induction false} ExpandCollapse(s: seq<Sextet>)
    ensures forall c :: c in Chars(s) ==> UrlValue(c).Some?
    ensures Collapse(Expand(Chars(s))) == Some(Chars(s))
    ensures OnlySymbols(Expand(Chars(s)))
  {
    if s != [] {
      ExpandCollapse(s[1..]);
      ExpandStep(s[0], Chars(s[1..]));
      CollapseStep(s[0], Expand(Chars(s[1..])));
      TripleDigits(s[0]);
    }
  }

  ghost predicate OnlySymbols(t: Text) {
    forall u :: u in t ==> Digit(u) >= 0
  }

  // ---------------------------------------------------------------- markers

  predicate MarkerAt(text: Text, marker: Text, i: int)
    requires |marker| == 2
  {
    0 <= i && i + 2 <= |text| && text[i] == marker[0] && text[i + 1] == marker[1]
  }

  predicate HasMarker(text: Text, marker: Text)
    requires |marker| == 2
  {
    exists i :: 0 <= i < |text| && MarkerAt(text, marker, i)
  }

  /** The first occurrence at or after `from`, or -1. */
  function FindMarker(text: Text, marker: Text, from: nat): (i: int)
    requires |marker| == 2
    ensures i == -1 || (from <= i && MarkerAt(text, marker, i))
    ensures forall k :: from <= k < (if i < 0 then |text| else i) ==> !MarkerAt(text, marker, k)
    decreases |text| - from
  {
    if from + 2 > |text| then -1
    else if MarkerAt(text, marker, from) then from
    else FindMarker(text, marker, from + 1)
  }

  function HiddenBody(b: Bytes): (t: Text)
    ensures |t| == 3 * ((4 * |b| + 2) / 3)
    ensures OnlySymbols(t)
  {
    ExpandCollapse(Sextets(b));
    Expand(ToBase64Url(b))
  }

  function HiddenEncode(b: Bytes): (t: Text)
    ensures |t| == 4 + 3 * ((4 * |b| + 2) / 3)
  {
    Embed(HiddenBody(b))
  }

  function Embed(body: Text): (t: Text)
    ensures |t| == |body| + 4
  {
    EVENT_START + body + EVENT_END
  }

  /**
   * What the lazy regular expression captures: from the leftmost start marker to the nearest end
   * marker after it.
   */
  function Captured(content: Text): Option<Text> {
    var start := FindMarker(content, EVENT_START, 0);
    if start < 0 then None else
    var end := FindMarker(content, EVENT_END, start + 2);
    if end < 0 then None else Some(content[start + 2..end])
  }

  /**
   * Splitting the captured payload into code points instead of code units changes nothing: a
   * surrogate is no symbol, so a payload holding one is unreadable either way.
   */
  function ReadPayload(payload: Text): Option<Bytes> {
    if payload == [] || |payload| % 3 != 0 then None else
    match Collapse(payload)
    case None => None
    case Some(encoded) => Some(FromBase64Url(encoded))
  }

  function HiddenDecode(content: Text): Option<Bytes> {
    match Captured(content)
    case None => None
    case Some(payload) => ReadPayload(payload)
  }

  lemma FirstMarker(text: Text, from: nat, marker: Text, at: nat)
    requires |marker| == 2 && marker[0] != marker[1]
    requires from <= at && MarkerAt(text, marker, at)
    requires forall k :: from <= k < at - 1 ==> !MarkerAt(text, marker, k)
    ensures FindMarker(text, marker, from) == at
  {
    assert !MarkerAt(text, marker, at - 1);
  }

  /** Neither marker can straddle the seams of `prefix`, the payload and what follows. */
  lemma CapturesBody(prefix: Text, body: Text, suffix: Text)
    requires !HasMarker(prefix, EVENT_START)
    requires OnlySymbols(body)
    ensures Captured(prefix + Embed(body) + suffix) == Some(body)
  {
    var content := prefix + Embed(body) + suffix;
    var p, e := |prefix|, |prefix| + 2 + |body|;
    assert content[p] == EVENT_START[0] && content[p + 1] == EVENT_START[1];
    forall k | 0 <= k < p - 1 ensures !MarkerAt(content, EVENT_START, k) {
      assert content[k] == prefix[k] && content[k + 1] == prefix[k + 1];
      assert !MarkerAt(prefix, EVENT_START, k);
    }
    FirstMarker(content, 0, EVENT_START, p);
    assert content[e] == EVENT_END[0] && content[e + 1] == EVENT_END[1];
    forall k | p + 2 <= k < e - 1 ensures !MarkerAt(content, EVENT_END, k) {
      assert content[k] == body[k - p - 2];
      assert body[k - p - 2] in body;
    }
    FirstMarker(content, p + 2, EVENT_END, e);
    assert content[p + 2..e] == body;
  }

  lemma PayloadRoundTrip(b: Bytes)
    ensures ReadPayload(HiddenBody(b)) == if b == [] then None else Some(b)
  {
    var s := Sextets(b);
    ExpandCollapse(s);
    Base64UrlRoundTrip(b);
    CollapsedReads(Chars(s), Expand(Chars(s)));
  }

  lemma CollapsedReads(encoded: string, payload: Text)
    requires |payload| == 3 * |encoded| && Collapse(payload) == Some(encoded)
    ensures ReadPayload(payload) == if encoded == [] then None else Some(FromBase64Url(encoded))
  {
  }

  /**
   * Decoding inverts encoding inside any surrounding text whose prefix holds no start marker. The
   * empty byte string is the one value that does not come back.
   */
  lemma HiddenRoundTrip(prefix: Text, b: Bytes, suffix: Text)
    requires !HasMarker(prefix, EVENT_START)
    ensures HiddenDecode(prefix + HiddenEncode(b) + suffix) == if b == [] then None else Some(b)
  {
    PayloadRoundTrip(b);
    CapturesBody(prefix, HiddenBody(b), suffix);
  }
}
