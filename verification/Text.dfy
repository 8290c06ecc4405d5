/** Text helpers the handlers rely on: trimming, decimal numbers, JSON strings
    (RFC 8259, section 7) and the invoice payload built from them. */
module Text {

  datatype Option<+T> = None | Some(value: T)

  // ---------- white space ----------

  /** White space as Go's unicode.IsSpace defines it. */
  predicate IsSpace(c: char) {
    var n := c as int;
    || 9 <= n <= 13 || n == 0x20 || n == 0x85 || n == 0xA0 || n == 0x1680
    || 0x2000 <= n <= 0x200A || n == 0x2028 || n == 0x2029 || n == 0x202F || n == 0x205F || n == 0x3000
  }

  /** The characters that Unicode 15 gives the property White_Space. */
  const WHITE_SPACE: set<char> := {
    '\t', '\n', '\U{0B}', '\U{0C}', '\r', ' ', '\U{85}', '\U{A0}', '\U{1680}', '\U{2000}', '\U{2001}', '\U{2002}',
    '\U{2003}', '\U{2004}', '\U{2005}', '\U{2006}', '\U{2007}', '\U{2008}', '\U{2009}', '\U{200A}', '\U{2028}',
    '\U{2029}', '\U{202F}', '\U{205F}', '\U{3000}'
  }

  lemma SpacesExactly(c: char)
    ensures IsSpace(c) <==> c in WHITE_SPACE
  {
  }

  function TrimLeft(s: string): string {
    if s != [] && IsSpace(s[0]) then TrimLeft(s[1..]) else s
  }

  function TrimRight(s: string): string {
    if s != [] && IsSpace(s[|s| - 1]) then TrimRight(s[..|s| - 1]) else s
  }

  function TrimSpace(s: string): string {
    TrimRight(TrimLeft(s))
  }

  lemma {:induction false} TrimRightKeepsHead(s: string)
    requires s != [] && !IsSpace(s[0])
    ensures TrimRight(s) != [] && TrimRight(s)[0] == s[0]
  {
    if IsSpace(s[|s| - 1]) {
      TrimRightKeepsHead(s[..|s| - 1]);
    }
  }

  lemma {:induction false} TrimLeftStops(s: string)
    ensures TrimLeft(s) == [] || !IsSpace(TrimLeft(s)[0])
  {
    if s != [] && IsSpace(s[0]) {
      TrimLeftStops(s[1..]);
    }
  }

  lemma {:induction false} TrimRightStops(s: string)
    ensures TrimRight(s) == [] || !IsSpace(TrimRight(s)[|TrimRight(s)| - 1])
  {
    if s != [] && IsSpace(s[|s| - 1]) {
      TrimRightStops(s[..|s| - 1]);
    }
  }

  /** Trimming a trimmed string changes nothing. */
  lemma TrimSpaceIdempotent(s: string)
    ensures TrimSpace(TrimSpace(s)) == TrimSpace(s)
  {
    TrimLeftStops(s);
    TrimRightStops(TrimLeft(s));
    if TrimLeft(s) != [] {
      TrimRightKeepsHead(TrimLeft(s));
    }
  }

  /** What trimming leaves: the text without the white space at either end, and without nothing else. */
  lemma TrimSpaceExactly(s: string) returns (i: nat, j: nat)
    ensures i <= j <= |s| && TrimSpace(s) == s[i..j]
    ensures forall k | 0 <= k < i || j <= k < |s| :: IsSpace(s[k])
    ensures i < j ==> !IsSpace(s[i]) && !IsSpace(s[j - 1])
  {
    i := TrimLeftExactly(s);
    var t := s[i..];
    j := TrimRightExactly(t);
    TrimLeftStops(s);
    TrimRightStops(t);
    assert t[..j] == s[i..i + j];
    forall k | i + j <= k < |s|
      ensures IsSpace(s[k])
    {
      assert s[k] == t[k - i];
    }
    if j > 0 {
      assert t[0] == s[i] && t[j - 1] == s[i + j - 1];
    }
    j := i + j;
  }

  lemma {:induction false} TrimLeftExactly(s: string) returns (i: nat)
    ensures i <= |s| && TrimLeft(s) == s[i..] && forall k | 0 <= k < i :: IsSpace(s[k])
  {
    if s != [] && IsSpace(s[0]) {
      var j := TrimLeftExactly(s[1..]);
      i := j + 1;
      assert s[1..][j..] == s[i..];
      forall k | 0 <= k < i
        ensures IsSpace(s[k])
      {
        assert k > 0 ==> s[k] == s[1..][k - 1];
      }
    } else {
      i := 0;
    }
  }

  lemma {:induction false} TrimRightExactly(s: string) returns (j: nat)
    ensures j <= |s| && TrimRight(s) == s[..j] && forall k | j <= k < |s| :: IsSpace(s[k])
  {
    if s != [] && IsSpace(s[|s| - 1]) {
      var last := |s| - 1;
      j := TrimRightExactly(s[..last]);
      assert s[..last][..j] == s[..j];
      forall k | j <= k < |s|
        ensures IsSpace(s[k])
      {
        assert k < last ==> s[k] == s[..last][k];
      }
    } else {
      j := |s|;
      assert s[..j] == s;
    }
  }

  predicate Blank(s: string) {
    forall i | 0 <= i < |s| :: IsSpace(s[i])
  }

  /** A text is trimmed to nothing if and only if it is all white space. */
  lemma TrimmedToNothing(s: string)
    ensures TrimSpace(s) == "" <==> Blank(s)
  {
    var i, j := TrimSpaceExactly(s);
  }

  predicate EndsWith(s: string, t: string) {
    |t| <= |s| && s[|s| - |t|..] == t
  }

  // ---------- decimal numbers ----------

  function Digit(n: nat): char
    requires n < 10
  {
    ('0' as int + n) as char
  }

  function DecimalNat(n: nat): string {
    if n < 10 then [Digit(n)] else DecimalNat(n / 10) + [Digit(n % 10)]
  }

  function Decimal(n: int): string {
    if n < 0 then "-" + DecimalNat(-n) else DecimalNat(n)
  }

  lemma {:induction false} DecimalNatStartsWithDigit(n: nat)
    ensures DecimalNat(n) != [] && DecimalNat(n)[0] != '-'
  {
    if n >= 10 {
      DecimalNatStartsWithDigit(n / 10);
    }
  }

  lemma {:induction false} DecimalNatInjective(a: nat, b: nat)
    requires DecimalNat(a) == DecimalNat(b)
    ensures a == b
  {
    DecimalNatStartsWithDigit(a / 10);
    DecimalNatStartsWithDigit(b / 10);
    var s, t := DecimalNat(a), DecimalNat(b);
    assert s[|s| - 1] == Digit(a % 10) && t[|t| - 1] == Digit(b % 10);
    if a >= 10 && b >= 10 {
      assert s[..|s| - 1] == DecimalNat(a / 10) && t[..|t| - 1] == DecimalNat(b / 10);
      DecimalNatInjective(a / 10, b / 10);
    }
  }

  lemma DecimalInjective(a: int, b: int)
    requires Decimal(a) == Decimal(b)
    ensures a == b
  {
    DecimalNatStartsWithDigit(if a < 0 then -a else a);
    DecimalNatStartsWithDigit(if b < 0 then -b else b);
    if a < 0 && b < 0 {
      assert Decimal(a)[1..] == DecimalNat(-a) && Decimal(b)[1..] == DecimalNat(-b);
      DecimalNatInjective(-a, -b);
    } else if a >= 0 && b >= 0 {
      DecimalNatInjective(a, b);
    }
  }

  // ---------- JSON strings ----------

  function HexDigit(n: nat): char
    requires n < 16
  {
    "0123456789abcdef"[n]
  }

  function HexValue(c: char): Option<nat> {
    if '0' <= c <= '9' then Some(c as int - '0' as int)
    else if 'a' <= c <= 'f' then Some(c as int - 'a' as int + 10)
    else if 'A' <= c <= 'F' then Some(c as int - 'A' as int + 10)
    else None
  }

  /** The body of a six-character escape for a code point below 0x100, or for the
      two line separators. */
  function UnicodeEscape(c: char): string
    requires c as int < 0x100 || c as int == 0x2028 || c as int == 0x2029
  {
    if c as int < 0x100
    then "\\u00" + [HexDigit(c as int / 16), HexDigit(c as int % 16)]
    else "\\u202" + [HexDigit(c as int % 16)]
  }

  /** One character as Go's json.Marshal writes it inside a string (HTML-safe mode). */
  function EscapeChar(c: char): string {
    if c == '"' || c == '\\' then ['\\', c]
    else if c as int == 8 then "\\b"
    else if c as int == 12 then "\\f"
    else if c == '\n' then "\\n"
    else if c == '\r' then "\\r"
    else if c == '\t' then "\\t"
    else if c as int < 0x20 || c == '<' || c == '>' || c == '&' || c as int == 0x2028 || c as int == 0x2029
    then UnicodeEscape(c)
    else [c]
  }

  function Escape(s: string): string {
    if s == [] then [] else EscapeChar(s[0]) + Escape(s[1..])
  }

  datatype Scanned<+T> = Scanned(value: T, rest: string)

  /** Four hexadecimal digits as a code point; surrogates are not characters. */
  function ScanHex4(s: string): Option<Scanned<char>> {
    if |s| < 4 then None
    else match (HexValue(s[0]), HexValue(s[1]), HexValue(s[2]), HexValue(s[3]))
      case (Some(a), Some(b), Some(c), Some(d)) =>
        var n := 4096 * a + 256 * b + 16 * c + d;
        if 0 <= n < 0xD800 || 0xE000 <= n < 0x10000 then Some(Scanned(n as char, s[4..])) else None
      case _ => None
  }

  /** One possibly escaped character of a JSON string, read by the grammar of RFC 8259. */
  function ScanChar(s: string): Option<Scanned<char>> {
    if s == [] || s[0] == '"' || s[0] as int < 0x20 then None
    else if s[0] != '\\' then Some(Scanned(s[0], s[1..]))
    else if |s| < 2 then None
    else match s[1]
      case '"' => Some(Scanned('"', s[2..]))
      case '\\' => Some(Scanned('\\', s[2..]))
      case '/' => Some(Scanned('/', s[2..]))
      case 'b' => Some(Scanned(8 as char, s[2..]))
      case 'f' => Some(Scanned(12 as char, s[2..]))
      case 'n' => Some(Scanned('\n', s[2..]))
      case 'r' => Some(Scanned('\r', s[2..]))
      case 't' => Some(Scanned('\t', s[2..]))
      case 'u' => ScanHex4(s[2..])
      case _ => None
  }

  /** The characters of a JSON string up to its closing quotation mark. */
  function ScanString(s: string): Option<Scanned<string>>
    decreases |s|
  {
    if s != [] && s[0] == '"' then Some(Scanned("", s[1..]))
    else match ScanChar(s)
      case None => None
      case Some(c) =>
        if |c.rest| >= |s| then None
        else match ScanString(c.rest)
          case None => None
          case Some(t) => Some(Scanned([c.value] + t.value, t.rest))
  }

  lemma HexRoundTrip(n: nat)
    requires n < 16
    ensures HexValue(HexDigit(n)) == Some(n)
  {
  }

  lemma ScanHex4Digits(t: string, a: nat, b: nat, c: nat, d: nat)
    requires a < 0xD && b < 16 && c < 16 && d < 16
    requires |t| >= 4 && t[0] == HexDigit(a) && t[1] == HexDigit(b) && t[2] == HexDigit(c) && t[3] == HexDigit(d)
    ensures ScanHex4(t) == Some(Scanned((4096 * a + 256 * b + 16 * c + d) as char, t[4..]))
  {
    HexRoundTrip(a);
    HexRoundTrip(b);
    HexRoundTrip(c);
    HexRoundTrip(d);
  }

  lemma LowDigits(c: char)
    requires c as int < 0x100
    ensures ScanHex4(UnicodeEscape(c)[2..]) == Some(Scanned(c, []))
  {
    var n := c as int;
    var t := UnicodeEscape(c)[2..];
    assert t == [HexDigit(0), HexDigit(0), HexDigit(n / 16), HexDigit(n % 16)];
    assert t[4..] == [];
    ScanHex4Digits(t, 0, 0, n / 16, n % 16);
  }

  lemma LineSeparatorDigits(c: char)
    requires c as int == 0x2028 || c as int == 0x2029
    ensures ScanHex4(UnicodeEscape(c)[2..]) == Some(Scanned(c, []))
  {
    var n := c as int;
    var t := UnicodeEscape(c)[2..];
    assert t == [HexDigit(2), HexDigit(0), HexDigit(2), HexDigit(n % 16)];
    assert t[4..] == [];
    ScanHex4Digits(t, 2, 0, 2, n % 16);
  }

  /** The digits after the two characters that introduce an escape. */
  lemma EscapeDigits(c: char)
    requires c as int < 0x100 || c as int == 0x2028 || c as int == 0x2029
    ensures var e := UnicodeEscape(c); |e| == 6 && e[0] == '\\' && e[1] == 'u'
    ensures ScanHex4(UnicodeEscape(c)[2..]) == Some(Scanned(c, []))
  {
    if c as int < 0x100 {
      LowDigits(c);
    } else {
      LineSeparatorDigits(c);
    }
  }

  lemma ScanHex4Rest(t: string, rest: string)
    requires |t| == 4 && ScanHex4(t).Some?
    ensures ScanHex4(t + rest) == Some(Scanned(ScanHex4(t).value.value, rest))
  {
    assert (t + rest)[4..] == rest;
  }

  lemma UnicodeEscapeScans(c: char, rest: string)
    requires c as int < 0x100 || c as int == 0x2028 || c as int == 0x2029
    ensures ScanChar(UnicodeEscape(c) + rest) == Some(Scanned(c, rest))
  {
    EscapeDigits(c);
    ScanHex4Rest(UnicodeEscape(c)[2..], rest);
    var s := UnicodeEscape(c) + rest;
    assert s[2..] == UnicodeEscape(c)[2..] + rest;
    assert ScanChar(s) == ScanHex4(s[2..]);
  }

  lemma EscapeCharScans(c: char, rest: string)
    ensures EscapeChar(c) != [] && EscapeChar(c)[0] != '"'
    ensures ScanChar(EscapeChar(c) + rest) == Some(Scanned(c, rest))
  {
    var e := EscapeChar(c);
    var s := e + rest;
    assert s[|e|..] == rest;
    if |e| == 6 {
      UnicodeEscapeScans(c, rest);
    } else if |e| == 2 {
      assert s[0] == '\\' && s[1] == e[1];
    }
  }

  lemma EscapeHead(s: string, rest: string)
    requires s != []
    ensures Escape(s) + "\"" + rest == EscapeChar(s[0]) + (Escape(s[1..]) + "\"" + rest)
  {
  }

  lemma ScanStringFirst(s: string, c: char, rest: string)
    requires s != [] && s[0] != '"' && |rest| < |s| && ScanChar(s) == Some(Scanned(c, rest))
    requires ScanString(rest).Some?
    ensures ScanString(s) == Some(Scanned([c] + ScanString(rest).value.value, ScanString(rest).value.rest))
  {
  }

  /** Reading back a written string gives the string and exactly what followed it. */
  lemma {:induction false} EscapeRoundTrip(s: string, rest: string)
    ensures ScanString(Escape(s) + "\"" + rest) == Some(Scanned(s, rest))
  {
    if s == [] {
      assert Escape(s) + "\"" + rest == "\"" + rest;
    } else {
      var tail := Escape(s[1..]) + "\"" + rest;
      EscapeCharScans(s[0], tail);
      EscapeHead(s, rest);
      EscapeRoundTrip(s[1..], rest);
      ScanStringFirst(EscapeChar(s[0]) + tail, s[0], tail);
      assert [s[0]] + s[1..] == s;
    }
  }

  // ---------- the invoice payload ----------

  const CONTENT_KEY := "{\"content_id\":\""
  const PURCHASE_KEY := ",\"purchase_id\":\""
  const USER_KEY := ",\"user_id\":"

  /** The JSON object of an invoice; json.Marshal writes map keys in sorted order. */
  function InvoicePayload(contentId: string, purchaseId: string, userId: int): string {
    CONTENT_KEY + (Escape(contentId) + "\"" +
                   (PURCHASE_KEY + (Escape(purchaseId) + "\"" + (USER_KEY + (Decimal(userId) + "}")))))
  }

  lemma DropPrefix(p: string, a: string, b: string)
    requires p + a == p + b
    ensures a == b
  {
    assert (p + a)[|p|..] == a && (p + b)[|p|..] == b;
  }

  lemma DropSuffix(a: string, b: string, s: string)
    requires a + s == b + s
    ensures a == b
  {
    assert |a + s| == |a| + |s|;
    assert (a + s)[..|a|] == a && (b + s)[..|b|] == b;
  }

  lemma QuotedInjective(a: string, b: string, x: string, y: string)
    requires Escape(a) + "\"" + x == Escape(b) + "\"" + y
    ensures a == b && x == y
  {
    EscapeRoundTrip(a, x);
    EscapeRoundTrip(b, y);
  }

  /** Two invoices with the same payload are invoices for the same purchase, content and user. */
  lemma InvoicePayloadInjective(c1: string, p1: string, u1: int, c2: string, p2: string, u2: int)
    requires InvoicePayload(c1, p1, u1) == InvoicePayload(c2, p2, u2)
    ensures c1 == c2 && p1 == p2 && u1 == u2
  {
    var tail1 := Decimal(u1) + "}";
    var tail2 := Decimal(u2) + "}";
    var mid1 := Escape(p1) + "\"" + (USER_KEY + tail1);
    var mid2 := Escape(p2) + "\"" + (USER_KEY + tail2);
    DropPrefix(CONTENT_KEY, Escape(c1) + "\"" + (PURCHASE_KEY + mid1), Escape(c2) + "\"" + (PURCHASE_KEY + mid2));
    QuotedInjective(c1, c2, PURCHASE_KEY + mid1, PURCHASE_KEY + mid2);
    DropPrefix(PURCHASE_KEY, mid1, mid2);
    QuotedInjective(p1, p2, USER_KEY + tail1, USER_KEY + tail2);
    DropPrefix(USER_KEY, tail1, tail2);
    DropSuffix(Decimal(u1), Decimal(u2), "}");
    DecimalInjective(u1, u2);
  }
}
