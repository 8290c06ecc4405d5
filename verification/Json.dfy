/** The invoice payload read back as the JSON object it is (RFC 8259, sections 4, 6 and 7). */
module Json {
  import opened Text

  datatype Value = Str(text: string) | Num(number: int)

  // ---------- numbers ----------

  predicate IsDigit(c: char) {
    '0' <= c <= '9'
  }

  /** The digits at the front, appended to the number read so far. */
  function ScanDigits(s: string, read: int): Scanned<int> {
    if s != [] && IsDigit(s[0]) then ScanDigits(s[1..], 10 * read + (s[0] as int - '0' as int)) else Scanned(read, s)
  }

  function ScanNumber(s: string): Option<Scanned<int>> {
    if s != [] && s[0] == '-' then
      if |s| > 1 && IsDigit(s[1]) then
        var n := ScanDigits(s[1..], 0);
        Some(Scanned(-n.value, n.rest))
      else None
    else if s != [] && IsDigit(s[0]) then
      var n := ScanDigits(s, 0);
      Some(Scanned(n.value, n.rest))
    else None
  }

  predicate Ends(rest: string) {
    rest == [] || !IsDigit(rest[0])
  }

  lemma {:induction false} DigitsConcat(s: string, rest: string, read: int)
    requires forall i | 0 <= i < |s| :: IsDigit(s[i])
    ensures ScanDigits(s + rest, read) == ScanDigits(rest, ScanDigits(s, read).value)
    ensures ScanDigits(s, read).rest == []
    decreases |s|
  {
    if s == [] {
      assert s + rest == rest;
    } else {
      assert (s + rest)[0] == s[0] && (s + rest)[1..] == s[1..] + rest;
      DigitsConcat(s[1..], rest, 10 * read + (s[0] as int - '0' as int));
    }
  }

  lemma {:induction false} DecimalNatDigits(n: nat)
    ensures DecimalNat(n) != [] && forall i | 0 <= i < |DecimalNat(n)| :: IsDigit(DecimalNat(n)[i])
  {
    if n >= 10 {
      DecimalNatDigits(n / 10);
    }
  }

  lemma {:induction false} DecimalNatScans(n: nat, rest: string)
    requires Ends(rest)
    ensures ScanDigits(DecimalNat(n) + rest, 0) == Scanned(n, rest)
  {
    if n < 10 {
      assert DecimalNat(n) + rest == [Digit(n)] + rest;
      assert ([Digit(n)] + rest)[1..] == rest;
    } else {
      var head, d := DecimalNat(n / 10), Digit(n % 10);
      DecimalNatDigits(n / 10);
      DecimalNatScans(n / 10, []);
      assert head + [] == head;
      assert DecimalNat(n) + rest == head + ([d] + rest);
      DigitsConcat(head, [d] + rest, 0);
      assert ([d] + rest)[0] == d && ([d] + rest)[1..] == rest;
    }
  }

  /** A written number reads back as the number. */
  lemma NumberRoundTrip(n: int, rest: string)
    requires Ends(rest)
    ensures ScanNumber(Decimal(n) + rest) == Some(Scanned(n, rest))
  {
    var m: nat := if n < 0 then -n else n;
    DecimalNatDigits(m);
    DecimalNatScans(m, rest);
    var s := DecimalNat(m) + rest;
    assert s[0] == DecimalNat(m)[0];
    if n < 0 {
      assert Decimal(n) + rest == "-" + s;
      assert ("-" + s)[1..] == s && ("-" + s)[1] == s[0];
    }
  }

  // ---------- objects ----------

  function ScanValue(s: string): Option<Scanned<Value>> {
    if s != [] && s[0] == '"' then
      match ScanString(s[1..])
      case None => None
      case Some(t) => Some(Scanned(Str(t.value), t.rest))
    else
      match ScanNumber(s)
      case None => None
      case Some(n) => Some(Scanned(Num(n.value), n.rest))
  }

  /** A quoted name, a colon and a value. */
  function ScanMember(s: string): Option<Scanned<(string, Value)>> {
    if s == [] || s[0] != '"' then None
    else match ScanString(s[1..])
      case None => None
      case Some(name) =>
        if name.rest == [] || name.rest[0] != ':' then None
        else match ScanValue(name.rest[1..])
          case None => None
          case Some(v) => Some(Scanned((name.value, v.value), v.rest))
  }

  /** The members up to the closing brace, which ends the text. */
  function ReadMembers(s: string, read: map<string, Value>): Option<map<string, Value>>
    decreases |s|
  {
    match ScanMember(s)
    case None => None
    case Some(m) =>
      var all := read[m.value.0 := m.value.1];
      if m.rest == "}" then Some(all)
      else if m.rest == [] || m.rest[0] != ',' || |m.rest| > |s| then None
      else ReadMembers(m.rest[1..], all)
  }

  function ReadObject(s: string): Option<map<string, Value>> {
    if s == [] || s[0] != '{' then None else ReadMembers(s[1..], map[])
  }

  /** A name that needs no escapes. */
  predicate Plain(s: string) {
    forall i | 0 <= i < |s| :: 'a' <= s[i] <= 'z' || s[i] == '_'
  }

  lemma PlainChar(c: char)
    requires 'a' <= c <= 'z' || c == '_'
    ensures EscapeChar(c) == [c]
  {
  }

  lemma {:induction false} PlainEscapes(s: string)
    requires Plain(s)
    ensures Escape(s) == s
  {
    if s != [] {
      PlainChar(s[0]);
      PlainEscapes(s[1..]);
      assert [s[0]] + s[1..] == s;
    }
  }

  /** The text of a member up to its value. */
  function Named(name: string): string {
    "\"" + (name + ("\"" + ":"))
  }

  lemma Assoc(a: string, b: string, c: string)
    ensures (a + b) + c == a + (b + c)
  {
  }

  lemma NamedScans(name: string, rest: string)
    requires Plain(name)
    ensures var s := Named(name) + rest; s != [] && s[0] == '"' && ScanString(s[1..]) == Some(Scanned(name, ":" + rest))
  {
    PlainEscapes(name);
    EscapeRoundTrip(name, ":" + rest);
    NamedSplit(name, "\"", ":", rest);
    AfterQuote(name + "\"" + (":" + rest));
  }

  lemma AfterQuote(t: string)
    ensures "\"" + t != [] && ("\"" + t)[0] == '"' && ("\"" + t)[1..] == t
  {
  }

  lemma NamedSplit(name: string, quote: string, colon: string, rest: string)
    ensures (quote + (name + (quote + colon))) + rest == quote + (name + quote + (colon + rest))
  {
  }

  lemma MemberScans(name: string, text: string, value: Scanned<Value>)
    requires Plain(name) && ScanValue(text) == Some(value)
    ensures ScanMember(Named(name) + text) == Some(Scanned((name, value.value), value.rest))
  {
    NamedScans(name, text);
    assert (":" + text)[1..] == text;
  }

  lemma StringScans(text: string, rest: string)
    ensures ScanValue("\"" + (Escape(text) + "\"" + rest)) == Some(Scanned(Str(text), rest))
  {
    EscapeRoundTrip(text, rest);
    assert ("\"" + (Escape(text) + "\"" + rest))[1..] == Escape(text) + "\"" + rest;
  }

  lemma NumberScans(n: int, rest: string)
    requires Ends(rest)
    ensures ScanValue(Decimal(n) + rest) == Some(Scanned(Num(n), rest))
  {
    DecimalNatDigits(if n < 0 then -n else n);
    NumberRoundTrip(n, rest);
  }

  /** The text of an object with two strings and a number. */
  function Written(n1: string, t1: string, n2: string, t2: string, n3: string, k: int): string {
    "{" + (Named(n1) + ("\"" + (Escape(t1) + "\"" +
      ("," + (Named(n2) + ("\"" + (Escape(t2) + "\"" +
        ("," + (Named(n3) + (Decimal(k) + "}"))))))))))
  }

  lemma LastMember(n: string, k: int, read: map<string, Value>)
    requires Plain(n)
    ensures ReadMembers(Named(n) + (Decimal(k) + "}"), read) == Some(read[n := Num(k)])
  {
    NumberScans(k, "}");
    MemberScans(n, Decimal(k) + "}", Scanned(Num(k), "}"));
  }

  lemma StringMember(n: string, t: string, more: string, read: map<string, Value>)
    requires Plain(n) && more != []
    ensures ReadMembers(Named(n) + ("\"" + (Escape(t) + "\"" + ("," + more))), read)
            == ReadMembers(more, read[n := Str(t)])
  {
    var text := "\"" + (Escape(t) + "\"" + ("," + more));
    StringScans(t, "," + more);
    MemberScans(n, text, Scanned(Str(t), "," + more));
    assert ("," + more)[1..] == more && "," + more != "}";
  }

  lemma WrittenReads(n1: string, t1: string, n2: string, t2: string, n3: string, k: int)
    requires Plain(n1) && Plain(n2) && Plain(n3)
    ensures ReadObject(Written(n1, t1, n2, t2, n3, k)) == Some(map[][n1 := Str(t1)][n2 := Str(t2)][n3 := Num(k)])
  {
    var s3 := Named(n3) + (Decimal(k) + "}");
    var s2 := Named(n2) + ("\"" + (Escape(t2) + "\"" + ("," + s3)));
    var s1 := Named(n1) + ("\"" + (Escape(t1) + "\"" + ("," + s2)));
    assert Written(n1, t1, n2, t2, n3, k) == "{" + s1 && ("{" + s1)[1..] == s1;
    StringMember(n1, t1, s2, map[]);
    StringMember(n2, t2, s3, map[][n1 := Str(t1)]);
    LastMember(n3, k, map[][n1 := Str(t1)][n2 := Str(t2)]);
  }

  lemma Keys()
    ensures CONTENT_KEY == "{" + (Named("content_id") + "\"")
    ensures PURCHASE_KEY == "," + (Named("purchase_id") + "\"")
    ensures USER_KEY == "," + Named("user_id")
  {
  }

  lemma Regrouped(a: string, b: string, c: string, d: string)
    ensures (a + (b + c)) + d == a + (b + (c + d))
  {
  }

  lemma PayloadWritten(content: string, purchase: string, user: int)
    ensures InvoicePayload(content, purchase, user)
            == Written("content_id", content, "purchase_id", purchase, "user_id", user)
  {
    Keys();
    var last := Decimal(user) + "}";
    Assoc(",", Named("user_id"), last);
    var s3 := USER_KEY + last;
    Regrouped(",", Named("purchase_id"), "\"", Escape(purchase) + "\"" + s3);
    var s2 := PURCHASE_KEY + (Escape(purchase) + "\"" + s3);
    Regrouped("{", Named("content_id"), "\"", Escape(content) + "\"" + s2);
  }

  /** The invoice payload is a JSON object with exactly these three members. */
  lemma PayloadReads(content: string, purchase: string, user: int)
    ensures ReadObject(InvoicePayload(content, purchase, user))
            == Some(map["content_id" := Str(content), "purchase_id" := Str(purchase), "user_id" := Num(user)])
  {
    PayloadWritten(content, purchase, user);
    WrittenReads("content_id", content, "purchase_id", purchase, "user_id", user);
  }

  // ---------- what a written string looks like ----------

  /** Neither a control character, nor one that is unsafe in HTML or JavaScript. */
  predicate Safe(c: char) {
    c as int >= 0x20 && c !in {'<', '>', '&'} && c as int != 0x2028 && c as int != 0x2029
  }

  lemma HexDigitSafe(n: nat)
    requires n < 16
    ensures Safe(HexDigit(n))
  {
  }

  lemma EscapeCharSafe(c: char)
    ensures forall i | 0 <= i < |EscapeChar(c)| :: Safe(EscapeChar(c)[i])
    ensures c in {'\n', '\r', '\t', '"', '\\'} || c as int in {8, 12} ==> |EscapeChar(c)| == 2
  {
    if |EscapeChar(c)| == 6 {
      HexDigitSafe(c as int % 16);
      if c as int < 0x100 {
        HexDigitSafe(c as int / 16);
      }
    }
  }

  /** Some of the characters that are written as an escape of six characters. */
  lemma EscapesNamed()
    ensures EscapeChar('<') == "\\u003c" && EscapeChar('\U{2028}') == "\\u2028" && EscapeChar('\U{1F}') == "\\u001f"
  {
  }

  /** Written strings hold no unsafe character. */
  lemma {:induction false} EscapeSafe(s: string)
    ensures forall i | 0 <= i < |Escape(s)| :: Safe(Escape(s)[i])
  {
    if s != [] {
      EscapeCharSafe(s[0]);
      EscapeSafe(s[1..]);
    }
  }
}
