/**
 * The signed-in user and the text `JSON.stringify(user)` stores in the
 * `user_details` cookie, with a reader for that text.
 */
module Users {
  import opened Wrappers

  /** `User`: `email` is optional and left out of the JSON text when absent. */
  datatype User = User(id: string, firstName: string, email: Option<string>, mobile: string, role: string)

  function HexDigit(d: nat): char
    requires d < 16
  {
    if d < 10 then ('0' as int + d) as char else ('a' as int + d - 10) as char
  }

  function HexValue(c: char): (r: Option<nat>)
    ensures r.Some? ==> r.value < 16
  {
    if '0' <= c <= '9' then Some(c as int - '0' as int)
    else if 'a' <= c <= 'f' then Some(c as int - 'a' as int + 10)
    else if 'A' <= c <= 'F' then Some(c as int - 'A' as int + 10)
    else None
  }

  /** How `JSON.stringify` writes one character inside a string literal. */
  function EscapeChar(c: char): string
  {
    if c == '"' then "\\\""
    else if c == '\\' then "\\\\"
    else if c == '\U{8}' then "\\b"
    else if c == '\U{C}' then "\\f"
    else if c == '\n' then "\\n"
    else if c == '\r' then "\\r"
    else if c == '\t' then "\\t"
    else if (c as int) < 0x20 then "\\u00" + [HexDigit(c as int / 16), HexDigit(c as int % 16)]
    else [c]
  }

  function Escape(s: string): string
  {
    if s == [] then "" else EscapeChar(s[0]) + Escape(s[1..])
  }

  /** `JSON.stringify(s)` for a string. */
  function Quote(s: string): string { "\"" + Escape(s) + "\"" }

  /** The `"email"` member, written only when the user has an email. */
  function EmailJson(email: Option<string>): string
  {
    if email.Some? then ",\"email\":" + Quote(email.value) else ""
  }

  function TailJson(mobile: string, role: string): string
  {
    ",\"mobile\":" + Quote(mobile) + ",\"role\":" + Quote(role) + "}"
  }

  /** `JSON.stringify(user)`, fields in declaration order. */
  function UserJson(u: User): string
  {
    "{\"id\":" + Quote(u.id) + ",\"first_name\":" + Quote(u.firstName)
    + EmailJson(u.email) + TailJson(u.mobile, u.role)
  }

  /** The character a `\uXXXX` escape names by its four hex digits, unless it is a lone surrogate. */
  function UnicodeEscape(d0: char, d1: char, d2: char, d3: char): Option<char>
  {
    var h0 :- HexValue(d0);
    var h1 :- HexValue(d1);
    var h2 :- HexValue(d2);
    var h3 :- HexValue(d3);
    var v := ((h0 * 16 + h1) * 16 + h2) * 16 + h3;
    if 0xD800 <= v <= 0xDFFF then None else Some(v as char)
  }

  /** The character a two-character escape `\e` stands for. */
  function ShortEscape(e: char): Option<char>
  {
    if e == '"' then Some('"') else if e == '\\' then Some('\\') else if e == '/' then Some('/')
    else if e == 'b' then Some('\U{8}') else if e == 'f' then Some('\U{C}')
    else if e == 'n' then Some('\n') else if e == 'r' then Some('\r')
    else if e == 't' then Some('\t') else None
  }

  /** Reads the body of a JSON string literal up to its closing quote; returns the text and what follows. */
  function ReadChars(t: string): Option<(string, string)>
    decreases |t|
  {
    if t == [] then None
    else if t[0] == '"' then Some(("", t[1..]))
    else if (t[0] as int) < 0x20 then None
    else if t[0] != '\\' then
      var (s, rest) :- ReadChars(t[1..]);
      Some(([t[0]] + s, rest))
    else if |t| < 2 then None
    else if t[1] == 'u' then
      if |t| < 6 then None
      else
        var c :- UnicodeEscape(t[2], t[3], t[4], t[5]);
        var (s, rest) :- ReadChars(t[6..]);
        Some(([c] + s, rest))
    else
      var c :- ShortEscape(t[1]);
      var (s, rest) :- ReadChars(t[2..]);
      Some(([c] + s, rest))
  }

  /** Reads one JSON string literal from the front of `t`. */
  function ReadString(t: string): Option<(string, string)>
  {
    if t != [] && t[0] == '"' then ReadChars(t[1..]) else None
  }

  /** Consumes the literal text `lit` from the front of `t`. */
  function Expect(t: string, lit: string): Option<string>
  {
    if lit <= t then Some(t[|lit|..]) else None
  }

  /** Reads back the text `UserJson` writes. */
  function ParseUserJson(t: string): Option<User>
  {
    var (id, firstName, t1) :- ParseHead(t);
    var (email, t2) :- ParseEmail(t1);
    var (mobile, role) :- ParseTail(t2);
    Some(User(id, firstName, email, mobile, role))
  }

  /** The opening brace, the `"id"` and `"first_name"` members, and what follows them. */
  function ParseHead(t: string): Option<(string, string, string)>
  {
    var t1 :- Expect(t, "{\"id\":");
    var (id, t2) :- ReadString(t1);
    var t3 :- Expect(t2, ",\"first_name\":");
    var (firstName, t4) :- ReadString(t3);
    Some((id, firstName, t4))
  }

  /** The optional `"email"` member and what follows it. */
  function ParseEmail(t: string): Option<(Option<string>, string)>
  {
    if ",\"email\":" <= t then
      var (e, rest) :- ReadString(t[|",\"email\":"|..]);
      Some((Some(e), rest))
    else Some((None, t))
  }

  /** The `"mobile"` and `"role"` members and the closing brace. */
  function ParseTail(t: string): Option<(string, string)>
  {
    var t1 :- Expect(t, ",\"mobile\":");
    var (mobile, t2) :- ReadString(t1);
    var t3 :- Expect(t2, ",\"role\":");
    var (role, t4) :- ReadString(t3);
    if t4 == "}" then Some((mobile, role)) else None
  }

  lemma ReadEscapedChar(c: char, rest: string)
    ensures ReadChars(EscapeChar(c) + rest) ==
            match ReadChars(rest)
            case None => None
            case Some((s, r)) => Some(([c] + s, r))
  {
    var t := EscapeChar(c) + rest;
    if (c as int) < 0x20 && c != '\U{8}' && c != '\U{C}' && c != '\n' && c != '\r' && c != '\t' {
      var hi, lo := c as int / 16, c as int % 16;
      assert t[2] == '0' && t[3] == '0' && t[4] == HexDigit(hi) && t[5] == HexDigit(lo);
      assert HexValue(HexDigit(hi)) == Some(hi);
      assert HexValue(HexDigit(lo)) == Some(lo);
      assert t[6..] == rest;
    } else if c == '"' || c == '\\' || c == '\U{8}' || c == '\U{C}' || c == '\n' || c == '\r' || c == '\t' {
      assert t[2..] == rest;
    } else {
      assert t[1..] == rest;
    }
  }

  /** Reading an escaped string body followed by the closing quote gives the string back. */
  lemma {:induction false} ReadEscape(s: string, rest: string)
    ensures ReadChars(Escape(s) + "\"" + rest) == Some((s, rest))
  {
    if s == [] {
      assert Escape(s) + "\"" + rest == "\"" + rest;
    } else {
      var tail := Escape(s[1..]) + "\"" + rest;
      ReadEscape(s[1..], rest);
      assert ReadChars(tail) == Some((s[1..], rest));
      assert Escape(s) + "\"" + rest == EscapeChar(s[0]) + tail;
      ReadEscapedChar(s[0], tail);
      assert [s[0]] + s[1..] == s;
    }
  }

  lemma ReadQuote(s: string, rest: string)
    ensures ReadString(Quote(s) + rest) == Some((s, rest))
  {
    var t := Quote(s) + rest;
    ReadEscape(s, rest);
    assert t[1..] == Escape(s) + "\"" + rest;
  }

  lemma ExpectLiteral(lit: string, rest: string)
    ensures Expect(lit + rest, lit) == Some(rest)
  {
    assert lit <= lit + rest;
    assert (lit + rest)[|lit|..] == rest;
  }

  lemma ParseTailJson(mobile: string, role: string)
    ensures ParseTail(TailJson(mobile, role)) == Some((mobile, role))
  {
    var t3 := Quote(role) + "}";
    var t2 := ",\"role\":" + t3;
    var t1 := Quote(mobile) + t2;
    assert TailJson(mobile, role) == ",\"mobile\":" + t1;
    ExpectLiteral(",\"mobile\":", t1);
    ReadQuote(mobile, t2);
    ExpectLiteral(",\"role\":", t3);
    ReadQuote(role, "}");
  }

  lemma ParseEmailJson(email: Option<string>, tail: string)
    requires |tail| > 2 && tail[2] == 'm'
    ensures ParseEmail(EmailJson(email) + tail) == Some((email, tail))
  {
    var t := EmailJson(email) + tail;
    var key := ",\"email\":";
    if email.Some? {
      var rest := Quote(email.value) + tail;
      assert t == key + rest;
      ExpectLiteral(key, rest);
      ReadQuote(email.value, tail);
    } else {
      assert t == tail;
      assert !(key <= t) by { assert t[2] != key[2]; }
    }
  }

  lemma ParseHeadJson(id: string, firstName: string, rest: string)
    ensures ParseHead("{\"id\":" + Quote(id) + ",\"first_name\":" + Quote(firstName) + rest)
            == Some((id, firstName, rest))
  {
    var t3 := Quote(firstName) + rest;
    var t2 := ",\"first_name\":" + t3;
    var t1 := Quote(id) + t2;
    assert "{\"id\":" + Quote(id) + ",\"first_name\":" + Quote(firstName) + rest == "{\"id\":" + t1;
    ExpectLiteral("{\"id\":", t1);
    ReadQuote(id, t2);
    ExpectLiteral(",\"first_name\":", t3);
    ReadQuote(firstName, rest);
  }

  /** The `user_details` cookie text reads back as the same user, every field included. */
  lemma UserJsonRoundTrip(u: User)
    ensures ParseUserJson(UserJson(u)) == Some(u)
  {
    var tail := TailJson(u.mobile, u.role);
    var rest := EmailJson(u.email) + tail;
    assert UserJson(u) == "{\"id\":" + Quote(u.id) + ",\"first_name\":" + Quote(u.firstName) + rest;
    ParseHeadJson(u.id, u.firstName, rest);
    ParseEmailJson(u.email, tail);
    ParseTailJson(u.mobile, u.role);
  }
}
