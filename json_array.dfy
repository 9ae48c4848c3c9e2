/** JSON text of an array of strings, as JavaScript's JSON.stringify writes it, and a reader
    for that text. processRecording stores a tracking document's file ids in this form. */
module JsonArray {
  import opened Common

  function HexDigit(d: nat): (c: char)
    requires d < 16
  {
    if d < 10 then DigitChar(d) else (('a' as int) + d - 10) as char
  }

  function HexValue(c: char): Option<nat>
  {
    if '0' <= c <= '9' then Some(c as int - '0' as int)
    else if 'a' <= c <= 'f' then Some(c as int - 'a' as int + 10)
    else if 'A' <= c <= 'F' then Some(c as int - 'A' as int + 10)
    else None
  }

  /** How JSON.stringify writes one character inside a string literal. */
  function EscapeChar(c: char): (e: string)
    ensures |e| >= 1
  {
    if c == '"' then "\\\""
    else if c == '\\' then "\\\\"
    else if c == '\U{8}' then "\\b"
    else if c == '\U{C}' then "\\f"
    else if c == '\n' then "\\n"
    else if c == '\r' then "\\r"
    else if c == '\t' then "\\t"
    else if c < ' ' then "\\u00" + [HexDigit(c as int / 16), HexDigit(c as int % 16)]
    else [c]
  }

  function EscapeBody(s: string): string
  {
    if s == [] then [] else EscapeChar(s[0]) + EscapeBody(s[1..])
  }

  /** JSON.stringify of one string: the escaped characters between double quotes. */
  function EncodeString(s: string): string
  {
    "\"" + EscapeBody(s) + "\""
  }

  function JoinItems(xs: seq<string>): string
  {
    if xs == [] then []
    else if |xs| == 1 then EncodeString(xs[0])
    else EncodeString(xs[0]) + "," + JoinItems(xs[1..])
  }

  /** JSON.stringify of an array of strings. */
  function EncodeArray(xs: seq<string>): string
  {
    "[" + JoinItems(xs) + "]"
  }

  /** The character a two-character escape \\e stands for; \\u is read separately. */
  function SimpleEscape(e: char): Option<char>
  {
    if e == 'b' then Some('\U{8}') else if e == 'f' then Some('\U{C}')
    else if e == 'n' then Some('\n') else if e == 'r' then Some('\r')
    else if e == 't' then Some('\t') else if e == '"' || e == '\\' || e == '/' then Some(e)
    else None
  }

  /** The code unit four hex digits denote. */
  function HexCode(h: string): (r: Option<nat>)
    requires |h| == 4
    ensures r.Some? ==> r.value < 0x10000
  {
    match (HexValue(h[0]), HexValue(h[1]), HexValue(h[2]), HexValue(h[3]))
    case (Some(a), Some(b), Some(c), Some(d)) =>
      if a < 16 && b < 16 && c < 16 && d < 16 then Some(((a * 16 + b) * 16 + c) * 16 + d) else None
    case _ => None
  }

  /** Reads the characters of a string literal up to its closing quote; gives them and what follows. */
  function ParseBody(t: string): Option<(string, string)>
    decreases |t|, 1
  {
    if t == [] then None
    else if t[0] == '"' then Some(([], t[1..]))
    else if t[0] == '\\' then ParseEscape(t)
    else if t[0] < ' ' then None
    else Prepend(t[0], ParseBody(t[1..]))
  }

  /** Reads an escape sequence and the rest of the literal after it. */
  function ParseEscape(t: string): Option<(string, string)>
    requires t != [] && t[0] == '\\'
    decreases |t|, 0
  {
    if |t| < 2 then None
    else if t[1] == 'u' then
      if |t| < 6 then None
      else
        var code := HexCode(t[2..6]);
        if code.None? || 0xD800 <= code.value < 0xE000 then None
        else Prepend(code.value as char, ParseBody(t[6..]))
    else if SimpleEscape(t[1]).None? then None
    else Prepend(SimpleEscape(t[1]).value, ParseBody(t[2..]))
  }

  function Prepend(c: char, r: Option<(string, string)>): Option<(string, string)>
  {
    if r.None? then None else Some(([c] + r.value.0, r.value.1))
  }

  /** Reads a comma-separated list of string literals up to the closing bracket. */
  function ParseItems(t: string): Option<seq<string>>
    decreases |t|
  {
    if t == [] || t[0] != '"' then None
    else
      match ParseBody(t[1..])
      case None => None
      case Some((x, rest)) =>
        ParseBodyShrinks(t[1..]);
        if rest == "]" then Some([x])
        else if rest != [] && rest[0] == ',' then
          var more := ParseItems(rest[1..]);
          if more.None? then None else Some([x] + more.value)
        else None
  }

  /** Reads the JSON text of an array of strings with nothing after it. */
  function DecodeArray(t: string): Option<seq<string>>
  {
    if t == "[]" then Some([])
    else if t != [] && t[0] == '[' then ParseItems(t[1..])
    else None
  }

  lemma {:induction false} ParseBodyShrinks(t: string)
    ensures ParseBody(t).Some? ==> |ParseBody(t).value.1| < |t|
    decreases |t|
  {
    if t != [] && t[0] != '"' {
      if t[0] == '\\' {
        if |t| >= 2 && t[1] == 'u' && |t| >= 6 {
          ParseBodyShrinks(t[6..]);
        } else if |t| >= 2 && t[1] != 'u' {
          ParseBodyShrinks(t[2..]);
        }
      } else {
        ParseBodyShrinks(t[1..]);
      }
    }
  }

  lemma HexRoundTrip(d: nat)
    requires d < 16
    ensures HexValue(HexDigit(d)) == Some(d)
  {
  }

  /** Reading a two-character escape gives the character it stands for. */
  lemma ParseSimpleEscape(k: char, c: char, t: string)
    requires SimpleEscape(k) == Some(c)
    ensures ParseBody(['\\', k] + t) == Prepend(c, ParseBody(t))
  {
    var e := ['\\', k] + t;
    assert e[1] == k && k != 'u';
    assert e[2..] == t;
  }

  /** Reading the \\u00XY escape of a control character gives the character. */
  lemma ParseControlEscape(c: char, t: string)
    requires c < ' '
    ensures ParseBody("\\u00" + [HexDigit(c as int / 16), HexDigit(c as int % 16)] + t) == Prepend(c, ParseBody(t))
  {
    var e := "\\u00" + [HexDigit(c as int / 16), HexDigit(c as int % 16)] + t;
    HexRoundTrip(c as int / 16);
    HexRoundTrip(c as int % 16);
    assert e[2..6] == "00" + [HexDigit(c as int / 16), HexDigit(c as int % 16)];
    assert HexCode(e[2..6]) == Some(c as int);
    assert e[6..] == t;
  }

  /** Reading the escape of one character gives that character back. */
  lemma ParseEscapedChar(c: char, t: string)
    ensures ParseBody(EscapeChar(c) + t) == Prepend(c, ParseBody(t))
  {
    if c == '"' {
      ParseSimpleEscape('"', c, t);
    } else if c == '\\' {
      ParseSimpleEscape('\\', c, t);
    } else if c == '\U{8}' {
      ParseSimpleEscape('b', c, t);
    } else if c == '\U{C}' {
      ParseSimpleEscape('f', c, t);
    } else if c == '\n' {
      ParseSimpleEscape('n', c, t);
    } else if c == '\r' {
      ParseSimpleEscape('r', c, t);
    } else if c == '\t' {
      ParseSimpleEscape('t', c, t);
    } else if c < ' ' {
      ParseControlEscape(c, t);
    } else {
      var e := [c] + t;
      assert e[1..] == t;
    }
  }

  /** A closing quote ends the literal with nothing read. */
  lemma ParseClosingQuote(rest: string)
    ensures ParseBody("\"" + rest) == Some(([], rest))
  {
    assert ("\"" + rest)[1..] == rest;
  }

  /** The escaped text of a non-empty string begins with the escape of its first character. */
  lemma EscapeBodyFirst(s: string, rest: string)
    requires s != []
    ensures EscapeBody(s) + "\"" + rest == EscapeChar(s[0]) + (EscapeBody(s[1..]) + "\"" + rest)
  {
  }

  lemma {:induction false} ParseBodyRoundTrip(s: string, rest: string)
    ensures ParseBody(EscapeBody(s) + "\"" + rest) == Some((s, rest))
    decreases |s|
  {
    if s == [] {
      assert EscapeBody(s) + "\"" + rest == "\"" + rest;
      ParseClosingQuote(rest);
    } else {
      var after := EscapeBody(s[1..]) + "\"" + rest;
      ParseBodyRoundTrip(s[1..], rest);
      EscapeBodyFirst(s, rest);
      ParseEscapedChar(s[0], after);
      assert [s[0]] + s[1..] == s;
    }
  }

  /** A string literal's text starts with a quote, and after it come the escaped characters
      and the closing quote. */
  lemma EncodeStringSplit(x: string, rest: string)
    ensures (EncodeString(x) + rest)[0] == '"'
    ensures (EncodeString(x) + rest)[1..] == EscapeBody(x) + "\"" + rest
  {
  }

  /** ParseItems after a literal that is followed by a comma. */
  lemma ParseItemsComma(t: string, x: string, rest: string)
    requires t != [] && t[0] == '"' && ParseBody(t[1..]) == Some((x, rest))
    requires rest != [] && rest[0] == ','
    ensures ParseItems(t) == if ParseItems(rest[1..]).None? then None else Some([x] + ParseItems(rest[1..]).value)
  {
    assert rest != "]";
  }

  /** The literal of x followed by the closing bracket reads as the one-item array [x]. */
  lemma ParseItemsLast(x: string)
    ensures ParseItems(EncodeString(x) + "]") == Some([x])
  {
    EncodeStringSplit(x, "]");
    ParseBodyRoundTrip(x, "]");
  }

  /** The literal of x followed by a comma reads as x in front of the items after the comma. */
  lemma ParseItemsMore(x: string, more: string)
    ensures ParseItems(EncodeString(x) + "," + more) ==
      if ParseItems(more).None? then None else Some([x] + ParseItems(more).value)
  {
    var rest := "," + more;
    var t := EncodeString(x) + rest;
    assert EncodeString(x) + "," + more == t;
    EncodeStringSplit(x, rest);
    ParseBodyRoundTrip(x, rest);
    assert rest[1..] == more;
    ParseItemsComma(t, x, rest);
  }

  lemma {:induction false} ParseItemsRoundTrip(xs: seq<string>)
    requires xs != []
    ensures ParseItems(JoinItems(xs) + "]") == Some(xs)
    decreases |xs|
  {
    if |xs| == 1 {
      assert JoinItems(xs) + "]" == EncodeString(xs[0]) + "]";
      ParseItemsLast(xs[0]);
      assert xs == [xs[0]];
    } else {
      var more := JoinItems(xs[1..]) + "]";
      assert JoinItems(xs) + "]" == EncodeString(xs[0]) + "," + more;
      ParseItemsMore(xs[0], more);
      ParseItemsRoundTrip(xs[1..]);
      assert [xs[0]] + xs[1..] == xs;
    }
  }

  /** Reading the JSON text of an array of strings gives the array back, so the text
      determines the array: two different arrays never have the same JSON text. */
  lemma EncodeArrayRoundTrip(xs: seq<string>)
    ensures DecodeArray(EncodeArray(xs)) == Some(xs)
  {
    if xs != [] {
      ParseItemsRoundTrip(xs);
      var t := EncodeArray(xs);
      assert t[1..] == JoinItems(xs) + "]";
      assert JoinItems(xs)[0] == '"';
      assert t != "[]";
    }
  }

  lemma EncodeArrayInjective(xs: seq<string>, ys: seq<string>)
    requires EncodeArray(xs) == EncodeArray(ys)
    ensures xs == ys
  {
    EncodeArrayRoundTrip(xs);
    EncodeArrayRoundTrip(ys);
  }
}
