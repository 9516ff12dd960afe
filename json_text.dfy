/**
 * `json.dumps(names, ensure_ascii=False)` for a list of strings, and a
 * reference decoder for JSON arrays of strings that reads it back.
 */
module JsonText {
  import opened Wrappers

  function HexDigit(d: nat): (c: char)
    requires d < 16
  {
    if d < 10 then ('0' as int + d) as char else ('a' as int + d - 10) as char
  }

  /**
   * How `json.dumps` writes one character inside a string literal when
   * non-ASCII output is allowed: quote, backslash and the characters
   * below U+0020 are escaped, everything else is kept.
   */
  function EscapeChar(c: char): (e: string)
    ensures forall i :: 0 <= i < |e| ==> e[i] as int >= 0x20
    ensures |e| > 0 && e[0] != '"'
  {
    if c == '"' then "\\\""
    else if c == '\\' then "\\\\"
    else if c == '\n' then "\\n"
    else if c == '\r' then "\\r"
    else if c == '\t' then "\\t"
    else if c == '\U{8}' then "\\b"
    else if c == '\U{C}' then "\\f"
    else if (c as int) < 0x20 then "\\u00" + [HexDigit(c as int / 16), HexDigit(c as int % 16)]
    else [c]
  }

  function EscapeChars(s: string): (e: string)
    ensures forall i :: 0 <= i < |e| ==> e[i] as int >= 0x20
  {
    if s == [] then [] else EscapeChar(s[0]) + EscapeChars(s[1..])
  }

  function Quote(s: string): string { "\"" + EscapeChars(s) + "\"" }

  function JoinQuoted(names: seq<string>): string
  {
    if names == [] then ""
    else if |names| == 1 then Quote(names[0])
    else Quote(names[0]) + ", " + JoinQuoted(names[1..])
  }

  /** `json.dumps(names, ensure_ascii=False)`. */
  function Dumps(names: seq<string>): (r: string)
    ensures |r| >= 2 && r[0] == '[' && r[|r| - 1] == ']'
  {
    "[" + JoinQuoted(names) + "]"
  }

  /** The dumped array never contains a character below U+0020, so no `\n` and no `\r`. */
  lemma {:induction false} DumpsIsOneLine(names: seq<string>)
    ensures forall i :: 0 <= i < |Dumps(names)| ==> Dumps(names)[i] as int >= 0x20
    ensures '\n' !in Dumps(names)
  {
    JoinQuotedPrintable(names);
  }

  lemma {:induction false} JoinQuotedPrintable(names: seq<string>)
    ensures forall i :: 0 <= i < |JoinQuoted(names)| ==> JoinQuoted(names)[i] as int >= 0x20
  {
    if |names| > 1 {
      JoinQuotedPrintable(names[1..]);
    }
  }

  // ----- reference decoder -----

  predicate IsJsonSpace(c: char) { c == ' ' || c == '\t' || c == '\n' || c == '\r' }

  function SkipSpace(s: string): (r: string)
    ensures |r| <= |s|
    ensures r != [] ==> !IsJsonSpace(r[0])
  {
    if s != [] && IsJsonSpace(s[0]) then SkipSpace(s[1..]) else s
  }

  function HexValue(c: char): Option<nat>
  {
    if '0' <= c <= '9' then Some(c as int - '0' as int)
    else if 'a' <= c <= 'f' then Some(c as int - 'a' as int + 10)
    else if 'A' <= c <= 'F' then Some(c as int - 'A' as int + 10)
    else None
  }

  /** The character of a four-digit `\u` escape; surrogate halves are refused. */
  function UnicodeEscape(h: string): Option<char>
    requires |h| == 4
  {
    match (HexValue(h[0]), HexValue(h[1]), HexValue(h[2]), HexValue(h[3]))
    case (Some(a), Some(b), Some(c), Some(d)) =>
      var v := ((a * 16 + b) * 16 + c) * 16 + d;
      if v < 0xD800 || 0xE000 <= v < 0x11_0000 then Some(v as char) else None
    case _ => None
  }

  /** One escape sequence; `s` starts just after the backslash. */
  function DecodeEscape(s: string): (r: Option<(char, string)>)
    ensures r.Some? ==> |r.value.1| < |s|
  {
    if s == [] then None
    else if s[0] == '"' then Some(('"', s[1..]))
    else if s[0] == '\\' then Some(('\\', s[1..]))
    else if s[0] == '/' then Some(('/', s[1..]))
    else if s[0] == 'b' then Some(('\U{8}', s[1..]))
    else if s[0] == 'f' then Some(('\U{C}', s[1..]))
    else if s[0] == 'n' then Some(('\n', s[1..]))
    else if s[0] == 'r' then Some(('\r', s[1..]))
    else if s[0] == 't' then Some(('\t', s[1..]))
    else if s[0] == 'u' && |s| >= 5 then
      match UnicodeEscape(s[1..5])
      case Some(c) => Some((c, s[5..]))
      case None => None
    else None
  }

  /**
   * The body of a string literal up to its closing quote, and what
   * follows the quote.
   */
  function DecodeChars(s: string): (r: Option<(string, string)>)
    ensures r.Some? ==> |r.value.1| < |s|
    decreases |s|
  {
    if s == [] then None
    else if s[0] == '"' then Some(([], s[1..]))
    else if s[0] == '\\' then
      match DecodeEscape(s[1..])
      case None => None
      case Some((c, rest)) =>
        match DecodeChars(rest)
        case None => None
        case Some((t, after)) => Some(([c] + t, after))
    else if (s[0] as int) < 0x20 then None
    else
      match DecodeChars(s[1..])
      case None => None
      case Some((t, after)) => Some(([s[0]] + t, after))
  }

  /** The elements of an array, from its first string to its closing bracket. */
  function DecodeElements(s: string): (r: Option<(seq<string>, string)>)
    ensures r.Some? ==> |r.value.1| < |s|
    decreases |s|
  {
    if s == [] || s[0] != '"' then None
    else
      match DecodeChars(s[1..])
      case None => None
      case Some((x, rest)) =>
        var t := SkipSpace(rest);
        if t != [] && t[0] == ']' then Some(([x], t[1..]))
        else if t != [] && t[0] == ',' then
          match DecodeElements(SkipSpace(t[1..]))
          case None => None
          case Some((xs, after)) => Some(([x] + xs, after))
        else None
  }

  /** A whole JSON text that is an array of strings. */
  function DecodeArray(s: string): Option<seq<string>>
  {
    var t := SkipSpace(s);
    if t == [] || t[0] != '[' then None
    else
      var u := SkipSpace(t[1..]);
      if u != [] && u[0] == ']' then
        if SkipSpace(u[1..]) == [] then Some([]) else None
      else
        match DecodeElements(u)
        case None => None
        case Some((xs, after)) => if SkipSpace(after) == [] then Some(xs) else None
  }

  // ----- round trip -----

  lemma HexDigitValue(d: nat)
    requires d < 16
    ensures HexValue(HexDigit(d)) == Some(d)
  {
  }

  lemma EscapeCharDecodes(c: char, tail: string)
    ensures DecodeChars(EscapeChar(c) + tail) ==
      match DecodeChars(tail)
      case None => None
      case Some((t, after)) => Some(([c] + t, after))
  {
    var e := EscapeChar(c);
    if c == '"' || c == '\\' || c == '\n' || c == '\r' || c == '\t' || c == '\U{8}' || c == '\U{C}' {
      assert (e + tail)[0] == '\\' && (e + tail)[1..] == [e[1]] + tail;
    } else if (c as int) < 0x20 {
      var v := c as int;
      HexDigitValue(v / 16);
      HexDigitValue(v % 16);
      var s := e + tail;
      assert s[1..] == "u00" + [HexDigit(v / 16), HexDigit(v % 16)] + tail;
      assert s[1..][1..5] == "00" + [HexDigit(v / 16), HexDigit(v % 16)];
      assert s[1..][5..] == tail;
      assert UnicodeEscape(s[1..][1..5]) == Some(c);
    } else {
      assert (e + tail)[1..] == tail;
    }
  }

  /** The body `json.dumps` writes for `x` reads back as `x`. */
  lemma {:induction false} EscapeCharsDecode(x: string, rest: string)
    ensures DecodeChars(EscapeChars(x) + "\"" + rest) == Some((x, rest))
  {
    if x == [] {
      assert (EscapeChars(x) + "\"" + rest)[1..] == rest;
    } else {
      EscapeCharsDecode(x[1..], rest);
      assert EscapeChars(x) + "\"" + rest == EscapeChar(x[0]) + (EscapeChars(x[1..]) + "\"" + rest);
      EscapeCharDecodes(x[0], EscapeChars(x[1..]) + "\"" + rest);
      assert [x[0]] + x[1..] == x;
    }
  }

  lemma ElementThenClose(s: string, x: string, rest: string)
    requires s != [] && s[0] == '"' && DecodeChars(s[1..]) == Some((x, "]" + rest))
    ensures DecodeElements(s) == Some(([x], rest))
  {
    assert SkipSpace("]" + rest) == "]" + rest;
    assert ("]" + rest)[1..] == rest;
  }

  lemma ElementThenComma(s: string, x: string, tail: string, xs: seq<string>, rest: string)
    requires s != [] && s[0] == '"' && DecodeChars(s[1..]) == Some((x, ", " + tail))
    requires tail != [] && tail[0] == '"' && DecodeElements(tail) == Some((xs, rest))
    ensures DecodeElements(s) == Some(([x] + xs, rest))
  {
    assert SkipSpace(", " + tail) == ", " + tail;
    assert (", " + tail)[1..] == " " + tail;
    assert SkipSpace(" " + tail) == tail by {
      assert (" " + tail)[1..] == tail;
    }
  }

  lemma DropQuote(a: string, b: string)
    ensures ("\"" + a + "\"" + b)[0] == '"'
    ensures ("\"" + a + "\"" + b)[1..] == a + "\"" + b
  {
  }

  lemma QuotedOnly(x: string, rest: string)
    ensures var s := JoinQuoted([x]) + "]" + rest;
      s != [] && s[0] == '"' && s[1..] == EscapeChars(x) + "\"" + ("]" + rest)
  {
    var e := EscapeChars(x);
    assert JoinQuoted([x]) + "]" + rest == "\"" + e + "\"" + ("]" + rest);
    DropQuote(e, "]" + rest);
  }

  lemma SeparatedAssoc(e: string, j: string, rest: string)
    ensures ("\"" + e + "\"") + ", " + j + "]" + rest == "\"" + e + "\"" + (", " + (j + "]" + rest))
  {
  }

  lemma QuotedFirst(names: seq<string>, rest: string)
    requires |names| > 1
    ensures var s := JoinQuoted(names) + "]" + rest;
      s != [] && s[0] == '"'
      && s[1..] == EscapeChars(names[0]) + "\"" + (", " + (JoinQuoted(names[1..]) + "]" + rest))
  {
    var e, j := EscapeChars(names[0]), JoinQuoted(names[1..]);
    assert JoinQuoted(names) == Quote(names[0]) + ", " + j;
    SeparatedAssoc(e, j, rest);
    DropQuote(e, ", " + (j + "]" + rest));
  }

  lemma JoinQuotedFirstChar(names: seq<string>)
    requires names != []
    ensures JoinQuoted(names) != [] && JoinQuoted(names)[0] == '"'
  {
  }

  lemma {:induction false} JoinQuotedDecodes(names: seq<string>, rest: string)
    requires names != []
    ensures DecodeElements(JoinQuoted(names) + "]" + rest) == Some((names, rest))
  {
    var x := names[0];
    var s := JoinQuoted(names) + "]" + rest;
    if |names| == 1 {
      assert names == [x];
      SingleDecodes(x, rest);
    } else {
      var tail := JoinQuoted(names[1..]) + "]" + rest;
      QuotedFirst(names, rest);
      EscapeCharsDecode(x, ", " + tail);
      JoinQuotedDecodes(names[1..], rest);
      JoinQuotedFirstChar(names[1..]);
      ElementThenComma(s, x, tail, names[1..], rest);
      assert [x] + names[1..] == names;
    }
  }

  lemma SingleDecodes(x: string, rest: string)
    ensures DecodeElements(JoinQuoted([x]) + "]" + rest) == Some(([x], rest))
  {
    QuotedOnly(x, rest);
    EscapeCharsDecode(x, "]" + rest);
    ElementThenClose(JoinQuoted([x]) + "]" + rest, x, rest);
  }

  /** Any list of class names survives `json.dumps` and a JSON decode unchanged. */
  lemma DumpsRoundTrip(names: seq<string>)
    ensures DecodeArray(Dumps(names)) == Some(names)
  {
    if names == [] {
      EmptyRoundTrip();
    } else {
      var s := Dumps(names);
      DumpsShape(names);
      JoinQuotedDecodes(names, "");
      ArrayOfElements(s, names);
    }
  }

  lemma EmptyRoundTrip()
    ensures DecodeArray(Dumps([])) == Some([])
  {
    var s := Dumps([]);
    assert s == "[]";
    assert SkipSpace(s) == s && SkipSpace(s[1..]) == s[1..] && SkipSpace(s[2..]) == [];
  }

  lemma DumpsShape(names: seq<string>)
    requires names != []
    ensures |Dumps(names)| > 1 && Dumps(names)[0] == '[' && Dumps(names)[1] == '"'
    ensures Dumps(names)[1..] == JoinQuoted(names) + "]" + ""
  {
    JoinQuotedFirstChar(names);
    Bracketed(JoinQuoted(names));
  }

  lemma Bracketed(j: string)
    requires j != [] && j[0] == '"'
    ensures var s := "[" + j + "]";
      |s| > 1 && s[0] == '[' && s[1] == '"' && s[1..] == j + "]" + ""
  {
  }

  /** "[" followed by decodable elements that end the text is that array. */
  lemma ArrayOfElements(s: string, names: seq<string>)
    requires |s| > 1 && s[0] == '[' && s[1] == '"'
    requires DecodeElements(s[1..]) == Some((names, ""))
    ensures DecodeArray(s) == Some(names)
  {
    assert SkipSpace(s) == s;
    assert SkipSpace(s[1..]) == s[1..];
    assert SkipSpace("") == "";
  }
}
