/**
 * Text helpers shared by the model: Python's `str(int)`, `int(str)` and the
 * `{n:03d}` format, line splitting, and the characters `\s` matches.
 */
module Text {
  import opened Wrappers

  predicate IsDigit(c: char) { '0' <= c <= '9' }

  predicate AllDigits(s: string) { forall i :: 0 <= i < |s| ==> IsDigit(s[i]) }

  function DigitChar(d: nat): (c: char)
    requires d < 10
    ensures IsDigit(c) && c as int - '0' as int == d
  {
    ('0' as int + d) as char
  }

  /** Decimal value of a string of ASCII digits, leading zeros allowed. */
  function DigitsValue(s: string): nat
    requires AllDigits(s)
  {
    if s == [] then 0
    else DigitsValue(s[..|s| - 1]) * 10 + (s[|s| - 1] as int - '0' as int)
  }

  /** `str(n)` for a natural number: shortest decimal form. */
  function NatToString(n: nat): (s: string)
    ensures |s| > 0 && AllDigits(s)
    ensures |s| > 1 ==> s[0] != '0'
  {
    if n < 10 then [DigitChar(n)] else NatToString(n / 10) + [DigitChar(n % 10)]
  }

  /** `str(i)` for any Python int. */
  function IntToString(i: int): string
  {
    if i < 0 then "-" + NatToString(-i) else NatToString(i)
  }

  /**
   * `int(s)` restricted to an optional sign followed by ASCII digits;
   * None where Python raises ValueError.
   */
  function ParseInt(s: string): (r: Option<int>)
    ensures r.Some? <==>
      || (|s| > 0 && AllDigits(s))
      || (|s| > 1 && (s[0] == '+' || s[0] == '-') && AllDigits(s[1..]))
  {
    if |s| > 0 && AllDigits(s) then Some(DigitsValue(s))
    else if |s| > 1 && s[0] == '+' && AllDigits(s[1..]) then Some(DigitsValue(s[1..]))
    else if |s| > 1 && s[0] == '-' && AllDigits(s[1..]) then Some(0 - DigitsValue(s[1..]) as int)
    else None
  }

  lemma {:induction false} DigitsValueOfNatToString(n: nat)
    ensures DigitsValue(NatToString(n)) == n
  {
    var s := NatToString(n);
    if n >= 10 {
      DigitsValueOfNatToString(n / 10);
      assert s[..|s| - 1] == NatToString(n / 10);
    }
  }

  /** `int(str(i)) == i`: the decimal form reads back as the same number. */
  lemma ParseIntToString(i: int)
    ensures ParseInt(IntToString(i)) == Some(i)
  {
    if i < 0 {
      DigitsValueOfNatToString(-i);
      assert IntToString(i)[1..] == NatToString(-i);
    } else {
      DigitsValueOfNatToString(i);
    }
  }

  function Zeros(k: nat): (s: string)
    ensures |s| == k && AllDigits(s)
  {
    if k == 0 then "" else "0" + Zeros(k - 1)
  }

  /** `str(n)` has at most three digits exactly when `n < 1000`. */
  lemma {:induction false} NatToStringWidth(n: nat)
    ensures |NatToString(n)| <= 3 <==> n < 1000
  {
    if n >= 10 {
      NatToStringWidth(n / 10);
    }
  }

  /** Python's `f"{n:03d}"`: exactly three digits below 1000, `str(n)` from there on. */
  function Pad3(n: nat): (s: string)
    ensures AllDigits(s) && |s| >= 3
    ensures n < 1000 ==> |s| == 3
    ensures n >= 1000 ==> s == NatToString(n)
  {
    NatToStringWidth(n);
    var d := NatToString(n);
    (if |d| < 3 then Zeros(3 - |d|) else "") + d
  }

  lemma {:induction false} DigitsValueZeroPrefix(k: nat, s: string)
    requires AllDigits(s)
    ensures DigitsValue(Zeros(k) + s) == DigitsValue(s)
    decreases |s|
  {
    if s == [] {
      ZerosValue(k);
      assert Zeros(k) + s == Zeros(k);
    } else {
      assert (Zeros(k) + s)[..|Zeros(k) + s| - 1] == Zeros(k) + s[..|s| - 1];
      DigitsValueZeroPrefix(k, s[..|s| - 1]);
    }
  }

  lemma {:induction false} ZerosValue(k: nat)
    ensures DigitsValue(Zeros(k)) == 0
  {
    if k > 0 {
      assert Zeros(k)[..k - 1] == Zeros(k - 1) by {
        ZerosShift(k);
      }
      ZerosValue(k - 1);
    }
  }

  lemma {:induction false} ZerosShift(k: nat)
    requires k > 0
    ensures Zeros(k) == Zeros(k - 1) + "0"
  {
    if k > 1 {
      ZerosShift(k - 1);
    }
  }

  /** The padded form still reads back as the number it formats. */
  lemma Pad3Value(n: nat)
    ensures DigitsValue(Pad3(n)) == n
  {
    var d := NatToString(n);
    DigitsValueOfNatToString(n);
    if |d| < 3 {
      DigitsValueZeroPrefix(3 - |d|, d);
    } else {
      assert Pad3(n) == d;
    }
  }

  /** Distinct epoch numbers never share a padded directory or file name. */
  lemma Pad3Injective(a: nat, b: nat)
    ensures Pad3(a) == Pad3(b) <==> a == b
  {
    Pad3Value(a);
    Pad3Value(b);
  }

  /**
   * The characters for which Python's `str.isspace` holds: those the regex
   * class `\s` matches in a text pattern.
   */
  predicate IsSpace(c: char)
  {
    || ('\t' <= c <= '\r')
    || ('\U{1C}' <= c <= ' ')
    || c == '\U{85}' || c == '\U{A0}' || c == '\U{1680}'
    || ('\U{2000}' <= c <= '\U{200A}')
    || c == '\U{2028}' || c == '\U{2029}' || c == '\U{202F}' || c == '\U{205F}' || c == '\U{3000}'
  }

  /**
   * The whitespace `int()` skips around its digits: ASCII tab, line feed,
   * vertical tab, form feed, carriage return and space, and every
   * non-ASCII character `str.isspace` accepts (each is first mapped to a
   * space). The ASCII separators U+001C to U+001F are not among them.
   */
  predicate IsIntSpace(c: char)
  {
    IsSpace(c) && !('\U{1C}' <= c <= '\U{1F}')
  }

  /** `s` without the leading whitespace `int()` skips. */
  function StripStart(s: string): (r: string)
    ensures |r| <= |s|
  {
    if |s| > 0 && IsIntSpace(s[0]) then StripStart(s[1..]) else s
  }

  /** A run of whitespace is removed from the front, and all of it. */
  lemma {:induction false} StripStartSpec(s: string)
    ensures var r := StripStart(s);
      && r == s[|s| - |r|..]
      && (|r| > 0 ==> !IsIntSpace(r[0]))
      && (forall i :: 0 <= i < |s| - |r| ==> IsIntSpace(s[i]))
  {
    if |s| > 0 && IsIntSpace(s[0]) {
      StripStartSpec(s[1..]);
    }
  }

  /** `s` without the trailing whitespace `int()` skips. */
  function StripEnd(s: string): (r: string)
    ensures |r| <= |s|
  {
    if |s| > 0 && IsIntSpace(s[|s| - 1]) then StripEnd(s[..|s| - 1]) else s
  }

  /** A run of whitespace is removed from the back, and all of it. */
  lemma {:induction false} StripEndSpec(s: string)
    ensures var r := StripEnd(s);
      && r == s[..|r|]
      && (|r| > 0 ==> !IsIntSpace(r[|r| - 1]))
      && (forall i :: |r| <= i < |s| ==> IsIntSpace(s[i]))
  {
    if |s| > 0 && IsIntSpace(s[|s| - 1]) {
      StripEndSpec(s[..|s| - 1]);
    }
  }

  /** `s` without the whitespace `int()` skips at either end. */
  function Strip(s: string): string
  {
    StripEnd(StripStart(s))
  }

  /** `int(s)` for a text of ASCII digits with optional sign and surrounding whitespace. */
  function IntOf(s: string): (r: Option<int>)
    ensures |s| > 0 && !IsIntSpace(s[0]) && !IsIntSpace(s[|s| - 1]) ==> r == ParseInt(s)
  {
    ParseInt(Strip(s))
  }

  /**
   * `int(s)` reads the text between the leading and the trailing run of
   * whitespace, each taken as long as it goes.
   */
  lemma IntOfSpec(s: string)
    ensures exists i, j ::
      && 0 <= i <= j <= |s| && IntOf(s) == ParseInt(s[i..j])
      && (forall k :: 0 <= k < i ==> IsIntSpace(s[k]))
      && (forall k :: j <= k < |s| ==> IsIntSpace(s[k]))
      && (i < j ==> !IsIntSpace(s[i]) && !IsIntSpace(s[j - 1]))
  {
    var t := StripStart(s);
    var u := StripEnd(t);
    var i, j := |s| - |t|, |s| - |t| + |u|;
    assert IntOf(s) == ParseInt(u);
    assert s[i..j] == u && forall k :: 0 <= k < i ==> IsIntSpace(s[k]) by {
      StripStartSpec(s);
      StripEndSpec(t);
    }
    assert forall k :: j <= k < |s| ==> IsIntSpace(s[k]) by {
      StripStartSpec(s);
      StripEndSpec(t);
      forall k | j <= k < |s|
        ensures IsIntSpace(s[k])
      {
        assert s[k] == t[k - i];
      }
    }
    assert i < j ==> !IsIntSpace(s[i]) && !IsIntSpace(s[j - 1]) by {
      StripStartSpec(s);
      StripEndSpec(t);
      if i < j {
        assert s[i] == t[0];
        assert s[j - 1] == u[|u| - 1];
      }
    }
  }

  /** `int(str(i)) == i`, through the whitespace stripping as well. */
  lemma IntOfToString(i: int)
    ensures IntOf(IntToString(i)) == Some(i)
  {
    var s := IntToString(i);
    assert |s| > 0 && !IsIntSpace(s[0]) && !IsIntSpace(s[|s| - 1]) by {
      if i < 0 {
        assert s[0] == '-';
        assert s[1..] == NatToString(-i);
        assert s[|s| - 1] == NatToString(-i)[|NatToString(-i)| - 1];
      }
    }
    ParseIntToString(i);
  }

  /**
   * A key that starts with U+001C is not a number to `int()`, although
   * `str.isspace` and `\s` count that character as whitespace.
   */
  lemma SeparatorIsNotIntSpace()
    ensures IsSpace('\U{1C}') && IntOf("\U{1C}1").None?
  {
    assert StripStart("\U{1C}1") == "\U{1C}1";
    assert StripEnd("\U{1C}1") == "\U{1C}1";
  }

  /** Index of the first occurrence of `c` in `s`, or `|s|` when there is none. */
  function IndexOf(s: string, c: char): (k: nat)
    ensures k <= |s|
    ensures forall j :: 0 <= j < k ==> s[j] != c
    ensures k < |s| ==> s[k] == c
  {
    if s == [] then 0 else if s[0] == c then 0 else 1 + IndexOf(s[1..], c)
  }

  /** The first position holding `c` is what `IndexOf` finds. */
  lemma IndexOfFirst(s: string, c: char, e: nat)
    requires e < |s| && s[e] == c
    requires forall j :: 0 <= j < e ==> s[j] != c
    ensures IndexOf(s, c) == e
  {
    var k := IndexOf(s, c);
    assert !(k < e);
    assert !(e < k);
  }

  /**
   * The lines of a text as Python's `text.split("\n")` gives them for a
   * text in which every line ends in "\n" (the final empty piece dropped);
   * an unterminated last line is kept as is.
   */
  function SplitLines(t: string): (lines: seq<string>)
    ensures forall i :: 0 <= i < |lines| ==> '\n' !in lines[i]
    decreases |t|
  {
    if t == [] then []
    else
      var k := IndexOf(t, '\n');
      if k == |t| then [t] else [t[..k]] + SplitLines(t[k + 1..])
  }

  lemma SplitLinesCons(line: string, rest: string)
    requires '\n' !in line
    ensures SplitLines(line + "\n" + rest) == [line] + SplitLines(rest)
  {
    var t := line + "\n" + rest;
    IndexOfPrefix(line, rest);
    assert t[..|line|] == line;
    assert t[|line| + 1..] == rest;
  }

  lemma {:induction false} IndexOfPrefix(line: string, rest: string)
    requires '\n' !in line
    ensures IndexOf(line + "\n" + rest, '\n') == |line|
  {
    if line != [] {
      assert (line + "\n" + rest)[1..] == line[1..] + "\n" + rest;
      IndexOfPrefix(line[1..], rest);
    }
  }

  /** Each line followed by "\n", as a text file holds them. */
  function JoinLines(lines: seq<string>): string
  {
    if lines == [] then "" else lines[0] + "\n" + JoinLines(lines[1..])
  }

  /** Splitting a text built from lines that hold no newline gives the lines back. */
  lemma {:induction false} SplitJoinLines(lines: seq<string>)
    requires forall i :: 0 <= i < |lines| ==> '\n' !in lines[i]
    ensures SplitLines(JoinLines(lines)) == lines
  {
    if lines != [] {
      SplitLinesCons(lines[0], JoinLines(lines[1..]));
      SplitJoinLines(lines[1..]);
    }
  }
}
