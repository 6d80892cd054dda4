/** JSON strings and numbers as the worker prints them, and a reader for any JSON spelling of a string. */
module JsonText {
  import opened Domain

  // ----- hexadecimal -----

  function HexDigit(n: int): (c: char)
    requires 0 <= n < 16
  {
    "0123456789abcdef"[n]
  }

  /** Either case is accepted when reading. */
  function HexValue(c: char): (r: Option<int>)
    ensures r.Some? ==> 0 <= r.value < 16
  {
    if '0' <= c <= '9' then Some(c as int - '0' as int)
    else if 'a' <= c <= 'f' then Some(c as int - 'a' as int + 10)
    else if 'A' <= c <= 'F' then Some(c as int - 'A' as int + 10)
    else None
  }

  /** The four digits after a \u escape. */
  function ReadUnit(t: string): (r: Option<int>)
    ensures r.Some? ==> |t| >= 4 && 0 <= r.value < 0x10000
  {
    if |t| < 4 then None
    else
      match (HexValue(t[0]), HexValue(t[1]), HexValue(t[2]), HexValue(t[3]))
      case (Some(a), Some(b), Some(c), Some(d)) => Some(a * 4096 + b * 256 + c * 16 + d)
      case _ => None
  }

  // ----- printing a string -----

  /** Python's json.dumps with ensure_ascii=False: quote, backslash and the control characters below U+0020. */
  function EscapeChar(c: char): (r: string)
    ensures r != [] && r[0] != '\"'
  {
    if c == '\"' then "\\\""
    else if c == '\\' then "\\\\"
    else if c == '\n' then "\\n"
    else if c == '\r' then "\\r"
    else if c == '\t' then "\\t"
    else if c as int == 8 then "\\b"
    else if c as int == 12 then "\\f"
    else if c as int < 32 then "\\u00" + [HexDigit(c as int / 16), HexDigit(c as int % 16)]
    else [c]
  }

  function EscapeAll(s: string): string {
    if s == [] then [] else EscapeChar(s[0]) + EscapeAll(s[1..])
  }

  function Quote(s: string): string {
    "\"" + EscapeAll(s) + "\""
  }

  // ----- reading a string -----

  predicate IsHighSurrogate(u: int) { 0xD800 <= u < 0xDC00 }

  predicate IsLowSurrogate(u: int) { 0xDC00 <= u < 0xE000 }

  /** One character after the opening quote: the character and what follows it. A lone surrogate is refused. */
  function ReadChar(t: string): (r: Option<(char, string)>)
    requires t != []
    ensures r.Some? ==> |r.value.1| < |t|
  {
    if t[0] == '\"' || (t[0] as int) < 32 then None
    else if t[0] != '\\' then Some((t[0], t[1..]))
    else if |t| < 2 then None
    else if t[1] in "\"\\/" then Some((t[1], t[2..]))
    else if t[1] == 'b' then Some((8 as char, t[2..]))
    else if t[1] == 'f' then Some((12 as char, t[2..]))
    else if t[1] == 'n' then Some(('\n', t[2..]))
    else if t[1] == 'r' then Some(('\r', t[2..]))
    else if t[1] == 't' then Some(('\t', t[2..]))
    else if t[1] != 'u' then None
    else
      match ReadUnit(t[2..])
      case None => None
      case Some(u) =>
        if IsLowSurrogate(u) then None
        else if !IsHighSurrogate(u) then Some((u as char, t[6..]))
        else if |t| < 12 || t[6] != '\\' || t[7] != 'u' then None
        else
          match ReadUnit(t[8..])
          case None => None
          case Some(v) =>
            if !IsLowSurrogate(v) then None
            else Some(((0x10000 + (u - 0xD800) * 1024 + (v - 0xDC00)) as char, t[12..]))
  }

  /** The characters up to the closing quote, and what follows it. */
  function ReadChars(t: string): (r: Option<(string, string)>)
    ensures r.Some? ==> |r.value.1| < |t|
    decreases |t|
  {
    if t == [] then None
    else if t[0] == '\"' then Some(("", t[1..]))
    else
      match ReadChar(t)
      case None => None
      case Some((c, rest)) =>
        match ReadChars(rest)
        case None => None
        case Some((s, rest')) => Some(([c] + s, rest'))
  }

  lemma ReadEscaped(c: char, rest: string)
    ensures ReadChar(EscapeChar(c) + rest) == Some((c, rest))
  {
    var e := EscapeChar(c);
    var t := e + rest;
    if e == [c] {
      assert t[0] == c && t[1..] == rest;
    } else if |e| == 2 {
      assert t[0] == e[0] && t[1] == e[1] && t[2..] == rest;
    } else {
      assert |e| == 6 && t[6..] == rest;
      assert t[2..][..4] == e[2..];
      assert t[2] == '0' && t[3] == '0' && t[4] == HexDigit(c as int / 16) && t[5] == HexDigit(c as int % 16);
      HexRoundTrip(c as int / 16);
      HexRoundTrip(c as int % 16);
      assert ReadUnit(t[2..]) == Some(c as int);
    }
  }

  lemma HexRoundTrip(n: int)
    requires 0 <= n < 16
    ensures HexValue(HexDigit(n)) == Some(n)
  {
  }

  lemma {:induction false} ReadEscapedAll(s: string, rest: string)
    ensures ReadChars(EscapeAll(s) + "\"" + rest) == Some((s, rest))
  {
    var t := EscapeAll(s) + "\"" + rest;
    if s == [] {
      assert t == "\"" + rest && t[1..] == rest;
    } else {
      var tail := EscapeAll(s[1..]) + "\"" + rest;
      assert t == EscapeChar(s[0]) + tail;
      assert t[0] == EscapeChar(s[0])[0];
      ReadEscaped(s[0], tail);
      ReadEscapedAll(s[1..], rest);
      assert [s[0]] + s[1..] == s;
    }
  }

  /** Reading what Quote printed gives the string back and leaves the rest untouched. */
  lemma ReadQuoted(s: string, rest: string)
    ensures (Quote(s) + rest)[0] == '\"'
    ensures ReadChars((Quote(s) + rest)[1..]) == Some((s, rest))
  {
    assert (Quote(s) + rest)[1..] == EscapeAll(s) + "\"" + rest;
    ReadEscapedAll(s, rest);
  }

  /** Quoted strings are self-delimiting. */
  lemma QuoteSplits(a: string, x: string, b: string, y: string)
    requires Quote(a) + x == Quote(b) + y
    ensures a == b && x == y
  {
    ReadQuoted(a, x);
    ReadQuoted(b, y);
  }

  /** The items of json.dumps of a list of strings, without spaces. */
  function QuoteItems(xs: seq<string>): string {
    if xs == [] then "" else Quote(xs[0]) + (if |xs| == 1 then "" else "," + QuoteItems(xs[1..]))
  }

  function QuoteList(xs: seq<string>): string {
    "[" + QuoteItems(xs) + "]"
  }

  lemma DropFirst(c: char, x: string, y: string)
    requires [c] + x == [c] + y
    ensures x == y
  {
    assert x == ([c] + x)[1..] == ([c] + y)[1..] == y;
  }

  lemma {:induction false} QuoteItemsInjective(xs: seq<string>, ys: seq<string>)
    requires |xs| == |ys| && QuoteItems(xs) == QuoteItems(ys)
    ensures xs == ys
  {
    if xs != [] {
      var x := if |xs| == 1 then "" else "," + QuoteItems(xs[1..]);
      var y := if |ys| == 1 then "" else "," + QuoteItems(ys[1..]);
      QuoteSplits(xs[0], x, ys[0], y);
      if |xs| > 1 {
        DropFirst(',', QuoteItems(xs[1..]), QuoteItems(ys[1..]));
        QuoteItemsInjective(xs[1..], ys[1..]);
      }
      assert xs == [xs[0]] + xs[1..] && ys == [ys[0]] + ys[1..];
    }
  }

  lemma {:induction false} QuoteListInjective(xs: seq<string>, ys: seq<string>)
    requires |xs| == |ys| && QuoteList(xs) == QuoteList(ys)
    ensures xs == ys
  {
    var x, y := QuoteItems(xs), QuoteItems(ys);
    assert x == QuoteList(xs)[1..|QuoteList(xs)| - 1] == QuoteList(ys)[1..|QuoteList(ys)| - 1] == y;
    QuoteItemsInjective(xs, ys);
  }
}
