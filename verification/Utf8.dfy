/** UTF-8, and base64url without padding: how signed text becomes bytes and bytes become text. */
module Utf8 {
  import opened Domain

  type Byte = int

  predicate IsByte(b: int) { 0 <= b < 256 }

  predicate Tail(b: int) { 0x80 <= b < 0xC0 }

  function EncodeChar(c: char): (bs: seq<Byte>)
    ensures bs != [] && forall i :: 0 <= i < |bs| ==> IsByte(bs[i])
  {
    var n := c as int;
    if n < 0x80 then [n]
    else if n < 0x800 then [0xC0 + n / 64, 0x80 + n % 64]
    else if n < 0x10000 then [0xE0 + n / 4096, 0x80 + n / 64 % 64, 0x80 + n % 64]
    else [0xF0 + n / 262144, 0x80 + n / 4096 % 64, 0x80 + n / 64 % 64, 0x80 + n % 64]
  }

  /** str.encode("utf-8"); a Dafny string has no surrogates, so it never fails. */
  function Encode(s: string): seq<Byte> {
    if s == [] then [] else EncodeChar(s[0]) + Encode(s[1..])
  }

  /** The first character and the bytes after it; overlong forms, surrogates and stray bytes are refused. */
  function DecodeChar(bs: seq<Byte>): (r: Option<(char, seq<Byte>)>)
    requires bs != []
    ensures r.Some? ==> |r.value.1| < |bs|
  {
    var a := bs[0];
    if 0 <= a < 0x80 then Some((a as char, bs[1..]))
    else if 0xC2 <= a < 0xE0 && |bs| >= 2 && Tail(bs[1]) then Some((((a - 0xC0) * 64 + (bs[1] - 0x80)) as char, bs[2..]))
    else if 0xE0 <= a < 0xF0 && |bs| >= 3 && Tail(bs[1]) && Tail(bs[2]) then
      var n := (a - 0xE0) * 4096 + (bs[1] - 0x80) * 64 + (bs[2] - 0x80);
      if n < 0x800 || 0xD800 <= n < 0xE000 then None else Some((n as char, bs[3..]))
    else if 0xF0 <= a < 0xF5 && |bs| >= 4 && Tail(bs[1]) && Tail(bs[2]) && Tail(bs[3]) then
      var n := (a - 0xF0) * 262144 + (bs[1] - 0x80) * 4096 + (bs[2] - 0x80) * 64 + (bs[3] - 0x80);
      if n < 0x10000 || n >= 0x110000 then None else Some((n as char, bs[4..]))
    else None
  }

  /** bytes.decode("utf-8"). */
  function Decode(bs: seq<Byte>): Option<string>
    decreases |bs|
  {
    if bs == [] then Some("")
    else
      match DecodeChar(bs)
      case None => None
      case Some((c, rest)) => match Decode(rest) case None => None case Some(s) => Some([c] + s)
  }

  lemma DecodesChar(c: char, rest: seq<Byte>)
    ensures DecodeChar(EncodeChar(c) + rest) == Some((c, rest))
  {
    var e, n := EncodeChar(c), c as int;
    var bs := e + rest;
    assert bs[..|e|] == e && bs[|e|..] == rest;
    assert forall i :: 0 <= i < |e| ==> bs[i] == e[i];
    assert n / 64 == n / 4096 * 64 + n / 64 % 64;
    assert n / 4096 == n / 262144 * 64 + n / 4096 % 64;
  }

  /** Decoding gives back what was encoded. */
  lemma {:induction false} DecodesEncoded(s: string)
    ensures Decode(Encode(s)) == Some(s)
  {
    if s != [] {
      DecodesChar(s[0], Encode(s[1..]));
      DecodesEncoded(s[1..]);
      assert [s[0]] + s[1..] == s;
    }
  }
}

/** The unpadded URL alphabet of section 5 of RFC 4648. */
module Base64Url {
  import opened Domain
  import opened Utf8

  /** A–Z, a–z, 0–9, minus and underscore, in this order. */
  function Symbol(n: int): char
    requires 0 <= n < 64
  {
    if n < 26 then ('A' as int + n) as char
    else if n < 52 then ('a' as int + n - 26) as char
    else if n < 62 then ('0' as int + n - 52) as char
    else if n == 62 then '-'
    else '_'
  }

  function ValueOf(c: char): (r: Option<int>)
    ensures r.Some? ==> 0 <= r.value < 64
  {
    if 'A' <= c <= 'Z' then Some(c as int - 'A' as int)
    else if 'a' <= c <= 'z' then Some(c as int - 'a' as int + 26)
    else if '0' <= c <= '9' then Some(c as int - '0' as int + 52)
    else if c == '-' then Some(62)
    else if c == '_' then Some(63)
    else None
  }

  ghost predicate AllBytes(bs: seq<Byte>) { forall i :: 0 <= i < |bs| ==> IsByte(bs[i]) }

  /** urlsafe_b64encode with the padding stripped. */
  function ToText(bs: seq<Byte>): string
    requires AllBytes(bs)
  {
    if |bs| == 0 then ""
    else if |bs| == 1 then [Symbol(bs[0] / 4), Symbol(bs[0] % 4 * 16)]
    else if |bs| == 2 then [Symbol(bs[0] / 4), Symbol(bs[0] % 4 * 16 + bs[1] / 16), Symbol(bs[1] % 16 * 4)]
    else
      [Symbol(bs[0] / 4), Symbol(bs[0] % 4 * 16 + bs[1] / 16), Symbol(bs[1] % 16 * 4 + bs[2] / 64), Symbol(bs[2] % 64)]
      + ToText(bs[3..])
  }

  predicate InAlphabet(s: string) { forall i :: 0 <= i < |s| ==> ValueOf(s[i]).Some? }

  /** urlsafe_b64decode of a text whose length leaves no lone symbol; bits beyond the last byte are dropped. */
  function FromText(s: string): (bs: seq<Byte>)
    requires InAlphabet(s) && |s| % 4 != 1
    ensures AllBytes(bs)
  {
    if |s| < 2 then []
    else
      var a, b := ValueOf(s[0]).value, ValueOf(s[1]).value;
      if |s| == 2 then [a * 4 + b / 16]
      else
        var c := ValueOf(s[2]).value;
        if |s| == 3 then [a * 4 + b / 16, b % 16 * 16 + c / 4]
        else [a * 4 + b / 16, b % 16 * 16 + c / 4, c % 4 * 64 + ValueOf(s[3]).value] + FromText(s[4..])
  }

  /** _unb64: only the one canonical text of a non-empty byte string is accepted. */
  function Unb64(s: string): Option<seq<Byte>> {
    if s == "" || !InAlphabet(s) || |s| % 4 == 1 then None
    else
      var bs := FromText(s);
      if ToText(bs) == s then Some(bs) else None
  }

  lemma SymbolValue(n: int)
    requires 0 <= n < 64
    ensures ValueOf(Symbol(n)) == Some(n)
  {
  }

  /** The four values of three bytes, and the three bytes of four values. */
  lemma SplitsBytes(x: Byte, y: Byte, z: Byte)
    requires IsByte(x) && IsByte(y) && IsByte(z)
    ensures var a, b, c, d := x / 4, x % 4 * 16 + y / 16, y % 16 * 4 + z / 64, z % 64;
            a < 64 && b < 64 && c < 64 && a * 4 + b / 16 == x && b % 16 * 16 + c / 4 == y && c % 4 * 64 + d == z
  {
  }

  lemma QuadIsReadable(x: Byte, y: Byte, z: Byte, rest: string)
    requires IsByte(x) && IsByte(y) && IsByte(z) && InAlphabet(rest) && |rest| % 4 != 1
    ensures var q := [Symbol(x / 4), Symbol(x % 4 * 16 + y / 16), Symbol(y % 16 * 4 + z / 64), Symbol(z % 64)];
            InAlphabet(q + rest) && |q + rest| % 4 != 1 && FromText(q + rest) == [x, y, z] + FromText(rest)
  {
    var q := [Symbol(x / 4), Symbol(x % 4 * 16 + y / 16), Symbol(y % 16 * 4 + z / 64), Symbol(z % 64)];
    SplitsBytes(x, y, z);
    SymbolValue(x / 4);
    SymbolValue(x % 4 * 16 + y / 16);
    SymbolValue(y % 16 * 4 + z / 64);
    SymbolValue(z % 64);
    var s := q + rest;
    assert s[4..] == rest;
    forall i | 0 <= i < |s| ensures ValueOf(s[i]).Some? {
      if i >= 4 { assert s[i] == rest[i - 4]; }
    }
  }

  lemma TailIsReadable(bs: seq<Byte>)
    requires AllBytes(bs) && |bs| < 3
    ensures InAlphabet(ToText(bs)) && |ToText(bs)| % 4 != 1 && (bs != [] ==> ToText(bs) != "")
    ensures FromText(ToText(bs)) == bs
  {
    if |bs| == 1 {
      OneIsReadable(bs[0]);
      assert bs == [bs[0]];
    } else if |bs| == 2 {
      TwoAreReadable(bs[0], bs[1]);
      assert bs == [bs[0], bs[1]];
    }
  }

  lemma OneIsReadable(x: Byte)
    requires IsByte(x)
    ensures var s := [Symbol(x / 4), Symbol(x % 4 * 16)]; InAlphabet(s) && FromText(s) == [x]
  {
    SplitsBytes(x, 0, 0);
    SymbolValue(x / 4);
    SymbolValue(x % 4 * 16);
  }

  lemma TwoAreReadable(x: Byte, y: Byte)
    requires IsByte(x) && IsByte(y)
    ensures var s := [Symbol(x / 4), Symbol(x % 4 * 16 + y / 16), Symbol(y % 16 * 4)]; InAlphabet(s) && FromText(s) == [x, y]
  {
    SplitsBytes(x, y, 0);
    SymbolValue(x / 4);
    SymbolValue(x % 4 * 16 + y / 16);
    SymbolValue(y % 16 * 4);
  }

  lemma {:induction false} TextIsReadable(bs: seq<Byte>)
    requires AllBytes(bs)
    ensures InAlphabet(ToText(bs)) && |ToText(bs)| % 4 != 1 && (bs != [] ==> ToText(bs) != "")
    ensures FromText(ToText(bs)) == bs
  {
    if |bs| < 3 {
      TailIsReadable(bs);
    } else {
      TextIsReadable(bs[3..]);
      QuadIsReadable(bs[0], bs[1], bs[2], ToText(bs[3..]));
      assert bs == [bs[0], bs[1], bs[2]] + bs[3..];
    }
  }

  /** Every non-empty byte string comes back from its text. */
  lemma {:induction false} BytesRoundTrip(bs: seq<Byte>)
    requires AllBytes(bs) && bs != []
    ensures Unb64(ToText(bs)) == Some(bs)
  {
    TextIsReadable(bs);
  }

  /** The accepted texts are exactly the printed ones, and an accepted text is the print of what it was read as. */
  lemma {:induction false} AcceptedExactly(s: string, bs: seq<Byte>)
    requires AllBytes(bs) && bs != []
    ensures Unb64(s) == Some(bs) <==> ToText(bs) == s
  {
    TextIsReadable(bs);
  }
}
