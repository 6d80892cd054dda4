/** The canonical JSON of signed requests: one closed subset of JSON, one text per value, the same in both languages. */
module CanonicalJson {
  import opened Domain
  import opened Ordering
  import opened JsonText
  import opened Utf8

  // ----- values -----

  /** What may be signed. A JSON object is a dictionary: the order of its members carries no meaning. */
  datatype Json =
    | Null
    | Bool(value: bool)
    | Int(number: int)
    | Str(text: string)
    | List(items: seq<Json>)
    | Object(members: map<string, Json>)

  // ----- UTF-16 -----

  /** The UTF-16 code units of one character. */
  function UnitsOf(c: char): (u: seq<int>)
    ensures u != [] && forall i :: 0 <= i < |u| ==> 0 <= u[i] < 0x10000
  {
    var n := c as int;
    if n < 0x10000 then [n] else [0xD800 + (n - 0x10000) / 1024, 0xDC00 + (n - 0x10000) % 1024]
  }

  function Units(s: string): seq<int> {
    if s == [] then [] else UnitsOf(s[0]) + Units(s[1..])
  }

  function BytesOf(u: int): seq<int> { [u / 256, u % 256] }

  function BigEndian(us: seq<int>): seq<int> {
    if us == [] then [] else BytesOf(us[0]) + BigEndian(us[1..])
  }

  /** key.encode("utf-16-be"), which the worker sorts keys by. */
  function Utf16BE(s: string): seq<int> { BigEndian(Units(s)) }

  lemma UnitsOfPrefixFree(a: char, b: char, x: seq<int>, y: seq<int>)
    requires UnitsOf(a) + x == UnitsOf(b) + y && (a as int >= 0x10000 <==> b as int >= 0x10000)
    ensures a == b && x == y
  {
    var s, t := UnitsOf(a) + x, UnitsOf(b) + y;
    assert s[..|UnitsOf(a)|] == UnitsOf(a) && s[|UnitsOf(a)|..] == x;
    assert t[..|UnitsOf(b)|] == UnitsOf(b) && t[|UnitsOf(b)|..] == y;
    assert UnitsOf(a)[0] == UnitsOf(b)[0];
    if a as int >= 0x10000 {
      assert UnitsOf(a)[1] == UnitsOf(b)[1];
    }
  }

  /** A character is never a surrogate, so the first unit tells how long it is. */
  lemma {:induction false} UnitsInjective(a: string, b: string)
    requires Units(a) == Units(b)
    ensures a == b
  {
    if a != [] && b != [] {
      assert Units(a)[0] == UnitsOf(a[0])[0] && Units(b)[0] == UnitsOf(b[0])[0];
      UnitsOfPrefixFree(a[0], b[0], Units(a[1..]), Units(b[1..]));
      UnitsInjective(a[1..], b[1..]);
      assert a == [a[0]] + a[1..] && b == [b[0]] + b[1..];
    } else {
      assert a == [] ==> Units(a) == [];
      assert b == [] ==> Units(b) == [];
    }
  }

  lemma UnitsInRange(s: string)
    ensures forall i :: 0 <= i < |Units(s)| ==> 0 <= Units(s)[i] < 0x10000
  {
  }

  lemma LessSplit(a: seq<int>, b: seq<int>, x: seq<int>, y: seq<int>)
    requires |a| == |b| == 2
    ensures Less(a + x, b + y) <==>
            a[0] < b[0] || (a[0] == b[0] && (a[1] < b[1] || (a[1] == b[1] && Less(x, y))))
  {
    var s, t := a + x, b + y;
    assert s[1..][0] == a[1] && t[1..][0] == b[1];
    assert s[1..][1..] == x && t[1..][1..] == y;
  }

  /** Comparing big-endian bytes is comparing code units. */
  lemma {:induction false} BytesCompareAsUnits(us: seq<int>, vs: seq<int>)
    requires (forall i :: 0 <= i < |us| ==> 0 <= us[i] < 0x10000) && (forall i :: 0 <= i < |vs| ==> 0 <= vs[i] < 0x10000)
    ensures Less(BigEndian(us), BigEndian(vs)) <==> Less(us, vs)
    ensures BigEndian(us) == BigEndian(vs) <==> us == vs
  {
    if us != [] && vs != [] {
      BytesCompareAsUnits(us[1..], vs[1..]);
      LessSplit(BytesOf(us[0]), BytesOf(vs[0]), BigEndian(us[1..]), BigEndian(vs[1..]));
      var x, y := BigEndian(us), BigEndian(vs);
      assert x[0] == us[0] / 256 && x[1] == us[0] % 256 && x[2..] == BigEndian(us[1..]);
      assert y[0] == vs[0] / 256 && y[1] == vs[0] % 256 && y[2..] == BigEndian(vs[1..]);
      assert us == [us[0]] + us[1..] && vs == [vs[0]] + vs[1..];
    }
  }

  /** The worker's key order is the order of UTF-16 code units (section 3.2.3 of RFC 8785), by which the server sorts. */
  lemma KeyOrderIsCodeUnits(a: string, b: string)
    ensures Less(Utf16BE(a), Utf16BE(b)) <==> Less(Units(a), Units(b))
    ensures Utf16BE(a) == Utf16BE(b) ==> a == b
  {
    UnitsInRange(a);
    UnitsInRange(b);
    BytesCompareAsUnits(Units(a), Units(b));
    if Utf16BE(a) == Utf16BE(b) { UnitsInjective(a, b); }
  }

  /** It is not the order of code points: a character beyond the basic plane sorts before one at the end of it. */
  lemma {:induction false} KeyOrderIsNotCodePoints() returns (a: string, b: string)
    ensures Less(CodePoints(a), CodePoints(b)) && Less(Utf16BE(b), Utf16BE(a))
  {
    a, b := [0xFF61 as char], [0x10000 as char];
    assert CodePoints(a)[0] == 0xFF61 && CodePoints(b)[0] == 0x10000;
    assert Units(a)[0] == 0xFF61 && Units(b)[0] == 0xD800;
    KeyOrderIsCodeUnits(b, a);
  }

  function SortedKeys(m: map<string, Json>): (ks: seq<string>)
    ensures |ks| == |m.Keys|
    ensures forall k :: k in ks <==> k in m
    ensures SortedBy(ks, Utf16BE)
    ensures forall i, j :: 0 <= i < j < |ks| ==> ks[i] != ks[j]
  {
    assert InjectiveOn(m.Keys, Utf16BE) by {
      forall a, b | a in m.Keys && b in m.Keys && Utf16BE(a) == Utf16BE(b) ensures a == b { KeyOrderIsCodeUnits(a, b); }
    }
    var ks := SortBy(m.Keys, Utf16BE);
    SortedDistinct(ks, Utf16BE);
    ks
  }

  // ----- limits -----

  const MAX_DEPTH := 64

  const MAX_NODES := 10000

  const MAX_BYTES := 1048576

  const MAX_STRING := 16384

  const MAX_INT := 9007199254740991

  ghost function Nodes(v: Json): nat
    decreases v, 1, 0
  {
    match v
    case List(xs) => 1 + NodesOfItems(v, |xs|)
    case Object(m) => 1 + NodesOfMembers(v, m.Keys)
    case _ => 1
  }

  ghost function NodesOfItems(v: Json, n: nat): nat
    requires v.List? && n <= |v.items|
    decreases v, 0, n
  {
    if n == 0 then 0 else NodesOfItems(v, n - 1) + Nodes(v.items[n - 1])
  }

  /** The nodes below some of an object's keys, which may be counted in any order. */
  ghost function NodesOfMembers(v: Json, keys: set<string>): nat
    requires v.Object? && keys <= v.members.Keys
    decreases v, 0, |keys|
  {
    if keys == {} then 0
    else
      var k :| k in keys;
      Nodes(v.members[k]) + NodesOfMembers(v, keys - {k})
  }

  /** Every scalar within its limits and nothing nested deeper than `room` levels. */
  predicate Bounded(v: Json, room: int)
    decreases v
  {
    room >= 0 &&
    match v
    case Str(s) => |s| <= MAX_STRING
    case Int(n) => -MAX_INT <= n <= MAX_INT
    case List(xs) => forall i :: 0 <= i < |xs| ==> Bounded(xs[i], room - 1)
    case Object(m) => forall k :: k in m ==> |k| <= MAX_STRING && Bounded(m[k], room - 1)
    case _ => true
  }

  ghost predicate Valid(v: Json) { Bounded(v, MAX_DEPTH) && Nodes(v) <= MAX_NODES }

  /** _validate: one node counter through the whole walk, which stops at the first violation. */
  class Walk {
    var nodes: nat

    constructor ()
      ensures nodes == 0
    {
      nodes := 0;
    }

    method Visit(v: Json, depth: nat) returns (ok: bool)
      modifies this
      ensures ok <==> Fits(v, MAX_DEPTH - depth, old(nodes))
      ensures ok ==> nodes == old(nodes) + Nodes(v)
      decreases v
    {
      nodes := nodes + 1;
      if depth > MAX_DEPTH || nodes > MAX_NODES {
        NothingFits(v, MAX_DEPTH - depth, old(nodes));
        return false;
      }
      if v.List? {
        ListFits(v, MAX_DEPTH - depth, old(nodes));
        ok := VisitItems(v, depth);
      } else if v.Object? {
        ObjectFits(v, MAX_DEPTH - depth, old(nodes));
        ok := VisitMembers(v, depth);
      } else {
        match v {
          case Str(s) => return |s| <= MAX_STRING;
          case Int(n) => return -MAX_INT <= n <= MAX_INT;
          case _ => return true;
        }
      }
    }

    method VisitItems(v: Json, depth: nat) returns (ok: bool)
      requires v.List? && nodes <= MAX_NODES
      modifies this
      ensures ok <==> ItemsFit(v, |v.items|, MAX_DEPTH - depth - 1, old(nodes))
      ensures ok ==> nodes == old(nodes) + NodesOfItems(v, |v.items|)
      decreases v, 0
    {
      var i := 0;
      while i < |v.items|
        invariant 0 <= i <= |v.items| && nodes == old(nodes) + NodesOfItems(v, i)
        invariant ItemsFit(v, i, MAX_DEPTH - depth - 1, old(nodes))
      {
        ItemsFitStep(v, i, MAX_DEPTH - depth - 1, old(nodes));
        var fine := Visit(v.items[i], depth + 1);
        if !fine {
          ItemsFitBefore(v, i + 1, |v.items|, MAX_DEPTH - depth - 1, old(nodes));
          return false;
        }
        i := i + 1;
      }
      return true;
    }

    /** The members in the order of the dictionary, which is any order. */
    method VisitMembers(v: Json, depth: nat) returns (ok: bool)
      requires v.Object? && nodes <= MAX_NODES
      modifies this
      ensures ok <==> MembersFit(v, v.members.Keys, MAX_DEPTH - depth - 1, old(nodes))
      ensures ok ==> nodes == old(nodes) + NodesOfMembers(v, v.members.Keys)
      decreases v, 0, 1
    {
      var rest := v.members.Keys;
      ghost var done: set<string> := {};
      ghost var all, room, before := rest, MAX_DEPTH - depth - 1, nodes;
      while rest != {}
        invariant rest == all - done && done <= all
        invariant nodes == before + NodesOfMembers(v, done)
        invariant MembersFit(v, done, room, before)
        decreases |rest|
      {
        var k :| k in rest;
        var fine := VisitMember(v, k, depth, done, before);
        if !fine {
          MembersFitBefore(v, done + {k}, all, room, before);
          return false;
        }
        TakeKey(all, done, k);
        rest, done := rest - {k}, done + {k};
      }
      assert done == all;
      return true;
    }

    method VisitMember(v: Json, k: string, depth: nat, ghost done: set<string>, ghost before: nat) returns (ok: bool)
      requires v.Object? && k in v.members && done <= v.members.Keys && k !in done
      requires nodes == before + NodesOfMembers(v, done) && MembersFit(v, done, MAX_DEPTH - depth - 1, before)
      modifies this
      ensures ok <==> MembersFit(v, done + {k}, MAX_DEPTH - depth - 1, before)
      ensures ok ==> nodes == before + NodesOfMembers(v, done + {k})
      decreases v, 0, 0
    {
      MembersFitStep(v, done, k, MAX_DEPTH - depth - 1, before);
      if |k| > MAX_STRING { return false; }
      ok := Visit(v.members[k], depth + 1);
    }
  }

  lemma TakeKey(all: set<string>, done: set<string>, k: string)
    requires done <= all && k in all - done
    ensures all - done - {k} == all - (done + {k}) && done + {k} <= all && |all - done - {k}| < |all - done|
  {
  }

  /** A value within its limits, whose nodes still fit after those counted before. */
  ghost predicate Fits(v: Json, room: int, before: nat) { Bounded(v, room) && before + Nodes(v) <= MAX_NODES }

  ghost predicate ItemsFit(v: Json, n: nat, room: int, before: nat)
    requires v.List? && n <= |v.items|
  {
    (forall i :: 0 <= i < n ==> Bounded(v.items[i], room)) && before + NodesOfItems(v, n) <= MAX_NODES
  }

  ghost predicate MembersFit(v: Json, keys: set<string>, room: int, before: nat)
    requires v.Object? && keys <= v.members.Keys
  {
    (forall k :: k in keys ==> |k| <= MAX_STRING && Bounded(v.members[k], room)) && before + NodesOfMembers(v, keys) <= MAX_NODES
  }

  lemma NothingFits(v: Json, room: int, before: nat)
    requires room < 0 || before + 1 > MAX_NODES
    ensures !Fits(v, room, before)
  {
  }

  lemma ListFits(v: Json, room: int, before: nat)
    requires v.List? && room >= 0
    ensures Fits(v, room, before) <==> ItemsFit(v, |v.items|, room - 1, before + 1)
    ensures Nodes(v) == 1 + NodesOfItems(v, |v.items|)
  {
  }

  lemma ItemsFitStep(v: Json, i: nat, room: int, before: nat)
    requires v.List? && i < |v.items|
    ensures NodesOfItems(v, i + 1) == NodesOfItems(v, i) + Nodes(v.items[i])
    ensures ItemsFit(v, i + 1, room, before) <==> ItemsFit(v, i, room, before) && Fits(v.items[i], room, before + NodesOfItems(v, i))
  {
  }

  lemma {:induction false} ItemsFitBefore(v: Json, i: nat, n: nat, room: int, before: nat)
    requires v.List? && i <= n <= |v.items|
    ensures ItemsFit(v, n, room, before) ==> ItemsFit(v, i, room, before)
    decreases n
  {
    if i < n {
      ItemsFitStep(v, n - 1, room, before);
      ItemsFitBefore(v, i, n - 1, room, before);
    }
  }

  lemma ObjectFits(v: Json, room: int, before: nat)
    requires v.Object? && room >= 0
    ensures Fits(v, room, before) <==> MembersFit(v, v.members.Keys, room - 1, before + 1)
    ensures Nodes(v) == 1 + NodesOfMembers(v, v.members.Keys)
  {
  }

  lemma {:induction false} NodesOfMembersSplit(v: Json, keys: set<string>, k: string)
    requires v.Object? && keys <= v.members.Keys && k in keys
    ensures NodesOfMembers(v, keys) == Nodes(v.members[k]) + NodesOfMembers(v, keys - {k})
    decreases |keys|
  {
    var j :| j in keys && NodesOfMembers(v, keys) == Nodes(v.members[j]) + NodesOfMembers(v, keys - {j});
    if j != k {
      NodesOfMembersSplit(v, keys - {j}, k);
      NodesOfMembersSplit(v, keys - {k}, j);
      assert keys - {j} - {k} == keys - {k} - {j};
    }
  }

  lemma MembersFitStep(v: Json, done: set<string>, k: string, room: int, before: nat)
    requires v.Object? && done <= v.members.Keys && k in v.members && k !in done
    ensures NodesOfMembers(v, done + {k}) == NodesOfMembers(v, done) + Nodes(v.members[k])
    ensures MembersFit(v, done + {k}, room, before)
            <==> MembersFit(v, done, room, before) && |k| <= MAX_STRING && Fits(v.members[k], room, before + NodesOfMembers(v, done))
  {
    NodesOfMembersSplit(v, done + {k}, k);
    assert done + {k} - {k} == done;
  }

  lemma {:induction false} NodesOfMembersGrow(v: Json, some: set<string>, all: set<string>)
    requires v.Object? && some <= all <= v.members.Keys
    ensures NodesOfMembers(v, some) <= NodesOfMembers(v, all)
    decreases |all|
  {
    if some != all {
      var k :| k in all && k !in some;
      NodesOfMembersSplit(v, all, k);
      NodesOfMembersGrow(v, some, all - {k});
    }
  }

  lemma MembersFitBefore(v: Json, some: set<string>, all: set<string>, room: int, before: nat)
    requires v.Object? && some <= all <= v.members.Keys
    ensures MembersFit(v, all, room, before) ==> MembersFit(v, some, room, before)
  {
    NodesOfMembersGrow(v, some, all);
  }

  // ----- printing -----

  function Digit(n: int): char
    requires 0 <= n < 10
  {
    "0123456789"[n]
  }

  function PrintNat(n: nat): (s: string)
    ensures s != [] && '0' <= s[0] <= '9' && (s[0] == '0' ==> n == 0)
    ensures n == 0 ==> s == "0"
  {
    if n < 10 then [Digit(n)] else PrintNat(n / 10) + [Digit(n % 10)]
  }

  function PrintInt(n: int): string { if n < 0 then "-" + PrintNat(-n) else PrintNat(n) }

  /** _serialize. */
  function Print(v: Json): string
    decreases v, 1, 0
  {
    match v
    case Null => "null"
    case Bool(b) => if b then "true" else "false"
    case Int(n) => PrintInt(n)
    case Str(s) => Quote(s)
    case List(xs) => "[" + PrintItems(v, 0) + "]"
    case Object(m) => "{" + PrintMembers(v, SortedKeys(m), 0) + "}"
  }

  /** The items from position i on, separated by commas. */
  function PrintItems(v: Json, i: nat): string
    requires v.List? && i <= |v.items|
    decreases v, 0, |v.items| - i
  {
    if i == |v.items| then ""
    else Print(v.items[i]) + (if i + 1 == |v.items| then "" else "," + PrintItems(v, i + 1))
  }

  function PrintMembers(v: Json, ks: seq<string>, i: nat): string
    requires v.Object? && i <= |ks| && forall k :: k in ks ==> k in v.members
    decreases v, 0, |ks| - i
  {
    if i == |ks| then ""
    else Quote(ks[i]) + ":" + Print(v.members[ks[i]]) + (if i + 1 == |ks| then "" else "," + PrintMembers(v, ks, i + 1))
  }

  // ----- reading -----

  predicate IsWhite(c: char) { c == ' ' || c == '\t' || c == '\n' || c == '\r' }

  function SkipWhite(t: string): (r: string)
    ensures |r| <= |t|
    ensures r != [] ==> !IsWhite(r[0])
  {
    if t != [] && IsWhite(t[0]) then SkipWhite(t[1..]) else t
  }

  predicate IsDigit(c: char) { '0' <= c <= '9' }

  function ReadDigits(t: string, acc: nat): (r: (nat, string))
    ensures |r.1| <= |t|
  {
    if t != [] && IsDigit(t[0]) then ReadDigits(t[1..], acc * 10 + (t[0] as int - '0' as int)) else (acc, t)
  }

  /** A number that is an integer; a fraction or an exponent makes it a float, which the contract refuses. */
  function ReadNumber(t: string): (r: Option<(int, string)>)
    ensures r.Some? ==> |r.value.1| < |t|
  {
    if t == [] then None
    else
      var negative := t[0] == '-';
      var digits := if negative then t[1..] else t;
      if digits == [] || !IsDigit(digits[0]) then None
      else
        var (n, rest) := if digits[0] == '0' then (0, digits[1..]) else ReadDigits(digits[1..], digits[0] as int - '0' as int);
        var magnitude: int := n;
        var number: int := if negative then -magnitude else magnitude;
        if rest != [] && rest[0] in ".eE" then None else Some((number, rest))
  }

  predicate Starts(t: string, word: string) { |word| <= |t| && t[..|word|] == word }

  /** One value, after any white space, and what follows it. */
  function ReadValue(text: string): (r: Option<(Json, string)>)
    ensures r.Some? ==> |r.value.1| < |text|
    decreases |text|, 2
  {
    var t := SkipWhite(text);
    if t == [] then None
    else if t[0] == '\"' then
      (match ReadChars(t[1..]) case None => None case Some((s, rest)) => Some((Str(s), rest)))
    else if t[0] == '[' then
      var inner := SkipWhite(t[1..]);
      if inner != [] && inner[0] == ']' then Some((List([]), inner[1..]))
      else (match ReadItems(inner) case None => None case Some((xs, rest)) => Some((List(xs), rest)))
    else if t[0] == '{' then
      var inner := SkipWhite(t[1..]);
      if inner != [] && inner[0] == '}' then Some((Object(map[]), inner[1..]))
      else (match ReadMembers(inner) case None => None case Some((m, rest)) => Some((Object(m), rest)))
    else if Starts(t, "null") then Some((Null, t[4..]))
    else if Starts(t, "true") then Some((Bool(true), t[4..]))
    else if Starts(t, "false") then Some((Bool(false), t[5..]))
    else (match ReadNumber(t) case None => None case Some((n, rest)) => Some((Int(n), rest)))
  }

  function ReadItems(text: string): (r: Option<(seq<Json>, string)>)
    ensures r.Some? ==> |r.value.1| < |text|
    decreases |text|, 3
  {
    match ReadValue(text)
    case None => None
    case Some((v, after)) =>
      var rest := SkipWhite(after);
      if rest == [] then None
      else if rest[0] == ']' then Some(([v], rest[1..]))
      else if rest[0] != ',' then None
      else (match ReadItems(rest[1..]) case None => None case Some((vs, end)) => Some(([v] + vs, end)))
  }

  /** Members of an object; of a repeated key the last value stays. */
  function ReadMembers(text: string): (r: Option<(map<string, Json>, string)>)
    ensures r.Some? ==> |r.value.1| < |text|
    decreases |text|, 3
  {
    var t := SkipWhite(text);
    if t == [] || t[0] != '\"' then None
    else
      match ReadChars(t[1..])
      case None => None
      case Some((k, afterKey)) =>
        var colon := SkipWhite(afterKey);
        if colon == [] || colon[0] != ':' then None
        else
          match ReadValue(colon[1..])
          case None => None
          case Some((v, after)) =>
            var rest := SkipWhite(after);
            if rest == [] then None
            else if rest[0] == '}' then Some((map[k := v], rest[1..]))
            else if rest[0] != ',' then None
            else (match ReadMembers(rest[1..]) case None => None case Some((m, end)) => Some((map[k := v] + m, end)))
  }

  /** json.loads: one value and nothing but white space after it. */
  function Load(text: string): Option<Json> {
    match ReadValue(text)
    case None => None
    case Some((v, rest)) => if SkipWhite(rest) == [] then Some(v) else None
  }

  // ----- reading what was printed -----

  /** What may follow a printed value. */
  predicate Delimited(rest: string) { rest == [] || rest[0] in ",]}" }

  lemma {:induction false} ReadPrintedNat(n: nat, rest: string, acc: nat)
    requires acc == 0
    ensures ReadDigits(PrintNat(n) + rest, acc) == ReadDigits(rest, n)
  {
    if n < 10 {
      assert ([Digit(n)] + rest)[1..] == rest;
    } else {
      var tens, d := n / 10, [Digit(n % 10)];
      ReadPrintedNat(tens, d + rest, 0);
      assert PrintNat(n) + rest == PrintNat(tens) + (d + rest);
      ReadDigit(n, tens, rest);
    }
  }

  lemma ReadDigit(n: nat, tens: nat, rest: string)
    requires tens == n / 10
    ensures ReadDigits([Digit(n % 10)] + rest, tens) == ReadDigits(rest, n)
  {
    assert ([Digit(n % 10)] + rest)[1..] == rest;
  }

  /** The digits of a number, in the way the reader takes them: the first one apart. */
  lemma ReadPrintedDigits(m: nat, s: string, rest: string)
    requires Delimited(rest) && s == PrintNat(m) + rest
    ensures s != [] && IsDigit(s[0])
    ensures if s[0] == '0' then m == 0 && s[1..] == rest else ReadDigits(s[1..], s[0] as int - '0' as int) == (m, rest)
  {
    ReadPrintedNat(m, rest, 0);
    assert s[0] == PrintNat(m)[0];
    assert ReadDigits(s, 0) == (m, rest);
  }

  lemma NoFraction(rest: string)
    requires Delimited(rest) && rest != []
    ensures rest[0] !in ".eE"
  {
  }

  lemma ReadPrintedPositive(n: nat, s: string, rest: string)
    requires Delimited(rest) && s == PrintNat(n) + rest
    ensures s != [] && IsDigit(s[0]) && ReadNumber(s) == Some((n, rest))
  {
    ReadPrintedDigits(n, s, rest);
    if rest != [] { NoFraction(rest); }
  }

  lemma ReadNegated(n: int, s: string, rest: string)
    requires s != [] && IsDigit(s[0]) && ReadNumber(s) == Some((n, rest))
    ensures ReadNumber("-" + s) == Some((-n, rest))
  {
    assert ("-" + s)[1..] == s;
  }

  lemma ReadPrintedInt(n: int, rest: string)
    requires Delimited(rest)
    ensures ReadNumber(PrintInt(n) + rest) == Some((n, rest))
  {
    if n < 0 {
      var m, digits := -n, PrintNat(-n);
      ReadPrintedPositive(m, digits + rest, rest);
      ReadNegated(m, digits + rest, rest);
      assert "-" + digits + rest == "-" + (digits + rest);
    } else {
      var digits := PrintNat(n);
      ReadPrintedPositive(n, digits + rest, rest);
    }
  }

  /** A printed value starts with a character that tells its kind, never with white space or a bracket's end. */
  predicate StartsValue(c: char) { c in "\"[{ntf-" || IsDigit(c) }

  lemma PrintStarts(v: Json)
    ensures Print(v) != [] && StartsValue(Print(v)[0])
  {
  }

  lemma SkipsNothing(t: string)
    requires t != [] ==> !IsWhite(t[0])
    ensures SkipWhite(t) == t
  {
  }

  lemma ReadPrintedWord(v: Json, rest: string)
    requires (v.Null? || v.Bool?) && Delimited(rest)
    ensures ReadValue(Print(v) + rest) == Some((v, rest))
  {
    var w := Print(v);
    var t := w + rest;
    SkipsNothing(t);
    assert t[..|w|] == w && t[|w|..] == rest;
    assert t[0] == w[0];
    assert v == Bool(true) ==> !Starts(t, "null");
    assert v == Bool(false) ==> !Starts(t, "null") && !Starts(t, "true");
  }

  lemma StartsHead(t: string, word: string)
    requires word != []
    ensures Starts(t, word) ==> t != [] && t[0] == word[0]
  {
    if Starts(t, word) { assert t[..|word|][0] == word[0]; }
  }

  lemma NumberIsNoWord(t: string)
    requires t != [] && (t[0] == '-' || IsDigit(t[0]))
    ensures !Starts(t, "null") && !Starts(t, "true") && !Starts(t, "false")
  {
    StartsHead(t, "null");
    StartsHead(t, "true");
    StartsHead(t, "false");
  }

  lemma ReadPrintedNumber(n: int, rest: string)
    requires Delimited(rest)
    ensures ReadValue(PrintInt(n) + rest) == Some((Int(n), rest))
  {
    var t := PrintInt(n) + rest;
    assert t[0] == PrintInt(n)[0];
    SkipsNothing(t);
    NumberIsNoWord(t);
    ReadPrintedInt(n, rest);
  }

  lemma ReadPrintedString(s: string, rest: string)
    ensures ReadValue(Quote(s) + rest) == Some((Str(s), rest))
  {
    ReadQuoted(s, rest);
    SkipsNothing(Quote(s) + rest);
  }

  /** The members of a dictionary from position i of the key list on. */
  function Part(m: map<string, Json>, ks: seq<string>, i: nat): map<string, Json>
    requires i <= |ks| && forall k :: k in ks ==> k in m
  {
    map k | k in ks[i..] :: m[k]
  }

  /** Reading gives back what was printed, and leaves alone what follows. */
  lemma {:induction false} ReadPrinted(v: Json, rest: string)
    requires Delimited(rest)
    ensures ReadValue(Print(v) + rest) == Some((v, rest))
    decreases v, 1, 0
  {
    match v
    case Null => ReadPrintedWord(v, rest);
    case Bool(_) => ReadPrintedWord(v, rest);
    case Int(n) => ReadPrintedNumber(n, rest);
    case Str(s) => ReadPrintedString(s, rest);
    case List(xs) => ReadPrintedList(v, rest);
    case Object(m) => ReadPrintedObject(v, rest);
  }

  lemma {:induction false} ReadPrintedList(v: Json, rest: string)
    requires v.List? && Delimited(rest)
    ensures ReadValue(Print(v) + rest) == Some((v, rest))
    decreases v, 0, |v.items| + 1
  {
    var t := Print(v) + rest;
    var inner := PrintItems(v, 0) + "]" + rest;
    SkipsNothing(t);
    assert t[1..] == inner;
    if v.items == [] {
      assert inner == "]" + rest && inner[1..] == rest;
      SkipsNothing(inner);
    } else {
      PrintStarts(v.items[0]);
      assert inner[0] == Print(v.items[0])[0];
      SkipsNothing(inner);
      ReadPrintedItems(v, 0, rest);
      assert v.items[0..] == v.items;
    }
  }

  lemma {:induction false} ReadPrintedItems(v: Json, i: nat, rest: string)
    requires v.List? && i < |v.items|
    ensures ReadItems(PrintItems(v, i) + "]" + rest) == Some((v.items[i..], rest))
    decreases v, 0, |v.items| - i
  {
    var x := v.items[i];
    if i + 1 == |v.items| {
      assert PrintItems(v, i) + "]" + rest == Print(x) + ("]" + rest);
      ReadPrinted(x, "]" + rest);
      ReadLastItem(x, Print(x), rest);
      assert v.items[i..] == [x];
    } else {
      var more := PrintItems(v, i + 1) + "]" + rest;
      assert PrintItems(v, i) + "]" + rest == Print(x) + ("," + more);
      ReadPrinted(x, "," + more);
      ReadPrintedItems(v, i + 1, rest);
      ReadItem(x, Print(x), more, v.items[i + 1..], rest);
      assert v.items[i..] == [x] + v.items[i + 1..];
    }
  }

  lemma ReadLastItem(x: Json, value: string, rest: string)
    requires ReadValue(value + ("]" + rest)) == Some((x, "]" + rest))
    ensures ReadItems(value + ("]" + rest)) == Some(([x], rest))
  {
    SkipsNothing("]" + rest);
    assert ("]" + rest)[1..] == rest;
  }

  lemma ReadItem(x: Json, value: string, more: string, xs: seq<Json>, rest: string)
    requires ReadValue(value + ("," + more)) == Some((x, "," + more)) && ReadItems(more) == Some((xs, rest))
    ensures ReadItems(value + ("," + more)) == Some(([x] + xs, rest))
  {
    SkipsNothing("," + more);
    assert ("," + more)[1..] == more;
  }

  lemma ReadObject(t: string, m: map<string, Json>, rest: string)
    requires |t| >= 2 && t[0] == '{' && t[1] == '\"' && ReadMembers(t[1..]) == Some((m, rest))
    ensures ReadValue(t) == Some((Object(m), rest))
  {
    SkipsNothing(t);
    SkipsNothing(t[1..]);
  }

  lemma MembersStart(v: Json, ks: seq<string>)
    requires v.Object? && ks != [] && forall k :: k in ks ==> k in v.members
    ensures ks[0] in ks && PrintMembers(v, ks, 0) != [] && PrintMembers(v, ks, 0)[0] == '\"'
  {
  }

  lemma {:induction false} ReadPrintedObject(v: Json, rest: string)
    requires v.Object? && Delimited(rest)
    ensures ReadValue(Print(v) + rest) == Some((v, rest))
    decreases v, 0, |v.members.Keys| + 1
  {
    var ks := SortedKeys(v.members);
    var printed := PrintMembers(v, ks, 0);
    var t := Print(v) + rest;
    assert t == "{" + printed + "}" + rest;
    JoinObject(printed, rest);
    if ks == [] {
      assert v.members == map[];
      ReadEmptyObject(t, rest);
    } else {
      MembersStart(v, ks);
      ReadPrintedMembers(v, ks, 0, rest);
      PartAll(v.members, ks);
      ReadObject(t, v.members, rest);
    }
  }

  lemma ReadEmptyObject(t: string, rest: string)
    requires |t| >= 2 && t[0] == '{' && t[1] == '}' && t[2..] == rest
    ensures ReadValue(t) == Some((Object(map[]), rest))
  {
    SkipsNothing(t);
    SkipsNothing(t[1..]);
    assert t[1..][1..] == rest;
  }

  lemma PartAll(m: map<string, Json>, ks: seq<string>)
    requires forall k :: k in ks <==> k in m
    ensures Part(m, ks, 0) == m
  {
    assert ks[0..] == ks;
  }

  /** One member, a last one or one before others. */
  lemma ReadMember(k: string, x: Json, value: string, tail: string, m: map<string, Json>, end: string)
    requires ReadValue(value + tail) == Some((x, tail)) && tail != []
    requires tail[0] == '}' ==> m == map[] && tail[1..] == end
    requires tail[0] != '}' ==> tail[0] == ',' && ReadMembers(tail[1..]) == Some((m, end))
    ensures ReadMembers(Quote(k) + (":" + (value + tail))) == Some((map[k := x] + m, end))
  {
    var colon := ":" + (value + tail);
    ReadQuoted(k, colon);
    SkipsNothing(Quote(k) + colon);
    SkipsNothing(colon);
    SkipsNothing(tail);
    assert colon[1..] == value + tail;
    assert map[k := x] + map[] == map[k := x];
  }

  lemma PartStep(m: map<string, Json>, ks: seq<string>, i: nat)
    requires i < |ks| && (forall k :: k in ks ==> k in m) && forall a, b :: 0 <= a < b < |ks| ==> ks[a] != ks[b]
    ensures ks[i] in ks && Part(m, ks, i) == map[ks[i] := m[ks[i]]] + Part(m, ks, i + 1)
  {
    assert ks[i..] == [ks[i]] + ks[i + 1..];
  }

  lemma {:induction false} ReadPrintedMembers(v: Json, ks: seq<string>, i: nat, rest: string)
    requires v.Object? && i < |ks| && (forall k :: k in ks ==> k in v.members) && |ks| <= |v.members.Keys|
    requires forall a, b :: 0 <= a < b < |ks| ==> ks[a] != ks[b]
    ensures ReadMembers(PrintMembers(v, ks, i) + "}" + rest) == Some((Part(v.members, ks, i), rest))
    decreases v, 0, |ks| - i
  {
    PartStep(v.members, ks, i);
    var k, x := ks[i], v.members[ks[i]];
    var last := i + 1 == |ks|;
    var tail := if last then "}" + rest else "," + (PrintMembers(v, ks, i + 1) + "}" + rest);
    MemberText(v, ks, i, rest, tail);
    ReadPrinted(x, tail);
    if last {
      assert tail[1..] == rest;
      assert Part(v.members, ks, i + 1) == map[];
    } else {
      assert tail[1..] == PrintMembers(v, ks, i + 1) + "}" + rest;
      ReadPrintedMembers(v, ks, i + 1, rest);
    }
    ReadMember(k, x, Print(x), tail, Part(v.members, ks, i + 1), rest);
  }

  lemma MemberText(v: Json, ks: seq<string>, i: nat, rest: string, tail: string)
    requires v.Object? && i < |ks| && (forall k :: k in ks ==> k in v.members) && ks[i] in ks
    requires tail == if i + 1 == |ks| then "}" + rest else "," + (PrintMembers(v, ks, i + 1) + "}" + rest)
    ensures PrintMembers(v, ks, i) + "}" + rest == Quote(ks[i]) + (":" + (Print(v.members[ks[i]]) + tail))
  {
    var k, x := Quote(ks[i]), Print(v.members[ks[i]]);
    if i + 1 == |ks| {
      assert PrintMembers(v, ks, i) == k + ":" + x + "";
      JoinLast(k, x, "}" + rest, rest);
    } else {
      JoinMore(k, x, PrintMembers(v, ks, i + 1), rest);
    }
  }

  lemma JoinLast(k: string, x: string, tail: string, rest: string)
    requires tail == "}" + rest
    ensures k + ":" + x + "" + "}" + rest == k + (":" + (x + tail))
  {
  }

  lemma JoinMore(k: string, x: string, more: string, rest: string)
    ensures k + ":" + x + ("," + more) + "}" + rest == k + (":" + (x + ("," + (more + "}" + rest))))
  {
  }

  lemma JoinObject(members: string, rest: string)
    ensures "{" + members + "}" + rest == "{" + (members + "}" + rest)
    ensures ("{" + members + "}" + rest)[1..] == members + "}" + rest
  {
  }

  lemma {:induction false} LoadsPrinted(v: Json)
    ensures Load(Print(v)) == Some(v)
  {
    ReadPrinted(v, "");
    assert Print(v) + "" == Print(v);
  }

  // ----- the contract's two functions -----

  /** canonical_json: None stands for CANONICAL_JSON_INVALID. */
  ghost function Canonical(v: Json): Option<seq<Byte>> {
    if !Valid(v) then None
    else
      var bytes := Encode(Print(v));
      if |bytes| > MAX_BYTES then None else Some(bytes)
  }

  /** parse_canonical_json: whatever can be read, if printing it gives the very same bytes. */
  ghost function Parse(raw: seq<Byte>): Option<Json> {
    if |raw| > MAX_BYTES then None
    else
      match Decode(raw)
      case None => None
      case Some(text) =>
        match Load(text)
        case None => None
        case Some(v) => if Canonical(v) == Some(raw) then Some(v) else None
  }

  /** The parser accepts exactly the canonical bytes, each as the one value it was printed from. */
  lemma {:induction false} ParseExactly(raw: seq<Byte>, v: Json)
    ensures Parse(raw) == Some(v) <==> Canonical(v) == Some(raw)
  {
    if Canonical(v) == Some(raw) {
      DecodesEncoded(Print(v));
      LoadsPrinted(v);
    }
  }

  /** Distinct values have distinct canonical bytes. */
  lemma CanonicalInjective(v: Json, w: Json)
    requires Canonical(v).Some? && Canonical(v) == Canonical(w)
    ensures v == w
  {
    ParseExactly(Canonical(v).value, v);
    ParseExactly(Canonical(v).value, w);
  }

  // ----- where the two languages disagree -----

  /** How many characters of a string lie beyond the basic plane. */
  function Supplementary(s: string): nat {
    if s == [] then 0 else Supplementary(s[1..]) + if s[0] as int >= 0x10000 then 1 else 0
  }

  lemma {:induction false} UnitCount(s: string)
    ensures |Units(s)| == |s| + Supplementary(s)
  {
    if s != [] { UnitCount(s[1..]); }
  }

  /** The server's limits are the worker's, except that it measures a string in UTF-16 code units. */
  predicate ServerBounded(v: Json, room: int)
    decreases v
  {
    room >= 0 &&
    match v
    case Str(s) => |Units(s)| <= MAX_STRING
    case Int(n) => -MAX_INT <= n <= MAX_INT
    case List(xs) => forall i :: 0 <= i < |xs| ==> ServerBounded(xs[i], room - 1)
    case Object(m) => forall k :: k in m ==> |Units(k)| <= MAX_STRING && ServerBounded(m[k], room - 1)
    case _ => true
  }

  /** No string or key is pushed over the limit by characters that take two code units. */
  predicate FitsInUnits(v: Json)
    decreases v
  {
    match v
    case Str(s) => |s| + Supplementary(s) <= MAX_STRING
    case List(xs) => forall i :: 0 <= i < |xs| ==> FitsInUnits(xs[i])
    case Object(m) => forall k :: k in m ==> |k| + Supplementary(k) <= MAX_STRING && FitsInUnits(m[k])
    case _ => true
  }

  /** The server accepts exactly those of the worker's values whose strings also fit when counted in code units. */
  lemma {:induction false} ServerAcceptsExactly(v: Json, room: int)
    ensures ServerBounded(v, room) <==> Bounded(v, room) && (room >= 0 ==> FitsInUnits(v))
    decreases v
  {
    match v
    case Str(s) => UnitCount(s);
    case List(xs) =>
      forall i | 0 <= i < |xs| ensures Agrees(xs[i], room - 1) { ServerAcceptsExactly(xs[i], room - 1); }
      ItemsAgree(v, room);
    case Object(m) =>
      forall k | k in m ensures Agrees(m[k], room - 1) { ServerAcceptsExactly(m[k], room - 1); }
      MembersAgree(v, room);
    case _ =>
  }

  ghost predicate Agrees(v: Json, room: int) {
    ServerBounded(v, room) <==> Bounded(v, room) && (room >= 0 ==> FitsInUnits(v))
  }

  lemma BoundedHasRoom(v: Json, room: int)
    ensures Bounded(v, room) || ServerBounded(v, room) ==> room >= 0
  {
  }

  lemma ItemsAgree(v: Json, room: int)
    requires v.List? && forall i :: 0 <= i < |v.items| ==> Agrees(v.items[i], room - 1)
    ensures Agrees(v, room)
  {
    forall i | 0 <= i < |v.items|
      ensures ServerBounded(v.items[i], room - 1) <==> Bounded(v.items[i], room - 1) && FitsInUnits(v.items[i])
    {
      assert Agrees(v.items[i], room - 1);
      BoundedHasRoom(v.items[i], room - 1);
    }
  }

  lemma MembersAgree(v: Json, room: int)
    requires v.Object? && forall k :: k in v.members ==> Agrees(v.members[k], room - 1)
    ensures Agrees(v, room)
  {
    forall k | k in v.members
      ensures |Units(k)| == |k| + Supplementary(k)
      ensures ServerBounded(v.members[k], room - 1) <==> Bounded(v.members[k], room - 1) && FitsInUnits(v.members[k])
    {
      assert Agrees(v.members[k], room - 1);
      BoundedHasRoom(v.members[k], room - 1);
      UnitCount(k);
    }
  }

  lemma {:induction false} AllSupplementary(n: nat, s: string)
    requires |s| == n && forall i :: 0 <= i < n ==> s[i] as int >= 0x10000
    ensures Supplementary(s) == n
  {
    if n > 0 { AllSupplementary(n - 1, s[1..]); }
  }

  /** A text of 10 000 emoji is signed by the worker and refused by the server. */
  lemma EmojiAreRefused() returns (v: Json)
    ensures Valid(v) && !ServerBounded(v, MAX_DEPTH)
  {
    var s := seq(10000, _ => 0x1F600 as char);
    AllSupplementary(10000, s);
    v := Str(s);
    ServerAcceptsExactly(v, MAX_DEPTH);
  }
}
