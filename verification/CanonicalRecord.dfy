// The canonical encoding of an audit record, and the parser that undoes it.
module CanonicalRecord {

  // A text is what decoding a byte string as UTF-8 yields: scalar values, and bytes that belong to none.
  type StrayByte = b: int | 0x80 <= b <= 0xFF witness 0x80

  datatype Unit = Rune(c: char) | Stray(b: StrayByte)

  type Text = seq<Unit>

  // ------------------------------------------------------------------- quoting

  const HEX := "0123456789abcdef"

  function Hex(d: int): (c: char)
    requires 0 <= d < 16
    ensures c != '"' && c != '\\'
  {
    HEX[d]
  }

  function Digit(c: char): int {
    if '0' <= c <= '9' then c as int - '0' as int
    else if 'a' <= c <= 'f' then c as int - 'a' as int + 10
    else -1
  }

  function HexDigits(n: nat, width: nat): string {
    if width == 0 then "" else HexDigits(n / 16, width - 1) + [Hex(n % 16)]
  }

  // The letter of a control character that has a short escape.
  function ShortEscape(c: char): string {
    match c as int
    case 7 => "a"
    case 8 => "b"
    case 12 => "f"
    case 10 => "n"
    case 13 => "r"
    case 9 => "t"
    case 11 => "v"
    case _ => ""
  }

  // How strconv.Quote writes one unit; `printable` is strconv.IsPrint.
  function Escaped(printable: char -> bool, u: Unit): string {
    match u
    case Stray(b) => "\\x" + HexDigits(b, 2)
    case Rune(c) =>
      if c == '"' || c == '\\' then ['\\', c]
      else if printable(c) then [c]
      else if ShortEscape(c) != "" then "\\" + ShortEscape(c)
      else if c < ' ' || c as int == 0x7F then "\\x" + HexDigits(c as int, 2)
      else if c as int < 0x1_0000 then "\\u" + HexDigits(c as int, 4)
      else "\\U" + HexDigits(c as int, 8)
  }

  function EscapedAll(printable: char -> bool, t: Text): string {
    if t == [] then "" else Escaped(printable, t[0]) + EscapedAll(printable, t[1..])
  }

  function Quote(printable: char -> bool, t: Text): string { "\"" + EscapedAll(printable, t) + "\"" }

  // ----------------------------------------------------------------- unquoting

  datatype Read<+T> = Bad | Got(value: T, rest: string)

  function HexValue(s: string): int {
    if s == "" then 0
    else
      var high, low := HexValue(s[..|s| - 1]), Digit(s[|s| - 1]);
      if high < 0 || low < 0 then -1 else high * 16 + low
  }

  predicate IsScalar(n: int) { 0 <= n < 0xD800 || 0xE000 <= n < 0x11_0000 }

  // A hex escape of the given width, after its letter.
  function ReadHex(s: string, width: nat): Read<Unit> {
    if |s| < width then Bad
    else
      var n := HexValue(s[..width]);
      if width == 2 && 0x80 <= n <= 0xFF then Got(Stray(n), s[width..])
      else if IsScalar(n) then Got(Rune(n as char), s[width..])
      else Bad
  }

  // The first unit of a quoted text.
  function ReadUnit(s: string): Read<Unit>
    requires s != ""
  {
    if s[0] != '\\' then Got(Rune(s[0]), s[1..])
    else if |s| == 1 then Bad
    else
      match s[1]
      case '\\' => Got(Rune('\\'), s[2..])
      case '"' => Got(Rune('"'), s[2..])
      case 'a' => Got(Rune(7 as char), s[2..])
      case 'b' => Got(Rune(8 as char), s[2..])
      case 'f' => Got(Rune(12 as char), s[2..])
      case 'n' => Got(Rune(10 as char), s[2..])
      case 'r' => Got(Rune(13 as char), s[2..])
      case 't' => Got(Rune(9 as char), s[2..])
      case 'v' => Got(Rune(11 as char), s[2..])
      case 'x' => ReadHex(s[2..], 2)
      case 'u' => ReadHex(s[2..], 4)
      case 'U' => ReadHex(s[2..], 8)
      case _ => Bad
  }

  lemma ReadUnitShrinks(s: string)
    requires s != "" && ReadUnit(s).Got?
    ensures |ReadUnit(s).rest| < |s|
  {}

  // A quoted text, after its opening quote.
  function ReadText(s: string): Read<Text>
    decreases |s|
  {
    if s == "" then Bad
    else if s[0] == '"' then Got([], s[1..])
    else
      match ReadUnit(s)
      case Bad => Bad
      case Got(u, rest) =>
        ReadUnitShrinks(s);
        match ReadText(rest)
        case Bad => Bad
        case Got(t, rest') => Got([u] + t, rest')
  }

  function Pow16(n: nat): nat { if n == 0 then 1 else 16 * Pow16(n - 1) }

  lemma HexDigit(d: int)
    requires 0 <= d < 16
    ensures Digit(Hex(d)) == d
  {}

  lemma HexValueOfOneMore(s: string, d: int)
    requires 0 <= d < 16 && HexValue(s) >= 0
    ensures HexValue(s + [Hex(d)]) == HexValue(s) * 16 + d
  {
    HexDigit(d);
    assert (s + [Hex(d)])[..|s|] == s;
  }

  lemma {:induction false} HexRoundTrip(n: nat, width: nat)
    requires n < Pow16(width)
    ensures |HexDigits(n, width)| == width && HexValue(HexDigits(n, width)) == n
  {
    if width > 0 {
      assert n / 16 < Pow16(width - 1);
      HexRoundTrip(n / 16, width - 1);
      HexValueOfOneMore(HexDigits(n / 16, width - 1), n % 16);
    }
  }

  lemma PowersOf16()
    ensures Pow16(2) == 0x100 && Pow16(4) == 0x1_0000 && Pow16(8) == 0x1_0000_0000
  {
    assert Pow16(4) == 16 * (16 * Pow16(2));
    assert Pow16(8) == 16 * (16 * (16 * (16 * Pow16(4))));
  }

  lemma ReadHexRoundTrip(n: nat, width: nat, tail: string)
    requires n < Pow16(width)
    ensures ReadHex(HexDigits(n, width) + tail, width) ==
            if width == 2 && n >= 0x80 then Got(Stray(n), tail)
            else if IsScalar(n) then Got(Rune(n as char), tail) else Bad
  {
    HexRoundTrip(n, width);
    PowersOf16();
    var s := HexDigits(n, width) + tail;
    assert s[..width] == HexDigits(n, width) && s[width..] == tail;
  }

  // An escape reads back as its unit, and does not begin with a quote.
  lemma EscapedReadsBack(printable: char -> bool, u: Unit, tail: string)
    ensures var e := Escaped(printable, u);
            e != "" && e[0] != '"' && ReadUnit(e + tail) == Got(u, tail)
  {
    var e := Escaped(printable, u);
    var s := e + tail;
    PowersOf16();
    if |e| == 1 {
      assert s[1..] == tail;
    } else if |e| == 2 {
      assert s[2..] == tail;
    } else {
      var n: nat := if u.Stray? then u.b else u.c as int;
      var width := if u.Stray? || n < 0x20 || n == 0x7F then 2 else if n < 0x1_0000 then 4 else 8;
      assert e == e[..2] + HexDigits(n, width);
      assert s[2..] == HexDigits(n, width) + tail;
      ReadHexRoundTrip(n, width, tail);
    }
  }

  lemma ReadTextStep(s: string, u: Unit, more: string, t: Text, tail: string)
    requires s != "" && s[0] != '"' && ReadUnit(s) == Got(u, more) && ReadText(more) == Got(t, tail)
    ensures ReadText(s) == Got([u] + t, tail)
  {}

  lemma EscapedThenMore(e: string, es: string, tail: string)
    ensures e + es + "\"" + tail == e + (es + "\"" + tail)
    ensures e != "" ==> (e + (es + "\"" + tail))[0] == e[0]
  {}

  lemma {:induction false} QuoteReadsBack(printable: char -> bool, t: Text, tail: string)
    ensures ReadText(EscapedAll(printable, t) + "\"" + tail) == Got(t, tail)
  {
    if t == [] {
      assert EscapedAll(printable, t) + "\"" + tail == "\"" + tail;
    } else {
      var e, es := Escaped(printable, t[0]), EscapedAll(printable, t[1..]);
      var more := es + "\"" + tail;
      EscapedThenMore(e, es, tail);
      EscapedReadsBack(printable, t[0], more);
      QuoteReadsBack(printable, t[1..], tail);
      ReadTextStep(e + more, t[0], more, t[1..], tail);
      assert [t[0]] + t[1..] == t;
    }
  }

  // -------------------------------------------------------------------- records

  datatype Actor = Actor(userId: Text, email: Text, team: Text, role: Text)

  // `occurredAt` is the UTC rendering of the time, as section 5.6 of RFC 3339 writes it.
  datatype Record = Record(
    actor: Actor, action: Text, resource: Text, decision: Text, grpcCode: Text, err: Text,
    correlationId: Text, occurredAt: Text, sourceService: Text)

  const KEYS := [
    "actor.user_id", "actor.email", "actor.team", "actor.role", "action", "resource", "decision",
    "grpc_code", "err", "correlation_id", "occurred_at", "source_service"]

  function Values(r: Record): (vs: seq<Text>)
    ensures |vs| == 12
  {
    [r.actor.userId, r.actor.email, r.actor.team, r.actor.role, r.action, r.resource, r.decision,
     r.grpcCode, r.err, r.correlationId, r.occurredAt, r.sourceService]
  }

  function FromValues(vs: seq<Text>): (r: Record)
    requires |vs| == |KEYS|
    ensures Values(r) == vs
  {
    Record(Actor(vs[0], vs[1], vs[2], vs[3]), vs[4], vs[5], vs[6], vs[7], vs[8], vs[9], vs[10], vs[11])
  }

  // The first n characters of a text without stray bytes.
  function PlainUpTo(s: string, n: nat): Text
    requires n <= |s|
  {
    if n == 0 then [] else PlainUpTo(s, n - 1) + [Rune(s[n - 1])]
  }

  function Plain(s: string): Text { PlainUpTo(s, |s|) }

  // One field, its key and value already quoted.
  function Joined(key: string, value: string, first: bool): string {
    (if first then "" else ",") + key + ":" + value
  }

  function Field(printable: char -> bool, key: string, value: Text, first: bool): string {
    Joined(Quote(printable, Plain(key)), Quote(printable, value), first)
  }

  // The encoding up to its first n fields.
  function Fields(printable: char -> bool, keys: seq<string>, vs: seq<Text>, n: nat): string
    requires n <= |vs| == |keys|
  {
    if n == 0 then "{"
    else Fields(printable, keys, vs, n - 1) + Field(printable, keys[n - 1], vs[n - 1], n == 1)
  }

  function Encoded(printable: char -> bool, keys: seq<string>, vs: seq<Text>): string
    requires |vs| == |keys|
  {
    Fields(printable, keys, vs, |vs|) + "}"
  }

  function Canonical(printable: char -> bool, r: Record): string { Encoded(printable, KEYS, Values(r)) }

  class Builder {
    var b: string

    constructor ()
      ensures b == ""
    {
      b := "";
    }

    method WriteString(s: string)
      modifies this
      ensures b == old(b) + s
    {
      b := b + s;
    }

    method WriteField(printable: char -> bool, key: string, value: Text, first: bool)
      modifies this
      ensures b == old(b) + Field(printable, key, value, first)
    {
      if !first { WriteString(","); }
      var k := Quote(printable, Plain(key));
      WriteString(k);
      WriteString(":");
      var v := Quote(printable, value);
      WriteString(v);
      Pieces(old(b), k, v, first);
    }
  }

  lemma Pieces(b: string, k: string, v: string, first: bool)
    ensures (if first then b else b + ",") + k + ":" + v == b + Joined(k, v, first)
  {
    if first {
      assert "" + k == k;
    }
  }

  method WriteActor(b: Builder, printable: char -> bool, keys: seq<string>, r: Record)
    requires |keys| == 12 && b.b == Fields(printable, keys, Values(r), 0)
    modifies b
    ensures b.b == Fields(printable, keys, Values(r), 4)
  {
    b.WriteField(printable, keys[0], r.actor.userId, true);
    assert b.b == Fields(printable, keys, Values(r), 1);
    b.WriteField(printable, keys[1], r.actor.email, false);
    assert b.b == Fields(printable, keys, Values(r), 2);
    b.WriteField(printable, keys[2], r.actor.team, false);
    assert b.b == Fields(printable, keys, Values(r), 3);
    b.WriteField(printable, keys[3], r.actor.role, false);
  }

  method WriteOutcome(b: Builder, printable: char -> bool, keys: seq<string>, r: Record)
    requires |keys| == 12 && b.b == Fields(printable, keys, Values(r), 4)
    modifies b
    ensures b.b == Fields(printable, keys, Values(r), 8)
  {
    b.WriteField(printable, keys[4], r.action, false);
    assert b.b == Fields(printable, keys, Values(r), 5);
    b.WriteField(printable, keys[5], r.resource, false);
    assert b.b == Fields(printable, keys, Values(r), 6);
    b.WriteField(printable, keys[6], r.decision, false);
    assert b.b == Fields(printable, keys, Values(r), 7);
    b.WriteField(printable, keys[7], r.grpcCode, false);
  }

  method WriteContext(b: Builder, printable: char -> bool, keys: seq<string>, r: Record)
    requires |keys| == 12 && b.b == Fields(printable, keys, Values(r), 8)
    modifies b
    ensures b.b == Fields(printable, keys, Values(r), 12)
  {
    b.WriteField(printable, keys[8], r.err, false);
    assert b.b == Fields(printable, keys, Values(r), 9);
    b.WriteField(printable, keys[9], r.correlationId, false);
    assert b.b == Fields(printable, keys, Values(r), 10);
    b.WriteField(printable, keys[10], r.occurredAt, false);
    assert b.b == Fields(printable, keys, Values(r), 11);
    b.WriteField(printable, keys[11], r.sourceService, false);
  }

  method CanonicalJSON(printable: char -> bool, r: Record) returns (s: string)
    ensures s == Canonical(printable, r)
  {
    var b := new Builder();
    b.WriteString("{");
    WriteActor(b, printable, KEYS, r);
    WriteOutcome(b, printable, KEYS, r);
    WriteContext(b, printable, KEYS, r);
    b.WriteString("}");
    s := b.b;
  }

  // -------------------------------------------------------------------- parsing

  function ReadQuoted(s: string): Read<Text> {
    if s != "" && s[0] == '"' then ReadText(s[1..]) else Bad
  }

  function ReadField(key: string, first: bool, s: string): Read<Text> {
    if !first && (s == "" || s[0] != ',') then Bad
    else
      match ReadQuoted(if first then s else s[1..])
      case Bad => Bad
      case Got(k, rest) => if k == Plain(key) && rest != "" && rest[0] == ':' then ReadQuoted(rest[1..]) else Bad
  }

  function ReadFields(keys: seq<string>, s: string, n: nat): (r: Read<seq<Text>>)
    requires n <= |keys|
    ensures r.Got? ==> |r.value| == n
  {
    if n == 0 then (if s != "" && s[0] == '{' then Got([], s[1..]) else Bad)
    else
      match ReadFields(keys, s, n - 1)
      case Bad => Bad
      case Got(vs, rest) =>
        match ReadField(keys[n - 1], n == 1, rest)
        case Bad => Bad
        case Got(v, rest') => Got(vs + [v], rest')
  }

  function Decode(keys: seq<string>, s: string): (r: Read<seq<Text>>)
    ensures r.Got? ==> |r.value| == |keys|
  {
    match ReadFields(keys, s, |keys|)
    case Bad => Bad
    case Got(vs, rest) => if rest == "}" then Got(vs, "") else Bad
  }

  datatype Parsed = Malformed | Decoded(record: Record)

  function Parse(s: string): Parsed {
    match Decode(KEYS, s)
    case Bad => Malformed
    case Got(vs, _) => Decoded(FromValues(vs))
  }

  lemma AfterQuote(es: string, tail: string)
    ensures var s := "\"" + es + "\"" + tail;
            s[0] == '"' && s[1..] == es + "\"" + tail
  {}

  lemma QuotedReadsBack(printable: char -> bool, t: Text, tail: string)
    ensures ReadQuoted(Quote(printable, t) + tail) == Got(t, tail)
  {
    QuoteReadsBack(printable, t, tail);
    AfterQuote(EscapedAll(printable, t), tail);
  }

  lemma FieldReadsBack(printable: char -> bool, key: string, value: Text, first: bool, tail: string)
    ensures ReadField(key, first, Field(printable, key, value, first) + tail) == Got(value, tail)
  {
    var k, v := Quote(printable, Plain(key)), Quote(printable, value);
    JoinedSplits(k, v, first, tail);
    QuotedReadsBack(printable, Plain(key), ":" + (v + tail));
    QuotedReadsBack(printable, value, tail);
  }

  lemma JoinedSplits(k: string, v: string, first: bool, tail: string)
    ensures var s := Joined(k, v, first) + tail;
            && (first || (s != "" && s[0] == ','))
            && (if first then s else s[1..]) == k + (":" + (v + tail))
            && (":" + (v + tail))[1..] == v + tail
  {}

  lemma ReadNext(keys: seq<string>, s: string, n: nat, vs: seq<Text>, mid: string, v: Text, rest: string)
    requires 0 < n <= |keys|
    requires ReadFields(keys, s, n - 1) == Got(vs, mid) && ReadField(keys[n - 1], n == 1, mid) == Got(v, rest)
    ensures ReadFields(keys, s, n) == Got(vs + [v], rest)
  {}

  lemma Associates(a: string, b: string, c: string)
    ensures a + b + c == a + (b + c)
  {}

  lemma NoField(keys: seq<string>, tail: string)
    ensures ReadFields(keys, "{" + tail, 0) == Got([], tail)
  {
    assert ("{" + tail)[1..] == tail;
  }

  lemma {:induction false} FieldsReadBack(
      printable: char -> bool, keys: seq<string>, vs: seq<Text>, n: nat, tail: string)
    requires n <= |vs| == |keys|
    ensures ReadFields(keys, Fields(printable, keys, vs, n) + tail, n) == Got(vs[..n], tail)
  {
    if n == 0 {
      NoField(keys, tail);
    } else {
      var field := Field(printable, keys[n - 1], vs[n - 1], n == 1);
      FieldsReadBack(printable, keys, vs, n - 1, field + tail);
      FieldReadsBack(printable, keys[n - 1], vs[n - 1], n == 1, tail);
      var before := Fields(printable, keys, vs, n - 1);
      Associates(before, field, tail);
      ReadNext(keys, before + (field + tail), n, vs[..n - 1], field + tail, vs[n - 1], tail);
      OneMore(vs, n);
    }
  }

  lemma OneMore(vs: seq<Text>, n: nat)
    requires 0 < n <= |vs|
    ensures vs[..n - 1] + [vs[n - 1]] == vs[..n]
  {}

  lemma EncodedReadsBack(printable: char -> bool, keys: seq<string>, vs: seq<Text>)
    requires |vs| == |keys|
    ensures Decode(keys, Encoded(printable, keys, vs)) == Got(vs, "")
  {
    FieldsReadBack(printable, keys, vs, |keys|, "}");
    assert vs[..|keys|] == vs;
  }

  // The encoding is undone by the parser, whatever the twelve values are.
  lemma CanonicalRoundTrip(printable: char -> bool, r: Record)
    ensures Parse(Canonical(printable, r)) == Decoded(r)
  {
    EncodedReadsBack(printable, KEYS, Values(r));
  }

  lemma CanonicalIsInjective(printable: char -> bool, r: Record, r': Record)
    ensures Canonical(printable, r) == Canonical(printable, r') <==> r == r'
  {
    CanonicalRoundTrip(printable, r);
    CanonicalRoundTrip(printable, r');
  }

  // ------------------------------------------------------------- the bytes themselves

  // ASCII text that needs no escape.
  predicate Bare(s: string) { forall i :: 0 <= i < |s| ==> ' ' <= s[i] <= '~' && s[i] != '"' && s[i] != '\\' }

  lemma {:induction false} BareQuotes(printable: char -> bool, s: string, t: Text)
    requires (forall c :: ' ' <= c <= '~' ==> printable(c)) && Bare(s)
    requires |t| == |s| && forall i :: 0 <= i < |s| ==> t[i] == Rune(s[i])
    ensures EscapedAll(printable, t) == s
    decreases |s|
  {
    if s != "" {
      BareQuotes(printable, s[1..], t[1..]);
      assert Escaped(printable, t[0]) == [s[0]];
      assert s == [s[0]] + s[1..];
    }
  }

  lemma {:induction false} PlainIs(s: string, n: nat)
    requires n <= |s|
    ensures |PlainUpTo(s, n)| == n && forall i :: 0 <= i < n ==> PlainUpTo(s, n)[i] == Rune(s[i])
  {
    if n > 0 { PlainIs(s, n - 1); }
  }

  function Pair(key: string, value: string): string { "\"" + key + "\":\"" + value + "\"" }

  // The first n pairs, as they are written out.
  function Pairs(keys: seq<string>, values: seq<string>, n: nat): string
    requires n <= |keys| == |values|
  {
    if n == 0 then "{"
    else Pairs(keys, values, n - 1) + (if n == 1 then "" else ",") + Pair(keys[n - 1], values[n - 1])
  }

  predicate Plainly(key: string, value: string, v: Text) { Bare(key) && Bare(value) && v == Plain(value) }

  lemma {:induction false} FieldsArePairs(
      printable: char -> bool, keys: seq<string>, values: seq<string>, vs: seq<Text>, n: nat)
    requires forall c :: ' ' <= c <= '~' ==> printable(c)
    requires n <= |keys| == |values| == |vs|
    requires forall k :: 0 <= k < |keys| ==> Plainly(keys[k], values[k], vs[k])
    ensures Fields(printable, keys, vs, n) == Pairs(keys, values, n)
  {
    if n > 0 {
      FieldsArePairs(printable, keys, values, vs, n - 1);
      assert Plainly(keys[n - 1], values[n - 1], vs[n - 1]);
      FieldIsPair(printable, keys[n - 1], values[n - 1], n == 1);
      OneMorePair(printable, keys, values, vs, n);
    }
  }

  lemma OneMorePair(printable: char -> bool, keys: seq<string>, values: seq<string>, vs: seq<Text>, n: nat)
    requires 0 < n <= |keys| == |values| == |vs|
    requires Fields(printable, keys, vs, n - 1) == Pairs(keys, values, n - 1)
    requires Field(printable, keys[n - 1], vs[n - 1], n == 1)
          == (if n == 1 then "" else ",") + Pair(keys[n - 1], values[n - 1])
    ensures Fields(printable, keys, vs, n) == Pairs(keys, values, n)
  {
    Associates(Pairs(keys, values, n - 1), if n == 1 then "" else ",", Pair(keys[n - 1], values[n - 1]));
  }

  lemma FieldIsPair(printable: char -> bool, key: string, value: string, first: bool)
    requires (forall c :: ' ' <= c <= '~' ==> printable(c)) && Bare(key) && Bare(value)
    ensures Field(printable, key, Plain(value), first) == (if first then "" else ",") + Pair(key, value)
  {
    PlainIs(key, |key|);
    PlainIs(value, |value|);
    BareQuotes(printable, key, Plain(key));
    BareQuotes(printable, value, Plain(value));
  }

  predicate Spells(r: Record, values: seq<string>) {
    && |values| == 12 && (forall k :: 0 <= k < 12 ==> Bare(values[k]))
    && r.actor == Actor(Plain(values[0]), Plain(values[1]), Plain(values[2]), Plain(values[3]))
    && r.action == Plain(values[4]) && r.resource == Plain(values[5]) && r.decision == Plain(values[6])
    && r.grpcCode == Plain(values[7]) && r.err == Plain(values[8]) && r.correlationId == Plain(values[9])
    && r.occurredAt == Plain(values[10]) && r.sourceService == Plain(values[11])
  }

  // The encoding of a record of bare texts is, byte for byte, these twelve pairs in this order.
  lemma CanonicalSpells(printable: char -> bool, r: Record, values: seq<string>)
    requires (forall c :: ' ' <= c <= '~' ==> printable(c)) && Spells(r, values)
    ensures KEYS == ["actor.user_id", "actor.email", "actor.team", "actor.role", "action", "resource", "decision",
                     "grpc_code", "err", "correlation_id", "occurred_at", "source_service"]
    ensures Canonical(printable, r) == Pairs(KEYS, values, |values|) + "}"
  {
    KeysAreBare();
    EncodedSpells(printable, KEYS, r, values);
  }

  lemma EncodedSpells(printable: char -> bool, keys: seq<string>, r: Record, values: seq<string>)
    requires (forall c :: ' ' <= c <= '~' ==> printable(c)) && Spells(r, values)
    requires |keys| == 12 && forall k :: 0 <= k < 12 ==> Bare(keys[k])
    ensures Encoded(printable, keys, Values(r)) == Pairs(keys, values, |values|) + "}"
  {
    var vs := Values(r);
    ValuesAreSpelled(r, values);
    forall k | 0 <= k < |keys| ensures Plainly(keys[k], values[k], vs[k]) {}
    FieldsArePairs(printable, keys, values, vs, |values|);
  }

  lemma ValuesAreSpelled(r: Record, values: seq<string>)
    requires Spells(r, values)
    ensures forall k :: 0 <= k < 12 ==> Values(r)[k] == Plain(values[k])
  {}

  lemma KeysAreBare()
    ensures |KEYS| == 12 && forall k :: 0 <= k < 12 ==> Bare(KEYS[k])
  {}

  // What an escape is: a printable character itself, but for the quote and the backslash; the short ones by name.
  lemma EscapesByName(printable: char -> bool, c: char)
    ensures Escaped(printable, Rune('"')) == "\\\"" && Escaped(printable, Rune('\\')) == "\\\\"
    ensures printable(c) && c != '"' && c != '\\' ==> Escaped(printable, Rune(c)) == [c]
    ensures !printable(c) && 7 <= c as int <= 13 ==> Escaped(printable, Rune(c)) == ['\\', "abtnvfr"[c as int - 7]]
  {}

  // Any other character is its code in hexadecimal, in two digits, four or eight.
  lemma EscapesInHex(printable: char -> bool, c: char)
    requires !printable(c) && c != '"' && c != '\\' && !(7 <= c as int <= 13)
    ensures var width := if c as int < 32 || c as int == 127 then 2 else if c as int <= 0xFFFF then 4 else 8;
            var e := Escaped(printable, Rune(c));
            && |e| == 2 + width && HexValue(e[2..]) == c as int
            && e[..2] == (if width == 2 then "\\x" else if width == 4 then "\\u" else "\\U")
  {
    var width := if c as int < 32 || c as int == 127 then 2 else if c as int <= 0xFFFF then 4 else 8;
    var e, digits := Escaped(printable, Rune(c)), HexDigits(c as int, width);
    PowersOf16();
    HexRoundTrip(c as int, width);
    assert e == (if width == 2 then "\\x" else if width == 4 then "\\u" else "\\U") + digits;
    assert e[2..] == digits;
  }

  lemma StraysInHex(printable: char -> bool, b: StrayByte)
    ensures var e := Escaped(printable, Stray(b)); |e| == 4 && e[..2] == "\\x" && HexValue(e[2..]) == b
  {
    PowersOf16();
    HexRoundTrip(b, 2);
  }
}
