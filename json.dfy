/** The JSON values a cookie can carry, the rendering JSON.stringify gives
    them, and a parser for that rendering.

    The parser accepts exactly the compact syntax JSON.stringify produces for
    null, booleans, integers, strings and objects: no insignificant
    whitespace, no arrays, no fractions or exponents. Within strings it
    accepts the JSON grammar's escapes except a `\u` escape that names half
    of a surrogate pair, so a pair such as `\ud83d\ude00` is refused. The one
    property the rest of the model relies on is the round trip Parse(Serialize(v)) == Some(v). */
module Json {
  import opened Wrappers
  import opened Decimal

  datatype Json =
    | JNull
    | JBool(b: bool)
    | JNum(n: int)
    | JStr(s: string)
    | JObject(members: seq<Member>)

  datatype Member = Member(key: string, value: Json)

  /** JavaScript truthiness: null, false, 0 and "" are falsy; objects are truthy. */
  predicate Truthy(v: Json) {
    match v
    case JNull => false
    case JBool(b) => b
    case JNum(n) => n != 0
    case JStr(s) => s != []
    case JObject(_) => true
  }

  /** Property access on a parsed object: with duplicate keys the last one wins. */
  function Lookup(ms: seq<Member>, key: string): (r: Option<Json>)
    ensures r.None? <==> forall i :: 0 <= i < |ms| ==> ms[i].key != key
    ensures r.Some? ==> Member(key, r.value) in ms
  {
    if ms == [] then None
    else if ms[|ms| - 1].key == key then Some(ms[|ms| - 1].value)
    else Lookup(ms[..|ms| - 1], key)
  }

  /** A found value comes from the last member carrying the key. */
  lemma {:induction false} LookupFindsLast(ms: seq<Member>, key: string)
    requires Lookup(ms, key).Some?
    ensures exists i ::
              0 <= i < |ms| && ms[i] == Member(key, Lookup(ms, key).value)
              && forall j :: i < j < |ms| ==> ms[j].key != key
    decreases |ms|
  {
    var last := |ms| - 1;
    if ms[last].key != key {
      var init := ms[..last];
      LookupFindsLast(init, key);
      var i :|
        0 <= i < |init| && init[i] == Member(key, Lookup(init, key).value)
        && forall j :: i < j < |init| ==> init[j].key != key;
      assert ms[i] == init[i];
      forall j | i < j < |ms| ensures ms[j].key != key {
        if j < last {
          assert ms[j] == init[j];
        }
      }
    }
  }

  /** The last member carrying a key decides the lookup of that key. */
  lemma {:induction false} LookupLast(ms: seq<Member>, i: nat, key: string)
    requires i < |ms| && ms[i].key == key
    requires forall j :: i < j < |ms| ==> ms[j].key != key
    ensures Lookup(ms, key) == Some(ms[i].value)
    decreases |ms|
  {
    if i < |ms| - 1 {
      var init := ms[..|ms| - 1];
      assert init[i] == ms[i];
      forall j | i < j < |init| ensures init[j].key != key {
        assert init[j] == ms[j];
      }
      LookupLast(init, i, key);
    }
  }

  /** When every member carrying a key is the same member m, in whatever
      order and among whatever other members, the lookup finds m's value. */
  lemma LookupAgrees(ms: seq<Member>, m: Member)
    requires m in ms
    requires forall i :: 0 <= i < |ms| && ms[i].key == m.key ==> ms[i] == m
    ensures Lookup(ms, m.key) == Some(m.value)
  {
  }

  /** v is an object whose (last) entry under key is a string. */
  predicate HasString(v: Json, key: string) {
    v.JObject? && Lookup(v.members, key).Some? && Lookup(v.members, key).value.JStr?
  }

  /** v is an object whose (last) entry under key is a number. */
  predicate HasNumber(v: Json, key: string) {
    v.JObject? && Lookup(v.members, key).Some? && Lookup(v.members, key).value.JNum?
  }

  /** Members appended after a prefix do not change a lookup of a key they
      do not carry. */
  lemma {:induction false} LookupSkipsOthers(ms: seq<Member>, extra: seq<Member>, key: string)
    requires forall i :: 0 <= i < |extra| ==> extra[i].key != key
    ensures Lookup(ms + extra, key) == Lookup(ms, key)
    decreases |extra|
  {
    if extra != [] {
      var last := |ms + extra| - 1;
      assert (ms + extra)[last] == extra[|extra| - 1];
      assert (ms + extra)[..last] == ms + extra[..|extra| - 1];
      LookupSkipsOthers(ms, extra[..|extra| - 1], key);
    } else {
      assert ms + extra == ms;
    }
  }

  // ---------------------------------------------------------------------
  // Rendering (JSON.stringify)

  function HexChar(d: nat): (c: char)
    requires d < 16
  {
    if d < 10 then DigitChar(d) else ('a' as int + (d - 10)) as char
  }

  predicate IsHex(c: char) {
    IsDigit(c) || 'a' <= c <= 'f' || 'A' <= c <= 'F'
  }

  function HexValue(c: char): (d: nat)
    requires IsHex(c)
    ensures d < 16
  {
    if IsDigit(c) then DigitValue(c)
    else if 'a' <= c <= 'f' then c as int - 'a' as int + 10
    else c as int - 'A' as int + 10
  }

  lemma HexRoundTrip(d: nat)
    requires d < 16
    ensures IsHex(HexChar(d)) && HexValue(HexChar(d)) == d
  {
  }

  /** How JSON.stringify writes one character inside a string literal. */
  function EscapeChar(c: char): string {
    if c == '"' then "\\\""
    else if c == '\\' then "\\\\"
    else if c == '\U{0008}' then "\\b"
    else if c == '\t' then "\\t"
    else if c == '\n' then "\\n"
    else if c == '\U{000C}' then "\\f"
    else if c == '\r' then "\\r"
    else if c < ' ' then "\\u00" + [HexChar(c as int / 16), HexChar(c as int % 16)]
    else [c]
  }

  function EscapeString(s: string): string {
    if s == [] then [] else EscapeChar(s[0]) + EscapeString(s[1..])
  }

  function Quote(s: string): string {
    "\"" + EscapeString(s) + "\""
  }

  function SerializeNumber(n: int): (s: string)
    ensures s != [] && (s[0] == '-' || IsDigit(s[0]))
  {
    if n < 0 then "-" + FromNat(-n) else FromNat(n)
  }

  function Serialize(v: Json): (s: string)
    ensures s != []
    decreases v
  {
    match v
    case JNull => "null"
    case JBool(b) => if b then "true" else "false"
    case JNum(n) => SerializeNumber(n)
    case JStr(s) => Quote(s)
    case JObject(ms) => "{" + SerializeMembers(ms) + "}"
  }

  function SerializeMembers(ms: seq<Member>): string
    decreases ms
  {
    if ms == [] then ""
    else
      Quote(ms[0].key) + ":" + Serialize(ms[0].value)
      + (if |ms| == 1 then "" else "," + SerializeMembers(ms[1..]))
  }

  // ---------------------------------------------------------------------
  // Parsing (JSON.parse on the syntax above)

  /** Decodes the escape that follows a backslash: the character it stands
      for and how many characters after the backslash it uses. A \u escape
      that names a surrogate half is rejected, since a Dafny char is a
      Unicode scalar value. */
  function Unescape(s: string): (r: Option<(char, nat)>)
    ensures r.Some? ==> 1 <= r.value.1 <= |s|
  {
    if s == [] then None
    else if s[0] == '"' then Some(('"', 1))
    else if s[0] == '\\' then Some(('\\', 1))
    else if s[0] == '/' then Some(('/', 1))
    else if s[0] == 'b' then Some(('\U{0008}', 1))
    else if s[0] == 'f' then Some(('\U{000C}', 1))
    else if s[0] == 'n' then Some(('\n', 1))
    else if s[0] == 'r' then Some(('\r', 1))
    else if s[0] == 't' then Some(('\t', 1))
    else if s[0] == 'u' && |s| >= 5 && IsHex(s[1]) && IsHex(s[2]) && IsHex(s[3]) && IsHex(s[4]) then
      var code := HexValue(s[1]) * 4096 + HexValue(s[2]) * 256 + HexValue(s[3]) * 16 + HexValue(s[4]);
      if 0xD800 <= code < 0xE000 then None else Some((code as char, 5))
    else None
  }

  /** Reads the characters of a string literal up to and including its
      closing quote; returns the decoded text and what follows the quote. */
  function ParseChars(s: string): (r: Option<(string, string)>)
    ensures r.Some? ==> |r.value.1| < |s|
    decreases |s|
  {
    if s == [] then None
    else if s[0] == '"' then Some(([], s[1..]))
    else if s[0] == '\\' then
      match Unescape(s[1..])
      case None => None
      case Some((c, k)) =>
        match ParseChars(s[1 + k..])
        case None => None
        case Some((t, rest)) => Some(([c] + t, rest))
    else if s[0] < ' ' then None
    else
      match ParseChars(s[1..])
      case None => None
      case Some((t, rest)) => Some(([s[0]] + t, rest))
  }

  /** An optional minus sign and a digit run without a leading zero. */
  function ParseNumber(s: string): (r: Option<(int, string)>)
    ensures r.Some? ==> |r.value.1| < |s|
  {
    var neg := s != [] && s[0] == '-';
    var t := if neg then s[1..] else s;
    var k := DigitRun(t);
    if k == 0 || (k > 1 && t[0] == '0') then None
    else
      var n: int := ValueOf(t[..k]);
      Some((if neg then -n else n, t[k..]))
  }

  function ParseValue(s: string): (r: Option<(Json, string)>)
    ensures r.Some? ==> |r.value.1| < |s|
    decreases |s|, 1
  {
    if s == [] then None
    else if s[0] == 'n' then
      if |s| >= 4 && s[..4] == "null" then Some((JNull, s[4..])) else None
    else if s[0] == 't' then
      if |s| >= 4 && s[..4] == "true" then Some((JBool(true), s[4..])) else None
    else if s[0] == 'f' then
      if |s| >= 5 && s[..5] == "false" then Some((JBool(false), s[5..])) else None
    else if s[0] == '"' then
      match ParseChars(s[1..])
      case None => None
      case Some((t, rest)) => Some((JStr(t), rest))
    else if s[0] == '{' then
      if |s| >= 2 && s[1] == '}' then Some((JObject([]), s[2..]))
      else
        match ParseMembers(s[1..])
        case None => None
        case Some((ms, rest)) => Some((JObject(ms), rest))
    else if s[0] == '-' || IsDigit(s[0]) then
      match ParseNumber(s)
      case None => None
      case Some((n, rest)) => Some((JNum(n), rest))
    else None
  }

  /** Reads `"key":value` pairs separated by commas, up to and including the
      closing brace of the object. */
  function ParseMembers(s: string): (r: Option<(seq<Member>, string)>)
    ensures r.Some? ==> |r.value.1| < |s|
    decreases |s|, 0
  {
    if s == [] || s[0] != '"' then None
    else
      match ParseChars(s[1..])
      case None => None
      case Some((key, r1)) =>
        if r1 == [] || r1[0] != ':' then None
        else
          match ParseValue(r1[1..])
          case None => None
          case Some((v, r2)) =>
            if r2 == [] then None
            else if r2[0] == '}' then Some(([Member(key, v)], r2[1..]))
            else if r2[0] == ',' then
              match ParseMembers(r2[1..])
              case None => None
              case Some((ms, r3)) => Some(([Member(key, v)] + ms, r3))
            else None
  }

  /** JSON.parse: the whole text must be one value. */
  function Parse(s: string): (r: Option<Json>)
  {
    match ParseValue(s)
    case Some((v, rest)) => if rest == [] then Some(v) else None
    case None => None
  }

  // ---------------------------------------------------------------------
  // Round trip

  /** What ParseChars does after one decoded character. */
  function ConsChar(c: char, r: Option<(string, string)>): Option<(string, string)> {
    match r
    case None => None
    case Some((t, rest)) => Some(([c] + t, rest))
  }

  /** The letter of the two-character escape JSON.stringify uses for c. */
  function ShortEscapeLetter(c: char): char {
    if c == '"' then '"'
    else if c == '\\' then '\\'
    else if c == '\U{0008}' then 'b'
    else if c == '\t' then 't'
    else if c == '\n' then 'n'
    else if c == '\U{000C}' then 'f'
    else 'r'
  }

  lemma ShortEscapeStep(x: char, c: char, tail: string)
    requires Unescape([x] + tail) == Some((c, 1))
    ensures ParseChars(['\\', x] + tail) == ConsChar(c, ParseChars(tail))
  {
    var s := ['\\', x] + tail;
    assert s[1..] == [x] + tail;
    assert s[2..] == tail;
  }

  lemma ShortEscapeRoundTrip(c: char, tail: string)
    requires c == '"' || c == '\\' || c == '\U{0008}' || c == '\t' || c == '\n' || c == '\U{000C}' || c == '\r'
    ensures ParseChars(EscapeChar(c) + tail) == ConsChar(c, ParseChars(tail))
  {
    var x := ShortEscapeLetter(c);
    assert EscapeChar(c) == ['\\', x];
    assert ([x] + tail)[0] == x;
    ShortEscapeStep(x, c, tail);
  }

  lemma UnicodeEscapeRoundTrip(c: char, tail: string)
    requires c < ' ' && c != '\U{0008}' && c != '\t' && c != '\n' && c != '\U{000C}' && c != '\r'
    ensures ParseChars(EscapeChar(c) + tail) == ConsChar(c, ParseChars(tail))
  {
    var hi, lo := c as int / 16, c as int % 16;
    HexRoundTrip(hi);
    HexRoundTrip(lo);
    var s := EscapeChar(c) + tail;
    assert s == ['\\', 'u', '0', '0', HexChar(hi), HexChar(lo)] + tail;
    assert s[1..] == ['u', '0', '0', HexChar(hi), HexChar(lo)] + tail;
    assert Unescape(s[1..]) == Some((c, 5));
    assert s[6..] == tail;
  }

  lemma PlainCharRoundTrip(c: char, tail: string)
    requires c >= ' ' && c != '"' && c != '\\'
    ensures ParseChars(EscapeChar(c) + tail) == ConsChar(c, ParseChars(tail))
  {
    assert ([c] + tail)[1..] == tail;
  }

  lemma EscapeCharRoundTrip(c: char, tail: string)
    ensures ParseChars(EscapeChar(c) + tail) == ConsChar(c, ParseChars(tail))
  {
    if c == '"' || c == '\\' || c == '\U{0008}' || c == '\t' || c == '\n' || c == '\U{000C}' || c == '\r' {
      ShortEscapeRoundTrip(c, tail);
    } else if c < ' ' {
      UnicodeEscapeRoundTrip(c, tail);
    } else {
      PlainCharRoundTrip(c, tail);
    }
  }

  lemma {:induction false} EscapeStringRoundTrip(t: string, rest: string)
    ensures ParseChars(EscapeString(t) + "\"" + rest) == Some((t, rest))
  {
    if t == [] {
      assert EscapeString(t) + "\"" + rest == "\"" + rest;
    } else {
      var tail := EscapeString(t[1..]) + "\"" + rest;
      assert EscapeString(t) + "\"" + rest == EscapeChar(t[0]) + tail;
      EscapeStringRoundTrip(t[1..], rest);
      EscapeCharRoundTrip(t[0], tail);
      assert [t[0]] + t[1..] == t;
    }
  }

  lemma QuoteRoundTrip(t: string, rest: string)
    ensures (Quote(t) + rest)[0] == '"'
    ensures ParseChars((Quote(t) + rest)[1..]) == Some((t, rest))
  {
    assert (Quote(t) + rest)[1..] == EscapeString(t) + "\"" + rest;
    EscapeStringRoundTrip(t, rest);
  }

  lemma NatTextRoundTrip(m: nat, rest: string)
    requires rest == [] || !IsDigit(rest[0])
    ensures var d := FromNat(m);
      DigitRun(d + rest) == |d| && (d + rest)[..|d|] == d && (d + rest)[|d|..] == rest && ValueOf(d) == m
  {
    var d := FromNat(m);
    DigitRunAppend(d, rest);
    ValueOfFromNat(m);
    assert (d + rest)[..|d|] == d;
    assert (d + rest)[|d|..] == rest;
  }

  lemma NumberRoundTripNonNeg(n: nat, rest: string)
    requires rest == [] || !IsDigit(rest[0])
    ensures ParseNumber(FromNat(n) + rest) == Some((n, rest))
  {
    NatTextRoundTrip(n, rest);
    assert (FromNat(n) + rest)[0] == FromNat(n)[0];
  }

  lemma NumberRoundTripNeg(n: nat, rest: string)
    requires n > 0
    requires rest == [] || !IsDigit(rest[0])
    ensures ParseNumber("-" + FromNat(n) + rest) == Some((-(n as int), rest))
  {
    NatTextRoundTrip(n, rest);
    var t := FromNat(n) + rest;
    assert "-" + FromNat(n) + rest == "-" + t;
    DropFirst('-', t);
  }

  lemma NumberRoundTrip(n: int, rest: string)
    requires rest == [] || !IsDigit(rest[0])
    ensures ParseNumber(SerializeNumber(n) + rest) == Some((n, rest))
  {
    if n < 0 {
      NumberRoundTripNeg(-n, rest);
    } else {
      NumberRoundTripNonNeg(n, rest);
    }
  }

  lemma LiteralRoundTrip(v: Json, rest: string)
    requires v.JNull? || v.JBool?
    ensures ParseValue(Serialize(v) + rest) == Some((v, rest))
  {
    var s := Serialize(v) + rest;
    var w := Serialize(v);
    assert s[..|w|] == w && s[|w|..] == rest;
  }

  lemma NumberValueRoundTrip(n: int, rest: string)
    requires rest == [] || !IsDigit(rest[0])
    ensures ParseValue(SerializeNumber(n) + rest) == Some((JNum(n), rest))
  {
    NumberRoundTrip(n, rest);
  }

  lemma StringValueRoundTrip(t: string, rest: string)
    ensures ParseValue(Quote(t) + rest) == Some((JStr(t), rest))
  {
    QuoteRoundTrip(t, rest);
  }

  /** ParseValue on an object whose first member follows the brace. */
  lemma ParseValueObject(s: string)
    requires |s| >= 2 && s[0] == '{' && s[1] != '}'
    ensures ParseValue(s) == (
              match ParseMembers(s[1..])
              case None => None
              case Some((ms, rest)) => Some((JObject(ms), rest)))
  {
  }

  lemma ObjectValueStep(body: string, ms: seq<Member>, rest: string)
    requires (body == [] && ms == []) || (body != [] && body[0] == '"' && ParseMembers(body + "}" + rest) == Some((ms, rest)))
    ensures ParseValue("{" + body + "}" + rest) == Some((JObject(ms), rest))
  {
    if body == [] {
      var s := "{" + body + "}" + rest;
      assert s == "{}" + rest;
      assert s[2..] == rest;
    } else {
      var t := body + "}" + rest;
      assert "{" + body + "}" + rest == "{" + t;
      DropFirst('{', t);
      assert t[0] == body[0];
      ParseValueObject("{" + t);
    }
  }

  lemma MembersStartWithQuote(ms: seq<Member>)
    requires ms != []
    ensures SerializeMembers(ms) != [] && SerializeMembers(ms)[0] == '"'
  {
    UnfoldMembers(ms);
    QuoteRoundTrip(ms[0].key, []);
    assert Quote(ms[0].key) + [] == Quote(ms[0].key);
  }

  lemma {:induction false} ValueRoundTrip(v: Json, rest: string)
    requires rest == [] || !IsDigit(rest[0])
    ensures ParseValue(Serialize(v) + rest) == Some((v, rest))
    decreases v, 1
  {
    match v
    case JNull => LiteralRoundTrip(v, rest);
    case JBool(_) => LiteralRoundTrip(v, rest);
    case JNum(n) => NumberValueRoundTrip(n, rest);
    case JStr(t) => StringValueRoundTrip(t, rest);
    case JObject(ms) =>
      if ms != [] {
        MembersRoundTrip(ms, rest);
        MembersStartWithQuote(ms);
      }
      ObjectValueStep(SerializeMembers(ms), ms, rest);
  }

  /** q stands for the quoted key: it starts with a quote and ParseChars
      reads the key back from what follows, whatever comes after it. */
  predicate KeyText(q: string, key: string, after: string) {
    (q + after) != [] && (q + after)[0] == '"' && ParseChars((q + after)[1..]) == Some((key, after))
  }

  lemma QuoteIsKeyText(key: string, after: string)
    ensures KeyText(Quote(key), key, after)
  {
    QuoteRoundTrip(key, after);
  }

  /** ParseMembers on a last `"key":value` pair: the value text parses up
      to the closing brace. */
  lemma LastPairStep(q: string, key: string, v: Json, text: string, more: string)
    requires KeyText(q, key, ":" + (text + more))
    requires ParseValue(text + more) == Some((v, more))
    requires more != [] && more[0] == '}'
    ensures ParseMembers(q + (":" + (text + more))) == Some(([Member(key, v)], more[1..]))
  {
    var r1 := ":" + (text + more);
    DropFirst(':', text + more);
    ParseMembersStep(q + r1, key, r1, v, more);
  }

  /** ParseMembers on a `"key":value` pair followed by a comma. */
  lemma InnerPairStep(q: string, key: string, v: Json, text: string, more: string)
    requires KeyText(q, key, ":" + (text + more))
    requires ParseValue(text + more) == Some((v, more))
    requires more != [] && more[0] == ','
    ensures ParseMembers(q + (":" + (text + more))) == (
              match ParseMembers(more[1..])
              case None => None
              case Some((ms, r3)) => Some(([Member(key, v)] + ms, r3)))
  {
    var r1 := ":" + (text + more);
    DropFirst(':', text + more);
    ParseMembersStep(q + r1, key, r1, v, more);
  }

  lemma DropFirst(c: char, t: string)
    ensures ([c] + t)[1..] == t && ([c] + t)[0] == c
  {
  }

  /** ParseMembers unfolded once, on a text whose first pair is known. */
  lemma ParseMembersStep(s: string, key: string, r1: string, v: Json, r2: string)
    requires s != [] && s[0] == '"'
    requires ParseChars(s[1..]) == Some((key, r1))
    requires r1 != [] && r1[0] == ':'
    requires ParseValue(r1[1..]) == Some((v, r2))
    requires r2 != []
    ensures r2[0] == '}' ==> ParseMembers(s) == Some(([Member(key, v)], r2[1..]))
    ensures r2[0] == ',' ==>
              ParseMembers(s) == (
                match ParseMembers(r2[1..])
                case None => None
                case Some((ms, r3)) => Some(([Member(key, v)] + ms, r3)))
  {
  }

  lemma UnfoldMembers(ms: seq<Member>)
    requires ms != []
    ensures SerializeMembers(ms) == Quote(ms[0].key) + ":" + Serialize(ms[0].value)
      + (if |ms| == 1 then "" else "," + SerializeMembers(ms[1..]))
  {
  }

  lemma OneMemberShape(q: string, text: string, rest: string)
    ensures q + ":" + text + "}" + rest == q + (":" + (text + ("}" + rest)))
  {
  }

  lemma ConsMemberShape(q: string, text: string, tailText: string, rest: string)
    ensures q + ":" + text + ("," + tailText) + "}" + rest
         == q + (":" + (text + ("," + (tailText + "}" + rest))))
  {
  }

  lemma {:induction false} MembersRoundTrip(ms: seq<Member>, rest: string)
    requires ms != []
    ensures ParseMembers(SerializeMembers(ms) + "}" + rest) == Some((ms, rest))
    decreases ms, 0
  {
    var m := ms[0];
    var q := Quote(m.key);
    var text := Serialize(m.value);
    var lhs := SerializeMembers(ms) + "}" + rest;
    if |ms| == 1 {
      var more := "}" + rest;
      assert lhs == q + (":" + (text + more)) by {
        UnfoldMembers(ms);
        OneMemberShape(q, text, rest);
      }
      ValueRoundTrip(m.value, more);
      QuoteIsKeyText(m.key, ":" + (text + more));
      LastPairStep(q, m.key, m.value, text, more);
      DropFirst('}', rest);
      assert ms == [Member(m.key, m.value)];
    } else {
      var tailText := SerializeMembers(ms[1..]);
      var tail := tailText + "}" + rest;
      var more := "," + tail;
      assert lhs == q + (":" + (text + more)) by {
        UnfoldMembers(ms);
        ConsMemberShape(q, text, tailText, rest);
      }
      ValueRoundTrip(m.value, more);
      QuoteIsKeyText(m.key, ":" + (text + more));
      InnerPairStep(q, m.key, m.value, text, more);
      DropFirst(',', tail);
      MembersRoundTrip(ms[1..], rest);
      assert ms == [Member(m.key, m.value)] + ms[1..];
    }
  }

  /** JSON.parse(JSON.stringify(v)) gives v back. */
  lemma ParseSerialize(v: Json)
    ensures Parse(Serialize(v)) == Some(v)
  {
    ValueRoundTrip(v, []);
    assert Serialize(v) + [] == Serialize(v);
  }
}
