/** JSON values as `JSON.parse` produces them and `JSON.stringify` consumes them,
    with a concrete encoder and parser for the part of JSON the consent cookie
    travels through: integers, strings, `true`/`false`/`null`, arrays and objects,
    written without insignificant whitespace. */
module Json {
  import opened Wrappers

  /** An object is the list of its members in insertion order, which is the
      order `JSON.stringify` writes them in. */
  datatype JsonVal =
    | JNull
    | JBool(b: bool)
    | JNum(n: int)
    | JStr(s: string)
    | JArr(items: seq<JsonVal>)
    | JObj(members: seq<(string, JsonVal)>)

  /** JavaScript's ToBoolean: what `if (value)` sees. Every array and object is
      truthy, even an empty one. */
  predicate Truthy(v: JsonVal): (b: bool)
    ensures !b <==> v == JNull || v == JBool(false) || v == JNum(0) || v == JStr("")
  {
    match v
    case JNull => false
    case JBool(b) => b
    case JNum(n) => n != 0
    case JStr(s) => s != ""
    case JArr(_) => true
    case JObj(_) => true
  }

  // ---------------------------------------------------------------- numbers

  predicate IsDigit(c: char) {
    '0' <= c <= '9'
  }

  function DigitChar(d: int): (c: char)
    requires 0 <= d < 10
    ensures IsDigit(c) && c as int - '0' as int == d
  {
    ('0' as int + d) as char
  }

  /** Decimal digits of `n`, most significant first, without leading zeros. */
  function NatToString(n: nat): (r: string)
    ensures |r| >= 1
    ensures forall i :: 0 <= i < |r| ==> IsDigit(r[i])
  {
    if n < 10 then [DigitChar(n)] else NatToString(n / 10) + [DigitChar(n % 10)]
  }

  function EncodeInt(n: int): string {
    if n < 0 then "-" + NatToString(-n) else NatToString(n)
  }

  /** The number a run of decimal digits denotes. */
  function DigitsValue(ds: string): nat
    requires forall i :: 0 <= i < |ds| ==> IsDigit(ds[i])
  {
    if ds == [] then 0
    else
      assert IsDigit(ds[|ds| - 1]);
      DigitsValue(ds[..|ds| - 1]) * 10 + (ds[|ds| - 1] as int - '0' as int)
  }

  /** Length of the run of digits that `s` starts with. */
  function DigitPrefix(s: string): (k: nat)
    ensures k <= |s|
    ensures forall i :: 0 <= i < k ==> IsDigit(s[i])
    ensures k < |s| ==> !IsDigit(s[k])
  {
    if s != [] && IsDigit(s[0]) then 1 + DigitPrefix(s[1..]) else 0
  }

  /** An optional minus sign and digits, with no leading zero. */
  function ParseNumber(s: string): (r: Option<(int, string)>)
    ensures r.Some? ==> |r.value.1| < |s|
  {
    var neg := s != [] && s[0] == '-';
    var t := if neg then s[1..] else s;
    var k := DigitPrefix(t);
    if k == 0 || (k > 1 && t[0] == '0') then None
    else
      var m: int := DigitsValue(t[..k]);
      var n := if neg then -m else m;
      Some((n, t[k..]))
  }

  // ---------------------------------------------------------------- strings

  function HexDigit(d: int): (c: char)
    requires 0 <= d < 16
  {
    if d < 10 then ('0' as int + d) as char else ('a' as int + d - 10) as char
  }

  function HexValue(c: char): (r: Option<nat>)
    ensures r.Some? ==> r.value < 16
  {
    if '0' <= c <= '9' then Some(c as int - '0' as int)
    else if 'a' <= c <= 'f' then Some(c as int - 'a' as int + 10)
    else if 'A' <= c <= 'F' then Some(c as int - 'A' as int + 10)
    else None
  }

  /** The code unit written as four hexadecimal digits after `\u`. */
  function HexQuad(h: string): (r: Option<nat>)
    requires |h| == 4
    ensures r.Some? ==> r.value < 0x1_0000
  {
    match (HexValue(h[0]), HexValue(h[1]), HexValue(h[2]), HexValue(h[3]))
    case (Some(a), Some(b), Some(c), Some(d)) => Some(((a * 16 + b) * 16 + c) * 16 + d)
    case _ => None
  }

  /** How `JSON.stringify` writes one character inside a string literal. */
  function EscapeChar(c: char): string {
    if c == '"' then "\\\""
    else if c == '\\' then "\\\\"
    else if c as int == 8 then "\\b"
    else if c as int == 12 then "\\f"
    else if c == '\n' then "\\n"
    else if c == '\r' then "\\r"
    else if c == '\t' then "\\t"
    else if c as int < 32 then "\\u00" + [HexDigit(c as int / 16), HexDigit(c as int % 16)]
    else [c]
  }

  function EscapeString(s: string): string {
    if s == [] then [] else EscapeChar(s[0]) + EscapeString(s[1..])
  }

  function EncodeString(s: string): string {
    "\"" + EscapeString(s) + "\""
  }

  /** Reads one character of a string literal's body: an escape sequence or a
      character other than a control character. */
  function DecodeChar(s: string): (r: Option<(char, string)>)
    requires s != []
    ensures r.Some? ==> |r.value.1| < |s|
  {
    if s[0] == '\\' then
      if |s| < 2 then None
      else if s[1] == '"' then Some(('"', s[2..]))
      else if s[1] == '\\' then Some(('\\', s[2..]))
      else if s[1] == '/' then Some(('/', s[2..]))
      else if s[1] == 'b' then Some((8 as char, s[2..]))
      else if s[1] == 'f' then Some((12 as char, s[2..]))
      else if s[1] == 'n' then Some(('\n', s[2..]))
      else if s[1] == 'r' then Some(('\r', s[2..]))
      else if s[1] == 't' then Some(('\t', s[2..]))
      else if s[1] == 'u' && |s| >= 6 then
        match HexQuad(s[2..6])
        case Some(u) => if 0xD800 <= u < 0xE000 then None else Some((u as char, s[6..]))
        case None => None
      else None
    else if s[0] as int < 32 then None
    else Some((s[0], s[1..]))
  }

  /** Reads the body of a string literal up to and including its closing quote. */
  function ParseStringBody(s: string): (r: Option<(string, string)>)
    ensures r.Some? ==> |r.value.1| < |s|
    decreases |s|
  {
    if s == [] then None
    else if s[0] == '"' then Some(([], s[1..]))
    else
      match DecodeChar(s)
      case None => None
      case Some((c, t)) =>
        match ParseStringBody(t)
        case None => None
        case Some((body, rest)) => Some(([c] + body, rest))
  }

  // ---------------------------------------------------------------- values

  /** `JSON.stringify` of a value. Its text never starts with a closing bracket,
      which is what lets the parser tell an empty array or object from a first item. */
  function Encode(v: JsonVal): (r: string)
    ensures r != [] && r[0] != ']' && r[0] != '}'
    decreases v
  {
    match v
    case JNull => "null"
    case JBool(b) => if b then "true" else "false"
    case JNum(n) => EncodeInt(n)
    case JStr(s) => EncodeString(s)
    case JArr(items) => "[" + EncodeItems(items) + "]"
    case JObj(members) => "{" + EncodeMembers(members) + "}"
  }

  function EncodeItems(items: seq<JsonVal>): string
    decreases items
  {
    if items == [] then ""
    else if |items| == 1 then Encode(items[0])
    else Encode(items[0]) + "," + EncodeItems(items[1..])
  }

  function EncodeMembers(members: seq<(string, JsonVal)>): string
    decreases members
  {
    if members == [] then ""
    else
      var (key, value) := members[0];
      assert value < members[0];
      var m := EncodeString(key) + ":" + Encode(value);
      if |members| == 1 then m else m + "," + EncodeMembers(members[1..])
  }

  /** Reads one value from the front of `s`, returning it and what follows it. */
  function ParseValue(s: string): (r: Option<(JsonVal, string)>)
    ensures r.Some? ==> |r.value.1| < |s|
    decreases |s|, 0
  {
    if s == [] then None
    else if s[0] == 'n' then
      if |s| >= 4 && s[..4] == "null" then Some((JNull, s[4..])) else None
    else if s[0] == 't' then
      if |s| >= 4 && s[..4] == "true" then Some((JBool(true), s[4..])) else None
    else if s[0] == 'f' then
      if |s| >= 5 && s[..5] == "false" then Some((JBool(false), s[5..])) else None
    else if s[0] == '"' then
      match ParseStringBody(s[1..])
      case None => None
      case Some((str, rest)) => Some((JStr(str), rest))
    else if s[0] == '[' then
      match ParseArrayTail(s[1..])
      case None => None
      case Some((items, rest)) => Some((JArr(items), rest))
    else if s[0] == '{' then
      match ParseObjectTail(s[1..])
      case None => None
      case Some((members, rest)) => Some((JObj(members), rest))
    else
      match ParseNumber(s)
      case None => None
      case Some((n, rest)) => Some((JNum(n), rest))
  }

  /** Reads the rest of an array after its `[`. */
  function ParseArrayTail(s: string): (r: Option<(seq<JsonVal>, string)>)
    ensures r.Some? ==> |r.value.1| < |s|
    decreases |s|, 2
  {
    if s != [] && s[0] == ']' then Some(([], s[1..])) else ParseItems(s)
  }

  /** Reads one or more comma-separated values and the closing `]`. */
  function ParseItems(s: string): (r: Option<(seq<JsonVal>, string)>)
    ensures r.Some? ==> |r.value.1| < |s|
    decreases |s|, 1
  {
    match ParseValue(s)
    case None => None
    case Some((v, rest)) =>
      if rest == [] then None
      else if rest[0] == ']' then Some(([v], rest[1..]))
      else if rest[0] == ',' then
        match ParseItems(rest[1..])
        case None => None
        case Some((vs, after)) => Some(([v] + vs, after))
      else None
  }

  /** Reads the rest of an object after its `{`. */
  function ParseObjectTail(s: string): (r: Option<(seq<(string, JsonVal)>, string)>)
    ensures r.Some? ==> |r.value.1| < |s|
    decreases |s|, 2
  {
    if s != [] && s[0] == '}' then Some(([], s[1..])) else ParseMembers(s)
  }

  /** Reads one or more comma-separated `"key":value` members and the closing `}`. */
  function ParseMembers(s: string): (r: Option<(seq<(string, JsonVal)>, string)>)
    ensures r.Some? ==> |r.value.1| < |s|
    decreases |s|, 1
  {
    if s == [] || s[0] != '"' then None
    else
      match ParseStringBody(s[1..])
      case None => None
      case Some((key, afterKey)) =>
        if afterKey == [] || afterKey[0] != ':' then None
        else
          match ParseValue(afterKey[1..])
          case None => None
          case Some((v, rest)) =>
            if rest == [] then None
            else if rest[0] == '}' then Some(([(key, v)], rest[1..]))
            else if rest[0] == ',' then
              match ParseMembers(rest[1..])
              case None => None
              case Some((ms, after)) => Some(([(key, v)] + ms, after))
            else None
  }

  /** `JSON.parse`: one value and nothing after it; `None` where it would throw.
      It reads back every text `JSON.stringify` writes. */
  function Parse(s: string): (r: Option<JsonVal>)
    ensures forall v :: Encode(v) == s ==> r == Some(v)
  {
    ParseEncoded(s);
    match ParseValue(s)
    case None => None
    case Some((v, rest)) => if rest == [] then Some(v) else None
  }

  // ---------------------------------------------------------------- round trip

  lemma {:induction false} DigitsValueOfNatToString(n: nat)
    ensures DigitsValue(NatToString(n)) == n
  {
    if n >= 10 {
      var prefix := NatToString(n / 10);
      var s := prefix + [DigitChar(n % 10)];
      assert s[..|s| - 1] == prefix;
      DigitsValueOfNatToString(n / 10);
    }
  }

  lemma {:induction false} NatToStringNoLeadingZero(n: nat)
    requires n >= 1
    ensures NatToString(n)[0] != '0'
  {
    if n >= 10 {
      NatToStringNoLeadingZero(n / 10);
    }
  }

  lemma {:induction false} DigitPrefixOfDigits(ds: string, rest: string)
    requires forall i :: 0 <= i < |ds| ==> IsDigit(ds[i])
    requires rest == [] || !IsDigit(rest[0])
    ensures DigitPrefix(ds + rest) == |ds|
  {
    if ds != [] {
      assert (ds + rest)[1..] == ds[1..] + rest;
      DigitPrefixOfDigits(ds[1..], rest);
    } else {
      assert ds + rest == rest;
    }
  }

  lemma UnsignedRoundTrip(m: nat, rest: string)
    requires rest == [] || !IsDigit(rest[0])
    ensures var t := NatToString(m) + rest; var k := DigitPrefix(t);
      k == |NatToString(m)| && k > 0 && !(k > 1 && t[0] == '0') && t[k..] == rest &&
      (forall i :: 0 <= i < k ==> IsDigit(t[..k][i])) && DigitsValue(t[..k]) == m
  {
    var ds := NatToString(m);
    var t := ds + rest;
    DigitPrefixOfDigits(ds, rest);
    assert t[..|ds|] == ds;
    assert t[|ds|..] == rest;
    DigitsValueOfNatToString(m);
    if |ds| > 1 {
      NatToStringNoLeadingZero(m);
    }
  }

  /** Reading past a leading minus sign. */
  lemma ParseAfterMinus(s: string, m: nat, rest: string)
    requires rest == [] || !IsDigit(rest[0])
    requires s != [] && s[0] == '-' && s[1..] == NatToString(m) + rest
    ensures ParseNumber(s) == Some((-(m as int), rest))
  {
    UnsignedRoundTrip(m, rest);
  }

  /** A negative number is written as a minus sign and the digits of its magnitude. */
  lemma NegativeText(n: int, rest: string)
    requires n < 0
    ensures var s := EncodeInt(n) + rest; s != [] && s[0] == '-' && s[1..] == NatToString(-n) + rest
  {
    var s := EncodeInt(n) + rest;
    assert EncodeInt(n) == "-" + NatToString(-n);
    assert s[1..] == NatToString(-n) + rest;
  }

  lemma NegativeRoundTrip(n: int, rest: string)
    requires n < 0
    requires rest == [] || !IsDigit(rest[0])
    ensures ParseNumber(EncodeInt(n) + rest) == Some((n, rest))
  {
    NegativeText(n, rest);
    ParseAfterMinus(EncodeInt(n) + rest, -n, rest);
  }

  lemma NonNegativeRoundTrip(n: nat, rest: string)
    requires rest == [] || !IsDigit(rest[0])
    ensures ParseNumber(EncodeInt(n) + rest) == Some((n, rest))
  {
    var t := NatToString(n) + rest;
    UnsignedRoundTrip(n, rest);
    assert EncodeInt(n) + rest == t;
    assert IsDigit(t[0]);
  }

  lemma NumberRoundTrip(n: int, rest: string)
    requires rest == [] || !IsDigit(rest[0])
    ensures ParseNumber(EncodeInt(n) + rest) == Some((n, rest))
  {
    if n < 0 {
      NegativeRoundTrip(n, rest);
    } else {
      NonNegativeRoundTrip(n, rest);
    }
  }

  lemma HexDigitValue(d: int)
    requires 0 <= d < 16
    ensures HexValue(HexDigit(d)) == Some(d)
  {
  }

  /** Every escaped character reads back as itself and never looks like the
      closing quote. */
  lemma EscapeCharDecodes(c: char, t: string)
    ensures EscapeChar(c) + t != [] && (EscapeChar(c) + t)[0] != '"'
    ensures DecodeChar(EscapeChar(c) + t) == Some((c, t))
  {
    var s := EscapeChar(c) + t;
    if c == '"' || c == '\\' || c as int == 8 || c as int == 12 || c == '\n' || c == '\r' || c == '\t' {
      assert s[2..] == t;
    } else if c as int < 32 {
      var hi, lo := c as int / 16, c as int % 16;
      HexDigitValue(hi);
      HexDigitValue(lo);
      assert s[2..6] == ['0', '0', HexDigit(hi), HexDigit(lo)];
      assert s[6..] == t;
    } else {
      assert s[1..] == t;
    }
  }

  /** A string with no quote, backslash or control character is written as is. */
  lemma {:induction false} PlainStringUnescaped(s: string)
    requires forall i :: 0 <= i < |s| ==> s[i] != '"' && s[i] != '\\' && s[i] as int >= 32
    ensures EscapeString(s) == s
  {
    if s != [] {
      PlainStringUnescaped(s[1..]);
      assert [s[0]] + s[1..] == s;
    }
  }

  lemma StringBodyStep(c: char, t: string, body: string, rest: string)
    requires ParseStringBody(t) == Some((body, rest))
    ensures ParseStringBody(EscapeChar(c) + t) == Some(([c] + body, rest))
  {
    EscapeCharDecodes(c, t);
  }

  lemma {:induction false} StringBodyRoundTrip(s: string, rest: string)
    ensures ParseStringBody(EscapeString(s) + "\"" + rest) == Some((s, rest))
  {
    if s == [] {
      assert EscapeString(s) + "\"" + rest == "\"" + rest;
    } else {
      var t := EscapeString(s[1..]) + "\"" + rest;
      assert EscapeString(s) + "\"" + rest == EscapeChar(s[0]) + t;
      StringBodyRoundTrip(s[1..], rest);
      StringBodyStep(s[0], t, s[1..], rest);
      assert [s[0]] + s[1..] == s;
    }
  }

  /** What may follow a value inside an enclosing array or object, or at the end. */
  predicate Delimited(rest: string) {
    rest == [] || rest[0] == ',' || rest[0] == ']' || rest[0] == '}'
  }

  lemma LiteralRoundTrip(v: JsonVal, rest: string)
    requires v.JNull? || v.JBool?
    ensures ParseValue(Encode(v) + rest) == Some((v, rest))
  {
    var s := Encode(v) + rest;
    if v.JNull? {
      assert s[..4] == "null" && s[4..] == rest;
    } else if v.b {
      assert s[..4] == "true" && s[4..] == rest;
    } else {
      assert s[..5] == "false" && s[5..] == rest;
    }
  }

  lemma NumRoundTrip(n: int, rest: string)
    requires rest == [] || !IsDigit(rest[0])
    ensures ParseValue(Encode(JNum(n)) + rest) == Some((JNum(n), rest))
  {
    var s := Encode(JNum(n)) + rest;
    NumberRoundTrip(n, rest);
    assert s[0] == Encode(JNum(n))[0];
  }

  lemma StrRoundTrip(str: string, rest: string)
    ensures ParseValue(Encode(JStr(str)) + rest) == Some((JStr(str), rest))
  {
    var s := Encode(JStr(str)) + rest;
    assert s[1..] == EscapeString(str) + "\"" + rest;
    StringBodyRoundTrip(str, rest);
  }

  lemma ArrTail(items: seq<JsonVal>, rest: string)
    requires items != [] ==> ParseItems(EncodeItems(items) + "]" + rest) == Some((items, rest))
    ensures ParseArrayTail(EncodeItems(items) + "]" + rest) == Some((items, rest))
  {
    var body := EncodeItems(items) + "]" + rest;
    if items == [] {
      assert body == "]" + rest;
      assert body[1..] == rest;
    } else {
      assert body[0] == Encode(items[0])[0];
    }
  }

  lemma ArrRoundTrip(items: seq<JsonVal>, rest: string)
    requires ParseArrayTail(EncodeItems(items) + "]" + rest) == Some((items, rest))
    ensures ParseValue(Encode(JArr(items)) + rest) == Some((JArr(items), rest))
  {
    var s := Encode(JArr(items)) + rest;
    assert s == "[" + (EncodeItems(items) + "]" + rest);
    assert s[1..] == EncodeItems(items) + "]" + rest;
  }

  lemma MembersStart(members: seq<(string, JsonVal)>)
    requires members != []
    ensures EncodeMembers(members) != [] && EncodeMembers(members)[0] == '"'
  {
    var (key, value) := members[0];
    var m := EncodeString(key) + ":" + Encode(value);
    assert EncodeString(key)[0] == '"';
    if |members| == 1 {
      assert EncodeMembers(members) == m;
    } else {
      assert EncodeMembers(members) == m + "," + EncodeMembers(members[1..]);
    }
  }

  lemma ObjTail(members: seq<(string, JsonVal)>, rest: string)
    requires members != [] ==> ParseMembers(EncodeMembers(members) + "}" + rest) == Some((members, rest))
    ensures ParseObjectTail(EncodeMembers(members) + "}" + rest) == Some((members, rest))
  {
    var body := EncodeMembers(members) + "}" + rest;
    if members == [] {
      assert body == "}" + rest;
      assert body[1..] == rest;
    } else {
      MembersStart(members);
      assert body[0] == '"';
    }
  }

  lemma ObjRoundTrip(members: seq<(string, JsonVal)>, body: string, rest: string)
    requires ParseObjectTail(body) == Some((members, rest))
    ensures ParseValue("{" + body) == Some((JObj(members), rest))
  {
    assert ("{" + body)[1..] == body;
  }

  lemma {:induction false} ValueRoundTrip(v: JsonVal, rest: string)
    requires Delimited(rest)
    ensures ParseValue(Encode(v) + rest) == Some((v, rest))
    decreases v
  {
    match v
    case JNull => LiteralRoundTrip(v, rest);
    case JBool(_) => LiteralRoundTrip(v, rest);
    case JNum(n) => NumRoundTrip(n, rest);
    case JStr(str) => StrRoundTrip(str, rest);
    case JArr(items) =>
      if items != [] {
        ItemsRoundTrip(items, rest);
      }
      ArrValue(items, rest);
    case JObj(members) =>
      if members != [] {
        MembersRoundTrip(members, rest);
      }
      ObjValue(members, rest);
  }

  lemma ArrValue(items: seq<JsonVal>, rest: string)
    requires items != [] ==> ParseItems(EncodeItems(items) + "]" + rest) == Some((items, rest))
    ensures ParseValue(Encode(JArr(items)) + rest) == Some((JArr(items), rest))
  {
    ArrTail(items, rest);
    ArrRoundTrip(items, rest);
  }

  lemma ObjValue(members: seq<(string, JsonVal)>, rest: string)
    requires members != [] ==> ParseMembers(EncodeMembers(members) + "}" + rest) == Some((members, rest))
    ensures ParseValue(Encode(JObj(members)) + rest) == Some((JObj(members), rest))
  {
    var body := EncodeMembers(members) + "}" + rest;
    ObjTail(members, rest);
    ObjRoundTrip(members, body, rest);
    assert Encode(JObj(members)) + rest == "{" + body;
  }

  lemma {:induction false} ItemsRoundTrip(items: seq<JsonVal>, rest: string)
    requires items != []
    ensures ParseItems(EncodeItems(items) + "]" + rest) == Some((items, rest))
    decreases items
  {
    var s := EncodeItems(items) + "]" + rest;
    if |items| == 1 {
      assert s == Encode(items[0]) + ("]" + rest);
      ValueRoundTrip(items[0], "]" + rest);
      LastItem(Encode(items[0]) + ("]" + rest), items[0], rest);
      assert [items[0]] == items;
    } else {
      var tail := EncodeItems(items[1..]) + "]" + rest;
      assert s == Encode(items[0]) + ("," + tail);
      ValueRoundTrip(items[0], "," + tail);
      ItemsRoundTrip(items[1..], rest);
      NextItem(Encode(items[0]) + ("," + tail), items[0], tail, items[1..], rest);
      assert [items[0]] + items[1..] == items;
    }
  }

  lemma LastItem(x: string, value: JsonVal, rest: string)
    requires ParseValue(x) == Some((value, "]" + rest))
    ensures ParseItems(x) == Some(([value], rest))
  {
    assert ("]" + rest)[1..] == rest;
  }

  lemma NextItem(x: string, value: JsonVal, tail: string, items: seq<JsonVal>, rest: string)
    requires ParseValue(x) == Some((value, "," + tail))
    requires ParseItems(tail) == Some((items, rest))
    ensures ParseItems(x) == Some(([value] + items, rest))
  {
    assert ("," + tail)[1..] == tail;
  }

  /** Reading one `"key":value` member once the value is known to read back. */
  lemma MemberHead(key: string, x: string, value: JsonVal, after: string)
    requires ParseValue(x) == Some((value, after))
    ensures var s := EncodeString(key) + ":" + x;
      ParseStringBody(s[1..]) == Some((key, ":" + x)) && (":" + x)[1..] == x
  {
    var s := EncodeString(key) + ":" + x;
    assert s[1..] == EscapeString(key) + "\"" + (":" + x);
    StringBodyRoundTrip(key, ":" + x);
  }

  lemma LastMember(key: string, x: string, value: JsonVal, rest: string)
    requires ParseValue(x) == Some((value, "}" + rest))
    ensures ParseMembers(EncodeString(key) + ":" + x) == Some(([(key, value)], rest))
  {
    MemberHead(key, x, value, "}" + rest);
    assert ("}" + rest)[1..] == rest;
  }

  lemma NextMember(key: string, x: string, value: JsonVal, tail: string, members: seq<(string, JsonVal)>, rest: string)
    requires ParseValue(x) == Some((value, "," + tail))
    requires ParseMembers(tail) == Some((members, rest))
    ensures ParseMembers(EncodeString(key) + ":" + x) == Some(([(key, value)] + members, rest))
  {
    MemberHead(key, x, value, "," + tail);
    assert ("," + tail)[1..] == tail;
  }

  lemma RegroupLast(k: string, v: string, rest: string)
    ensures k + ":" + v + "}" + rest == k + ":" + (v + ("}" + rest))
  {
  }

  lemma RegroupNext(k: string, v: string, tail: string, rest: string)
    ensures k + ":" + v + "," + tail + "}" + rest == k + ":" + (v + ("," + (tail + "}" + rest)))
  {
  }

  lemma EncodeMembersFront(members: seq<(string, JsonVal)>, rest: string)
    requires members != []
    ensures EncodeMembers(members) + "}" + rest ==
      EncodeString(members[0].0) + ":" + (Encode(members[0].1) +
        (if |members| == 1 then "}" + rest else "," + (EncodeMembers(members[1..]) + "}" + rest)))
  {
    var k, v := EncodeString(members[0].0), Encode(members[0].1);
    if |members| == 1 {
      assert EncodeMembers(members) == k + ":" + v;
      RegroupLast(k, v, rest);
    } else {
      assert EncodeMembers(members) == k + ":" + v + "," + EncodeMembers(members[1..]);
      RegroupNext(k, v, EncodeMembers(members[1..]), rest);
    }
  }

  lemma {:induction false} MembersRoundTrip(members: seq<(string, JsonVal)>, rest: string)
    requires members != []
    ensures ParseMembers(EncodeMembers(members) + "}" + rest) == Some((members, rest))
    decreases members
  {
    var (key, value) := members[0];
    assert value < members[0];
    EncodeMembersFront(members, rest);
    if |members| == 1 {
      var x := Encode(value) + ("}" + rest);
      ValueRoundTrip(value, "}" + rest);
      LastMember(key, x, value, rest);
      assert [(key, value)] == members;
    } else {
      var tail := EncodeMembers(members[1..]) + "}" + rest;
      var x := Encode(value) + ("," + tail);
      ValueRoundTrip(value, "," + tail);
      MembersRoundTrip(members[1..], rest);
      NextMember(key, x, value, tail, members[1..], rest);
      assert [(key, value)] + members[1..] == members;
    }
  }

  /** Reading back what `JSON.stringify` wrote gives the same value and nothing after it. */
  lemma ParseEncoded(s: string)
    ensures forall v :: Encode(v) == s ==> ParseValue(s) == Some((v, []))
  {
    forall v | Encode(v) == s
      ensures ParseValue(s) == Some((v, []))
    {
      ValueRoundTrip(v, "");
      assert Encode(v) + "" == Encode(v);
    }
  }
}
