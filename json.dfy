/**
 * The JSON values the core exchanges with OpenSearch Dashboards, and a codec that stands for
 * Go's `encoding/json`.
 *
 * `Encode` writes the canonical text `json.Marshal` produces for a value decoded into `any`:
 * no whitespace, object keys sorted, `"` and `\` escaped with a backslash, `\n`, `\r` and `\t`
 * by their short forms, other control characters and the HTML-sensitive `<`, `>`, `&`,
 * U+2028 and U+2029 as `\u` escapes. `Decode` is `json.Unmarshal` (one value, then only
 * whitespace), `DecodeFirst` is `json.Decoder.Decode` (the first value of a stream; what follows
 * it is not read). Numbers are integers here.
 */
module Json {
  import opened Wrappers
  import opened Strings

  /** A decoded JSON value: what Go holds in an `any` after unmarshalling. */
  datatype Json =
    | JNull
    | JBool(b: bool)
    | JNumber(n: int)
    | JString(s: string)
    | JArray(items: seq<Json>)
    | JObject(fields: map<string, Json>)

  // ---------------------------------------------------------------------------------------
  // Encoding
  // ---------------------------------------------------------------------------------------

  function HexDigit(d: nat): char
    requires d < 16
  {
    "0123456789abcdef"[d]
  }

  function DigitChar(d: nat): char
    requires d < 10
  {
    "0123456789"[d]
  }

  /** How `json.Marshal` writes one character inside a string literal. */
  function EscapeChar(c: char): string
  {
    if c == '"' then "\\\""
    else if c == '\\' then "\\\\"
    else if c == '\n' then "\\n"
    else if c == '\r' then "\\r"
    else if c == '\t' then "\\t"
    else if c < ' ' then "\\u00" + [HexDigit(c as int / 16), HexDigit(c as int % 16)]
    else if c == '<' then "\\u003c"
    else if c == '>' then "\\u003e"
    else if c == '&' then "\\u0026"
    else if c == '\U{2028}' then "\\u2028"
    else if c == '\U{2029}' then "\\u2029"
    else [c]
  }

  function Escape(s: string): string
  {
    if s == [] then "" else EscapeChar(s[0]) + Escape(s[1..])
  }

  /** A JSON string literal. */
  function Quote(s: string): string
  {
    "\"" + Escape(s) + "\""
  }

  /** The decimal digits of `n`, most significant first, without leading zeros. */
  function NatDigits(n: nat): (r: string)
    ensures |r| > 0 && forall i :: 0 <= i < |r| ==> IsDigit(r[i])
    decreases n
  {
    if n < 10 then [DigitChar(n)] else NatDigits(n / 10) + [DigitChar(n % 10)]
  }

  function EncodeInt(n: int): string
  {
    if n < 0 then "-" + NatDigits(-n) else NatDigits(n)
  }

  /** `json.Marshal` of a decoded value. */
  function Encode(v: Json): string
    decreases v
  {
    match v
    case JNull => "null"
    case JBool(b) => if b then "true" else "false"
    case JNumber(n) => EncodeInt(n)
    case JString(s) => Quote(s)
    case JArray(items) => "[" + EncodeItems(items, v) + "]"
    case JObject(fields) => "{" + EncodeMembers(fields, SortedKeys(fields.Keys), v) + "}"
  }

  /** The elements of an array, separated by commas. */
  function EncodeItems(items: seq<Json>, ghost parent: Json): string
    requires forall i :: 0 <= i < |items| ==> items[i] < parent
    decreases parent, |items|
  {
    if items == [] then ""
    else if |items| == 1 then Encode(items[0])
    else Encode(items[0]) + "," + EncodeItems(items[1..], parent)
  }

  /** The members of an object, in the order of `keys`, separated by commas. */
  function EncodeMembers(m: map<string, Json>, keys: seq<string>, ghost parent: Json): string
    requires parent == JObject(m)
    requires forall k :: k in keys ==> k in m
    decreases parent, |keys|
  {
    if keys == [] then ""
    else
      var member := Quote(keys[0]) + ":" + Encode(m[keys[0]]);
      if |keys| == 1 then member else member + "," + EncodeMembers(m, keys[1..], parent)
  }

  // ---------------------------------------------------------------------------------------
  // Decoding
  // ---------------------------------------------------------------------------------------

  predicate IsWs(c: char)
  {
    c == ' ' || c == '\t' || c == '\n' || c == '\r'
  }

  predicate IsDigit(c: char)
  {
    '0' as int <= c as int <= '9' as int
  }

  /** The input without its leading whitespace. */
  function SkipWs(s: string): (r: string)
    ensures |r| <= |s| && r == s[|s| - |r|..]
    ensures r == [] || !IsWs(r[0])
  {
    if s != [] && IsWs(s[0]) then SkipWs(s[1..]) else s
  }

  /** The length of the run of digits at the start of `s`. */
  function DigitSpan(s: string): (k: nat)
    ensures k <= |s|
    ensures forall i :: 0 <= i < k ==> IsDigit(s[i])
  {
    if s != [] && IsDigit(s[0]) then 1 + DigitSpan(s[1..]) else 0
  }

  function DigitsValue(ds: string): nat
    requires forall i :: 0 <= i < |ds| ==> IsDigit(ds[i])
  {
    if ds == [] then 0 else DigitsValue(ds[..|ds| - 1]) * 10 + DigitValue(ds[|ds| - 1])
  }

  function DigitValue(c: char): nat
    requires IsDigit(c)
  {
    c as int - '0' as int
  }

  /** A number: an optional minus sign and digits without a leading zero. Fractions and
      exponents (Go's float64 numbers) are refused. */
  function ParseNumber(t: string): (r: Option<(Json, string)>)
    ensures r.Some? ==> |r.value.1| < |t|
  {
    var neg := t != [] && t[0] == '-';
    var u := if neg then t[1..] else t;
    var k := DigitSpan(u);
    if k == 0 || (u[0] == '0' && k > 1) then None
    else if k < |u| && (u[k] == '.' || u[k] == 'e' || u[k] == 'E') then None
    else
      var d: int := DigitsValue(u[..k]);
      Some((JNumber(if neg then -d else d), u[k..]))
  }

  function HexValue(c: char): Option<nat>
  {
    if '0' <= c <= '9' then Some(c as int - '0' as int)
    else if 'a' <= c <= 'f' then Some(c as int - 'a' as int + 10)
    else if 'A' <= c <= 'F' then Some(c as int - 'A' as int + 10)
    else None
  }

  /** The character of a `\u` escape; a lone surrogate half becomes U+FFFD. */
  function CodeChar(n: nat): char
    requires n < 0x1_0000
  {
    if 0xD800 <= n < 0xE000 then '\U{FFFD}' else n as char
  }

  /** The character an escape sequence stands for (`t` follows the backslash), and how many
      characters of `t` it takes. */
  function Unescape(t: string): (r: Option<(char, nat)>)
    ensures r.Some? ==> 1 <= r.value.1 <= |t|
  {
    if t == [] then None
    else if t[0] == '"' then Some(('"', 1))
    else if t[0] == '\\' then Some(('\\', 1))
    else if t[0] == '/' then Some(('/', 1))
    else if t[0] == 'b' then Some(('\U{8}', 1))
    else if t[0] == 'f' then Some(('\U{C}', 1))
    else if t[0] == 'n' then Some(('\n', 1))
    else if t[0] == 'r' then Some(('\r', 1))
    else if t[0] == 't' then Some(('\t', 1))
    else if t[0] == 'u' && |t| >= 5 then
      match (HexValue(t[1]), HexValue(t[2]), HexValue(t[3]), HexValue(t[4]))
      case (Some(a), Some(b), Some(c), Some(d)) =>
        if a < 16 && b < 16 && c < 16 && d < 16 then Some((CodeChar(((a * 16 + b) * 16 + c) * 16 + d), 5))
        else None
      case _ => None
    else None
  }

  /** The body of a string literal up to its closing quote: the decoded text and what
      follows the quote. Raw control characters are refused. */
  function ParseChars(s: string): (r: Option<(string, string)>)
    ensures r.Some? ==> |r.value.1| < |s|
    decreases |s|
  {
    if s == [] then None
    else if s[0] == '"' then Some(("", s[1..]))
    else if s[0] == '\\' then
      match Unescape(s[1..])
      case None => None
      case Some((c, n)) =>
        match ParseChars(s[1 + n..])
        case None => None
        case Some((x, rest)) => Some(([c] + x, rest))
    else if s[0] < ' ' then None
    else
      match ParseChars(s[1..])
      case None => None
      case Some((x, rest)) => Some(([s[0]] + x, rest))
  }

  /** A keyword literal (`null`, `true`, `false`) at the start of `t`. */
  function ParseLiteral(t: string, word: string, v: Json): (r: Option<(Json, string)>)
    requires |word| > 0
    ensures r.Some? ==> |r.value.1| < |t|
  {
    if |word| <= |t| && t[..|word|] == word then Some((v, t[|word|..])) else None
  }

  /** One value after optional whitespace, and what follows it. */
  function ParseValue(s: string): (r: Option<(Json, string)>)
    ensures r.Some? ==> |r.value.1| < |s|
    decreases |s|, 0
  {
    var t := SkipWs(s);
    if t == [] then None
    else if t[0] == 'n' then ParseLiteral(t, "null", JNull)
    else if t[0] == 't' then ParseLiteral(t, "true", JBool(true))
    else if t[0] == 'f' then ParseLiteral(t, "false", JBool(false))
    else if t[0] == '"' then
      match ParseChars(t[1..])
      case None => None
      case Some((x, rest)) => Some((JString(x), rest))
    else if t[0] == '-' || IsDigit(t[0]) then ParseNumber(t)
    else if t[0] == '[' then ParseArray(t[1..])
    else if t[0] == '{' then ParseObject(t[1..])
    else None
  }

  /** An array after its opening bracket. */
  function ParseArray(s: string): (r: Option<(Json, string)>)
    ensures r.Some? ==> |r.value.1| < |s|
    decreases |s|, 2
  {
    var u := SkipWs(s);
    if u != [] && u[0] == ']' then Some((JArray([]), u[1..]))
    else
      match ParseItems(u)
      case None => None
      case Some((items, rest)) =>
        var w := SkipWs(rest);
        if w != [] && w[0] == ']' then Some((JArray(items), w[1..])) else None
  }

  /** One or more comma-separated values; stops before the first character that is not a comma. */
  function ParseItems(s: string): (r: Option<(seq<Json>, string)>)
    ensures r.Some? ==> |r.value.1| < |s|
    decreases |s|, 1
  {
    match ParseValue(s)
    case None => None
    case Some((v, rest)) =>
      var w := SkipWs(rest);
      if w != [] && w[0] == ',' then
        match ParseItems(w[1..])
        case None => None
        case Some((vs, rest')) => Some(([v] + vs, rest'))
      else Some(([v], w))
  }

  /** An object after its opening brace. */
  function ParseObject(s: string): (r: Option<(Json, string)>)
    ensures r.Some? ==> |r.value.1| < |s|
    decreases |s|, 3
  {
    var u := SkipWs(s);
    if u != [] && u[0] == '}' then Some((JObject(map[]), u[1..]))
    else
      match ParseMembers(u)
      case None => None
      case Some((members, rest)) =>
        var w := SkipWs(rest);
        if w != [] && w[0] == '}' then Some((JObject(MembersToMap(members)), w[1..])) else None
  }

  /** One `"key":value` member after optional whitespace. */
  function ParseMember(s: string): (r: Option<((string, Json), string)>)
    ensures r.Some? ==> |r.value.1| < |s|
    decreases |s|, 1
  {
    var u := SkipWs(s);
    if u == [] || u[0] != '"' then None
    else
      match ParseChars(u[1..])
      case None => None
      case Some((key, afterKey)) =>
        var w := SkipWs(afterKey);
        if w == [] || w[0] != ':' then None
        else
          match ParseValue(w[1..])
          case None => None
          case Some((v, afterValue)) => Some(((key, v), afterValue))
  }

  /** One or more comma-separated members, in the order they are written. */
  function ParseMembers(s: string): (r: Option<(seq<(string, Json)>, string)>)
    ensures r.Some? ==> |r.value.1| < |s|
    decreases |s|, 2
  {
    match ParseMember(s)
    case None => None
    case Some((member, afterMember)) =>
      var x := SkipWs(afterMember);
      if x != [] && x[0] == ',' then
        match ParseMembers(x[1..])
        case None => None
        case Some((more, rest)) => Some(([member] + more, rest))
      else Some(([member], x))
  }

  /** The map Go's decoder builds from the members: a repeated key keeps its last value. */
  function MembersToMap(members: seq<(string, Json)>): map<string, Json>
  {
    if members == [] then map[]
    else
      var m := MembersToMap(members[1..]);
      if members[0].0 in m then m else m[members[0].0 := members[0].1]
  }

  /** `json.Unmarshal`: exactly one value, with only whitespace around it. */
  function Decode(s: string): Option<Json>
  {
    match ParseValue(s)
    case None => None
    case Some((v, rest)) => if SkipWs(rest) == [] then Some(v) else None
  }

  /** `json.Decoder.Decode` on a stream: its first value; what follows is not read. */
  function DecodeFirst(s: string): Option<Json>
  {
    match ParseValue(s)
    case None => None
    case Some((v, _)) => Some(v)
  }

  // ---------------------------------------------------------------------------------------
  // Round trip: decoding what Encode wrote gives the value back
  // ---------------------------------------------------------------------------------------

  /** What may follow an encoded value without being read as part of it. */
  predicate CanFollowValue(rest: string)
  {
    rest == [] || !(IsDigit(rest[0]) || rest[0] == '.' || rest[0] == 'e' || rest[0] == 'E')
  }

  /** The members of `m` whose keys are listed. */
  function Restrict(m: map<string, Json>, keys: seq<string>): map<string, Json>
    requires forall k :: k in keys ==> k in m
  {
    map k | k in keys :: m[k]
  }

  lemma {:induction false} NatDigitsValue(n: nat)
    ensures DigitsValue(NatDigits(n)) == n
    ensures NatDigits(n)[0] == '0' ==> n == 0 && |NatDigits(n)| == 1
    decreases n
  {
    if n >= 10 {
      var ds := NatDigits(n);
      assert ds[..|ds| - 1] == NatDigits(n / 10);
      NatDigitsValue(n / 10);
      assert ds[0] == NatDigits(n / 10)[0];
    }
  }

  lemma {:induction false} DigitSpanOfDigits(ds: string, rest: string)
    requires forall i :: 0 <= i < |ds| ==> IsDigit(ds[i])
    requires rest == [] || !IsDigit(rest[0])
    ensures DigitSpan(ds + rest) == |ds|
    decreases |ds|
  {
    if ds != [] {
      assert (ds + rest)[1..] == ds[1..] + rest;
      DigitSpanOfDigits(ds[1..], rest);
    } else {
      assert ds + rest == rest;
    }
  }

  lemma ParseEncodedInt(n: int, rest: string)
    requires CanFollowValue(rest)
    ensures ParseNumber(EncodeInt(n) + rest) == Some((JNumber(n), rest))
  {
    var m: nat := if n < 0 then -n else n;
    var ds := NatDigits(m);
    var u := ds + rest;
    DigitsThen(ds, rest);
    NatDigitsValue(m);
    if n < 0 {
      var t := EncodeInt(n) + rest;
      MinusText(t, ds, rest);
      ParseNumberOf(t, true, u, |ds|, m);
    } else {
      assert EncodeInt(n) + rest == u;
      assert u[0] == ds[0] && IsDigit(ds[0]);
      ParseNumberOf(u, false, u, |ds|, m);
    }
  }

  lemma MinusText(t: string, ds: string, rest: string)
    requires t == "-" + ds + rest
    ensures t != [] && t[0] == '-' && t[1..] == ds + rest
  {
    assert t == "-" + (ds + rest);
  }

  /** A run of digits followed by something that cannot continue a number. */
  lemma DigitsThen(ds: string, rest: string)
    requires |ds| > 0 && forall i :: 0 <= i < |ds| ==> IsDigit(ds[i])
    requires CanFollowValue(rest)
    ensures DigitSpan(ds + rest) == |ds|
    ensures (ds + rest)[0] == ds[0]
    ensures (ds + rest)[..|ds|] == ds && (ds + rest)[|ds|..] == rest
    ensures |ds| < |ds + rest| ==> !((ds + rest)[|ds|] == '.' || (ds + rest)[|ds|] == 'e' || (ds + rest)[|ds|] == 'E')
  {
    DigitSpanOfDigits(ds, rest);
    assert |ds| < |ds + rest| ==> (ds + rest)[|ds|] == rest[0];
  }

  /** ParseNumber, unfolded once for input whose digit run and value are known. */
  lemma ParseNumberOf(t: string, neg: bool, u: string, k: nat, value: nat)
    requires t != [] && neg == (t[0] == '-') && u == (if neg then t[1..] else t)
    requires k <= |u| && DigitSpan(u) == k && k > 0 && !(u[0] == '0' && k > 1)
    requires !(k < |u| && (u[k] == '.' || u[k] == 'e' || u[k] == 'E'))
    requires DigitsValue(u[..k]) == value
    ensures ParseNumber(t) == Some((JNumber(if neg then -(value as int) else value), u[k..]))
  {
  }

  lemma HexDigitValue(d: nat)
    requires d < 16
    ensures HexValue(HexDigit(d)) == Some(d)
  {
  }

  /** Parsing an escaped character yields that character, and parsing continues after it. */
  lemma ParseEscapedChar(c: char, t: string)
    ensures ParseChars(EscapeChar(c) + t) ==
            match ParseChars(t)
            case None => None
            case Some((x, rest)) => Some(([c] + x, rest))
  {
    var e := EscapeChar(c);
    var s := e + t;
    EscapedText(s, e, t);
    if |e| == 1 {
      EscapeCharPlain(c);
      ParseCharsPlainStep(s);
    } else {
      UnescapeEscapeChar(c, t);
      ParseCharsEscapeStep(s, c, |e| - 1);
    }
  }

  /** An escape sequence followed by `t`: its first character, and what follows it. */
  lemma EscapedText(s: string, e: string, t: string)
    requires s == e + t && |e| > 0
    ensures s[0] == e[0] && s[1..] == e[1..] + t && s[|e|..] == t
  {
  }

  /** A character escaped as itself is one that stands for itself inside a string literal. */
  lemma EscapeCharPlain(c: char)
    requires |EscapeChar(c)| == 1
    ensures EscapeChar(c) == [c] && c != '"' && c != '\\' && c >= ' '
  {
  }

  /** `ParseChars`, unfolded once at a character that stands for itself. */
  lemma ParseCharsPlainStep(s: string)
    requires s != [] && s[0] != '"' && s[0] != '\\' && s[0] >= ' '
    ensures ParseChars(s) ==
            match ParseChars(s[1..])
            case None => None
            case Some((x, rest)) => Some(([s[0]] + x, rest))
  {
  }

  /** `ParseChars`, unfolded once at an escape sequence taking `n` characters after the
      backslash. */
  lemma ParseCharsEscapeStep(s: string, c: char, n: nat)
    requires s != [] && s[0] == '\\' && Unescape(s[1..]) == Some((c, n))
    ensures ParseChars(s) ==
            match ParseChars(s[1 + n..])
            case None => None
            case Some((x, rest)) => Some(([c] + x, rest))
  {
  }

  /** What follows the backslash of an escape sequence reads back as the escaped character. */
  lemma UnescapeEscapeChar(c: char, t: string)
    requires |EscapeChar(c)| > 1
    ensures EscapeChar(c)[0] == '\\'
    ensures Unescape(EscapeChar(c)[1..] + t) == Some((c, |EscapeChar(c)| - 1))
  {
    var e := EscapeChar(c);
    if c == '"' || c == '\\' || c == '\n' || c == '\r' || c == '\t' {
      UnescapeShort(c, e, t);
    } else if c < ' ' {
      UnescapeControl(c, e, t);
    } else if c == '<' {
      UnescapeHex4(e[1..], t, 0, 0, 3, 12);
    } else if c == '>' {
      UnescapeHex4(e[1..], t, 0, 0, 3, 14);
    } else if c == '&' {
      UnescapeHex4(e[1..], t, 0, 0, 2, 6);
    } else if c == '\U{2028}' {
      UnescapeHex4(e[1..], t, 2, 0, 2, 8);
    } else {
      assert c == '\U{2029}';
      UnescapeHex4(e[1..], t, 2, 0, 2, 9);
    }
  }

  lemma UnescapeShort(c: char, e: string, t: string)
    requires c == '"' || c == '\\' || c == '\n' || c == '\r' || c == '\t'
    requires e == EscapeChar(c)
    ensures e[0] == '\\' && |e| == 2
    ensures Unescape(e[1..] + t) == Some((c, 1))
  {
    assert (e[1..] + t)[0] == e[1];
  }

  lemma UnescapeControl(c: char, e: string, t: string)
    requires c < ' ' && c != '\n' && c != '\r' && c != '\t'
    requires e == EscapeChar(c)
    ensures e[0] == '\\' && |e| == 6
    ensures Unescape(e[1..] + t) == Some((c, 5))
  {
    var hi, lo := c as int / 16, c as int % 16;
    HexDigitValue(hi);
    HexDigitValue(lo);
    assert e[1..] == "u00" + [HexDigit(hi), HexDigit(lo)];
    UnescapeHex4(e[1..], t, 0, 0, hi, lo);
    assert ((0 * 16 + 0) * 16 + hi) * 16 + lo == c as int;
  }

  /** A `u` and four hex digits, followed by `t`, read as one escape of five characters. */
  lemma UnescapeHex4(w: string, t: string, a: nat, b: nat, c: nat, d: nat)
    requires |w| == 5 && w[0] == 'u'
    requires HexValue(w[1]) == Some(a) && HexValue(w[2]) == Some(b)
    requires HexValue(w[3]) == Some(c) && HexValue(w[4]) == Some(d)
    requires a < 16 && b < 16 && c < 16 && d < 16
    ensures Unescape(w + t) == Some((CodeChar(((a * 16 + b) * 16 + c) * 16 + d), 5))
  {
    var u := w + t;
    assert u[0] == 'u' && u[1] == w[1] && u[2] == w[2] && u[3] == w[3] && u[4] == w[4];
  }

  lemma {:induction false} ParseEscaped(x: string, rest: string)
    ensures ParseChars(Escape(x) + "\"" + rest) == Some((x, rest))
    decreases |x|
  {
    if x == [] {
      assert Escape(x) + "\"" + rest == "\"" + rest;
    } else {
      var t := Escape(x[1..]) + "\"" + rest;
      assert Escape(x) + "\"" + rest == EscapeChar(x[0]) + t;
      ParseEscapedChar(x[0], t);
      ParseEscaped(x[1..], rest);
      assert [x[0]] + x[1..] == x;
    }
  }

  lemma EncodeStart(v: Json)
    ensures Encode(v) != [] && !IsWs(Encode(v)[0])
  {
    match v
    case JNumber(n) =>
      if n >= 0 {
        assert IsDigit(NatDigits(n)[0]);
      }
    case _ =>
  }

  /** How `ParseValue` dispatches on the first character once whitespace is skipped. */
  lemma ParseValueAt(s: string)
    requires s != [] && !IsWs(s[0])
    ensures s[0] == 'n' ==> ParseValue(s) == ParseLiteral(s, "null", JNull)
    ensures s[0] == 't' ==> ParseValue(s) == ParseLiteral(s, "true", JBool(true))
    ensures s[0] == 'f' ==> ParseValue(s) == ParseLiteral(s, "false", JBool(false))
    ensures s[0] == '"' && ParseChars(s[1..]).Some? ==>
              ParseValue(s) == Some((JString(ParseChars(s[1..]).value.0), ParseChars(s[1..]).value.1))
    ensures s[0] == '-' || IsDigit(s[0]) ==> ParseValue(s) == ParseNumber(s)
    ensures s[0] == '[' ==> ParseValue(s) == ParseArray(s[1..])
    ensures s[0] == '{' ==> ParseValue(s) == ParseObject(s[1..])
  {
    SkipWsNoop(s);
  }

  /** The scalar cases of the round trip. */
  lemma ParseEncodedScalar(v: Json, rest: string)
    requires CanFollowValue(rest)
    requires !v.JArray? && !v.JObject?
    ensures ParseValue(Encode(v) + rest) == Some((v, rest))
  {
    match v
    case JNull => ParseEncodedWord("null", v, rest);
    case JBool(b) => if b { ParseEncodedWord("true", v, rest); } else { ParseEncodedWord("false", v, rest); }
    case JNumber(n) => ParseEncodedNumber(n, v, rest);
    case JString(x) => ParseEncodedString(x, v, rest);
  }

  lemma ParseEncodedWord(word: string, v: Json, rest: string)
    requires (v == JNull && word == "null") || (v == JBool(true) && word == "true") || (v == JBool(false) && word == "false")
    ensures ParseValue(Encode(v) + rest) == Some((v, rest))
  {
    var s := word + rest;
    assert Encode(v) == word;
    assert s[0] == word[0] && s[..|word|] == word && s[|word|..] == rest;
    ParseValueAt(s);
  }

  lemma ParseEncodedNumber(n: int, v: Json, rest: string)
    requires v == JNumber(n) && CanFollowValue(rest)
    ensures ParseValue(Encode(v) + rest) == Some((v, rest))
  {
    var s := Encode(v) + rest;
    EncodeStart(v);
    assert s[0] == Encode(v)[0];
    assert s[0] == '-' || IsDigit(s[0]);
    ParseValueAt(s);
    ParseEncodedInt(n, rest);
  }

  lemma ParseEncodedString(x: string, v: Json, rest: string)
    requires v == JString(x)
    ensures ParseValue(Encode(v) + rest) == Some((v, rest))
  {
    var s := Encode(v) + rest;
    QuotedText(s, Escape(x), rest);
    ParseEscaped(x, rest);
    ParseValueAt(s);
  }

  /** The heart of the round trip: a value's encoding parses back to the value. */
  lemma {:induction false} ParseEncoded(v: Json, rest: string)
    requires CanFollowValue(rest)
    ensures ParseValue(Encode(v) + rest) == Some((v, rest))
    decreases v, 3, 0
  {
    match v
    case JArray(items) => ParseEncodedArrayValue(items, v, rest);
    case JObject(fields) => ParseEncodedObjectValue(fields, v, rest);
    case _ => ParseEncodedScalar(v, rest);
  }

  lemma EncodeArrayShape(items: seq<Json>, v: Json, rest: string)
    requires v == JArray(items)
    ensures (Encode(v) + rest)[0] == '[' && !IsWs('[')
    ensures (Encode(v) + rest)[1..] == EncodeItems(items, v) + "]" + rest
  {
  }

  lemma EncodeObjectShape(fields: map<string, Json>, v: Json, rest: string)
    requires v == JObject(fields)
    ensures (Encode(v) + rest)[0] == '{' && !IsWs('{')
    ensures (Encode(v) + rest)[1..] == EncodeMembers(fields, SortedKeys(fields.Keys), v) + "}" + rest
  {
    var e := EncodeMembers(fields, SortedKeys(fields.Keys), v);
    assert Encode(v) == "{" + e + "}";
    BracketShape(Encode(v), '{', e, '}', rest);
  }

  /** A bracketed text followed by `rest`: its first character, and what follows it. */
  lemma BracketShape(x: string, open: char, e: string, close: char, rest: string)
    requires x == [open] + e + [close]
    ensures (x + rest)[0] == open
    ensures (x + rest)[1..] == e + [close] + rest
  {
    assert x + rest == [open] + (e + [close] + rest);
  }

  lemma {:induction false} ParseEncodedArrayValue(items: seq<Json>, v: Json, rest: string)
    requires v == JArray(items)
    ensures ParseValue(Encode(v) + rest) == Some((v, rest))
    decreases v, 2, 0
  {
    EncodeArrayShape(items, v, rest);
    ParseEncodedArray(items, v, rest);
    ParseValueAt(Encode(v) + rest);
  }

  lemma {:induction false} ParseEncodedObjectValue(fields: map<string, Json>, v: Json, rest: string)
    requires v == JObject(fields)
    ensures ParseValue(Encode(v) + rest) == Some((v, rest))
    decreases v, 2, 0
  {
    EncodeObjectShape(fields, v, rest);
    ParseEncodedObject(fields, v, rest);
    ParseValueAt(Encode(v) + rest);
  }

  /** An array whose elements parse to `items` and are followed by the closing bracket. */
  lemma ParseArrayOf(s: string, items: seq<Json>, after: string)
    requires s != [] && !IsWs(s[0]) && s[0] != ']'
    requires ParseItems(s) == Some((items, "]" + after))
    ensures ParseArray(s) == Some((JArray(items), after))
  {
    SkipWsNoop(s);
    SkipWsNoop("]" + after);
    assert ("]" + after)[1..] == after;
  }

  lemma {:induction false} ParseEncodedArray(items: seq<Json>, v: Json, rest: string)
    requires v == JArray(items)
    ensures ParseArray(EncodeItems(items, v) + "]" + rest) == Some((v, rest))
    decreases v, 1, 0
  {
    var s := EncodeItems(items, v) + "]" + rest;
    if items == [] {
      assert s == "]" + rest;
      SkipWsNoop(s);
    } else {
      assert ParseItems(s) == Some((items, "]" + rest)) by {
        assert s == EncodeItems(items, v) + ("]" + rest);
        ParseEncodedItems(items, v, "]" + rest);
      }
      EncodeItemsStart(items, v);
      assert s[0] == EncodeItems(items, v)[0];
      ParseArrayOf(s, items, rest);
    }
  }

  lemma EncodeItemsStart(items: seq<Json>, v: Json)
    requires forall i :: 0 <= i < |items| ==> items[i] < v
    requires items != []
    ensures EncodeItems(items, v) != [] && !IsWs(EncodeItems(items, v)[0]) && EncodeItems(items, v)[0] != ']'
  {
    EncodeStart(items[0]);
    var e := Encode(items[0]);
    assert EncodeItems(items, v)[0] == e[0];
    match items[0]
    case JNumber(n) =>
      if n >= 0 {
        assert IsDigit(NatDigits(n)[0]);
      }
    case _ =>
  }

  /** An object whose members parse to `members` and are followed by the closing brace. */
  lemma ParseObjectOf(s: string, members: seq<(string, Json)>, after: string)
    requires s != [] && s[0] == '"'
    requires ParseMembers(s) == Some((members, "}" + after))
    ensures ParseObject(s) == Some((JObject(MembersToMap(members)), after))
  {
    SkipWsNoop(s);
    SkipWsNoop("}" + after);
    assert ("}" + after)[1..] == after;
  }

  lemma ParseEmptyObject(rest: string)
    ensures ParseObject("}" + rest) == Some((JObject(map[]), rest))
  {
    SkipWsNoop("}" + rest);
    assert ("}" + rest)[1..] == rest;
  }

  lemma {:induction false} ParseEncodedObject(fields: map<string, Json>, v: Json, rest: string)
    requires v == JObject(fields)
    ensures ParseObject(EncodeMembers(fields, SortedKeys(fields.Keys), v) + "}" + rest) == Some((v, rest))
    decreases v, 1, 0
  {
    var keys := SortedKeys(fields.Keys);
    if keys == [] {
      EncodeEmptyObject(fields, v, rest);
      ParseEmptyObject(rest);
    } else {
      ParseEncodedMembersThenBrace(fields, keys, v, rest);
      MembersToMapSorted(fields, keys);
      ParseObjectOf(EncodeMembers(fields, keys, v) + "}" + rest, MemberList(fields, keys), rest);
    }
  }

  lemma EncodeEmptyObject(fields: map<string, Json>, v: Json, rest: string)
    requires v == JObject(fields)
    requires SortedKeys(fields.Keys) == []
    ensures fields == map[] && EncodeMembers(fields, SortedKeys(fields.Keys), v) + "}" + rest == "}" + rest
  {
    assert |fields.Keys| == 0;
  }

  lemma {:induction false} ParseEncodedMembersThenBrace(fields: map<string, Json>, keys: seq<string>, v: Json, rest: string)
    requires v == JObject(fields)
    requires keys == SortedKeys(fields.Keys) && keys != []
    ensures ParseMembers(EncodeMembers(fields, keys, v) + "}" + rest) == Some((MemberList(fields, keys), "}" + rest))
    ensures (EncodeMembers(fields, keys, v) + "}" + rest)[0] == '"'
    decreases v, 0, |keys| + 2
  {
    var e := EncodeMembers(fields, keys, v);
    EncodeMembersStart(fields, keys, v);
    MembersText(e + "}" + rest, e, rest);
    ParseEncodedMembers(fields, keys, v, "}" + rest);
  }

  /** Members, then the closing brace and `rest`. */
  lemma MembersText(s: string, e: string, rest: string)
    requires s == e + "}" + rest && e != []
    ensures s == e + ("}" + rest) && s[0] == e[0]
  {
  }

  /** The members of a non-empty object start with the quote of the first key. */
  lemma EncodeMembersStart(m: map<string, Json>, keys: seq<string>, parent: Json)
    requires parent == JObject(m)
    requires forall k :: k in keys ==> k in m
    requires |keys| > 0
    ensures EncodeMembers(m, keys, parent) != [] && EncodeMembers(m, keys, parent)[0] == '"'
  {
    EncodeMembersCons(m, keys, parent);
    var k := keys[0];
    var q := Quote(k);
    StartsWithQuote(q, Escape(k));
    FirstOfConcat(q, ":");
    FirstOfConcat(q + ":", Encode(m[k]));
    if |keys| > 1 {
      var member := q + ":" + Encode(m[k]);
      FirstOfConcat(member, ",");
      FirstOfConcat(member + ",", EncodeMembers(m, keys[1..], parent));
    }
  }

  lemma StartsWithQuote(q: string, x: string)
    requires q == "\"" + x + "\""
    ensures q != [] && q[0] == '"'
  {
  }

  lemma FirstOfConcat(a: string, b: string)
    requires a != []
    ensures a + b != [] && (a + b)[0] == a[0]
  {
  }

  /** The members of a map listed in sorted key order rebuild the map. */
  lemma MembersToMapSorted(fields: map<string, Json>, keys: seq<string>)
    requires keys == SortedKeys(fields.Keys)
    ensures MembersToMap(MemberList(fields, keys)) == fields
  {
    MembersToMapOfList(fields, keys);
    assert Restrict(fields, keys) == fields;
  }

  /** The last element of a list: what follows it is the closing bracket. */
  lemma ParseItemsLast(s: string, v: Json, after: string)
    requires ParseValue(s) == Some((v, after))
    requires after != [] && after[0] == ']'
    ensures ParseItems(s) == Some(([v], after))
  {
    SkipWsNoop(after);
  }

  /** An element followed by a comma and further elements. */
  lemma ParseItemsMore(s: string, v: Json, tail: string, vs: seq<Json>, rest: string)
    requires ParseValue(s) == Some((v, "," + tail))
    requires ParseItems(tail) == Some((vs, rest))
    ensures ParseItems(s) == Some(([v] + vs, rest))
  {
    CommaText("," + tail, tail);
  }

  lemma {:induction false} ParseEncodedItems(items: seq<Json>, parent: Json, rest: string)
    requires forall i :: 0 <= i < |items| ==> items[i] < parent
    requires |items| > 0 && rest != [] && rest[0] == ']'
    ensures ParseItems(EncodeItems(items, parent) + rest) == Some((items, rest))
    decreases parent, 0, |items|
  {
    var s := EncodeItems(items, parent) + rest;
    EncodeItemsCons(items, parent);
    if |items| == 1 {
      ParseEncodedItemLast(items[0], parent, s, rest);
      assert [items[0]] == items;
    } else {
      var tail := EncodeItems(items[1..], parent) + rest;
      ItemTextMore(s, Encode(items[0]), EncodeItems(items[1..], parent), rest);
      ParseEncodedItems(items[1..], parent, rest);
      ParseEncodedItemMore(items[0], parent, s, tail, items[1..], rest);
      assert [items[0]] + items[1..] == items;
    }
  }

  /** The last element of an array as `EncodeItems` writes it. */
  lemma {:induction false} ParseEncodedItemLast(item: Json, parent: Json, s: string, rest: string)
    requires item < parent
    requires rest != [] && rest[0] == ']'
    requires s == Encode(item) + rest
    ensures ParseItems(s) == Some(([item], rest))
    decreases parent, 0, 0
  {
    ParseEncoded(item, rest);
    ParseItemsLast(s, item, rest);
  }

  /** An element of an array as `EncodeItems` writes it, followed by a comma and more. */
  lemma {:induction false} ParseEncodedItemMore(item: Json, parent: Json, s: string, tail: string, vs: seq<Json>, rest: string)
    requires item < parent
    requires s == Encode(item) + ("," + tail)
    requires ParseItems(tail) == Some((vs, rest))
    ensures ParseItems(s) == Some(([item] + vs, rest))
    decreases parent, 0, 0
  {
    CommaText("," + tail, tail);
    ParseEncoded(item, "," + tail);
    ParseItemsMore(s, item, tail, vs, rest);
  }

  /** `EncodeItems`, unfolded once. */
  lemma EncodeItemsCons(items: seq<Json>, parent: Json)
    requires forall i :: 0 <= i < |items| ==> items[i] < parent
    requires |items| > 0
    ensures EncodeItems(items, parent)
      == if |items| == 1 then Encode(items[0]) else Encode(items[0]) + "," + EncodeItems(items[1..], parent)
  {
  }

  lemma ItemTextMore(s: string, e: string, tail: string, rest: string)
    requires s == e + "," + tail + rest
    ensures s == e + ("," + (tail + rest))
  {
  }

  /** A member whose key is written by `Quote` parses back, given how its value parses. */
  lemma ParseQuotedMember(k: string, body: string, v: Json, after: string)
    requires ParseValue(body) == Some((v, after))
    ensures ParseMember(Quote(k) + ":" + body) == Some(((k, v), after))
  {
    var afterKey := ":" + body;
    var s := Quote(k) + ":" + body;
    QuotedKeyText(s, Escape(k), afterKey, body);
    SkipWsNoop(s);
    ParseEscaped(k, afterKey);
    SkipWsNoop(afterKey);
  }

  lemma QuotedText(s: string, x: string, rest: string)
    requires s == "\"" + x + "\"" + rest
    ensures s != [] && s[0] == '"' && s[1..] == x + "\"" + rest
  {
    assert s == ['"'] + (x + "\"" + rest);
  }

  lemma QuotedKeyText(s: string, x: string, afterKey: string, body: string)
    requires s == "\"" + x + "\"" + ":" + body && afterKey == ":" + body
    ensures s != [] && s[0] == '"' && s[1..] == x + "\"" + afterKey
    ensures afterKey[0] == ':' && afterKey[1..] == body
  {
    assert s == ['"'] + (x + "\"" + afterKey);
  }

  /** A comma and what follows it: no whitespace to skip. */
  lemma CommaText(x: string, tail: string)
    requires x == "," + tail
    ensures x != [] && x[0] == ',' && x[1..] == tail && SkipWs(x) == x
  {
    SkipWsNoop(x);
  }

  lemma SkipWsNoop(s: string)
    requires s != [] && !IsWs(s[0])
    ensures SkipWs(s) == s
  {
  }

  /** The members of `m` for the listed keys, in that order. */
  function MemberList(m: map<string, Json>, keys: seq<string>): (r: seq<(string, Json)>)
    requires forall k :: k in keys ==> k in m
    ensures |r| == |keys|
  {
    if keys == [] then [] else [(keys[0], m[keys[0]])] + MemberList(m, keys[1..])
  }

  /** The last member of a list: what follows it is not a comma. */
  lemma ParseMembersLast(s: string, member: (string, Json), after: string)
    requires ParseMember(s) == Some((member, after))
    requires after != [] && !IsWs(after[0]) && after[0] != ','
    ensures ParseMembers(s) == Some(([member], after))
  {
    SkipWsNoop(after);
  }

  /** A member followed by a comma and further members. */
  lemma ParseMembersMore(s: string, member: (string, Json), tail: string, more: seq<(string, Json)>, rest: string)
    requires ParseMember(s) == Some((member, "," + tail))
    requires ParseMembers(tail) == Some((more, rest))
    ensures ParseMembers(s) == Some(([member] + more, rest))
  {
    CommaText("," + tail, tail);
  }

  lemma {:induction false} ParseEncodedMembers(m: map<string, Json>, keys: seq<string>, parent: Json, rest: string)
    requires parent == JObject(m)
    requires forall k :: k in keys ==> k in m
    requires |keys| > 0
    requires rest != [] && rest[0] == '}'
    ensures ParseMembers(EncodeMembers(m, keys, parent) + rest) == Some((MemberList(m, keys), rest))
    decreases parent, 0, |keys| + 1
  {
    var k := keys[0];
    EncodeMembersCons(m, keys, parent);
    var s := EncodeMembers(m, keys, parent) + rest;
    if |keys| == 1 {
      MemberTextLast(s, Quote(k), Encode(m[k]), rest);
      ParseEncodedMemberLast(m, k, parent, s, rest);
      assert MemberList(m, keys) == [(k, m[k])];
    } else {
      var more := EncodeMembers(m, keys[1..], parent) + rest;
      MemberTextMore(s, Quote(k), Encode(m[k]), EncodeMembers(m, keys[1..], parent), rest);
      ParseEncodedMembers(m, keys[1..], parent, rest);
      ParseEncodedMemberMore(m, k, parent, s, more, MemberList(m, keys[1..]), rest);
    }
  }

  /** The last member of an object as `EncodeMembers` writes it. */
  lemma {:induction false} ParseEncodedMemberLast(m: map<string, Json>, k: string, parent: Json, s: string, rest: string)
    requires parent == JObject(m) && k in m
    requires rest != [] && rest[0] == '}'
    requires s == Quote(k) + ":" + (Encode(m[k]) + rest)
    ensures ParseMembers(s) == Some(([(k, m[k])], rest))
    decreases parent, 0, 1
  {
    ParseEncodedMember(m, k, parent, rest);
    ParseMembersLast(s, (k, m[k]), rest);
  }

  /** A member of an object as `EncodeMembers` writes it, followed by a comma and more. */
  lemma {:induction false} ParseEncodedMemberMore(m: map<string, Json>, k: string, parent: Json, s: string, tail: string,
                                                  more: seq<(string, Json)>, rest: string)
    requires parent == JObject(m) && k in m
    requires s == Quote(k) + ":" + (Encode(m[k]) + ("," + tail))
    requires ParseMembers(tail) == Some((more, rest))
    ensures ParseMembers(s) == Some(([(k, m[k])] + more, rest))
    decreases parent, 0, 1
  {
    CommaText("," + tail, tail);
    ParseEncodedMember(m, k, parent, "," + tail);
    ParseMembersMore(s, (k, m[k]), tail, more, rest);
  }

  lemma MemberTextLast(s: string, q: string, e: string, rest: string)
    requires s == q + ":" + e + rest
    ensures s == q + ":" + (e + rest)
  {
  }

  lemma MemberTextMore(s: string, q: string, e: string, tail: string, rest: string)
    requires s == q + ":" + e + "," + tail + rest
    ensures s == q + ":" + (e + ("," + (tail + rest)))
  {
  }

  /** `EncodeMembers`, unfolded once. */
  lemma EncodeMembersCons(m: map<string, Json>, keys: seq<string>, parent: Json)
    requires parent == JObject(m)
    requires forall k :: k in keys ==> k in m
    requires |keys| > 0
    ensures var member := Quote(keys[0]) + ":" + Encode(m[keys[0]]);
      EncodeMembers(m, keys, parent)
      == if |keys| == 1 then member else member + "," + EncodeMembers(m, keys[1..], parent)
  {
  }

  /** One member as `EncodeMembers` writes it parses back to that member. */
  lemma {:induction false} ParseEncodedMember(m: map<string, Json>, k: string, parent: Json, after: string)
    requires parent == JObject(m) && k in m
    requires CanFollowValue(after)
    ensures ParseMember(Quote(k) + ":" + (Encode(m[k]) + after)) == Some(((k, m[k]), after))
    decreases parent, 0, 0
  {
    ParseEncoded(m[k], after);
    ParseQuotedMember(k, Encode(m[k]) + after, m[k], after);
  }

  /** With distinct keys, the decoder's map holds exactly the listed members. */
  lemma {:induction false} MembersToMapOfList(m: map<string, Json>, keys: seq<string>)
    requires forall k :: k in keys ==> k in m
    requires StrictlySorted(keys)
    ensures MembersToMap(MemberList(m, keys)) == Restrict(m, keys)
    decreases |keys|
  {
    if keys != [] {
      var tail := keys[1..];
      assert StrictlySorted(tail);
      MembersToMapOfList(m, tail);
      SortedDistinct(keys);
      assert MemberList(m, keys)[1..] == MemberList(m, tail);
      assert Restrict(m, keys) == Restrict(m, tail)[keys[0] := m[keys[0]]];
    }
  }

  /** `json.Unmarshal` of `json.Marshal(v)` gives `v` back. */
  lemma DecodeEncode(v: Json)
    ensures Decode(Encode(v)) == Some(v)
  {
    ParseEncoded(v, "");
    assert Encode(v) + "" == Encode(v);
  }

  /** A stream decoder reading `json.Marshal(v)` gives `v` back, whatever follows it. */
  lemma DecodeFirstEncode(v: Json, rest: string)
    requires CanFollowValue(rest)
    ensures DecodeFirst(Encode(v) + rest) == Some(v)
  {
    ParseEncoded(v, rest);
  }

  /** Encoding is injective: equal texts come from equal values. */
  lemma EncodeInjective(v: Json, w: Json)
    requires Encode(v) == Encode(w)
    ensures v == w
  {
    DecodeEncode(v);
    DecodeEncode(w);
  }

  /** A character `json.Marshal` writes as itself inside a string literal. */
  predicate IsPlain(c: char)
  {
    ' ' <= c && c != '"' && c != '\\' && c != '<' && c != '>' && c != '&'
    && c != '\U{2028}' && c != '\U{2029}'
  }

  /** A string of plain characters is quoted without escapes. */
  lemma {:induction false} EscapePlain(s: string)
    requires forall i :: 0 <= i < |s| ==> IsPlain(s[i])
    ensures Escape(s) == s
  {
    if s != [] {
      EscapePlain(s[1..]);
      assert s == [s[0]] + s[1..];
    }
  }

  /** A string of plain characters is quoted by adding the quotes alone. */
  lemma QuotePlain(s: string)
    requires forall i :: 0 <= i < |s| ==> IsPlain(s[i])
    ensures Quote(s) == "\"" + s + "\""
  {
    EscapePlain(s);
  }

  /** An object of one member is that member between braces. */
  lemma EncodeSingleton(k: string, v: Json)
    ensures Encode(JObject(map[k := v])) == "{" + Quote(k) + ":" + Encode(v) + "}"
  {
    var keys := SortedKeys(map[k := v].Keys);
    assert map[k := v].Keys == {k};
    assert |keys| == 1 && keys[0] in {k};
    assert keys == [k];
  }
}
