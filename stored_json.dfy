/**
 * The JSON text the DIY app keeps in its `*_json` columns: `JSON.stringify` of a measurement
 * conversion, of a list of them, and of a list of strings, together with the `JSON.parse` reading
 * of that text. Strings are escaped the way `JSON.stringify` escapes them.
 */
module StoredJson {
  import opened Wrappers

  /** `MeasurementConversion`: one quantity written three ways. */
  datatype Measurement = Measurement(original: string, metric: string, imperial: string)

  // ---- Hexadecimal digits of `\uXXXX` escapes ----

  function HexValue(c: char): Option<nat> {
    if '0' <= c <= '9' then Some(c as int - '0' as int)
    else if 'a' <= c <= 'f' then Some(c as int - 'a' as int + 10)
    else if 'A' <= c <= 'F' then Some(c as int - 'A' as int + 10)
    else None
  }

  /** A lower-case hexadecimal digit, as `JSON.stringify` writes them. */
  function HexDigit(d: nat): (c: char)
    requires d < 16
    ensures HexValue(c) == Some(d)
  {
    if d < 10 then ('0' as int + d) as char else ('a' as int + d - 10) as char
  }

  // ---- Strings ----

  /** How `JSON.stringify` writes one character inside a string literal. */
  function EscapeChar(c: char): (r: string)
    ensures |r| > 0 && (r[0] == '\\' || r == [c])
  {
    if c == '"' then ['\\', '"']
    else if c == '\\' then ['\\', '\\']
    else if c == 8 as char then ['\\', 'b']
    else if c == 12 as char then ['\\', 'f']
    else if c == '\n' then ['\\', 'n']
    else if c == '\r' then ['\\', 'r']
    else if c == '\t' then ['\\', 't']
    else if (c as int) < 0x20 then ['\\', 'u', '0', '0', HexDigit(c as int / 16), HexDigit(c as int % 16)]
    else [c]
  }

  function EscapeBody(s: string): string
    decreases |s|
  {
    if s == [] then [] else EscapeChar(s[0]) + EscapeBody(s[1..])
  }

  /** `JSON.stringify(s)` for a string `s`. */
  function Quote(s: string): (r: string)
    ensures |r| >= 2 && r[0] == '"'
  {
    ['"'] + EscapeBody(s) + ['"']
  }

  /** The value of the four hexadecimal digits of a `\uXXXX` escape. */
  function HexQuad(a: char, b: char, c: char, d: char): Option<nat> {
    match (HexValue(a), HexValue(b), HexValue(c), HexValue(d))
    case (Some(x1), Some(x2), Some(x3), Some(x4)) => Some(((x1 * 16 + x2) * 16 + x3) * 16 + x4)
    case _ => None
  }

  /** The character a `\uXXXX` escape stands for; lone surrogate halves are not modelled. */
  function CodeUnitChar(code: nat): Option<char> {
    if code < 0xD800 || (0xE000 <= code < 0x11_0000) then Some(code as char) else None
  }

  /** The character an escape sequence stands for; `t` is the text after the backslash. */
  function LexEscape(t: string): (r: Option<(char, string)>)
    ensures r.Some? ==> |r.value.1| < |t|
  {
    if t == [] then None
    else if t[0] == '"' || t[0] == '\\' || t[0] == '/' then Some((t[0], t[1..]))
    else if t[0] == 'b' then Some((8 as char, t[1..]))
    else if t[0] == 'f' then Some((12 as char, t[1..]))
    else if t[0] == 'n' then Some(('\n', t[1..]))
    else if t[0] == 'r' then Some(('\r', t[1..]))
    else if t[0] == 't' then Some(('\t', t[1..]))
    else if t[0] == 'u' && |t| >= 5 then
      match HexQuad(t[1], t[2], t[3], t[4])
      case None => None
      case Some(code) =>
        match CodeUnitChar(code)
        case None => None
        case Some(c) => Some((c, t[5..]))
    else None
  }

  /**
   * How `JSON.parse` reads the body of a string literal (after its opening quote): escapes are
   * decoded, a raw control character is an error, and `"` ends the literal. Yields the string
   * and the text after the closing quote.
   */
  function LexString(t: string): (r: Option<(string, string)>)
    ensures r.Some? ==> |r.value.1| < |t|
    decreases |t|
  {
    if t == [] then None
    else if t[0] == '"' then Some(([], t[1..]))
    else if t[0] == '\\' then
      match LexEscape(t[1..])
      case None => None
      case Some((c, after)) =>
        match LexString(after)
        case None => None
        case Some((s, rest)) => Some(([c] + s, rest))
    else if (t[0] as int) < 0x20 then None
    else
      match LexString(t[1..])
      case None => None
      case Some((s, rest)) => Some(([t[0]] + s, rest))
  }

  /** Reads a whole string literal, opening quote included. */
  function ParseString(t: string): (r: Option<(string, string)>)
    ensures r.Some? ==> |r.value.1| < |t|
  {
    if |t| > 0 && t[0] == '"' then LexString(t[1..]) else None
  }

  // ---- Reading back one escaped character ----

  /** What `LexString` yields once one character `c` has been read. */
  function Prepend(c: char, r: Option<(string, string)>): Option<(string, string)> {
    match r
    case None => None
    case Some((s, rest)) => Some(([c] + s, rest))
  }

  lemma LexPlainChar(c: char, tail: string)
    requires c != '"' && c != '\\' && (c as int) >= 0x20
    ensures LexString([c] + tail) == Prepend(c, LexString(tail))
  {
    assert ([c] + tail)[1..] == tail;
  }

  lemma LexShortEscape(c: char, e: char, tail: string)
    requires LexEscape([e] + tail) == Some((c, tail))
    ensures LexString(['\\', e] + tail) == Prepend(c, LexString(tail))
  {
    assert (['\\', e] + tail)[1..] == [e] + tail;
  }

  lemma LexUnicodeEscape(c: char, tail: string)
    requires (c as int) < 0x20
    ensures LexEscape(['u', '0', '0', HexDigit(c as int / 16), HexDigit(c as int % 16)] + tail) == Some((c, tail))
  {
    var hi, lo := HexDigit(c as int / 16), HexDigit(c as int % 16);
    var t := ['u', '0', '0', hi, lo] + tail;
    assert t[0] == 'u' && t[1] == '0' && t[2] == '0' && t[3] == hi && t[4] == lo && t[5..] == tail;
    assert HexQuad('0', '0', hi, lo) == Some(c as int) by {
      assert HexValue('0') == Some(0);
    }
    assert CodeUnitChar(c as int) == Some(c);
  }

  /** A character with a two-character escape is read back as itself. */
  lemma LexShortEscapedChar(c: char, tail: string)
    requires c == '"' || c == '\\' || c == 8 as char || c == 12 as char || c == '\n' || c == '\r' || c == '\t'
    ensures LexString(EscapeChar(c) + tail) == Prepend(c, LexString(tail))
  {
    if c == '"' || c == '\\' {
      assert LexEscape([c] + tail) == Some((c, tail)) by { assert ([c] + tail)[1..] == tail; }
      LexShortEscape(c, c, tail);
    } else if c == 8 as char {
      assert LexEscape(['b'] + tail) == Some((c, tail)) by { assert (['b'] + tail)[1..] == tail; }
      LexShortEscape(c, 'b', tail);
    } else if c == 12 as char {
      assert LexEscape(['f'] + tail) == Some((c, tail)) by { assert (['f'] + tail)[1..] == tail; }
      LexShortEscape(c, 'f', tail);
    } else if c == '\n' {
      assert LexEscape(['n'] + tail) == Some((c, tail)) by { assert (['n'] + tail)[1..] == tail; }
      LexShortEscape(c, 'n', tail);
    } else if c == '\r' {
      assert LexEscape(['r'] + tail) == Some((c, tail)) by { assert (['r'] + tail)[1..] == tail; }
      LexShortEscape(c, 'r', tail);
    } else {
      assert LexEscape(['t'] + tail) == Some((c, tail)) by { assert (['t'] + tail)[1..] == tail; }
      LexShortEscape(c, 't', tail);
    }
  }

  /** One character written by `EscapeChar` is read back as that character. */
  lemma LexEscapedChar(c: char, tail: string)
    ensures LexString(EscapeChar(c) + tail) == Prepend(c, LexString(tail))
  {
    if c == '"' || c == '\\' || c == 8 as char || c == 12 as char || c == '\n' || c == '\r' || c == '\t' {
      LexShortEscapedChar(c, tail);
    } else if (c as int) < 0x20 {
      var u := ['u', '0', '0', HexDigit(c as int / 16), HexDigit(c as int % 16)];
      LexUnicodeEscape(c, tail);
      assert EscapeChar(c) + tail == ['\\'] + (u + tail);
      assert (['\\'] + (u + tail))[1..] == u + tail;
    } else {
      LexPlainChar(c, tail);
    }
  }

  /** An escaped body followed by the closing quote is read back as the original string. */
  lemma {:induction false} LexEscapedBody(s: string, rest: string)
    ensures LexString(EscapeBody(s) + ['"'] + rest) == Some((s, rest))
    decreases |s|
  {
    if s == [] {
      assert EscapeBody(s) + ['"'] + rest == ['"'] + rest;
      assert (['"'] + rest)[1..] == rest;
    } else {
      var tail := EscapeBody(s[1..]) + ['"'] + rest;
      assert EscapeBody(s) + ['"'] + rest == EscapeChar(s[0]) + tail;
      LexEscapedBody(s[1..], rest);
      LexEscapedChar(s[0], tail);
      assert [s[0]] + s[1..] == s;
    }
  }

  /** `JSON.parse` reads `JSON.stringify(s)` back as `s`, and stops right after it. */
  lemma QuoteRoundTrip(s: string, rest: string)
    ensures ParseString(Quote(s) + rest) == Some((s, rest))
  {
    var t := Quote(s) + rest;
    assert t[1..] == EscapeBody(s) + ['"'] + rest;
    LexEscapedBody(s, rest);
  }

  // ---- Fixed punctuation ----

  /** The text after `lit`, when `t` starts with it. */
  function Expect(t: string, lit: string): (r: Option<string>)
    ensures r.Some? ==> |r.value| == |t| - |lit|
  {
    if |t| >= |lit| && t[..|lit|] == lit then Some(t[|lit|..]) else None
  }

  lemma ExpectPrefix(lit: string, rest: string)
    ensures Expect(lit + rest, lit) == Some(rest)
  {
    assert (lit + rest)[..|lit|] == lit;
  }

  // ---- Measurement objects ----

  const OriginalKey := "{\"original\":"
  const MetricKey := ",\"metric\":"
  const ImperialKey := ",\"imperial\":"

  /** `JSON.stringify(measurement)`: the three keys in declaration order, no white space. */
  function EncodeMeasurement(m: Measurement): string {
    OriginalKey + Quote(m.original) + MetricKey + Quote(m.metric) + ImperialKey + Quote(m.imperial) + "}"
  }

  /** Reads one `<key>"<string>"` member and the text after it. */
  function ParseMember(t: string, key: string): (r: Option<(string, string)>)
    ensures r.Some? ==> |r.value.1| < |t|
  {
    match Expect(t, key)
    case None => None
    case Some(after) => ParseString(after)
  }

  lemma MemberRoundTrip(key: string, s: string, rest: string)
    ensures ParseMember(key + Quote(s) + rest, key) == Some((s, rest))
  {
    assert key + Quote(s) + rest == key + (Quote(s) + rest);
    ExpectPrefix(key, Quote(s) + rest);
    QuoteRoundTrip(s, rest);
  }

  /** Reads `{"original":…,"metric":…,"imperial":…}` and the text after it. */
  function ParseMeasurement(t: string): (r: Option<(Measurement, string)>)
    ensures r.Some? ==> |r.value.1| < |t|
  {
    match ParseMember(t, OriginalKey)
    case None => None
    case Some((original, t1)) =>
      match ParseMember(t1, MetricKey)
      case None => None
      case Some((metric, t2)) =>
        match ParseMember(t2, ImperialKey)
        case None => None
        case Some((imperial, t3)) =>
          match Expect(t3, "}")
          case None => None
          case Some(t4) => Some((Measurement(original, metric, imperial), t4))
  }

  /** Regroups an encoded object so that each member is followed by the text after it. */
  lemma RegroupMembers(k1: string, a: string, k2: string, b: string, k3: string, c: string, close: string, rest: string)
    ensures k1 + a + k2 + b + k3 + c + close + rest == k1 + a + (k2 + b + (k3 + c + (close + rest)))
  {
  }

  /** `JSON.parse` reads `JSON.stringify(m)` back as `m`, and stops right after it. */
  lemma MeasurementRoundTrip(m: Measurement, rest: string)
    ensures ParseMeasurement(EncodeMeasurement(m) + rest) == Some((m, rest))
  {
    var t3 := "}" + rest;
    var t2 := ImperialKey + Quote(m.imperial) + t3;
    var t1 := MetricKey + Quote(m.metric) + t2;
    RegroupMembers(OriginalKey, Quote(m.original), MetricKey, Quote(m.metric), ImperialKey, Quote(m.imperial), "}", rest);
    MemberRoundTrip(OriginalKey, m.original, t1);
    MemberRoundTrip(MetricKey, m.metric, t2);
    MemberRoundTrip(ImperialKey, m.imperial, t3);
    ExpectPrefix("}", rest);
  }

  // ---- Arrays ----

  /** The elements' texts separated by `,` (no white space). */
  function Items<T>(xs: seq<T>, enc: T -> string): string
    decreases |xs|
  {
    if xs == [] then "" else if |xs| == 1 then enc(xs[0]) else enc(xs[0]) + "," + Items(xs[1..], enc)
  }

  /** `JSON.stringify` of an array whose elements `enc` writes. */
  function EncodeList<T>(xs: seq<T>, enc: T -> string): string {
    "[" + Items(xs, enc) + "]"
  }

  /** An element reader that always consumes some text. */
  ghost predicate Shrinks<T>(p: string -> Option<(T, string)>) {
    forall t :: p(t).Some? ==> |p(t).value.1| < |t|
  }

  /** Reads `x1,x2,…,xn]` and the text after the closing bracket. */
  function ParseItems<T>(t: string, p: string -> Option<(T, string)>): Option<(seq<T>, string)>
    requires Shrinks(p)
    decreases |t|
  {
    match p(t)
    case None => None
    case Some((x, r)) =>
      if |r| > 0 && r[0] == ',' then
        match ParseItems(r[1..], p)
        case None => None
        case Some((xs, rest)) => Some(([x] + xs, rest))
      else if |r| > 0 && r[0] == ']' then Some(([x], r[1..]))
      else None
  }

  /** Reads an array, `[]` included, and the text after it. */
  function ParseList<T>(t: string, p: string -> Option<(T, string)>): Option<(seq<T>, string)>
    requires Shrinks(p)
  {
    if |t| >= 2 && t[0] == '[' && t[1] == ']' then Some(([], t[2..]))
    else if |t| > 0 && t[0] == '[' then ParseItems(t[1..], p)
    else None
  }

  /** `p` reads back whatever `enc` writes, wherever it stops. */
  ghost predicate ReadsBack<T(!new)>(enc: T -> string, p: string -> Option<(T, string)>) {
    forall x, u :: p(enc(x) + u) == Some((x, u))
  }

  /** No element text is empty or starts like the end of an array. */
  ghost predicate NeverCloses<T(!new)>(enc: T -> string) {
    forall x :: |enc(x)| > 0 && enc(x)[0] != ']'
  }

  lemma {:induction false} ItemsRoundTrip<T(!new)>(xs: seq<T>, enc: T -> string, p: string -> Option<(T, string)>, rest: string)
    requires Shrinks(p) && ReadsBack(enc, p) && |xs| > 0
    ensures ParseItems(Items(xs, enc) + "]" + rest, p) == Some((xs, rest))
    decreases |xs|
  {
    var close := "]" + rest;
    if |xs| == 1 {
      assert Items(xs, enc) + "]" + rest == enc(xs[0]) + close;
      assert p(enc(xs[0]) + close) == Some((xs[0], close));
      assert close[0] == ']' && close[1..] == rest;
      assert xs == [xs[0]];
    } else {
      var tail := Items(xs[1..], enc) + "]" + rest;
      var sep := "," + tail;
      assert Items(xs, enc) + "]" + rest == enc(xs[0]) + sep;
      assert p(enc(xs[0]) + sep) == Some((xs[0], sep));
      assert sep[0] == ',' && sep[1..] == tail;
      ItemsRoundTrip(xs[1..], enc, p, rest);
      assert [xs[0]] + xs[1..] == xs;
    }
  }

  /** Reading an encoded array gives back the same elements, in the same order. */
  lemma ListRoundTrip<T(!new)>(xs: seq<T>, enc: T -> string, p: string -> Option<(T, string)>, rest: string)
    requires Shrinks(p) && ReadsBack(enc, p) && NeverCloses(enc)
    ensures ParseList(EncodeList(xs, enc) + rest, p) == Some((xs, rest))
  {
    var t := EncodeList(xs, enc) + rest;
    if xs == [] {
      assert t == "[]" + rest;
      assert t[2..] == rest;
    } else {
      assert t == "[" + (Items(xs, enc) + "]" + rest);
      assert Items(xs, enc)[0] == enc(xs[0])[0];
      assert t[1] == enc(xs[0])[0];
      assert t[1..] == Items(xs, enc) + "]" + rest;
      ItemsRoundTrip(xs, enc, p, rest);
    }
  }

  // ---- Whole column texts ----

  /** `JSON.parse` throws `SyntaxError` on text it cannot read. */
  datatype ParseFailure = SyntaxError

  /** `JSON.parse(t)` with reader `p`: one value that uses up the whole text. */
  function ParseAll<T>(t: string, p: string -> Option<(T, string)>): Result<T, ParseFailure> {
    match p(t)
    case Some((v, rest)) => if rest == [] then Ok(v) else Err(SyntaxError)
    case None => Err(SyntaxError)
  }

  /** `measurement ? JSON.stringify(measurement) : null`. */
  function MeasurementColumn(m: Option<Measurement>): (col: Option<string>)
    ensures col.None? <==> m.None?
  {
    match m
    case None => None
    case Some(v) => Some(EncodeMeasurement(v))
  }

  /** `measurement_json ? JSON.parse(measurement_json) : null`: NULL and `''` read as no measurement. */
  function ReadMeasurementColumn(col: Option<string>): Result<Option<Measurement>, ParseFailure> {
    if col.None? || col.value == "" then Ok(None)
    else
      match ParseAll(col.value, ParseMeasurement)
      case Ok(m) => Ok(Some(m))
      case Err(e) => Err(e)
  }

  /** `xs && xs.length > 0 ? JSON.stringify(xs) : null`: an empty list is stored as NULL. */
  function ListColumn<T>(xs: seq<T>, enc: T -> string): (col: Option<string>)
    ensures col.None? <==> xs == []
  {
    if |xs| > 0 then Some(EncodeList(xs, enc)) else None
  }

  /** `json ? JSON.parse(json) : []`: NULL and `''` read as the empty list. */
  function ReadListColumn<T>(col: Option<string>, p: string -> Option<(T, string)>): Result<seq<T>, ParseFailure>
    requires Shrinks(p)
  {
    if col.None? || col.value == "" then Ok([]) else ParseAll(col.value, (t: string) => ParseList(t, p))
  }

  /** A stored measurement, or its absence, is read back unchanged. */
  lemma MeasurementColumnRoundTrip(m: Option<Measurement>)
    ensures ReadMeasurementColumn(MeasurementColumn(m)) == Ok(m)
  {
    if m.Some? {
      MeasurementRoundTrip(m.value, "");
      assert EncodeMeasurement(m.value) + "" == EncodeMeasurement(m.value);
    }
  }

  /** A stored list is read back unchanged; in particular the empty list goes through NULL. */
  lemma ListColumnRoundTrip<T(!new)>(xs: seq<T>, enc: T -> string, p: string -> Option<(T, string)>)
    requires Shrinks(p) && ReadsBack(enc, p) && NeverCloses(enc)
    ensures ReadListColumn(ListColumn(xs, enc), p) == Ok(xs)
  {
    if xs != [] {
      var text := EncodeList(xs, enc);
      assert |text| > 0;
      ListRoundTrip(xs, enc, p, "");
      assert text + "" == text;
    }
  }

  /** The readers and writers of measurement lists (a step's measurements) fit together. */
  lemma MeasurementListCodec()
    ensures Shrinks(ParseMeasurement) && ReadsBack(EncodeMeasurement, ParseMeasurement) && NeverCloses(EncodeMeasurement)
  {
    forall m: Measurement, u: string
      ensures ParseMeasurement(EncodeMeasurement(m) + u) == Some((m, u))
    {
      MeasurementRoundTrip(m, u);
    }
  }

  /** The readers and writers of string lists (a warning's required protective equipment) fit together. */
  lemma StringListCodec()
    ensures Shrinks(ParseString) && ReadsBack(Quote, ParseString) && NeverCloses(Quote)
  {
    forall s: string, u: string
      ensures ParseString(Quote(s) + u) == Some((s, u))
    {
      QuoteRoundTrip(s, u);
    }
  }
}
