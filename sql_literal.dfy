/**
 * SQL text as the seed-export scripts write it: `escapeSQL` (NULL, or a quoted literal with every
 * `'` doubled), numbers printed raw, and row tuples `(v1, v2, ...)`. Beside each encoder stands the
 * way SQL reads the text back, and lemmas that reading gives back exactly what was written.
 */
module SqlLiteral {
  import opened Wrappers
  import Decimal

  function CountChar(c: char, s: string): nat
    decreases |s|
  {
    if s == [] then 0 else (if s[0] == c then 1 else 0) + CountChar(c, s[1..])
  }

  /** `s.replace(/'/g, "''")`. */
  function DoubleQuotes(s: string): (r: string)
    ensures |r| == |s| + CountChar('\'', s)
    decreases |s|
  {
    if s == [] then [] else (if s[0] == '\'' then "''" else [s[0]]) + DoubleQuotes(s[1..])
  }

  /** `escapeSQL`: the unquoted word NULL for a missing value, else a quote-wrapped literal. */
  function EscapeSql(v: Option<string>): (r: string)
    ensures v.None? ==> r == "NULL"
    ensures v.Some? ==> |r| == |v.value| + 2 + CountChar('\'', v.value) && r[0] == '\'' && r[|r| - 1] == '\''
  {
    match v
    case None => "NULL"
    case Some(s) => "'" + DoubleQuotes(s) + "'"
  }

  // ---- Reading literals back ----

  /** Collapses each `''` to `'`. */
  function CollapseQuotes(t: string): string
    decreases |t|
  {
    if t == [] then []
    else if |t| >= 2 && t[0] == '\'' && t[1] == '\'' then "'" + CollapseQuotes(t[2..])
    else [t[0]] + CollapseQuotes(t[1..])
  }

  lemma {:induction false} CollapseDoubled(s: string)
    ensures CollapseQuotes(DoubleQuotes(s)) == s
    decreases |s|
  {
    if s != [] {
      CollapseDoubled(s[1..]);
      if s[0] == '\'' {
        assert DoubleQuotes(s) == "''" + DoubleQuotes(s[1..]);
      } else {
        var d := DoubleQuotes(s);
        assert d == [s[0]] + DoubleQuotes(s[1..]);
        assert d[1..] == DoubleQuotes(s[1..]);
      }
    }
  }

  /** Stripping the outer quotes of an escaped string and collapsing `''` gives the string back. */
  lemma StripAndCollapse(s: string)
    ensures var e := EscapeSql(Some(s)); CollapseQuotes(e[1..|e| - 1]) == s
  {
    var e := EscapeSql(Some(s));
    assert e[1..|e| - 1] == DoubleQuotes(s);
    CollapseDoubled(s);
  }

  /**
   * How SQL reads the body of a quoted literal (after its opening quote): `''` is one quote,
   * a lone `'` ends the literal. Yields the value and the text after the closing quote.
   */
  function LexQuoted(t: string): Option<(string, string)>
    decreases |t|
  {
    if t == [] then None
    else if t[0] == '\'' then
      if |t| >= 2 && t[1] == '\'' then
        match LexQuoted(t[2..])
        case None => None
        case Some((s, rest)) => Some(("'" + s, rest))
      else Some(([], t[1..]))
    else
      match LexQuoted(t[1..])
      case None => None
      case Some((s, rest)) => Some(([t[0]] + s, rest))
  }

  /** A doubled quote inside a literal reads as one quote. */
  lemma LexQuotedPair(tail: string)
    ensures LexQuoted("''" + tail) ==
      match LexQuoted(tail)
      case None => None
      case Some((s, rest)) => Some(("'" + s, rest))
  {
    var t := "''" + tail;
    assert t[0] == '\'' && t[1] == '\'' && t[2..] == tail;
  }

  /** Any other character inside a literal reads as itself. */
  lemma LexQuotedPlain(c: char, tail: string)
    requires c != '\''
    ensures LexQuoted([c] + tail) ==
      match LexQuoted(tail)
      case None => None
      case Some((s, rest)) => Some(([c] + s, rest))
  {
    var t := [c] + tail;
    assert t[0] == c && t[1..] == tail;
  }

  /** An escaped literal ends exactly where `escapeSQL` ended it, whatever follows (but a quote). */
  lemma LexDoubledQuote(s: string, rest: string)
    requires s != [] && s[0] == '\''
    requires LexQuoted(DoubleQuotes(s[1..]) + "'" + rest) == Some((s[1..], rest))
    ensures LexQuoted(DoubleQuotes(s) + "'" + rest) == Some((s, rest))
  {
    var tail := DoubleQuotes(s[1..]) + "'" + rest;
    assert DoubleQuotes(s) == "''" + DoubleQuotes(s[1..]);
    assert DoubleQuotes(s) + "'" + rest == "''" + tail;
    LexQuotedPair(tail);
    assert "'" + s[1..] == s;
  }

  lemma LexDoubledPlain(s: string, rest: string)
    requires s != [] && s[0] != '\''
    requires LexQuoted(DoubleQuotes(s[1..]) + "'" + rest) == Some((s[1..], rest))
    ensures LexQuoted(DoubleQuotes(s) + "'" + rest) == Some((s, rest))
  {
    var tail := DoubleQuotes(s[1..]) + "'" + rest;
    assert DoubleQuotes(s) == [s[0]] + DoubleQuotes(s[1..]);
    assert DoubleQuotes(s) + "'" + rest == [s[0]] + tail;
    LexQuotedPlain(s[0], tail);
    assert [s[0]] + s[1..] == s;
  }

  /** An escaped literal ends exactly where `escapeSQL` ended it, whatever follows (but a quote). */
  lemma {:induction false} LexDoubled(s: string, rest: string)
    requires rest == [] || rest[0] != '\''
    ensures LexQuoted(DoubleQuotes(s) + "'" + rest) == Some((s, rest))
    decreases |s|
  {
    if s == [] {
      assert DoubleQuotes(s) + "'" + rest == "'" + rest;
    } else {
      LexDoubled(s[1..], rest);
      if s[0] == '\'' {
        LexDoubledQuote(s, rest);
      } else {
        LexDoubledPlain(s, rest);
      }
    }
  }

  // ---- Values: text literals and raw numbers ----

  /** A cell of an emitted row: a text column (through `escapeSQL`) or a number printed raw. */
  datatype SqlValue = Text(text: Option<string>) | Number(n: int)

  function Render(v: SqlValue): string {
    match v
    case Text(t) => EscapeSql(t)
    case Number(n) => Decimal.IntToString(n)
  }

  function DigitRun(t: string): (k: nat)
    ensures k <= |t| && Decimal.AllDigits(t[..k])
    decreases |t|
  {
    if t != [] && Decimal.IsDigit(t[0]) then 1 + DigitRun(t[1..]) else 0
  }

  /** How SQL reads one value token: NULL, a quoted literal, or an optionally negative integer. */
  function LexSqlValue(t: string): Option<(SqlValue, string)> {
    if |t| >= 4 && t[..4] == "NULL" then Some((Text(None), t[4..]))
    else if |t| > 0 && t[0] == '\'' then
      match LexQuoted(t[1..])
      case None => None
      case Some((s, rest)) => Some((Text(Some(s)), rest))
    else LexInteger(t)
  }

  /** An integer token: an optional `-` and at least one digit. */
  function LexInteger(t: string): Option<(SqlValue, string)> {
    var negative := |t| > 0 && t[0] == '-';
    var digits := if negative then t[1..] else t;
    var k := DigitRun(digits);
    if k == 0 then None
    else
      var n: int := Decimal.DigitsValue(digits[..k]);
      Some((Number(if negative then -n else n), digits[k..]))
  }

  /** Text that cannot continue the token before it. */
  predicate Delimits(rest: string) {
    rest == [] || (rest[0] != '\'' && !Decimal.IsDigit(rest[0]))
  }

  lemma {:induction false} DigitRunOfDigits(s: string, rest: string)
    requires Decimal.AllDigits(s) && Delimits(rest)
    ensures DigitRun(s + rest) == |s|
    decreases |s|
  {
    if s != [] {
      assert (s + rest)[1..] == s[1..] + rest;
      DigitRunOfDigits(s[1..], rest);
    } else {
      assert s + rest == rest;
    }
  }

  lemma LexNatText(n: nat, rest: string)
    requires Delimits(rest)
    ensures var t := Decimal.NatToString(n) + rest;
      DigitRun(t) == |Decimal.NatToString(n)| && Decimal.DigitsValue(t[..DigitRun(t)]) == n
      && t[DigitRun(t)..] == rest
  {
    var s := Decimal.NatToString(n);
    DigitRunOfDigits(s, rest);
    assert (s + rest)[..|s|] == s;
    Decimal.NatToStringRoundTrip(n);
  }

  lemma LexNullText(rest: string)
    ensures LexSqlValue("NULL" + rest) == Some((Text(None), rest))
  {
    var t := "NULL" + rest;
    assert t[..4] == "NULL" && t[4..] == rest;
  }

  lemma LexQuotedText(s: string, rest: string)
    requires Delimits(rest)
    ensures LexSqlValue(EscapeSql(Some(s)) + rest) == Some((Text(Some(s)), rest))
  {
    var t := EscapeSql(Some(s)) + rest;
    assert t[0] == '\'';
    NotNullWord(t);
    assert t[1..] == DoubleQuotes(s) + "'" + rest;
    LexDoubled(s, rest);
  }

  /** Text that does not start with `N` is not the NULL keyword. */
  lemma NotNullWord(t: string)
    requires |t| > 0 && t[0] != 'N'
    ensures !(|t| >= 4 && t[..4] == "NULL")
  {
    if |t| >= 4 {
      assert t[..4][0] == t[0];
    }
  }

  lemma LexNaturalText(n: nat, rest: string)
    requires Delimits(rest)
    ensures LexSqlValue(Decimal.NatToString(n) + rest) == Some((Number(n), rest))
  {
    var t := Decimal.NatToString(n) + rest;
    assert Decimal.IsDigit(t[0]);
    NotNullWord(t);
    assert LexInteger(t) == Some((Number(n), rest)) by {
      LexNatText(n, rest);
    }
  }

  lemma LexNegativeText(m: nat, rest: string)
    requires Delimits(rest)
    ensures LexSqlValue("-" + Decimal.NatToString(m) + rest) == Some((Number(-(m as int)), rest))
  {
    var t := "-" + Decimal.NatToString(m) + rest;
    assert t[0] == '-';
    NotNullWord(t);
    assert LexInteger(t) == Some((Number(-(m as int)), rest)) by {
      assert t[1..] == Decimal.NatToString(m) + rest;
      LexNatText(m, rest);
    }
  }

  lemma LexNumberText(n: int, rest: string)
    requires Delimits(rest)
    ensures LexSqlValue(Decimal.IntToString(n) + rest) == Some((Number(n), rest))
  {
    if n < 0 {
      LexNegativeText(-n, rest);
    } else {
      LexNaturalText(n, rest);
    }
  }

  /** Every rendered value is read back as itself, and reading stops where the value ends. */
  lemma LexRender(v: SqlValue, rest: string)
    requires Delimits(rest)
    ensures LexSqlValue(Render(v) + rest) == Some((v, rest))
  {
    match v
    case Text(None) => LexNullText(rest);
    case Text(Some(s)) => LexQuotedText(s, rest);
    case Number(n) => LexNumberText(n, rest);
  }

  // ---- Row tuples ----

  /** `values.join(', ')` of rendered values. */
  function ValueList(vals: seq<SqlValue>): string
    decreases |vals|
  {
    if vals == [] then ""
    else if |vals| == 1 then Render(vals[0])
    else Render(vals[0]) + ", " + ValueList(vals[1..])
  }

  /** `  (v1, v2, ...)`: one row of a multi-row INSERT, without its terminator. */
  function RowText(vals: seq<SqlValue>): string {
    "  (" + ValueList(vals) + ")"
  }

  /** Reads `v1, v2, ..., vn)` and yields the values and the text after the closing parenthesis. */
  function LexValues(t: string): Option<(seq<SqlValue>, string)>
    decreases |t|
  {
    match LexSqlValue(t)
    case None => None
    case Some((v, rest)) =>
      if |rest| >= 2 && rest[..2] == ", " && |rest| <= |t| then
        match LexValues(rest[2..])
        case None => None
        case Some((more, after)) => Some(([v] + more, after))
      else if |rest| >= 1 && rest[0] == ')' then Some(([v], rest[1..]))
      else None
  }

  /** Reads one emitted row line: its values and whatever follows the tuple (the terminator). */
  function ParseRow(line: string): Option<(seq<SqlValue>, string)> {
    if |line| >= 3 && line[..3] == "  (" then LexValues(line[3..]) else None
  }

  lemma RenderNotEmpty(v: SqlValue)
    ensures |Render(v)| > 0
  {
  }

  /** The last value of a tuple is followed by `)`, which ends the tuple. */
  lemma LexLastValue(v: SqlValue, rest: string)
    ensures LexValues(Render(v) + ")" + rest) == Some(([v], rest))
  {
    var close := ")" + rest;
    assert Render(v) + ")" + rest == Render(v) + close;
    LexRender(v, close);
    assert close[0] == ')' && close[1..] == rest;
    assert !(|close| >= 2 && close[..2] == ", ") by {
      if |close| >= 2 { assert close[..2][0] == ')'; }
    }
  }

  /** A value followed by `, ` continues the tuple with whatever the rest of it reads as. */
  lemma LexNextValue(v: SqlValue, tail: string)
    ensures LexValues(Render(v) + ", " + tail) ==
      match LexValues(tail)
      case None => None
      case Some((more, after)) => Some(([v] + more, after))
  {
    var sep := ", " + tail;
    assert Render(v) + ", " + tail == Render(v) + sep;
    LexRender(v, sep);
    RenderNotEmpty(v);
    assert sep[..2] == ", " && sep[2..] == tail;
  }

  lemma {:induction false} LexValueList(vals: seq<SqlValue>, rest: string)
    requires |vals| > 0
    ensures LexValues(ValueList(vals) + ")" + rest) == Some((vals, rest))
    decreases |vals|
  {
    if |vals| == 1 {
      LexLastValue(vals[0], rest);
      assert vals == [vals[0]];
    } else {
      var tail := ValueList(vals[1..]) + ")" + rest;
      assert ValueList(vals) + ")" + rest == Render(vals[0]) + ", " + tail;
      LexNextValue(vals[0], tail);
      LexValueList(vals[1..], rest);
      assert [vals[0]] + vals[1..] == vals;
    }
  }

  /** A row line is read back as exactly the row that was written. */
  lemma ParseRowText(vals: seq<SqlValue>, rest: string)
    requires |vals| > 0
    ensures ParseRow(RowText(vals) + rest) == Some((vals, rest))
  {
    var line := RowText(vals) + rest;
    assert line[3..] == ValueList(vals) + ")" + rest;
    LexValueList(vals, rest);
  }

  // ---- Multi-row blocks and sections ----

  /** The terminator of row `idx` of `n`: `,` between rows, `;` after the last one. */
  function Terminator(idx: nat, n: nat): string {
    if idx < n - 1 then "," else ";"
  }

  /** `rows.map((r, idx) => `(...)${comma}`)`: the value lines of one INSERT. */
  function BlockLines(rows: seq<seq<SqlValue>>): (lines: seq<string>)
    ensures |lines| == |rows|
  {
    seq(|rows|, i requires 0 <= i < |rows| => RowText(rows[i]) + Terminator(i, |rows|))
  }

  /**
   * Line i of a block holds exactly row i; all lines end in `,` except the last, which ends in `;`.
   */
  lemma BlockLinesCarryRows(rows: seq<seq<SqlValue>>)
    requires forall i :: 0 <= i < |rows| ==> |rows[i]| > 0
    ensures forall i :: 0 <= i < |rows| ==>
      ParseRow(BlockLines(rows)[i]) == Some((rows[i], if i == |rows| - 1 then ";" else ","))
  {
    forall i | 0 <= i < |rows|
      ensures ParseRow(BlockLines(rows)[i]) == Some((rows[i], if i == |rows| - 1 then ";" else ","))
    {
      ParseRowText(rows[i], Terminator(i, |rows|));
    }
  }

  /** A commented INSERT section: emitted only when there are rows, then followed by a blank line. */
  function Section(comment: string, header: string, rows: seq<seq<SqlValue>>): (lines: seq<string>)
    ensures rows == [] <==> lines == []
    ensures rows != [] ==> |lines| == |rows| + 3 && lines[0] == comment && lines[1] == header
                           && lines[2..|lines| - 1] == BlockLines(rows) && lines[|lines| - 1] == ""
  {
    if rows == [] then [] else [comment, header] + BlockLines(rows) + [""]
  }

  /** `lines.join(sep)`. */
  function Join(lines: seq<string>, sep: string): string
    decreases |lines|
  {
    if lines == [] then ""
    else if |lines| == 1 then lines[0]
    else lines[0] + sep + Join(lines[1..], sep)
  }

  /**
   * Appends one section the way both seed scripts do when it has rows (comment, INSERT header, value
   * lines, blank line), and nothing otherwise.
   */
  method PushSection(lines: seq<string>, comment: string, header: string, rows: seq<seq<SqlValue>>)
    returns (out: seq<string>)
    ensures out == lines + Section(comment, header, rows)
  {
    if |rows| == 0 {
      assert rows == [];
      out := lines;
    } else {
      out := lines + [comment];
      out := out + [header];
      out := out + BlockLines(rows);
      out := out + [""];
      assert out == lines + ([comment, header] + BlockLines(rows) + [""]);
    }
  }
}
