/**
 * The tabular data model shared by both loaders and the consolidation step:
 * cell values as pandas holds them, column dtypes, columns and frames, rows,
 * Python's str() of a cell, and the column-name sanitising both loaders do.
 */
module Frames {
  import opened Wrappers

  /** A cell. Floats and timestamps are opaque: only their printed form is kept. */
  datatype Value =
    | Null                                 // None, NaN or NaT: what pandas calls missing
    | Str(s: string)
    | Int(i: int)
    | Num(text: string)                    // a float; `text` is what str() prints
    | Bool(b: bool)
    | Timestamp(text: string)              // a pandas Timestamp; `text` is what str() prints
    | List(items: seq<Value>)              // a JSON array
    | Dict(entries: seq<(string, Value)>)  // a JSON object, keys in insertion order

  /** The dtypes the schema builders look at. */
  datatype Dtype = Int64 | Float64 | BoolDtype | Datetime64 | Object

  datatype Column = Column(name: string, dtype: Dtype, values: seq<Value>)

  /** A DataFrame, column by column, in column order. */
  type Frame = seq<Column>

  /** One row of a table: column name to cell. */
  type Row = map<string, Value>

  /** Files the extractors write: path to the records saved in the file. */
  type Files = map<string, seq<Value>>

  function Names(df: Frame): (r: seq<string>)
    ensures |r| == |df|
    ensures forall i :: 0 <= i < |df| ==> r[i] == df[i].name
  {
    seq(|df|, i requires 0 <= i < |df| => df[i].name)
  }

  predicate HasColumn(df: Frame, name: string) {
    name in Names(df)
  }

  /** A cell of a row; a column the row lacks reads as missing. */
  function Get(row: Row, c: string): Value {
    if c in row then row[c] else Null
  }

  /** The number of rows: the length of the first column (pandas keeps columns equally long). */
  function NRows(df: Frame): nat {
    if df == [] then 0 else |df[0].values|
  }

  function Cell(col: Column, r: nat): Value {
    if r < |col.values| then col.values[r] else Null
  }

  /** Row r of a frame, keyed by column name. */
  function RowAt(df: Frame, r: nat): (row: Row)
    ensures row.Keys == set c | c in Names(df)
  {
    if df == [] then map[]
    else
      var init := df[..|df| - 1];
      assert Names(df) == Names(init) + [df[|df| - 1].name];
      RowAt(init, r)[df[|df| - 1].name := Cell(df[|df| - 1], r)]
  }

  /** The rows a frame loads into a table, in order. */
  function FrameRows(df: Frame): (rows: seq<Row>)
    ensures |rows| == NRows(df)
    ensures forall i :: 0 <= i < |rows| ==> rows[i].Keys == set c | c in Names(df)
  {
    seq(NRows(df), r requires 0 <= r < NRows(df) => RowAt(df, r))
  }

  // ---------------------------------------------------------------------------
  // Column-name sanitising (the same in both loaders)
  // ---------------------------------------------------------------------------

  /** `name.replace(".", "_")`. */
  function SanitizeName(s: string): (r: string)
    ensures |r| == |s|
    ensures forall i :: 0 <= i < |s| ==> r[i] == (if s[i] == '.' then '_' else s[i])
  {
    if s == [] then [] else [if s[0] == '.' then '_' else s[0]] + SanitizeName(s[1..])
  }

  /** A sanitised name has no dot left, and sanitising it again changes nothing. */
  lemma SanitizeNameNormalises(s: string)
    ensures '.' !in SanitizeName(s)
    ensures SanitizeName(SanitizeName(s)) == SanitizeName(s)
  {
    var r := SanitizeName(s);
    assert forall i :: 0 <= i < |r| ==> r[i] != '.';
  }

  /** Replaces every column name by its sanitised form; cells, dtypes and order stay. */
  function SanitizeColumns(df: Frame): (r: Frame)
    ensures |r| == |df|
    ensures forall i :: 0 <= i < |df| ==>
      r[i].name == SanitizeName(df[i].name) && r[i].dtype == df[i].dtype && r[i].values == df[i].values
  {
    if df == [] then [] else [df[0].(name := SanitizeName(df[0].name))] + SanitizeColumns(df[1..])
  }

  /**
   * The id column argument is sanitised the same way as the column names, so an
   * id given in dotted form still finds its column after sanitising.
   */
  lemma SanitizedIdStillMatches(df: Frame, id: string)
    requires HasColumn(df, id)
    ensures HasColumn(SanitizeColumns(df), SanitizeName(id))
  {
    var i :| 0 <= i < |df| && Names(df)[i] == id;
    assert Names(SanitizeColumns(df))[i] == SanitizeName(id);
  }

  // ---------------------------------------------------------------------------
  // Python's str() and repr() of a cell
  // ---------------------------------------------------------------------------

  function Digit(d: nat): char
    requires d < 10
  {
    "0123456789"[d]
  }

  function NatDecimal(n: nat): (r: string)
    ensures |r| >= 1
    decreases n
  {
    if n < 10 then [Digit(n)] else NatDecimal(n / 10) + [Digit(n % 10)]
  }

  function Decimal(n: int): string {
    if n < 0 then "-" + NatDecimal(-n) else NatDecimal(n)
  }

  /** `sep.join(parts)`. */
  function Join(sep: string, parts: seq<string>): string
  {
    if |parts| == 0 then "" else if |parts| == 1 then parts[0] else parts[0] + sep + Join(sep, parts[1..])
  }

  /** `str(v)`. Strings print bare; inside a list or dict their repr is quoted. */
  function PyStr(v: Value): string
    decreases v, 1
  {
    match v
    case Null => "None"
    case Str(s) => s
    case Int(i) => Decimal(i)
    case Num(t) => t
    case Bool(b) => if b then "True" else "False"
    case Timestamp(t) => t
    case List(items) => "[" + ReprItems(v, 0) + "]"
    case Dict(entries) => "{" + ReprEntries(v, 0) + "}"
  }

  /** `repr(v)`, as str() of a container prints its elements. */
  function PyRepr(v: Value): string
    decreases v, 2
  {
    match v
    case Str(s) => StrRepr(s)
    case Timestamp(t) => "Timestamp('" + t + "')"
    case _ => PyStr(v)
  }

  /** The ", "-separated reprs of the items of a list from position k on. */
  function ReprItems(v: Value, k: nat): string
    requires v.List?
    decreases v, 0, |v.items| - k
  {
    if k >= |v.items| then ""
    else if k == |v.items| - 1 then PyRepr(v.items[k])
    else PyRepr(v.items[k]) + ", " + ReprItems(v, k + 1)
  }

  /** The ", "-separated `'key': repr` pairs of a dict from position k on. */
  function ReprEntries(v: Value, k: nat): string
    requires v.Dict?
    decreases v, 0, |v.entries| - k
  {
    if k >= |v.entries| then ""
    else
      var pair := StrRepr(v.entries[k].0) + ": " + PyRepr(v.entries[k].1);
      if k == |v.entries| - 1 then pair else pair + ", " + ReprEntries(v, k + 1)
  }

  // ---------------------------------------------------------------------------
  // Python's repr() of a text: the quote it picks and the escapes it writes
  // ---------------------------------------------------------------------------

  /** repr() quotes a text in double quotes when it holds a single quote and no double one. */
  function ReprQuote(s: string): char {
    if '\'' in s && '"' !in s then '"' else '\''
  }

  /**
   * The characters repr() writes as `\xhh`: the C0 controls other than tab,
   * newline and return, DEL, and the Latin-1 characters Unicode does not call
   * printable (the C1 controls, the no-break space and the soft hyphen).
   */
  predicate HexEscaped(c: char) {
    c != '\t' && c != '\n' && c != '\r' &&
    (c as int < 32 || 127 <= c as int <= 160 || c as int == 173)
  }

  /** A character repr() writes as it is inside a literal quoted with `q`. */
  predicate Plain(c: char, q: char) {
    c != q && c != '\\' && c != '\t' && c != '\n' && c != '\r' && !HexEscaped(c)
  }

  function HexDigit(d: nat): char
    requires d < 16
  {
    "0123456789abcdef"[d]
  }

  /** How repr() writes one character inside a literal quoted with `q`. */
  function EscapeChar(c: char, q: char): (r: string)
    ensures Plain(c, q) <==> r == [c]
  {
    if c == q || c == '\\' then ['\\', c]
    else if c == '\t' then "\\t"
    else if c == '\n' then "\\n"
    else if c == '\r' then "\\r"
    else if HexEscaped(c) then ['\\', 'x', HexDigit(c as int / 16), HexDigit(c as int % 16)]
    else [c]
  }

  function EscapeText(s: string, q: char): string {
    if s == [] then "" else EscapeChar(s[0], q) + EscapeText(s[1..], q)
  }

  /** `repr(s)` of a text. */
  function StrRepr(s: string): (r: string)
    ensures |r| >= 2 && r[0] == ReprQuote(s) && r[|r| - 1] == ReprQuote(s)
  {
    var q := ReprQuote(s);
    [q] + EscapeText(s, q) + [q]
  }

  /** A text of plain characters is written as it is between the quotes. */
  lemma {:induction false} PlainTextUnescaped(s: string, q: char)
    requires forall i :: 0 <= i < |s| ==> Plain(s[i], q)
    ensures EscapeText(s, q) == s
  {
    if s != [] {
      PlainTextUnescaped(s[1..], q);
      assert [s[0]] + s[1..] == s;
    }
  }

  // Reading a repr() back: the partner that shows nothing is lost in the quoting.

  function HexValue(c: char): (r: Option<nat>)
    ensures r.Some? ==> r.value < 16
  {
    if '0' <= c <= '9' then Some(c as int - '0' as int)
    else if 'a' <= c <= 'f' then Some(c as int - 'a' as int + 10)
    else None
  }

  function Prepend(c: char, rest: Option<string>): Option<string> {
    if rest.Some? then Some([c] + rest.value) else None
  }

  /** The text an escaped literal body quoted with `q` stands for; None on a bare quote or an unknown escape. */
  function Unescape(t: string, q: char): Option<string>
    decreases |t|
  {
    if t == [] then Some("")
    else if t[0] == q then None
    else if t[0] != '\\' then Prepend(t[0], Unescape(t[1..], q))
    else if |t| < 2 then None
    else if t[1] == '\\' || t[1] == q then Prepend(t[1], Unescape(t[2..], q))
    else if t[1] == 't' then Prepend('\t', Unescape(t[2..], q))
    else if t[1] == 'n' then Prepend('\n', Unescape(t[2..], q))
    else if t[1] == 'r' then Prepend('\r', Unescape(t[2..], q))
    else if t[1] == 'x' && |t| >= 4 && HexValue(t[2]).Some? && HexValue(t[3]).Some? then
      Prepend((HexValue(t[2]).value * 16 + HexValue(t[3]).value) as char, Unescape(t[4..], q))
    else None
  }

  /** The text a quoted literal stands for, or None when it is not one. */
  function UnRepr(r: string): Option<string> {
    if |r| >= 2 && (r[0] == '\'' || r[0] == '"') && r[|r| - 1] == r[0] then Unescape(r[1..|r| - 1], r[0])
    else None
  }

  lemma HexDigitValue(d: nat)
    requires d < 16
    ensures HexValue(HexDigit(d)) == Some(d)
  {
  }

  /** Reading back one escaped character gives that character. */
  lemma UnescapeChar(c: char, q: char, rest: string)
    requires q == '\'' || q == '"'
    ensures Unescape(EscapeChar(c, q) + rest, q) == Prepend(c, Unescape(rest, q))
  {
    var t := EscapeChar(c, q) + rest;
    if c == q || c == '\\' {
      assert t[..2] == ['\\', c] && t[2..] == rest;
    } else if c == '\t' || c == '\n' || c == '\r' {
      assert t[0] == '\\' && t[2..] == rest;
    } else if HexEscaped(c) {
      UnescapeHex(c, q, rest);
    } else {
      assert t[0] == c && t[1..] == rest;
    }
  }

  lemma UnescapeHex(c: char, q: char, rest: string)
    requires q == '\'' || q == '"'
    requires HexEscaped(c)
    ensures Unescape(['\\', 'x', HexDigit(c as int / 16), HexDigit(c as int % 16)] + rest, q) == Prepend(c, Unescape(rest, q))
  {
    var t := ['\\', 'x', HexDigit(c as int / 16), HexDigit(c as int % 16)] + rest;
    HexDigitValue(c as int / 16);
    HexDigitValue(c as int % 16);
    assert t[2] == HexDigit(c as int / 16) && t[3] == HexDigit(c as int % 16);
    assert (HexValue(t[2]).value * 16 + HexValue(t[3]).value) as char == c;
    assert t[4..] == rest;
  }

  /** Reading back an escaped text gives the text. */
  lemma {:induction false} UnescapeText(s: string, q: char)
    requires q == '\'' || q == '"'
    ensures Unescape(EscapeText(s, q), q) == Some(s)
  {
    if s != [] {
      var rest := EscapeText(s[1..], q);
      calc {
        Unescape(EscapeText(s, q), q);
        Unescape(EscapeChar(s[0], q) + rest, q);
        { UnescapeChar(s[0], q, rest); }
        Prepend(s[0], Unescape(rest, q));
        { UnescapeText(s[1..], q); }
        Prepend(s[0], Some(s[1..]));
        { assert [s[0]] + s[1..] == s; }
        Some(s);
      }
    }
  }

  /** repr() loses nothing: the quoted literal reads back as the text it was made from. */
  lemma ReprRoundTrip(s: string)
    ensures UnRepr(StrRepr(s)) == Some(s)
  {
    var q := ReprQuote(s);
    var r := StrRepr(s);
    assert r[1..|r| - 1] == EscapeText(s, q);
    UnescapeText(s, q);
  }

  /**
   * A text with a single quote and no double one is written in double quotes
   * with the single quote as it is: a tag "kid's" in a list prints as
   * `["kid's"]`, not `['kid's']`.
   */
  lemma ApostropheInList(s: string)
    requires '\'' in s
    requires forall i :: 0 <= i < |s| ==> Plain(s[i], '"')
    ensures PyStr(List([Str(s)])) == "[\"" + s + "\"]"
  {
    assert '"' !in s by {
      forall i | 0 <= i < |s| ensures s[i] != '"' {
        assert Plain(s[i], '"');
      }
    }
    assert ReprQuote(s) == '"';
    var v := List([Str(s)]);
    calc {
      PyStr(v);
      "[" + ReprItems(v, 0) + "]";
      "[" + StrRepr(s) + "]";
      "[" + (['"'] + EscapeText(s, '"') + ['"']) + "]";
      { PlainTextUnescaped(s, '"'); }
      "[" + (['"'] + s + ['"']) + "]";
      "[\"" + s + "\"]";
    }
  }
}

/**
 * Column reassignment as both loaders do it: `df[name] = f(df[name])` for each
 * configured name present in the frame, and the `fillna("").astype(str)`
 * coercion of configured string columns.
 */
module Columns {
  import opened Frames

  /** `fillna("").astype(str)` on one cell. */
  function FillStringValue(v: Value): Value {
    if v == Null then Str("") else Str(PyStr(v))
  }

  /** `fillna("").astype(str)` on a column: an object column of strings. */
  function FillString(c: Column): Column {
    Column(c.name, Object, seq(|c.values|, i requires 0 <= i < |c.values| => FillStringValue(c.values[i])))
  }

  /** A filled string column holds strings only, missing cells as "", the rest as str() prints them. */
  lemma FillStringNoNulls(c: Column)
    ensures FillString(c).name == c.name && FillString(c).dtype == Object
    ensures |FillString(c).values| == |c.values|
    ensures forall i :: 0 <= i < |c.values| ==>
      && FillString(c).values[i].Str?
      && (c.values[i] == Null ==> FillString(c).values[i] == Str(""))
      && (c.values[i] != Null ==> FillString(c).values[i] == Str(PyStr(c.values[i])))
  {
  }

  /** Filling an already filled column changes nothing. */
  lemma FillStringIdempotent(c: Column)
    ensures FillString(FillString(c)) == FillString(c)
  {
    var once := FillString(c);
    assert forall i :: 0 <= i < |once.values| ==> FillStringValue(once.values[i]) == once.values[i];
  }

  /** The names a configuration list mentions. */
  function NameSet(names: seq<string>): (r: set<string>)
    ensures forall n :: n in r <==> n in names
  {
    set n | n in names
  }

  /** The frame after `f` is applied to every column whose name is in `names`. */
  function Transformed(df: Frame, names: set<string>, f: Column -> Column): (r: Frame)
    ensures |r| == |df|
  {
    seq(|df|, i requires 0 <= i < |df| => if df[i].name in names then f(df[i]) else df[i])
  }

  lemma {:induction false} TransformedStep(df: Frame, done: set<string>, n: string, f: Column -> Column)
    requires forall c :: f(c).name == c.name
    requires forall c :: f(f(c)) == f(c)
    ensures Transformed(Transformed(df, done, f), {n}, f) == Transformed(df, done + {n}, f)
  {
    var once := Transformed(df, done, f);
    forall i | 0 <= i < |df|
      ensures Transformed(once, {n}, f)[i] == Transformed(df, done + {n}, f)[i]
    {
      assert once[i].name == df[i].name;
    }
  }

  /**
   * `for name in names: if name in df.columns: df[name] = f(df[name])`, for an `f`
   * that keeps the name and is idempotent (so a name listed twice does no harm):
   * every column named in `names` is replaced by its image, every other column stays.
   */
  method ReassignColumns(df: Frame, names: seq<string>, f: Column -> Column) returns (r: Frame)
    requires forall c :: f(c).name == c.name
    requires forall c :: f(f(c)) == f(c)
    ensures r == Transformed(df, NameSet(names), f)
    ensures Names(r) == Names(df)
  {
    r := df;
    assert Transformed(df, {}, f) == df;
    for k := 0 to |names|
      invariant r == Transformed(df, NameSet(names[..k]), f)
    {
      if HasColumn(r, names[k]) {
        TransformedStep(df, NameSet(names[..k]), names[k], f);
        r := Transformed(r, {names[k]}, f);
      } else {
        assert forall i :: 0 <= i < |r| ==> r[i].name != names[k];
        assert Transformed(r, {names[k]}, f) == r;
        TransformedStep(df, NameSet(names[..k]), names[k], f);
      }
      assert NameSet(names[..k + 1]) == NameSet(names[..k]) + {names[k]};
    }
    assert names[..|names|] == names;
  }

  /** `df.rename(columns={oldName: newName})`: every column called `oldName` is called `newName`. */
  function Renamed(df: Frame, oldName: string, newName: string): (r: Frame)
    ensures |r| == |df|
    ensures forall i :: 0 <= i < |r| ==> r[i].dtype == df[i].dtype && r[i].values == df[i].values
  {
    seq(|df|, i requires 0 <= i < |df| => if df[i].name == oldName then df[i].(name := newName) else df[i])
  }

  /**
   * After the rename the new name is present exactly when the old or the new
   * one was, the old name is gone, and every other name is where it was.
   */
  lemma RenamedColumns(df: Frame, oldName: string, newName: string)
    requires oldName != newName
    ensures var r := Renamed(df, oldName, newName);
      && (HasColumn(r, newName) <==> HasColumn(df, oldName) || HasColumn(df, newName))
      && !HasColumn(r, oldName)
      && forall i :: 0 <= i < |df| && df[i].name != oldName ==> Names(r)[i] == Names(df)[i]
  {
    var r := Renamed(df, oldName, newName);
    if HasColumn(df, oldName) {
      var k :| 0 <= k < |df| && Names(df)[k] == oldName;
      assert Names(r)[k] == newName;
    }
    if HasColumn(df, newName) {
      var k :| 0 <= k < |df| && Names(df)[k] == newName;
      assert Names(r)[k] == newName;
    }
    if HasColumn(r, newName) {
      var k :| 0 <= k < |r| && Names(r)[k] == newName;
      assert Names(df)[k] == oldName || Names(df)[k] == newName;
    }
  }
}
