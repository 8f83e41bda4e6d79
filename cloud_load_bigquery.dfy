/**
 * The cloud function's loader: takes a frame built from API records, sanitises
 * its names, converts the configured date columns, forces the configured
 * string columns to text, rewrites `tags` and `additional_barcodes`, converts
 * the remaining configured numeric columns, and upserts the frame through a
 * temporary table with a schema derived from the converted dtypes.
 */
module CloudLoadBigQuery {
  import opened Wrappers
  import opened Frames
  import opened Columns
  import opened Config
  import opened Warehouse
  import opened Upsert

  // ---------------------------------------------------------------------------
  // pandas conversions
  // ---------------------------------------------------------------------------

  /** What `pd.to_numeric` makes of one value it can parse. */
  datatype Parsed = IntParse(i: int) | FloatParse(text: string)

  /**
   * The value parsers pandas applies: `toDatetime(v)` is the timestamp text
   * `pd.to_datetime` gives `v`, `toNumeric(v)` the number `pd.to_numeric`
   * gives it; None when the value does not parse (`errors="coerce"`).
   */
  datatype Parsers = Parsers(toDatetime: Value -> Option<string>, toNumeric: Value -> Option<Parsed>)

  function DatetimeCell(p: Parsers, v: Value): Value {
    if v == Null then Null
    else match p.toDatetime(v)
      case Some(t) => Timestamp(t)
      case None => Null
  }

  /**
   * `pd.to_datetime(col, errors="coerce")`: a datetime column is returned as
   * it is; otherwise each value is parsed, unparseable ones becoming missing.
   */
  function ToDatetime(p: Parsers, c: Column): Column {
    if c.dtype == Datetime64 then c
    else Column(c.name, Datetime64, seq(|c.values|, i requires 0 <= i < |c.values| => DatetimeCell(p, c.values[i])))
  }

  function NumericCell(p: Parsers, v: Value): Value {
    if v == Null then Null
    else match p.toNumeric(v)
      case Some(IntParse(i)) => Int(i)
      case Some(FloatParse(t)) => Num(t)
      case None => Null
  }

  /** Every value is an integer, and there is one: the integer dtype pandas infers. */
  predicate AllIntegers(values: seq<Value>) {
    |values| > 0 && forall i :: 0 <= i < |values| ==> values[i].Int?
  }

  /**
   * `pd.to_numeric(col, errors="coerce")`: an integer, float or boolean column
   * is returned as it is; otherwise each value is parsed, unparseable ones
   * becoming missing, and the column is Int64 when all values came out
   * integers and Float64 otherwise.
   */
  function ToNumeric(p: Parsers, c: Column): Column {
    if c.dtype == Int64 || c.dtype == Float64 || c.dtype == BoolDtype then c
    else
      var values := seq(|c.values|, i requires 0 <= i < |c.values| => NumericCell(p, c.values[i]));
      Column(c.name, if AllIntegers(values) then Int64 else Float64, values)
  }

  /** Converting dates twice is converting them once. */
  lemma ToDatetimeIdempotent(p: Parsers, c: Column)
    ensures ToDatetime(p, ToDatetime(p, c)) == ToDatetime(p, c)
    ensures ToDatetime(p, c).name == c.name && ToDatetime(p, c).dtype == Datetime64
    ensures |ToDatetime(p, c).values| == |c.values|
  {
  }

  /** Converting numbers twice is converting them once; the result is an integer, float or boolean column. */
  lemma ToNumericIdempotent(p: Parsers, c: Column)
    ensures ToNumeric(p, ToNumeric(p, c)) == ToNumeric(p, c)
    ensures ToNumeric(p, c).name == c.name
    ensures ToNumeric(p, c).dtype in {Int64, Float64, BoolDtype}
  {
  }

  // ---------------------------------------------------------------------------
  // tags and additional_barcodes
  // ---------------------------------------------------------------------------

  /** The text one tag contributes: its str(), or nothing for None. */
  function TagText(x: Value): (r: seq<string>)
    ensures r != [] <==> x != Null
    ensures r != [] ==> r == [PyStr(x)]
  {
    if x == Null then [] else [PyStr(x)]
  }

  /** `[str(tag) for tag in x if tag is not None]`. */
  function TagTexts(items: seq<Value>): (r: seq<string>)
    ensures |r| <= |items|
  {
    if items == [] then [] else TagText(items[0]) + TagTexts(items[1..])
  }

  /**
   * The tag texts of a list are the texts of its items, in order, each tag
   * contributing its TagText.
   */
  lemma {:induction false} TagTextsConcat(a: seq<Value>, b: seq<Value>)
    ensures TagTexts(a + b) == TagTexts(a) + TagTexts(b)
    ensures forall x :: TagTexts([x]) == TagText(x)
  {
    if a == [] {
      assert a + b == b;
    } else {
      assert (a + b)[0] == a[0] && (a + b)[1..] == a[1..] + b;
      calc {
        TagTexts(a + b);
        TagText(a[0]) + TagTexts(a[1..] + b);
        { TagTextsConcat(a[1..], b); }
        TagText(a[0]) + (TagTexts(a[1..]) + TagTexts(b));
        (TagText(a[0]) + TagTexts(a[1..])) + TagTexts(b);
      }
    }
    forall x ensures TagTexts([x]) == TagText(x) {
      assert [x][1..] == [];
    }
  }

  /** The tags rewrite of one cell: a list is joined with ", ", a missing value is "", anything else is str(). */
  function TagsCell(x: Value): (r: Value)
    ensures r.Str?
    ensures x.Str? ==> r == x
    ensures x == Null ==> r == Str("")
    ensures x.List? ==> r == Str(Join(", ", TagTexts(x.items)))
    ensures x != Null && !x.List? ==> r == Str(PyStr(x))
  {
    match x
    case List(items) => Str(Join(", ", TagTexts(items)))
    case Null => Str("")
    case _ => Str(PyStr(x))
  }

  /** `d["value"]` for a Python dict given as its entries. */
  function Lookup(entries: seq<(string, Value)>, key: string): Option<Value> {
    if entries == [] then None
    else if entries[0].0 == key then Some(entries[0].1)
    else Lookup(entries[1..], key)
  }

  /**
   * The text one list item contributes: a dict's "value" entry as str(), when
   * the entry exists and is not None; nothing for anything else.
   */
  function BarcodeText(x: Value): (r: seq<string>)
    ensures r != [] <==> x.Dict? && Lookup(x.entries, "value").Some? && Lookup(x.entries, "value").value != Null
    ensures r != [] ==> r == [PyStr(Lookup(x.entries, "value").value)]
  {
    match x
    case Dict(entries) =>
      (match Lookup(entries, "value")
       case Some(v) => if v == Null then [] else [PyStr(v)]
       case None => [])
    case _ => []
  }

  /** The barcode texts of a list: each dict item's non-None "value", as str(). */
  function BarcodeTexts(items: seq<Value>): (r: seq<string>)
    ensures |r| <= |items|
  {
    if items == [] then [] else BarcodeText(items[0]) + BarcodeTexts(items[1..])
  }

  /**
   * The barcode texts of a list are the texts of its items, in order, each
   * item contributing its BarcodeText.
   */
  lemma {:induction false} BarcodeTextsConcat(a: seq<Value>, b: seq<Value>)
    ensures BarcodeTexts(a + b) == BarcodeTexts(a) + BarcodeTexts(b)
    ensures forall x :: BarcodeTexts([x]) == BarcodeText(x)
  {
    if a == [] {
      assert a + b == b;
    } else {
      assert (a + b)[0] == a[0] && (a + b)[1..] == a[1..] + b;
      calc {
        BarcodeTexts(a + b);
        BarcodeText(a[0]) + BarcodeTexts(a[1..] + b);
        { BarcodeTextsConcat(a[1..], b); }
        BarcodeText(a[0]) + (BarcodeTexts(a[1..]) + BarcodeTexts(b));
        (BarcodeText(a[0]) + BarcodeTexts(a[1..])) + BarcodeTexts(b);
      }
    }
    forall x ensures BarcodeTexts([x]) == BarcodeText(x) {
      assert [x][1..] == [];
    }
  }

  /** `convert_additional_barcodes_cf` on one cell. */
  function BarcodesCell(x: Value): (r: Value)
    ensures r.Str?
    ensures x.Str? ==> r == x
    ensures x == Null ==> r == Str("")
    ensures x.List? ==> r == Str(Join(", ", BarcodeTexts(x.items)))
    ensures x != Null && !x.List? ==> r == Str(PyStr(x))
  {
    match x
    case List(items) => Str(Join(", ", BarcodeTexts(items)))
    case Null => Str("")
    case _ => Str(PyStr(x))
  }

  /** A list of text tags is joined as it is, since str() of a text is the text. */
  lemma {:induction false} TextTagsJoined(items: seq<Value>)
    requires forall i :: 0 <= i < |items| ==> items[i].Str?
    ensures TagTexts(items) == seq(|items|, i requires 0 <= i < |items| => items[i].s)
    ensures TagsCell(List(items)) == Str(Join(", ", seq(|items|, i requires 0 <= i < |items| => items[i].s)))
  {
    if items != [] {
      TextTagsJoined(items[1..]);
      var tail := seq(|items| - 1, i requires 0 <= i < |items| - 1 => items[1..][i].s);
      assert [items[0].s] + tail == seq(|items|, i requires 0 <= i < |items| => items[i].s);
    }
  }

  /** The "value" text of a barcode item, when it is a dict whose "value" is a text. */
  predicate TextBarcode(x: Value) {
    x.Dict? && Lookup(x.entries, "value").Some? && Lookup(x.entries, "value").value.Str?
  }

  /** A list of barcode dicts with text values is joined by those values, in order. */
  lemma {:induction false} TextBarcodesJoined(items: seq<Value>)
    requires forall i :: 0 <= i < |items| ==> TextBarcode(items[i])
    ensures BarcodeTexts(items) == seq(|items|, i requires 0 <= i < |items| && TextBarcode(items[i]) =>
      Lookup(items[i].entries, "value").value.s)
    ensures BarcodesCell(List(items)) == Str(Join(", ", BarcodeTexts(items)))
  {
    if items != [] {
      TextBarcodesJoined(items[1..]);
      var tail := seq(|items| - 1, i requires 0 <= i < |items| - 1 && TextBarcode(items[1..][i]) =>
        Lookup(items[1..][i].entries, "value").value.s);
      assert BarcodeText(items[0]) == [Lookup(items[0].entries, "value").value.s];
      assert [Lookup(items[0].entries, "value").value.s] + tail
        == seq(|items|, i requires 0 <= i < |items| && TextBarcode(items[i]) => Lookup(items[i].entries, "value").value.s);
    }
  }

  function TagsColumn(c: Column): Column {
    Column(c.name, Object, seq(|c.values|, i requires 0 <= i < |c.values| => TagsCell(c.values[i])))
  }

  function BarcodesColumn(c: Column): Column {
    Column(c.name, Object, seq(|c.values|, i requires 0 <= i < |c.values| => BarcodesCell(c.values[i])))
  }

  /**
   * The list branches of the two rewrites never fire on a configured column:
   * the string coercion runs first and has already turned every list into its
   * `str()` text, which both rewrites return unchanged.
   */
  lemma RewritesAfterFillAreIdentity(c: Column)
    ensures TagsColumn(FillString(c)) == FillString(c)
    ensures BarcodesColumn(FillString(c)) == FillString(c)
  {
    var f := FillString(c);
    forall i | 0 <= i < |f.values| ensures TagsCell(f.values[i]) == f.values[i] && BarcodesCell(f.values[i]) == f.values[i] {
      assert f.values[i] == FillStringValue(c.values[i]);
    }
  }

  /**
   * So a tags list reaches the warehouse in Python's list notation, not as the
   * comma-joined text the rewrite would make of it.
   */
  lemma TagsListKeepsListNotation()
    ensures FillStringValue(List([Str("a"), Str("b")])) == Str("['a', 'b']")
    ensures TagsCell(List([Str("a"), Str("b")])) == Str("a, b")
  {
    TwoTagsPrinted();
    TwoTagsJoined();
  }

  lemma TwoTagsPrinted()
    ensures PyStr(List([Str("a"), Str("b")])) == "['a', 'b']"
  {
    var v := List([Str("a"), Str("b")]);
    assert StrRepr("a") == "'a'" by {
      assert ReprQuote("a") == '\'';
      PlainTextUnescaped("a", '\'');
    }
    assert StrRepr("b") == "'b'" by {
      assert ReprQuote("b") == '\'';
      PlainTextUnescaped("b", '\'');
    }
    calc {
      PyStr(v);
      "[" + ReprItems(v, 0) + "]";
      "[" + (PyRepr(Str("a")) + ", " + ReprItems(v, 1)) + "]";
      "[" + (StrRepr("a") + ", " + StrRepr("b")) + "]";
      "['a', 'b']";
    }
  }

  lemma TwoTagsJoined()
    ensures TagsCell(List([Str("a"), Str("b")])) == Str("a, b")
  {
    assert TagTexts([Str("a"), Str("b")]) == ["a", "b"] by {
      assert [Str("a"), Str("b")][1..] == [Str("b")];
      assert TagTexts([Str("b")]) == ["b"];
    }
    assert Join(", ", ["a", "b"]) == "a" + ", " + "b";
    assert "a" + ", " + "b" == "a, b";
  }

  // ---------------------------------------------------------------------------
  // Preparing the frame
  // ---------------------------------------------------------------------------

  /** The configured numeric columns that are neither string nor date columns of the table. */
  function NumericTargets(names: seq<string>, table: string): (r: seq<string>)
    ensures forall n :: n in r <==> n in names && n !in StringColumnsCf(table) && n !in DateColumnsCf(table)
  {
    if names == [] then []
    else
      var keep := names[0] !in StringColumnsCf(table) && names[0] !in DateColumnsCf(table);
      (if keep then [names[0]] else []) + NumericTargets(names[1..], table)
  }

  /** Whether the rewrite of `name` applies: the column is present and configured as a string column. */
  predicate RewriteApplies(df: Frame, table: string, name: string) {
    HasColumn(df, name) && name in StringColumnsCf(table)
  }

  /** The frame after the string coercion and the two rewrites. */
  function Rewritten(df: Frame, table: string): Frame {
    var filled := Transformed(df, NameSet(StringColumnsCf(table)), FillString);
    var tagged := if RewriteApplies(filled, table, "tags") then Transformed(filled, {"tags"}, TagsColumn) else filled;
    if RewriteApplies(tagged, table, "additional_barcodes")
    then Transformed(tagged, {"additional_barcodes"}, BarcodesColumn)
    else tagged
  }

  /** The frame `upload_dataframe_to_bigquery` loads, from the frame it is given. */
  function PreparedCf(df: Frame, table: string, p: Parsers): Frame {
    var dated := Transformed(SanitizeColumns(df), NameSet(DateColumnsCf(table)), c => ToDatetime(p, c));
    Transformed(Rewritten(dated, table), NameSet(NumericTargets(NumericColumnsCf, table)), c => ToNumeric(p, c))
  }

  /** Steps 1 to 5 of `upload_dataframe_to_bigquery`, each column loop run in place. */
  method PrepareFrame(df0: Frame, table: string, p: Parsers) returns (df: Frame)
    ensures df == PreparedCf(df0, table, p)
  {
    df := SanitizeColumns(df0);
    var toDatetime := c => ToDatetime(p, c);
    forall c: Column ensures toDatetime(toDatetime(c)) == toDatetime(c) {
      ToDatetimeIdempotent(p, c);
    }
    df := ReassignColumns(df, DateColumnsCf(table), toDatetime);
    ghost var dated := df;
    forall c: Column ensures FillString(FillString(c)) == FillString(c) {
      FillStringIdempotent(c);
    }
    df := ReassignColumns(df, StringColumnsCf(table), FillString);
    if HasColumn(df, "tags") && "tags" in StringColumnsCf(table) {
      df := Transformed(df, {"tags"}, TagsColumn);
    }
    if HasColumn(df, "additional_barcodes") && "additional_barcodes" in StringColumnsCf(table) {
      df := Transformed(df, {"additional_barcodes"}, BarcodesColumn);
    }
    assert df == Rewritten(dated, table);
    var toNumeric := c => ToNumeric(p, c);
    forall c: Column ensures toNumeric(toNumeric(c)) == toNumeric(c) {
      ToNumericIdempotent(p, c);
    }
    df := ReassignColumns(df, NumericTargets(NumericColumnsCf, table), toNumeric);
  }

  // ---------------------------------------------------------------------------
  // Schema derivation
  // ---------------------------------------------------------------------------

  /**
   * The BigQuery type of one column: configured string columns are STRING,
   * configured date columns TIMESTAMP only when converted to datetime (STRING
   * otherwise), configured numeric columns INTEGER for an integer dtype and
   * FLOAT for anything else; other columns are typed from their dtype.
   */
  function ColumnTypeCf(c: Column, table: string): (r: FieldType)
    ensures r == TIMESTAMP ==> c.dtype == Datetime64
    ensures r == INTEGER ==> c.dtype == Int64
  {
    if c.name in StringColumnsCf(table) then STRING
    else if c.name in DateColumnsCf(table) then (if c.dtype == Datetime64 then TIMESTAMP else STRING)
    else if c.name in NumericColumnsCf then (if c.dtype == Int64 then INTEGER else FLOAT)
    else if c.dtype == Int64 then INTEGER
    else if c.dtype == Float64 then FLOAT
    else if c.dtype == BoolDtype then BOOLEAN
    else if c.dtype == Datetime64 then TIMESTAMP
    else STRING
  }

  /** `build_bq_schema_cf`: one field per column, in the frame's order. */
  function BuildBqSchemaCf(df: Frame, table: string): (schema: seq<SchemaField>)
    ensures |schema| == |df|
    ensures forall i :: 0 <= i < |df| ==> schema[i] == SchemaField(df[i].name, ColumnTypeCf(df[i], table))
  {
    seq(|df|, i requires 0 <= i < |df| => SchemaField(df[i].name, ColumnTypeCf(df[i], table)))
  }

  /**
   * A column no list configures is typed from its dtype alone: integer
   * INTEGER, float FLOAT, boolean BOOLEAN, datetime TIMESTAMP and anything
   * else STRING; its values are never looked at.
   */
  lemma UnconfiguredTypedByDtypeCf(c: Column, table: string)
    requires c.name !in StringColumnsCf(table) && c.name !in DateColumnsCf(table) && c.name !in NumericColumnsCf
    ensures ColumnTypeCf(c, table) == INTEGER <==> c.dtype == Int64
    ensures ColumnTypeCf(c, table) == FLOAT <==> c.dtype == Float64
    ensures ColumnTypeCf(c, table) == BOOLEAN <==> c.dtype == BoolDtype
    ensures ColumnTypeCf(c, table) == TIMESTAMP <==> c.dtype == Datetime64
    ensures ColumnTypeCf(c, table) == STRING <==> c.dtype == Object
  {
  }

  /** A configured numeric column is never typed STRING, whatever its dtype: an ambiguous one is FLOAT. */
  lemma NumericNeverString(c: Column, table: string)
    requires c.name in NumericColumnsCf && c.name !in StringColumnsCf(table) && c.name !in DateColumnsCf(table)
    ensures ColumnTypeCf(c, table) == (if c.dtype == Int64 then INTEGER else FLOAT)
  {
  }

  /** The date conversion's image of a column, as column `i` of the prepared frame starts from it. */
  function DatedColumn(c: Column, table: string, p: Parsers): Column {
    if c.name in DateColumnsCf(table) then ToDatetime(p, c) else c
  }

  /** Column `i` of the prepared frame, from column `i` of the sanitised input alone. */
  lemma PreparedColumn(df: Frame, table: string, p: Parsers, i: nat)
    requires i < |df|
    ensures var c := SanitizeColumns(df)[i];
      var d := DatedColumn(c, table, p);
      && |PreparedCf(df, table, p)| == |df|
      && PreparedCf(df, table, p)[i].name == SanitizeName(df[i].name)
      && PreparedCf(df, table, p)[i] ==
           if c.name in StringColumnsCf(table) then FillString(d)
           else if c.name in NumericTargets(NumericColumnsCf, table) then ToNumeric(p, d)
           else d
  {
    var c := SanitizeColumns(df)[i];
    var dated := Transformed(SanitizeColumns(df), NameSet(DateColumnsCf(table)), c => ToDatetime(p, c));
    assert dated[i] == DatedColumn(c, table, p);
    var filled := Transformed(dated, NameSet(StringColumnsCf(table)), FillString);
    RewrittenColumn(dated, table, i);
    ToDatetimeIdempotent(p, c);
    if c.name in StringColumnsCf(table) {
      assert filled[i] == FillString(dated[i]);
    }
    assert filled[i].name == c.name;
  }

  /** A configured string column of the prepared frame holds text only and is typed STRING. */
  lemma PreparedStringColumn(df: Frame, table: string, p: Parsers, i: nat)
    requires i < |df| && SanitizeColumns(df)[i].name in StringColumnsCf(table)
    ensures var prepared := PreparedCf(df, table, p);
      && |prepared| == |df| && prepared[i].name == SanitizeColumns(df)[i].name
      && prepared[i].dtype == Object && ColumnTypeCf(prepared[i], table) == STRING
      && forall r :: 0 <= r < |prepared[i].values| ==> prepared[i].values[r].Str?
  {
    PreparedColumn(df, table, p, i);
    FillStringNoNulls(DatedColumn(SanitizeColumns(df)[i], table, p));
  }

  /**
   * A configured date column (not also a string column) is typed TIMESTAMP,
   * and when it had to be parsed it holds timestamps or missing values.
   */
  lemma PreparedDateColumn(df: Frame, table: string, p: Parsers, i: nat)
    requires i < |df|
    requires SanitizeColumns(df)[i].name !in StringColumnsCf(table)
    requires SanitizeColumns(df)[i].name in DateColumnsCf(table)
    ensures var prepared := PreparedCf(df, table, p);
      && |prepared| == |df| && prepared[i].name == SanitizeColumns(df)[i].name
      && prepared[i].dtype == Datetime64 && ColumnTypeCf(prepared[i], table) == TIMESTAMP
      && (SanitizeColumns(df)[i].dtype != Datetime64 ==>
            forall r :: 0 <= r < |prepared[i].values| ==> prepared[i].values[r] == Null || prepared[i].values[r].Timestamp?)
  {
    var c := SanitizeColumns(df)[i];
    PreparedColumn(df, table, p, i);
    ToDatetimeIdempotent(p, c);
    var d := DatedColumn(c, table, p);
    assert d == ToDatetime(p, c);
    assert c.name !in NumericTargets(NumericColumnsCf, table);
    var prepared := PreparedCf(df, table, p);
    assert prepared[i] == d;
    if c.dtype != Datetime64 {
      forall r | 0 <= r < |d.values| ensures d.values[r] == Null || d.values[r].Timestamp? {
        assert d.values[r] == DatetimeCell(p, c.values[r]);
      }
    }
  }

  /**
   * A configured numeric column (neither string nor date) is typed INTEGER or
   * FLOAT, and when it had to be parsed it holds numbers or missing values.
   */
  lemma PreparedNumericColumn(df: Frame, table: string, p: Parsers, i: nat)
    requires i < |df|
    requires SanitizeColumns(df)[i].name !in StringColumnsCf(table)
    requires SanitizeColumns(df)[i].name !in DateColumnsCf(table)
    requires SanitizeColumns(df)[i].name in NumericColumnsCf
    ensures var prepared := PreparedCf(df, table, p);
      var c := SanitizeColumns(df)[i];
      && |prepared| == |df| && prepared[i].name == c.name
      && (ColumnTypeCf(prepared[i], table) == INTEGER || ColumnTypeCf(prepared[i], table) == FLOAT)
      && (ColumnTypeCf(prepared[i], table) == INTEGER <==> prepared[i].dtype == Int64)
      && (c.dtype != Int64 && c.dtype != Float64 && c.dtype != BoolDtype ==>
            forall r :: 0 <= r < |prepared[i].values| ==>
              prepared[i].values[r] == Null || prepared[i].values[r].Int? || prepared[i].values[r].Num?)
  {
    var c := SanitizeColumns(df)[i];
    PreparedColumn(df, table, p, i);
    ToNumericIdempotent(p, c);
    assert DatedColumn(c, table, p) == c;
    assert c.name in NumericTargets(NumericColumnsCf, table);
    var prepared := PreparedCf(df, table, p);
    assert prepared[i] == ToNumeric(p, c);
    if c.dtype != Int64 && c.dtype != Float64 && c.dtype != BoolDtype {
      forall r | 0 <= r < |prepared[i].values|
        ensures prepared[i].values[r] == Null || prepared[i].values[r].Int? || prepared[i].values[r].Num?
      {
        assert prepared[i].values[r] == NumericCell(p, c.values[r]);
      }
    }
  }

  /** Any column the configuration does not name passes through preparation untouched. */
  lemma PreparedOtherColumn(df: Frame, table: string, p: Parsers, i: nat)
    requires i < |df|
    requires SanitizeColumns(df)[i].name !in StringColumnsCf(table)
    requires SanitizeColumns(df)[i].name !in DateColumnsCf(table)
    requires SanitizeColumns(df)[i].name !in NumericColumnsCf
    ensures |PreparedCf(df, table, p)| == |df| && PreparedCf(df, table, p)[i] == SanitizeColumns(df)[i]
  {
    PreparedColumn(df, table, p, i);
  }

  /** The two rewrites leave every column as the string coercion made it. */
  lemma RewrittenColumn(dated: Frame, table: string, i: nat)
    requires i < |dated|
    ensures var filled := Transformed(dated, NameSet(StringColumnsCf(table)), FillString);
      |Rewritten(dated, table)| == |dated| && Rewritten(dated, table)[i] == filled[i]
  {
    var filled := Transformed(dated, NameSet(StringColumnsCf(table)), FillString);
    var tagged := if RewriteApplies(filled, table, "tags") then Transformed(filled, {"tags"}, TagsColumn) else filled;
    if filled[i].name == "tags" && RewriteApplies(filled, table, "tags") {
      assert filled[i] == FillString(dated[i]);
      RewritesAfterFillAreIdentity(dated[i]);
    }
    assert tagged[i] == filled[i];
    if tagged[i].name == "additional_barcodes" && RewriteApplies(tagged, table, "additional_barcodes") {
      assert filled[i] == FillString(dated[i]);
      RewritesAfterFillAreIdentity(dated[i]);
    }
  }

  // ---------------------------------------------------------------------------
  // Upload
  // ---------------------------------------------------------------------------

  /** The whole effect of `upload_dataframe_to_bigquery` on the warehouse. */
  function UploadEffectCf(tables: map<string, Table>, dataset: string, df: Frame, table: string,
                          idColumn: string, p: Parsers, faults: Faults): Upserted
  {
    var id := SanitizeName(idColumn);
    var prepared := PreparedCf(df, table, p);
    if !HasColumn(prepared, id) then Upserted(tables, [], Err(MissingIdColumn(id)))
    else StageAndMergeEffect(tables,
                             BuildMerge(FinalTableId(dataset, table), TempTableId(dataset, table), Names(prepared), id),
                             BuildBqSchemaCf(prepared, table), FrameRows(prepared), CloudFunctionLayout, faults)
  }

  /**
   * `upload_dataframe_to_bigquery`: prepare the frame, check the sanitised id
   * column (raising before any warehouse call), derive the schema and run the
   * staging protocol with the cloud function's statement layout.
   */
  method UploadDataFrameToBigQuery(wh: Client, dataset: string, df0: Frame, table: string, idColumn: string,
                                   p: Parsers, faults: Faults)
    returns (r: Result<(), UploadError>)
    modifies wh
    ensures var e := UploadEffectCf(old(wh.tables), dataset, df0, table, idColumn, p, faults);
      wh.tables == e.tables && wh.calls == old(wh.calls) + e.calls && r == e.result
  {
    var df := PrepareFrame(df0, table, p);
    var id := SanitizeName(idColumn);
    if !HasColumn(df, id) {
      return Err(MissingIdColumn(id));
    }
    var schema := BuildBqSchemaCf(df, table);
    TempIsNotFinal(dataset, table);
    var m := BuildMerge(FinalTableId(dataset, table), TempTableId(dataset, table), Names(df), id);
    r := StageAndMerge(wh, m, schema, FrameRows(df), CloudFunctionLayout, faults);
  }

  /**
   * The id column is looked up under its sanitised name, so a dotted id that
   * names a column of the input is always found.
   */
  lemma SanitizedIdFound(df: Frame, table: string, idColumn: string, p: Parsers)
    requires HasColumn(df, idColumn)
    ensures HasColumn(PreparedCf(df, table, p), SanitizeName(idColumn))
  {
    var k :| 0 <= k < |df| && df[k].name == idColumn;
    PreparedColumn(df, table, p, k);
    assert Names(PreparedCf(df, table, p))[k] == SanitizeName(idColumn);
  }

  /** An upload creates, drops or changes no table but the final and the temporary one of its table. */
  lemma UploadTouchesOnlyItsTables(tables: map<string, Table>, dataset: string, df: Frame, table: string,
                                   idColumn: string, p: Parsers, faults: Faults, other: string)
    requires other != FinalTableId(dataset, table) && other != TempTableId(dataset, table)
    ensures var e := UploadEffectCf(tables, dataset, df, table, idColumn, p, faults);
      (other in e.tables <==> other in tables) && (other in tables ==> e.tables[other] == tables[other])
  {
    var prepared := PreparedCf(df, table, p);
    var id := SanitizeName(idColumn);
    if HasColumn(prepared, id) {
      var m := BuildMerge(FinalTableId(dataset, table), TempTableId(dataset, table), Names(prepared), id);
      OtherTablesUntouched(tables, m, BuildBqSchemaCf(prepared, table), FrameRows(prepared),
                           CloudFunctionLayout, faults, other);
    }
  }
}
