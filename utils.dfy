/** Helpers of the reporter that are not file I/O or random data: column-name
    cleaning, integer formatting with thousands separators, the frame
    validation report and the per-dtype column inventory. */
module Utils {
  import opened Wrappers
  import opened Strings
  import opened Frames

  // ---------------------------------------------------------------------
  // clean_column_names
  // ---------------------------------------------------------------------

  /** Characters the regular expression `[^A-Za-z0-9_]` keeps. */
  predicate IsWordChar(c: char) { IsLetter(c) || IsDigit(c) || c == '_' }

  /** Characters a cleaned name is made of: `a-z`, `0-9` and `_`. */
  predicate IsCleanChar(c: char) { IsLower(c) || IsDigit(c) || c == '_' }

  /** `str.replace(' ', '_')`. */
  function ReplaceSpaces(s: string): (r: string)
    ensures |r| == |s|
    ensures forall i :: 0 <= i < |s| ==> r[i] == (if s[i] == ' ' then '_' else s[i])
  {
    if s == [] then [] else [if s[0] == ' ' then '_' else s[0]] + ReplaceSpaces(s[1..])
  }

  /** `str.replace('[^A-Za-z0-9_]', '', regex=True)`. */
  function KeepWordChars(s: string): (r: string)
    ensures |r| <= |s|
    ensures forall i :: 0 <= i < |r| ==> IsWordChar(r[i])
  {
    if s == [] then [] else (if IsWordChar(s[0]) then [s[0]] else []) + KeepWordChars(s[1..])
  }

  /** One column name as `clean_column_names` rewrites it: spaces become
      underscores, other characters outside `[A-Za-z0-9_]` are dropped and
      the rest is lower-cased. */
  function CleanName(s: string): string {
    Lower(KeepWordChars(ReplaceSpaces(s)))
  }

  lemma {:induction false} ReplaceSpacesAppend(a: string, b: string)
    ensures ReplaceSpaces(a + b) == ReplaceSpaces(a) + ReplaceSpaces(b)
  {
    assert |ReplaceSpaces(a + b)| == |ReplaceSpaces(a) + ReplaceSpaces(b)|;
    forall i | 0 <= i < |a + b| ensures ReplaceSpaces(a + b)[i] == (ReplaceSpaces(a) + ReplaceSpaces(b))[i] {
      if i < |a| { assert (a + b)[i] == a[i]; } else { assert (a + b)[i] == b[i - |a|]; }
    }
  }

  lemma {:induction false} KeepWordCharsAppend(a: string, b: string)
    ensures KeepWordChars(a + b) == KeepWordChars(a) + KeepWordChars(b)
  {
    if a == [] {
      assert a + b == b;
    } else {
      assert (a + b)[1..] == a[1..] + b;
      KeepWordCharsAppend(a[1..], b);
    }
  }

  /** Cleaning works character by character and so distributes over
      concatenation. */
  lemma CleanNameAppend(a: string, b: string)
    ensures CleanName(a + b) == CleanName(a) + CleanName(b)
  {
    ReplaceSpacesAppend(a, b);
    KeepWordCharsAppend(ReplaceSpaces(a), ReplaceSpaces(b));
    LowerAppend(KeepWordChars(ReplaceSpaces(a)), KeepWordChars(ReplaceSpaces(b)));
  }

  /** What a single character becomes. */
  lemma CleanNameChar(c: char)
    ensures CleanName([c]) == (if c == ' ' then "_" else if IsWordChar(c) then [LowerChar(c)] else "")
  {
    assert ReplaceSpaces([c]) == [if c == ' ' then '_' else c];
    assert KeepWordChars([if c == ' ' then '_' else c]) == (if IsWordChar(if c == ' ' then '_' else c) then [if c == ' ' then '_' else c] else []) by {
      assert [if c == ' ' then '_' else c][1..] == [];
    }
  }

  /** A cleaned name holds only `a-z`, `0-9` and `_`, and is no longer than
      the original. */
  lemma {:induction false} CleanNameShape(s: string)
    ensures |CleanName(s)| <= |s|
    ensures forall i :: 0 <= i < |CleanName(s)| ==> IsCleanChar(CleanName(s)[i])
  {
    var k := KeepWordChars(ReplaceSpaces(s));
    forall i | 0 <= i < |k| ensures IsCleanChar(LowerChar(k[i])) {
      assert IsWordChar(k[i]);
    }
  }

  /** Each of the three rewriting steps leaves a clean name as it is. */
  lemma {:induction false} CleanNameFixes(s: string)
    requires forall i :: 0 <= i < |s| ==> IsCleanChar(s[i])
    ensures CleanName(s) == s
  {
    if s != [] {
      CleanNameFixes(s[1..]);
      assert s == [s[0]] + s[1..];
      CleanNameAppend([s[0]], s[1..]);
      CleanNameChar(s[0]);
    }
  }

  /** Cleaning twice is cleaning once. */
  lemma CleanNameIdempotent(s: string)
    ensures CleanName(CleanName(s)) == CleanName(s)
  {
    CleanNameShape(s);
    CleanNameFixes(CleanName(s));
  }

  /** `clean_column_names(df)`: a copy of the frame whose column names are
      cleaned; the number, order, dtypes and cells of the columns are kept. */
  function CleanColumnNames(t: Table): (r: Table)
    ensures r.rows == t.rows && |r.columns| == |t.columns|
    ensures forall i :: 0 <= i < |t.columns| ==>
      r.columns[i] == t.columns[i].(name := CleanName(t.columns[i].name))
  {
    Table(CleanColumns(t.columns), t.rows)
  }

  function CleanColumns(cols: seq<Column>): (r: seq<Column>)
    ensures |r| == |cols|
    ensures forall i :: 0 <= i < |cols| ==> r[i] == cols[i].(name := CleanName(cols[i].name))
  {
    if cols == [] then [] else [cols[0].(name := CleanName(cols[0].name))] + CleanColumns(cols[1..])
  }

  /** Cleaning the names of a cleaned frame changes nothing. */
  lemma CleanColumnNamesIdempotent(t: Table)
    ensures CleanColumnNames(CleanColumnNames(t)) == CleanColumnNames(t)
  {
    var once := CleanColumnNames(t);
    var twice := CleanColumnNames(once);
    forall i | 0 <= i < |t.columns| ensures twice.columns[i] == once.columns[i] {
      CleanNameIdempotent(t.columns[i].name);
    }
    assert twice.columns == once.columns;
  }

  // ---------------------------------------------------------------------
  // format_number, integer branch: f"{value:,}"
  // ---------------------------------------------------------------------

  /** Inserts a comma before every group of three digits, counted from the right. */
  function Group(ds: string): (r: string)
    decreases |ds|
  {
    if |ds| <= 3 then ds else Group(ds[..|ds| - 3]) + "," + ds[|ds| - 3..]
  }

  /** `format_number(value)` for an `int` value. */
  function FormatNumber(value: int): string {
    if value < 0 then "-" + Group(Digits(-value)) else Group(Digits(value))
  }

  function RemoveCommas(s: string): (r: string)
    ensures |r| <= |s|
  {
    if s == [] then [] else (if s[0] == ',' then [] else [s[0]]) + RemoveCommas(s[1..])
  }

  lemma {:induction false} RemoveCommasAppend(a: string, b: string)
    ensures RemoveCommas(a + b) == RemoveCommas(a) + RemoveCommas(b)
  {
    if a == [] {
      assert a + b == b;
    } else {
      assert (a + b)[0] == a[0] && (a + b)[1..] == a[1..] + b;
      RemoveCommasAppend(a[1..], b);
    }
  }

  lemma {:induction false} RemoveCommasNone(s: string)
    requires forall i :: 0 <= i < |s| ==> s[i] != ','
    ensures RemoveCommas(s) == s
  {
    if s != [] { RemoveCommasNone(s[1..]); }
  }

  lemma {:induction false} GroupRemoveCommas(ds: string)
    requires forall i :: 0 <= i < |ds| ==> IsDigit(ds[i])
    ensures RemoveCommas(Group(ds)) == ds
    decreases |ds|
  {
    if |ds| <= 3 {
      RemoveCommasNone(ds);
    } else {
      var hi, lo := ds[..|ds| - 3], ds[|ds| - 3..];
      var g := Group(hi);
      assert Group(ds) == g + "," + lo;
      GroupRemoveCommas(hi);
      RemoveCommasAppend(g + ",", lo);
      RemoveCommasAppend(g, ",");
      assert RemoveCommas(",") == [];
      RemoveCommasNone(lo);
      assert RemoveCommas(g + ",") == hi;
      assert hi + lo == ds;
    }
  }

  /** Dropping the separators gives back Python's `str(value)`, sign included. */
  lemma FormatNumberRoundTrip(value: int)
    ensures RemoveCommas(FormatNumber(value)) == IntToDecimal(value)
  {
    var n: nat := if value < 0 then -value else value;
    GroupRemoveCommas(Digits(n));
    if value < 0 {
      RemoveCommasAppend("-", Group(Digits(n)));
    }
  }

  /** Digits in groups: a leading group of one to three digits, then groups of
      exactly three, each after a comma. */
  predicate WellGrouped(s: string)
    decreases |s|
  {
    if |s| <= 3 then 1 <= |s| && forall i :: 0 <= i < |s| ==> IsDigit(s[i])
    else
      && s[|s| - 4] == ','
      && IsDigit(s[|s| - 3]) && IsDigit(s[|s| - 2]) && IsDigit(s[|s| - 1])
      && WellGrouped(s[..|s| - 4])
  }

  lemma {:induction false} GroupIsWellGrouped(ds: string)
    requires |ds| >= 1 && forall i :: 0 <= i < |ds| ==> IsDigit(ds[i])
    ensures WellGrouped(Group(ds))
    decreases |ds|
  {
    if |ds| > 3 {
      var hi := ds[..|ds| - 3];
      GroupIsWellGrouped(hi);
      var g := Group(ds);
      assert g[..|g| - 4] == Group(hi);
    }
  }

  /** The digits of a formatted integer are grouped in threes from the right. */
  lemma FormatNumberGrouped(value: int)
    ensures value >= 0 ==> WellGrouped(FormatNumber(value))
    ensures value < 0 ==> FormatNumber(value)[0] == '-' && WellGrouped(FormatNumber(value)[1..])
  {
    var n: nat := if value < 0 then -value else value;
    GroupIsWellGrouped(Digits(n));
    if value < 0 {
      assert FormatNumber(value)[1..] == Group(Digits(n));
    }
  }

  // ---------------------------------------------------------------------
  // validate_dataframe
  // ---------------------------------------------------------------------

  /** The report of `validate_dataframe`; `completenessPct` is `None` where
      pandas computes NaN (a frame without columns). The memory figure is not
      modelled. */
  datatype Validation =
    | Invalid(error: string)
    | Validated(rows: nat, columns: nat, totalCells: nat, missingCells: nat, completenessPct: Option<real>)

  /** Share of non-missing cells in percent; NaN when there are no cells. */
  function CompletenessPct(totalCells: nat, missingCells: nat): Option<real> {
    if totalCells == 0 then None
    else Some((totalCells as real - missingCells as real) / totalCells as real * 100.0)
  }

  /** Completeness lies between 0 and 100, and is 100 exactly when nothing is
      missing. */
  lemma CompletenessRange(totalCells: nat, missingCells: nat)
    requires 0 < totalCells && missingCells <= totalCells
    ensures var p := CompletenessPct(totalCells, missingCells).value;
      0.0 <= p <= 100.0 && (p == 100.0 <==> missingCells == 0)
  {
    var tc, mc := totalCells as real, missingCells as real;
    var q := (tc - mc) / tc;
    assert q * tc == tc - mc;
    assert 0.0 <= q <= 1.0;
    if q * 100.0 == 100.0 { assert q == 1.0; }
  }

  /** `validate_dataframe(df)`; `None` stands for the `df is None` case. */
  function ValidateDataframe(df: Option<Table>): (r: Validation)
    ensures r.Invalid? <==> df.None? || df.value.rows == 0
    ensures r.Invalid? ==> r.error == "DataFrame is empty"
    ensures r.Validated? ==> r.rows == df.value.rows && r.columns == |df.value.columns|
    ensures r.Validated? ==> r.totalCells == r.rows * r.columns && r.missingCells == TotalNulls(df.value.columns)
    ensures r.Validated? ==> (r.completenessPct.None? <==> r.columns == 0)
  {
    if df.None? || df.value.rows == 0 then Invalid("DataFrame is empty")
    else
      var t := df.value;
      var total := t.rows * |t.columns|;
      var missing := TotalNulls(t.columns);
      Validated(t.rows, |t.columns|, total, missing, CompletenessPct(total, missing))
  }

  /** For a well-formed frame with at least one column, the reported
      completeness is a percentage, and 100 exactly when no cell is missing. */
  lemma ValidateCompleteness(t: Table)
    requires ValidTable(t) && t.rows > 0 && |t.columns| > 0
    ensures var r := ValidateDataframe(Some(t));
      r.Validated? && r.completenessPct.Some? &&
      0.0 <= r.completenessPct.value <= 100.0 &&
      (r.completenessPct.value == 100.0 <==> r.missingCells == 0)
  {
    TotalNullsBound(t.columns, t.rows);
    assert t.rows * |t.columns| > 0;
    CompletenessRange(t.rows * |t.columns|, TotalNulls(t.columns));
  }

  // ---------------------------------------------------------------------
  // get_column_info
  // ---------------------------------------------------------------------

  /** The four buckets of `get_column_info`. */
  datatype Bucket = NumericBucket | DatetimeBucket | BooleanBucket | CategoricalBucket

  /** The bucket a dtype falls into: the numeric test comes first, then the
      datetime test, then the boolean test, and everything else is categorical. */
  function BucketOf(k: Kind): Bucket {
    if IsNumericDtype(k) then NumericBucket
    else if k == Datetime then DatetimeBucket
    else if k == Bool then BooleanBucket
    else CategoricalBucket
  }

  /** One column's description, as each bucket records it. */
  datatype ColumnEntry =
    | NumericEntry(name: string, dtype: Kind, unique: nat, missing: nat)
    | DatetimeEntry(name: string, minDay: Option<int>, maxDay: Option<int>, missing: nat)
    | BooleanEntry(name: string, trueCount: nat, falseCount: nat, missing: nat)
    | CategoricalEntry(name: string, dtype: Kind, unique: nat, missing: nat)

  function Entry(c: Column): ColumnEntry {
    match BucketOf(c.kind)
    case NumericBucket => NumericEntry(c.name, c.kind, Nunique(c.cells), NullCount(c.cells))
    case DatetimeBucket => DatetimeEntry(c.name, MinDay(c.cells), MaxDay(c.cells), NullCount(c.cells))
    case BooleanBucket =>
      BooleanEntry(c.name, Freq(c.cells, BoolV(true)), Freq(c.cells, BoolV(false)), NullCount(c.cells))
    case CategoricalBucket => CategoricalEntry(c.name, c.kind, Nunique(c.cells), NullCount(c.cells))
  }

  /** The entries of the columns that fall into bucket `b`, in frame order. */
  function EntriesIn(cols: seq<Column>, b: Bucket): (r: seq<ColumnEntry>)
    ensures |r| <= |cols|
  {
    if cols == [] then []
    else EntriesIn(cols[..|cols| - 1], b) + (if BucketOf(cols[|cols| - 1].kind) == b then [Entry(cols[|cols| - 1])] else [])
  }

  datatype ColumnInfo = ColumnInfo(
    numeric: seq<ColumnEntry>, categorical: seq<ColumnEntry>,
    datetime: seq<ColumnEntry>, boolean: seq<ColumnEntry>)

  /** `get_column_info(df)`: walks the columns once and appends each one's
      entry to the first bucket whose test accepts its dtype. */
  method GetColumnInfo(t: Table) returns (info: ColumnInfo)
    ensures info.numeric == EntriesIn(t.columns, NumericBucket)
    ensures info.datetime == EntriesIn(t.columns, DatetimeBucket)
    ensures info.boolean == EntriesIn(t.columns, BooleanBucket)
    ensures info.categorical == EntriesIn(t.columns, CategoricalBucket)
  {
    var numeric, categorical, datetime, boolean := [], [], [], [];
    for i := 0 to |t.columns|
      invariant numeric == EntriesIn(t.columns[..i], NumericBucket)
      invariant datetime == EntriesIn(t.columns[..i], DatetimeBucket)
      invariant boolean == EntriesIn(t.columns[..i], BooleanBucket)
      invariant categorical == EntriesIn(t.columns[..i], CategoricalBucket)
    {
      var c := t.columns[i];
      assert t.columns[..i + 1][..i] == t.columns[..i];
      if IsNumericDtype(c.kind) {
        numeric := numeric + [NumericEntry(c.name, c.kind, Nunique(c.cells), NullCount(c.cells))];
      } else if c.kind == Datetime {
        datetime := datetime + [DatetimeEntry(c.name, MinDay(c.cells), MaxDay(c.cells), NullCount(c.cells))];
      } else if c.kind == Bool {
        boolean := boolean + [BooleanEntry(c.name, Freq(c.cells, BoolV(true)), Freq(c.cells, BoolV(false)), NullCount(c.cells))];
      } else {
        categorical := categorical + [CategoricalEntry(c.name, c.kind, Nunique(c.cells), NullCount(c.cells))];
      }
    }
    assert t.columns[..|t.columns|] == t.columns;
    info := ColumnInfo(numeric, categorical, datetime, boolean);
  }

  /** Every column lands in exactly one bucket: the bucket sizes add up to the
      number of columns. */
  lemma {:induction false} BucketsPartition(cols: seq<Column>)
    ensures |EntriesIn(cols, NumericBucket)| + |EntriesIn(cols, DatetimeBucket)|
          + |EntriesIn(cols, BooleanBucket)| + |EntriesIn(cols, CategoricalBucket)| == |cols|
  {
    if cols != [] {
      BucketsPartition(cols[..|cols| - 1]);
    }
  }

  /** Booleans pass the numeric test, so the boolean bucket is always empty. */
  lemma {:induction false} BooleanBucketEmpty(cols: seq<Column>)
    ensures EntriesIn(cols, BooleanBucket) == []
  {
    if cols != [] {
      BooleanBucketEmpty(cols[..|cols| - 1]);
    }
  }

  /** The names in a bucket are those of the columns it accepts, in frame order. */
  lemma {:induction false} BucketNames(cols: seq<Column>, b: Bucket)
    ensures EntryNames(EntriesIn(cols, b)) == Names(ColumnsIn(cols, b))
  {
    if cols != [] {
      var init, last := cols[..|cols| - 1], cols[|cols| - 1];
      BucketNames(init, b);
      EntryNamesAppend(EntriesIn(init, b), if BucketOf(last.kind) == b then [Entry(last)] else []);
      NamesAppend(ColumnsIn(init, b), if BucketOf(last.kind) == b then [last] else []);
    }
  }

  function ColumnsIn(cols: seq<Column>, b: Bucket): seq<Column> {
    if cols == [] then []
    else ColumnsIn(cols[..|cols| - 1], b) + (if BucketOf(cols[|cols| - 1].kind) == b then [cols[|cols| - 1]] else [])
  }

  function EntryNames(es: seq<ColumnEntry>): (r: seq<string>)
    ensures |r| == |es|
  {
    if es == [] then [] else EntryNames(es[..|es| - 1]) + [es[|es| - 1].name]
  }

  lemma {:induction false} EntryNamesAppend(a: seq<ColumnEntry>, b: seq<ColumnEntry>)
    requires |b| <= 1
    ensures EntryNames(a + b) == EntryNames(a) + EntryNames(b)
  {
    if b == [] {
      assert a + b == a;
    } else {
      assert (a + b)[..|a + b| - 1] == a;
      assert EntryNames(b) == EntryNames(b[..0]) + [b[0].name];
    }
  }
}
