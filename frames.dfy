/** A pandas DataFrame as plain data: an ordered sequence of named columns,
    each with an abstract dtype and one optional cell per row (`None` is a
    missing value: NaN, None or NaT). The column reductions the pipeline
    uses (`isnull().sum()`, `sum()`, `mean()`, `nunique()`, the most frequent
    value of `value_counts()`, the date span) are defined here once. */
module Frames {
  import opened Wrappers

  /** The dtype families the pipeline tells apart. `Numeric` is an int or float
      dtype, `Categorical` an object (string) or category dtype. */
  datatype Kind = Numeric | Datetime | Bool | Categorical

  /** A cell value. Dates are counted in whole days. */
  datatype Value = IntV(i: int) | RealV(r: real) | BoolV(b: bool) | DateV(day: int) | StrV(s: string)

  type Cell = Option<Value>

  datatype Column = Column(name: string, kind: Kind, cells: seq<Cell>)

  datatype Table = Table(columns: seq<Column>, rows: nat)

  predicate Fits(k: Kind, v: Value) {
    match k
    case Numeric => v.IntV? || v.RealV?
    case Datetime => v.DateV?
    case Bool => v.BoolV?
    case Categorical => v.StrV?
  }

  /** A numeric dtype is either an int or a float dtype, never both: the
      present values are all ints or all floats. */
  predicate UniformNumbers(cells: seq<Cell>) {
    || (forall i :: 0 <= i < |cells| && cells[i].Some? ==> !cells[i].value.RealV?)
    || (forall i :: 0 <= i < |cells| && cells[i].Some? ==> !cells[i].value.IntV?)
  }

  /** Every column has one cell per row and its values belong to its dtype. */
  predicate ValidColumn(c: Column, rows: nat) {
    && |c.cells| == rows
    && (forall i :: 0 <= i < |c.cells| && c.cells[i].Some? ==> Fits(c.kind, c.cells[i].value))
    && (c.kind == Numeric ==> UniformNumbers(c.cells))
  }

  predicate ValidTable(t: Table) {
    forall j :: 0 <= j < |t.columns| ==> ValidColumn(t.columns[j], t.rows)
  }

  /** `df.columns.tolist()`. */
  function Names(cols: seq<Column>): (r: seq<string>)
    ensures |r| == |cols|
    ensures forall i :: 0 <= i < |cols| ==> r[i] == cols[i].name
  {
    if cols == [] then [] else [cols[0].name] + Names(cols[1..])
  }

  lemma {:induction false} NamesAppend(a: seq<Column>, b: seq<Column>)
    ensures Names(a + b) == Names(a) + Names(b)
  {
    assert |Names(a + b)| == |Names(a) + Names(b)|;
    forall i | 0 <= i < |a + b| ensures Names(a + b)[i] == (Names(a) + Names(b))[i] {
      if i < |a| { assert (a + b)[i] == a[i]; } else { assert (a + b)[i] == b[i - |a|]; }
    }
  }

  /** `pd.api.types.is_numeric_dtype`: true for booleans too. */
  predicate IsNumericDtype(k: Kind) { k == Numeric || k == Bool }

  /** `select_dtypes(include=[np.number])`: booleans are not numbers there. */
  predicate IsNumberDtype(k: Kind) { k == Numeric }

  /** Columns of one dtype family, in frame order. */
  function ColumnsOfKind(cols: seq<Column>, k: Kind): (r: seq<Column>)
    ensures |r| <= |cols|
    ensures forall c :: c in r ==> c in cols && c.kind == k
    ensures forall c :: c in cols && c.kind == k ==> c in r
  {
    if cols == [] then []
    else (if cols[0].kind == k then [cols[0]] else []) + ColumnsOfKind(cols[1..], k)
  }

  lemma {:induction false} ColumnsOfKindAppend(a: seq<Column>, b: seq<Column>, k: Kind)
    ensures ColumnsOfKind(a + b, k) == ColumnsOfKind(a, k) + ColumnsOfKind(b, k)
  {
    if a == [] {
      assert a + b == b;
    } else {
      assert (a + b)[1..] == a[1..] + b;
      ColumnsOfKindAppend(a[1..], b, k);
    }
  }

  /** `df[name]` for a name that is present: the first column so named. */
  function ColumnByName(cols: seq<Column>, name: string): (r: Option<Column>)
    ensures r.Some? <==> name in Names(cols)
    ensures r.Some? ==> r.value in cols && r.value.name == name
  {
    if cols == [] then None
    else if cols[0].name == name then Some(cols[0])
    else ColumnByName(cols[1..], name)
  }

  /** `col.isnull().sum()`. */
  function NullCount(cells: seq<Cell>): (n: nat)
    ensures n <= |cells|
    ensures n == 0 <==> forall i :: 0 <= i < |cells| ==> cells[i].Some?
  {
    if cells == [] then 0 else (if cells[0].None? then 1 else 0) + NullCount(cells[1..])
  }

  /** `col.count()`: cells that are not missing. */
  function NonNullCount(cells: seq<Cell>): (n: nat)
    ensures n == |cells| - NullCount(cells)
  {
    if cells == [] then 0 else (if cells[0].Some? then 1 else 0) + NonNullCount(cells[1..])
  }

  /** `df.isnull().sum().sum()`. */
  function TotalNulls(cols: seq<Column>): nat {
    if cols == [] then 0 else NullCount(cols[0].cells) + TotalNulls(cols[1..])
  }

  /** In a frame whose columns all have `rows` cells, there are at most
      `rows * columns` missing cells. */
  lemma {:induction false} TotalNullsBound(cols: seq<Column>, rows: nat)
    requires forall j :: 0 <= j < |cols| ==> |cols[j].cells| == rows
    ensures TotalNulls(cols) <= rows * |cols|
  {
    if cols != [] {
      TotalNullsBound(cols[1..], rows);
      assert rows * |cols| == rows + rows * |cols[1..]|;
    }
  }

  /** The number a value adds to a pandas sum (booleans count as 0 or 1). */
  function NumVal(v: Value): real {
    match v
    case IntV(i) => i as real
    case RealV(r) => r
    case BoolV(b) => if b then 1.0 else 0.0
    case _ => 0.0
  }

  /** `col.sum()`, which skips missing cells (0 if there are none). */
  function Sum(cells: seq<Cell>): real {
    if cells == [] then 0.0
    else (if cells[0].Some? then NumVal(cells[0].value) else 0.0) + Sum(cells[1..])
  }

  /** `col.mean()`: `None` stands for NaN, the mean of no values. */
  function Mean(cells: seq<Cell>): (m: Option<real>)
    ensures m.None? <==> NonNullCount(cells) == 0
    ensures m.Some? ==> m.value * NonNullCount(cells) as real == Sum(cells)
  {
    var n := NonNullCount(cells);
    if n == 0 then None else Some(Sum(cells) / n as real)
  }

  /** The distinct non-missing values of a column. */
  function Distinct(cells: seq<Cell>): (s: set<Value>)
    ensures forall i :: 0 <= i < |cells| && cells[i].Some? ==> cells[i].value in s
    ensures forall v :: v in s ==> Some(v) in cells
  {
    set i | 0 <= i < |cells| && cells[i].Some? :: cells[i].value
  }

  /** In a well-formed numeric column two values are the same exactly when
      they are the same number, so `Distinct`, `Nunique` and `Freq` count
      numbers as pandas does. */
  lemma NumericValuesByNumber(c: Column, rows: nat, v: Value, w: Value)
    requires ValidColumn(c, rows) && c.kind == Numeric
    requires v in Distinct(c.cells) && w in Distinct(c.cells)
    ensures v == w <==> NumVal(v) == NumVal(w)
  {
    var i :| 0 <= i < |c.cells| && c.cells[i] == Some(v);
    var j :| 0 <= j < |c.cells| && c.cells[j] == Some(w);
  }

  /** `col.nunique()`. */
  function Nunique(cells: seq<Cell>): nat {
    |Distinct(cells)|
  }

  /** How many cells hold `v`: its entry in `value_counts()`. */
  function Freq(cells: seq<Cell>, v: Value): nat {
    if cells == [] then 0 else (if cells[0] == Some(v) then 1 else 0) + Freq(cells[1..], v)
  }

  lemma {:induction false} FreqPositive(cells: seq<Cell>, i: nat)
    requires i < |cells| && cells[i].Some?
    ensures Freq(cells, cells[i].value) > 0
  {
    if i > 0 {
      assert cells[1..][i - 1] == cells[i];
      FreqPositive(cells[1..], i - 1);
    }
  }

  /** A value occurs at most once per non-missing cell. */
  lemma {:induction false} FreqBound(cells: seq<Cell>, v: Value)
    ensures Freq(cells, v) <= NonNullCount(cells)
  {
    if cells != [] {
      FreqBound(cells[1..], v);
    }
  }

  lemma {:induction false} FreqWitness(cells: seq<Cell>, v: Value)
    requires Freq(cells, v) > 0
    ensures exists i :: 0 <= i < |cells| && cells[i] == Some(v)
  {
    if cells[0] != Some(v) {
      FreqWitness(cells[1..], v);
      var i :| 0 <= i < |cells[1..]| && cells[1..][i] == Some(v);
      assert cells[i + 1] == Some(v);
    }
  }

  /** The scan behind `Mode`: `best` is the most frequent value among the
      cells before index `i`. */
  function ModeFrom(cells: seq<Cell>, i: nat, best: Option<Value>): (r: Option<Value>)
    requires i <= |cells|
    requires best.Some? ==> Freq(cells, best.value) > 0
    requires forall j :: 0 <= j < i && cells[j].Some? ==> best.Some? && Freq(cells, cells[j].value) <= Freq(cells, best.value)
    ensures r.Some? ==> Freq(cells, r.value) > 0
    ensures forall j :: 0 <= j < |cells| && cells[j].Some? ==> r.Some? && Freq(cells, cells[j].value) <= Freq(cells, r.value)
    decreases |cells| - i
  {
    if i == |cells| then best
    else if cells[i].Some? && (best.None? || Freq(cells, cells[i].value) > Freq(cells, best.value)) then
      FreqPositive(cells, i);
      ModeFrom(cells, i + 1, cells[i])
    else ModeFrom(cells, i + 1, best)
  }

  /** A value of maximal frequency, the first entry of `value_counts()`;
      `None` when the column holds no value at all (where pandas raises). */
  function Mode(cells: seq<Cell>): (r: Option<Value>)
    ensures r.None? <==> NonNullCount(cells) == 0
  {
    var r := ModeFrom(cells, 0, None);
    NonNullWitness(cells);
    if r.Some? then FreqWitness(cells, r.value); r else r
  }

  lemma {:induction false} NonNullWitness(cells: seq<Cell>)
    ensures NonNullCount(cells) > 0 <==> exists i :: 0 <= i < |cells| && cells[i].Some?
  {
    if cells != [] {
      NonNullWitness(cells[1..]);
      if exists i :: 0 <= i < |cells[1..]| && cells[1..][i].Some? {
        var i :| 0 <= i < |cells[1..]| && cells[1..][i].Some?;
        assert cells[i + 1].Some?;
      }
      if exists i :: 0 <= i < |cells| && cells[i].Some? {
        var i :| 0 <= i < |cells| && cells[i].Some?;
        if i > 0 { assert cells[1..][i - 1].Some?; }
      }
    }
  }

  /** The mode really is most frequent: no value occurs more often. */
  lemma ModeIsMostFrequent(cells: seq<Cell>, w: Value)
    requires Mode(cells).Some?
    ensures Freq(cells, w) <= Freq(cells, Mode(cells).value)
    ensures Freq(cells, Mode(cells).value) > 0
  {
    if Freq(cells, w) > 0 {
      FreqWitness(cells, w);
    }
  }

  /** The day of the earliest and of the latest date among the cells. */
  function MinDay(cells: seq<Cell>): Option<int> {
    if cells == [] then None
    else
      var rest := MinDay(cells[1..]);
      if cells[0].Some? && cells[0].value.DateV? then
        var d := cells[0].value.day;
        Some(if rest.Some? && rest.value < d then rest.value else d)
      else rest
  }

  function MaxDay(cells: seq<Cell>): Option<int> {
    if cells == [] then None
    else
      var rest := MaxDay(cells[1..]);
      if cells[0].Some? && cells[0].value.DateV? then
        var d := cells[0].value.day;
        Some(if rest.Some? && rest.value > d then rest.value else d)
      else rest
  }

  lemma {:induction false} DayBounds(cells: seq<Cell>)
    ensures MinDay(cells).Some? <==> MaxDay(cells).Some?
    ensures MinDay(cells).Some? ==> MinDay(cells).value <= MaxDay(cells).value
    ensures forall i :: 0 <= i < |cells| && cells[i].Some? && cells[i].value.DateV? ==>
      MinDay(cells).Some? && MinDay(cells).value <= cells[i].value.day <= MaxDay(cells).value
    ensures MinDay(cells).Some? ==> exists i :: 0 <= i < |cells| && IsDateOn(cells[i], MinDay(cells).value)
    ensures MaxDay(cells).Some? ==> exists i :: 0 <= i < |cells| && IsDateOn(cells[i], MaxDay(cells).value)
  {
    if cells != [] {
      var rest := cells[1..];
      DayBounds(rest);
      forall i | 1 <= i < |cells| ensures cells[i] == rest[i - 1] { }
      if MinDay(cells).Some? && !IsDateOn(cells[0], MinDay(cells).value) {
        var j :| 0 <= j < |rest| && IsDateOn(rest[j], MinDay(rest).value);
        assert IsDateOn(cells[j + 1], MinDay(cells).value);
      }
      if MaxDay(cells).Some? && !IsDateOn(cells[0], MaxDay(cells).value) {
        var j :| 0 <= j < |rest| && IsDateOn(rest[j], MaxDay(rest).value);
        assert IsDateOn(cells[j + 1], MaxDay(cells).value);
      }
    }
  }

  /** The cell holds the date of that day. */
  predicate IsDateOn(c: Cell, day: int) {
    c.Some? && c.value.DateV? && c.value.day == day
  }

  /** `(col.max() - col.min()).days`; `None` stands for NaT (no dates). */
  function DateRange(cells: seq<Cell>): (r: Option<int>)
    ensures r.Some? ==> r.value >= 0
  {
    DayBounds(cells);
    if MinDay(cells).Some? then Some(MaxDay(cells).value - MinDay(cells).value) else None
  }
}
