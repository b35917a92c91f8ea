/** The KPI extractor: the case-insensitive column resolver, the four
    per-domain extractors and the dispatch that stores the result. A KPI is a
    key with a value; the float formatting of values is not modelled, only
    which keys appear and the exact quantities behind them. */
module Kpi {
  import opened Wrappers
  import opened Strings
  import opened Frames
  import opened Dicts
  import Utils

  // ---------------------------------------------------------------------
  // Column resolution
  // ---------------------------------------------------------------------

  /** `{col.lower(): col for col in df.columns}`: one entry per lower-cased
      name, at the position of its first column and holding its last. */
  function LowerIndex(names: seq<string>): seq<(string, string)> {
    if names == [] then []
    else
      var last := names[|names| - 1];
      Put(LowerIndex(names[..|names| - 1]), Lower(last), last)
  }

  /** Every entry maps the lower-cased form of a real column name to it. */
  lemma {:induction false} LowerIndexSound(names: seq<string>, p: (string, string))
    requires p in LowerIndex(names)
    ensures p.1 in names && p.0 == Lower(p.1)
  {
    var init, last := names[..|names| - 1], names[|names| - 1];
    PutPairs(LowerIndex(init), Lower(last), last, p);
    if p != (Lower(last), last) {
      LowerIndexSound(init, p);
      assert p.1 in init;
    }
  }

  /** Every column's lower-cased name is a key. */
  lemma {:induction false} LowerIndexComplete(names: seq<string>, n: string)
    requires n in names
    ensures Lower(n) in Keys(LowerIndex(names))
  {
    var init, last := names[..|names| - 1], names[|names| - 1];
    assert names == init + [last];
    PutKeys(LowerIndex(init), Lower(last), last);
    if n != last {
      assert n in init;
      LowerIndexComplete(init, n);
    }
  }

  /** Without two names that lower-case alike, the index pairs each column,
      in frame order, with its lower-cased name. */
  lemma {:induction false} LowerIndexNoCollision(names: seq<string>)
    requires forall i, j :: 0 <= i < j < |names| ==> Lower(names[i]) != Lower(names[j])
    ensures |LowerIndex(names)| == |names|
    ensures forall i :: 0 <= i < |names| ==> LowerIndex(names)[i] == (Lower(names[i]), names[i])
  {
    if names != [] {
      var init, last := names[..|names| - 1], names[|names| - 1];
      assert forall i :: 0 <= i < |init| ==> init[i] == names[i];
      LowerIndexNoCollision(init);
      var idx := LowerIndex(init);
      LowerIndexFresh(names);
      var r := idx + [(Lower(last), last)];
      forall i | 0 <= i < |names| ensures r[i] == (Lower(names[i]), names[i]) {
        if i < |init| {
          assert r[i] == idx[i] && names[i] == init[i];
        } else {
          assert i == |idx| && names[i] == last;
        }
      }
    }
  }

  /** A key of the index holds the LAST column that lower-cases to it. */
  lemma {:induction false} LowerIndexKeepsLast(names: seq<string>, k: string)
    requires Get(LowerIndex(names), k).Some?
    ensures exists j ::
      && 0 <= j < |names| && names[j] == Get(LowerIndex(names), k).value && Lower(names[j]) == k
      && forall j' :: j < j' < |names| ==> Lower(names[j']) != k
  {
    var init, last := names[..|names| - 1], names[|names| - 1];
    GetPut(LowerIndex(init), Lower(last), last, k);
    if k == Lower(last) {
      assert names[|names| - 1] == Get(LowerIndex(names), k).value;
    } else {
      LowerIndexKeepsLast(init, k);
      var j :| && 0 <= j < |init| && init[j] == Get(LowerIndex(init), k).value && Lower(init[j]) == k
               && forall j' :: j < j' < |init| ==> Lower(init[j']) != k;
      assert names[j] == init[j];
      forall j' | j < j' < |names| ensures Lower(names[j']) != k {
        if j' < |init| { assert names[j'] == init[j']; }
      }
    }
  }

  /** The keys come in the order of the FIRST column of each: of two first
      occurrences of distinct lower-case names, the earlier one's key comes
      first. The keys are distinct, so this fixes their order. */
  lemma {:induction false} LowerIndexKeyOrder(names: seq<string>, a: nat, b: nat)
    requires a < b < |names|
    requires forall j :: 0 <= j < a ==> Lower(names[j]) != Lower(names[a])
    requires forall j :: 0 <= j < b ==> Lower(names[j]) != Lower(names[b])
    ensures DistinctKeys(LowerIndex(names))
    ensures exists i, i' ::
      && 0 <= i < i' < |LowerIndex(names)|
      && Keys(LowerIndex(names))[i] == Lower(names[a]) && Keys(LowerIndex(names))[i'] == Lower(names[b])
    decreases |names|, 1
  {
    LowerIndexDistinct(names);
    if b < |names| - 1 {
      LowerIndexOrderKept(names, a, b);
    } else {
      LowerIndexOrderLast(names, a);
    }
  }

  /** The inductive step of LowerIndexKeyOrder when both columns come
      before the last one. */
  lemma {:induction false} LowerIndexOrderKept(names: seq<string>, a: nat, b: nat)
    requires a < b < |names| - 1
    requires forall j :: 0 <= j < a ==> Lower(names[j]) != Lower(names[a])
    requires forall j :: 0 <= j < b ==> Lower(names[j]) != Lower(names[b])
    ensures exists i, i' ::
      && 0 <= i < i' < |LowerIndex(names)|
      && Keys(LowerIndex(names))[i] == Lower(names[a]) && Keys(LowerIndex(names))[i'] == Lower(names[b])
    decreases |names|, 0
  {
    var init := names[..|names| - 1];
    var ks, ks' := Keys(LowerIndex(init)), Keys(LowerIndex(names));
    LowerIndexKeysGrow(names);
    assert names[a] == init[a] && names[b] == init[b];
    forall j | 0 <= j < b ensures Lower(init[j]) != Lower(init[b]) { assert init[j] == names[j]; }
    forall j | 0 <= j < a ensures Lower(init[j]) != Lower(init[a]) { assert init[j] == names[j]; }
    LowerIndexKeyOrder(init, a, b);
    var i, i' :| 0 <= i < i' < |ks| && ks[i] == Lower(init[a]) && ks[i'] == Lower(init[b]);
    assert ks'[i] == ks[i] && ks'[i'] == ks[i'];
  }

  /** The base of LowerIndexKeyOrder: a first occurrence at the end adds
      the last key, after that of any earlier column. */
  lemma LowerIndexOrderLast(names: seq<string>, a: nat)
    requires a < |names| - 1
    requires forall j :: 0 <= j < |names| - 1 ==> Lower(names[j]) != Lower(names[|names| - 1])
    ensures exists i, i' ::
      && 0 <= i < i' < |LowerIndex(names)|
      && Keys(LowerIndex(names))[i] == Lower(names[a]) && Keys(LowerIndex(names))[i'] == Lower(names[|names| - 1])
  {
    var init := names[..|names| - 1];
    var ks, ks' := Keys(LowerIndex(init)), Keys(LowerIndex(names));
    LowerIndexFresh(names);
    assert names[a] == init[a] && init[a] in init;
    LowerIndexComplete(init, init[a]);
    var i :| 0 <= i < |ks| && ks[i] == Lower(names[a]);
    assert ks'[|ks|] == Lower(names[|names| - 1]) && ks'[i] == ks[i];
  }

  /** Adding a column keeps the earlier keys in place. */
  lemma LowerIndexKeysGrow(names: seq<string>)
    requires names != []
    ensures var ks, ks' := Keys(LowerIndex(names[..|names| - 1])), Keys(LowerIndex(names));
      && ks <= ks' && (ks' == ks || ks' == ks + [Lower(names[|names| - 1])])
  {
    PutKeys(LowerIndex(names[..|names| - 1]), Lower(names[|names| - 1]), names[|names| - 1]);
  }

  /** A column whose lower-case form is new adds a key at the end. */
  lemma LowerIndexFresh(names: seq<string>)
    requires names != []
    requires forall j :: 0 <= j < |names| - 1 ==> Lower(names[j]) != Lower(names[|names| - 1])
    ensures LowerIndex(names) == LowerIndex(names[..|names| - 1]) + [(Lower(names[|names| - 1]), names[|names| - 1])]
    ensures var ks := Keys(LowerIndex(names[..|names| - 1]));
      Keys(LowerIndex(names)) == ks + [Lower(names[|names| - 1])] && |LowerIndex(names)| == |ks| + 1
  {
    var init, last := names[..|names| - 1], names[|names| - 1];
    var idx := LowerIndex(init);
    forall i | 0 <= i < |Keys(idx)| ensures Keys(idx)[i] != Lower(last) {
      LowerIndexSound(init, idx[i]);
      var j :| 0 <= j < |init| && init[j] == idx[i].1;
      assert names[j] == init[j];
    }
    PutNewAppends(idx, Lower(last), last);
  }

  /** The index never holds a key twice. */
  lemma {:induction false} LowerIndexDistinct(names: seq<string>)
    ensures DistinctKeys(LowerIndex(names))
  {
    if names != [] {
      LowerIndexDistinct(names[..|names| - 1]);
      PutDistinct(LowerIndex(names[..|names| - 1]), Lower(names[|names| - 1]), names[|names| - 1]);
    }
  }

  /** Two columns that lower-case alike share one entry: the first one's
      position, the last one's name. */
  lemma LowerIndexCollision()
    ensures LowerIndex(["Revenue", "REVENUE"]) == [("revenue", "REVENUE")]
  {
    CapitalizedRevenueLowers();
    UpperRevenueLowers();
    assert ["Revenue", "REVENUE"][..1] == ["Revenue"];
    assert ["Revenue"][..0] == [];
    var first := LowerIndex(["Revenue"]);
    assert first == Put([], "revenue", "Revenue") == [("revenue", "Revenue")];
    assert LowerIndex(["Revenue", "REVENUE"]) == Put(first, "revenue", "REVENUE");
  }

  lemma CapitalizedRevenueLowers()
    ensures Lower("Revenue") == "revenue"
  {
    assert Lower("Revenue") == "revenue";
  }

  lemma UpperRevenueLowers()
    ensures Lower("REVENUE") == "revenue"
  {
    assert Lower("REVENUE") == "revenue";
  }

  /** The first entry, from `i` on, whose key contains `kw`. */
  function FirstContainingFrom(index: seq<(string, string)>, kw: string, i: nat): (r: Option<nat>)
    requires i <= |index|
    requires forall j :: 0 <= j < i ==> !Contains(index[j].0, kw)
    ensures r.Some? ==> r.value < |index| && Contains(index[r.value].0, kw)
    ensures r.Some? ==> forall j :: 0 <= j < r.value ==> !Contains(index[j].0, kw)
    ensures r.None? ==> forall j :: 0 <= j < |index| ==> !Contains(index[j].0, kw)
    decreases |index| - i
  {
    if i == |index| then None
    else if Contains(index[i].0, kw) then Some(i)
    else FirstContainingFrom(index, kw, i + 1)
  }

  /** Where the search stops: the keyword and the index entry that matched. */
  datatype Hit = Hit(keyword: nat, entry: nat)

  /** The keyword-major search from keyword `k` on. */
  function ResolveFrom(index: seq<(string, string)>, keywords: seq<string>, k: nat): (r: Option<Hit>)
    requires k <= |keywords|
    requires forall k', j :: 0 <= k' < k && 0 <= j < |index| ==> !Contains(index[j].0, keywords[k'])
    ensures r.Some? ==> k <= r.value.keyword < |keywords| && r.value.entry < |index|
    ensures r.Some? ==> Contains(index[r.value.entry].0, keywords[r.value.keyword])
    ensures r.Some? ==> forall k', j :: 0 <= k' < r.value.keyword && 0 <= j < |index| ==> !Contains(index[j].0, keywords[k'])
    ensures r.Some? ==> forall j :: 0 <= j < r.value.entry ==> !Contains(index[j].0, keywords[r.value.keyword])
    ensures r.None? ==> forall k', j :: 0 <= k' < |keywords| && 0 <= j < |index| ==> !Contains(index[j].0, keywords[k'])
    decreases |keywords| - k
  {
    if k == |keywords| then None
    else
      match FirstContainingFrom(index, keywords[k], 0)
      case Some(j) => Some(Hit(k, j))
      case None => ResolveFrom(index, keywords, k + 1)
  }

  /** What `_find_column(keywords)` returns for a frame with these column names. */
  function ResolveName(names: seq<string>, keywords: seq<string>): Option<string> {
    var index := LowerIndex(names);
    match ResolveFrom(index, keywords, 0)
    case None => None
    case Some(h) => Some(index[h.entry].1)
  }

  /** A resolved name is a column whose lower-cased name contains a keyword,
      and no earlier keyword occurs in any column. */
  lemma ResolveNameSound(names: seq<string>, keywords: seq<string>)
    ensures var r := ResolveName(names, keywords);
      r.Some? ==>
        && r.value in names
        && exists k :: 0 <= k < |keywords| && Contains(Lower(r.value), keywords[k]) &&
             forall k', n :: 0 <= k' < k && n in names ==> !Contains(Lower(n), keywords[k'])
  {
    var index := LowerIndex(names);
    var h := ResolveFrom(index, keywords, 0);
    if h.Some? {
      var e := index[h.value.entry];
      LowerIndexSound(names, e);
      forall k', n | 0 <= k' < h.value.keyword && n in names
        ensures !Contains(Lower(n), keywords[k'])
      {
        LowerIndexComplete(names, n);
        var j :| 0 <= j < |index| && Keys(index)[j] == Lower(n);
      }
    }
  }

  /** Nothing is found exactly when no keyword occurs in any lower-cased
      column name. */
  lemma ResolveNameNone(names: seq<string>, keywords: seq<string>)
    ensures ResolveName(names, keywords).None? <==>
      forall k, n :: 0 <= k < |keywords| && n in names ==> !Contains(Lower(n), keywords[k])
  {
    var index := LowerIndex(names);
    var h := ResolveFrom(index, keywords, 0);
    if h.None? {
      forall k, n | 0 <= k < |keywords| && n in names
        ensures !Contains(Lower(n), keywords[k])
      {
        LowerIndexComplete(names, n);
        var j :| 0 <= j < |index| && Keys(index)[j] == Lower(n);
      }
    } else {
      LowerIndexSound(names, index[h.value.entry]);
    }
  }

  /** When no two names lower-case alike, the result is, for the earliest
      keyword found anywhere, the first column in frame order containing it. */
  lemma ResolveNameFirstColumn(names: seq<string>, keywords: seq<string>)
    requires forall i, j :: 0 <= i < j < |names| ==> Lower(names[i]) != Lower(names[j])
    ensures var r := ResolveName(names, keywords);
      r.Some? ==>
        exists k, i ::
          && 0 <= k < |keywords| && 0 <= i < |names| && r.value == names[i]
          && Contains(Lower(names[i]), keywords[k])
          && (forall k', i' :: 0 <= k' < k && 0 <= i' < |names| ==> !Contains(Lower(names[i']), keywords[k']))
          && (forall i' :: 0 <= i' < i ==> !Contains(Lower(names[i']), keywords[k]))
  {
    LowerIndexNoCollision(names);
    var index := LowerIndex(names);
    var h := ResolveFrom(index, keywords, 0);
    if h.Some? {
      var k, i := h.value.keyword, h.value.entry;
      assert index[i] == (Lower(names[i]), names[i]);
      forall k', i' | 0 <= k' < k && 0 <= i' < |names| ensures !Contains(Lower(names[i']), keywords[k']) {
        assert index[i'].0 == Lower(names[i']);
      }
      forall i' | 0 <= i' < i ensures !Contains(Lower(names[i']), keywords[k]) {
        assert index[i'].0 == Lower(names[i']);
      }
    }
  }

  /** With columns "Revenue" and "REVENUE", the revenue search returns the
      later one's name. */
  lemma ResolveCollision()
    ensures ResolveName(["Revenue", "REVENUE"], ["revenue"]) == Some("REVENUE")
  {
    LowerIndexCollision();
    var index := LowerIndex(["Revenue", "REVENUE"]);
    assert IsPrefix("revenue", index[0].0);
    assert Contains(index[0].0, "revenue");
  }

  // ---------------------------------------------------------------------
  // KPI keys and values
  // ---------------------------------------------------------------------

  datatype KpiKey =
    // sales
    | TotalRevenue | AverageOrderValue | RevenueStdDev | TotalUnitsSold | AvgUnitsPerTransaction
    | UniqueProducts | TopProduct | AverageMargin | MarginRange | DataPeriod | AvgTransactionsPerDay
    // finance
    | TotalBalance | AverageBalance | MedianBalance | TotalDebits | AverageDebit | TotalCredits
    | AverageCredit | NetPosition | TotalAccounts | TransactionTypes | MostCommonTransaction
    // customer
    | TotalCustomers | ChurnRate | RetentionRate | AverageAgeTenure | AgeTenureRange
    | CustomerSegments | LargestSegment | AvgCustomerValue | TotalCustomerValue | MedianCustomerValue
    // general
    | TotalRecords | TotalColumns | DataCompleteness | HighestAvg(column: string) | MostDiverseColumn
    // added to every result
    | DatasetType

  /** The key's text in the KPI dictionary. */
  function KeyText(k: KpiKey): string {
    match k
    case TotalRevenue => "Total Revenue"
    case AverageOrderValue => "Average Order Value"
    case RevenueStdDev => "Revenue Std Dev"
    case TotalUnitsSold => "Total Units Sold"
    case AvgUnitsPerTransaction => "Avg Units per Transaction"
    case UniqueProducts => "Unique Products"
    case TopProduct => "Top Product"
    case AverageMargin => "Average Margin"
    case MarginRange => "Margin Range"
    case DataPeriod => "Data Period"
    case AvgTransactionsPerDay => "Avg Transactions per Day"
    case TotalBalance => "Total Balance"
    case AverageBalance => "Average Balance"
    case MedianBalance => "Median Balance"
    case TotalDebits => "Total Debits"
    case AverageDebit => "Average Debit"
    case TotalCredits => "Total Credits"
    case AverageCredit => "Average Credit"
    case NetPosition => "Net Position"
    case TotalAccounts => "Total Accounts"
    case TransactionTypes => "Transaction Types"
    case MostCommonTransaction => "Most Common Transaction"
    case TotalCustomers => "Total Customers"
    case ChurnRate => "Churn Rate"
    case RetentionRate => "Retention Rate"
    case AverageAgeTenure => "Average Age/Tenure"
    case AgeTenureRange => "Age/Tenure Range"
    case CustomerSegments => "Customer Segments"
    case LargestSegment => "Largest Segment"
    case AvgCustomerValue => "Avg Customer Value"
    case TotalCustomerValue => "Total Customer Value"
    case MedianCustomerValue => "Median Customer Value"
    case TotalRecords => "Total Records"
    case TotalColumns => "Total Columns"
    case DataCompleteness => "Data Completeness"
    case HighestAvg(c) => "Highest Avg (" + c + ")"
    case MostDiverseColumn => "Most Diverse Column"
    case DatasetType => "Dataset Type"
  }

  /** The quantity behind a KPI's text. */
  datatype KpiValue =
    | Amount(total: real)               // a column sum
    | Average(mean: Option<real>)       // a column mean; None is NaN
    | Count(n: nat)                     // a distinct-value or row count
    | Top(value: Value, frequency: nat) // the most frequent value and its count
    | Label(value: Value)               // the most frequent value alone
    | Percent(pct: Option<real>)        // a percentage; None is NaN
    | Share(segment: Value, share: real)    // the most frequent value and its share of the rows
    | Days(days: Option<int>)           // a date span; None is NaT
    | Rate(perDay: real)
    | Diverse(column: string, unique: nat)
    | Text(text: string)
    | Unmodelled                        // std, median and min/max text

  type Kpis = seq<(KpiKey, KpiValue)>

  /** The messages of the exceptions the extractors can raise. */
  const IndexErrorMsg := "IndexError: index 0 is out of bounds for axis 0 with size 0"
  const TypeErrorMsg := "TypeError: unsupported operand type(s) for -"
  const KeyErrorMsg := "KeyError: nan"

  const RevenueKeywords: seq<string> := ["revenue", "sales", "total", "amount"]
  const QuantityKeywords: seq<string> := ["quantity", "qty", "units"]
  const ProductKeywords: seq<string> := ["product", "item", "sku"]
  const MarginKeywords: seq<string> := ["margin", "profit"]
  const DateKeywords: seq<string> := ["date", "time", "timestamp"]
  const BalanceKeywords: seq<string> := ["balance", "amount", "value"]
  const DebitKeywords: seq<string> := ["debit", "expense", "withdrawal"]
  const CreditKeywords: seq<string> := ["credit", "income", "deposit"]
  const AccountKeywords: seq<string> := ["account", "customer", "id"]
  const TransactionKeywords: seq<string> := ["transaction", "type", "category"]
  const CustomerKeywords: seq<string> := ["customer", "user", "client", "id"]
  const ChurnKeywords: seq<string> := ["churn", "churned", "status"]
  const AgeKeywords: seq<string> := ["age", "tenure", "duration"]
  const SegmentKeywords: seq<string> := ["segment", "category", "tier", "group"]
  const ValueKeywords: seq<string> := ["value", "ltv", "lifetime", "revenue"]

  /** `df[_find_column(keywords)]`, or `None` when nothing is found. */
  function Resolve(t: Table, keywords: seq<string>): Option<Column> {
    match ResolveName(Names(t.columns), keywords)
    case None => None
    case Some(n) => ColumnByName(t.columns, n)
  }

  /** The resolved column exists and `is_numeric_dtype` (booleans included). */
  predicate NumericColumn(c: Option<Column>) {
    c.Some? && IsNumericDtype(c.value.kind)
  }

  predicate DatetimeColumn(c: Option<Column>) {
    c.Some? && c.value.kind == Datetime
  }

  /** The first entry of `value_counts()`, for a column holding a value. */
  function TopOf(c: Column): KpiValue
    requires Mode(c.cells).Some?
  {
    var v := Mode(c.cells).value;
    Top(v, Freq(c.cells, v))
  }

  /** What `col.sum()` gives when it is a number: the sum for a numeric
      column, 0 for a text column with no values; `None` where the sum is
      text or raises (dates), so that a subtraction raises. */
  function NumberSum(c: Column): Option<real> {
    if IsNumericDtype(c.kind) then Some(Sum(c.cells))
    else if c.kind == Categorical && NonNullCount(c.cells) == 0 then Some(0.0)
    else None
  }

  predicate ChurnWord(s: string) {
    s == "yes" || s == "true" || s == "1" || s == "churned"
  }

  /** A cell whose text, lower-cased, is yes, true, 1 or churned; a missing
      cell prints as "nan" and a date never prints as one of these. */
  predicate Churned(c: Cell) {
    c.Some? && c.value.StrV? && ChurnWord(Lower(c.value.s))
  }

  /** `isin([...]).sum()`: the churned cells, counted from the last one back. */
  function ChurnedCount(cells: seq<Cell>): (n: nat)
    ensures n <= |cells|
  {
    if cells == [] then 0
    else ChurnedCount(cells[..|cells| - 1]) + (if Churned(cells[|cells| - 1]) then 1 else 0)
  }

  /** The count is the number of rows holding a churned cell. */
  lemma {:induction false} ChurnedCountRows(cells: seq<Cell>)
    ensures ChurnedCount(cells) == |ChurnedRows(cells)|
  {
    if cells != [] {
      var n := |cells| - 1;
      ChurnedCountRows(cells[..n]);
      ChurnedRowsSnoc(cells);
      assert n !in ChurnedRows(cells[..n]);
    }
  }

  /** The rows whose cell counts as churned. */
  function ChurnedRows(cells: seq<Cell>): set<int> {
    set i | 0 <= i < |cells| && Churned(cells[i])
  }

  lemma ChurnedRowsSnoc(cells: seq<Cell>)
    requires cells != []
    ensures ChurnedRows(cells) ==
      ChurnedRows(cells[..|cells| - 1]) + (if Churned(cells[|cells| - 1]) then {|cells| - 1} else {})
  {
    var n := |cells| - 1;
    var init := cells[..n];
    forall i | 0 <= i < n ensures init[i] == cells[i] { }
  }

  /** The churn percentage over `rows` rows; `None` (NaN) when there are none. */
  function ChurnPct(c: Column, rows: nat): Option<real> {
    if rows == 0 then None
    else
      var churned := if IsNumericDtype(c.kind) then Sum(c.cells) else ChurnedCount(c.cells) as real;
      Some(churned / rows as real * 100.0)
  }

  /** For a text or date churn column of a frame with rows, the churn rate
      is a percentage and the retention rate is the rest of 100. */
  lemma ChurnRange(c: Column, rows: nat)
    requires !IsNumericDtype(c.kind) && |c.cells| == rows && rows > 0
    ensures ChurnPct(c, rows).Some? && Retention(ChurnPct(c, rows)).Some?
    ensures var churn, retention := ChurnPct(c, rows).value, Retention(ChurnPct(c, rows)).value;
      && 0.0 <= churn <= 100.0 && 0.0 <= retention <= 100.0 && churn + retention == 100.0
  {
    RatioBounds(ChurnedCount(c.cells) as real, rows as real);
  }

  function Retention(churn: Option<real>): Option<real> {
    match churn
    case None => None
    case Some(p) => Some(100.0 - p)
  }

  /** The largest segment and its share of the rows. */
  function ShareOf(c: Column, rows: nat): KpiValue
    requires Mode(c.cells).Some? && |c.cells| == rows
  {
    var v := Mode(c.cells).value;
    Share(v, Freq(c.cells, v) as real / rows as real * 100.0)
  }

  /** The largest segment's share is a positive percentage. */
  lemma LargestSegmentShare(c: Column, rows: nat)
    requires Mode(c.cells).Some? && |c.cells| == rows
    ensures 0.0 < ShareOf(c, rows).share <= 100.0
    ensures ShareOf(c, rows).segment == Mode(c.cells).value
  {
    var v := Mode(c.cells).value;
    ModeIsMostFrequent(c.cells, v);
    FreqBound(c.cells, v);
    RatioBounds(Freq(c.cells, v) as real, rows as real);
  }

  /** A part of a positive whole is a fraction between 0 and 1, and a
      positive part a positive fraction. */
  lemma RatioBounds(part: real, whole: real)
    requires 0.0 <= part <= whole && whole > 0.0
    ensures 0.0 <= part / whole <= 1.0
    ensures part > 0.0 ==> part / whole > 0.0
  {
    var q := part / whole;
    assert q * whole == part;
  }

  /** `Series.idxmax` without NaN and `max(d, key=d.get)`: the first position
      holding the largest defined value; `None` when no value is defined. */
  function FirstMaxDefined(xs: seq<Option<real>>): (r: Option<nat>)
    ensures r.None? <==> forall i :: 0 <= i < |xs| ==> xs[i].None?
    ensures r.Some? ==> r.value < |xs| && xs[r.value].Some?
    ensures r.Some? ==> forall i :: 0 <= i < |xs| && xs[i].Some? ==> xs[i].value <= xs[r.value].value
    ensures r.Some? ==> forall i :: 0 <= i < r.value && xs[i].Some? ==> xs[i].value < xs[r.value].value
  {
    FirstMaxFrom(xs, 0, None)
  }

  function FirstMaxFrom(xs: seq<Option<real>>, i: nat, best: Option<nat>): (r: Option<nat>)
    requires i <= |xs|
    requires best.Some? ==> best.value < i && xs[best.value].Some?
    requires best.None? ==> forall j :: 0 <= j < i ==> xs[j].None?
    requires best.Some? ==> forall j :: 0 <= j < i && xs[j].Some? ==> xs[j].value <= xs[best.value].value
    requires best.Some? ==> forall j :: 0 <= j < best.value && xs[j].Some? ==> xs[j].value < xs[best.value].value
    ensures r.None? <==> forall j :: 0 <= j < |xs| ==> xs[j].None?
    ensures r.Some? ==> r.value < |xs| && xs[r.value].Some?
    ensures r.Some? ==> forall j :: 0 <= j < |xs| && xs[j].Some? ==> xs[j].value <= xs[r.value].value
    ensures r.Some? ==> forall j :: 0 <= j < r.value && xs[j].Some? ==> xs[j].value < xs[r.value].value
    decreases |xs| - i
  {
    if i == |xs| then best
    else if xs[i].Some? && (best.None? || xs[i].value > xs[best.value].value) then FirstMaxFrom(xs, i + 1, Some(i))
    else FirstMaxFrom(xs, i + 1, best)
  }

  /** `df[numeric_cols].mean()`. */
  function Means(cols: seq<Column>): (r: seq<Option<real>>)
    ensures |r| == |cols|
    ensures forall i :: 0 <= i < |cols| ==> r[i] == Mean(cols[i].cells)
  {
    if cols == [] then [] else [Mean(cols[0].cells)] + Means(cols[1..])
  }

  /** `{col: nunique / len(df)}` for `rows > 0`. */
  function Diversities(cols: seq<Column>, rows: nat): (r: seq<Option<real>>)
    requires rows > 0
    ensures |r| == |cols|
    ensures forall i :: 0 <= i < |cols| ==> r[i] == Some(Nunique(cols[i].cells) as real / rows as real)
  {
    if cols == [] then [] else [Some(Nunique(cols[0].cells) as real / rows as real)] + Diversities(cols[1..], rows)
  }

  /** A column was found but holds no value: `value_counts()` is empty and
      taking its first entry raises. */
  predicate HoldsNoValue(c: Option<Column>) {
    c.Some? && Mode(c.value.cells).None?
  }

  // ---------------------------------------------------------------------
  // Sales
  // ---------------------------------------------------------------------

  /** The columns `extract_sales_kpis` looks for. */
  datatype SalesColumns = SalesColumns(
    revenue: Option<Column>, quantity: Option<Column>, product: Option<Column>,
    margin: Option<Column>, date: Option<Column>)

  function SalesColumnsOf(t: Table): SalesColumns {
    SalesColumns(Resolve(t, RevenueKeywords), Resolve(t, QuantityKeywords), Resolve(t, ProductKeywords),
      Resolve(t, MarginKeywords), Resolve(t, DateKeywords))
  }

  /** `extract_sales_kpis` raises exactly when a product column is found
      that holds no value at all. */
  predicate SalesFails(t: Table) {
    HoldsNoValue(SalesColumnsOf(t).product)
  }

  /** The dictionary assignments of each block, in source order. */
  function RevenueStep(d: Kpis, rev: Option<Column>): Kpis {
    if NumericColumn(rev) then
      var c := rev.value.cells;
      Put(Put(Put(d, TotalRevenue, Amount(Sum(c))), AverageOrderValue, Average(Mean(c))), RevenueStdDev, Unmodelled)
    else d
  }

  function QuantityStep(d: Kpis, qty: Option<Column>): Kpis {
    if NumericColumn(qty) then
      var c := qty.value.cells;
      Put(Put(d, TotalUnitsSold, Amount(Sum(c))), AvgUnitsPerTransaction, Average(Mean(c)))
    else d
  }

  function ProductStep(d: Kpis, prod: Option<Column>): Kpis
    requires !HoldsNoValue(prod)
  {
    if prod.Some? then Put(Put(d, UniqueProducts, Count(Nunique(prod.value.cells))), TopProduct, TopOf(prod.value))
    else d
  }

  function MarginStep(d: Kpis, margin: Option<Column>): Kpis {
    if NumericColumn(margin) then
      Put(Put(d, AverageMargin, Average(Mean(margin.value.cells))), MarginRange, Unmodelled)
    else d
  }

  /** Transactions per day of the date span: `len(df) / date_range`. */
  function PerDay(rows: nat, days: int): real
    requires days > 0
  {
    rows as real / days as real
  }

  function DateStep(d: Kpis, date: Option<Column>, rows: nat): Kpis {
    if DatetimeColumn(date) then
      var span := DateRange(date.value.cells);
      var d' := Put(d, DataPeriod, Days(span));
      if span.Some? && span.value > 0 then Put(d', AvgTransactionsPerDay, Rate(PerDay(rows, span.value))) else d'
    else d
  }

  /** The sales KPIs: the five blocks applied to an empty dict. */
  function SalesKpisOf(cols: SalesColumns, rows: nat): Kpis
    requires !HoldsNoValue(cols.product)
  {
    DateStep(MarginStep(ProductStep(QuantityStep(RevenueStep([], cols.revenue), cols.quantity), cols.product),
      cols.margin), cols.date, rows)
  }

  /** What `kpis.get(k)` gives on the sales KPIs: each key is present exactly
      when its column is found (and numeric, or datetime, where the source
      checks the dtype), with the quantity the source formats. */
  function SalesEntry(cols: SalesColumns, rows: nat, k: KpiKey): Option<KpiValue>
    requires !HoldsNoValue(cols.product)
  {
    var rev, qty, prod, margin, date := cols.revenue, cols.quantity, cols.product, cols.margin, cols.date;
    if k.TotalRevenue? then
      if NumericColumn(rev) then Some(Amount(Sum(rev.value.cells))) else None
    else if k.AverageOrderValue? then
      if NumericColumn(rev) then Some(Average(Mean(rev.value.cells))) else None
    else if k.RevenueStdDev? then
      if NumericColumn(rev) then Some(Unmodelled) else None
    else if k.TotalUnitsSold? then
      if NumericColumn(qty) then Some(Amount(Sum(qty.value.cells))) else None
    else if k.AvgUnitsPerTransaction? then
      if NumericColumn(qty) then Some(Average(Mean(qty.value.cells))) else None
    else if k.UniqueProducts? then
      if prod.Some? then Some(Count(Nunique(prod.value.cells))) else None
    else if k.TopProduct? then
      if prod.Some? then Some(TopOf(prod.value)) else None
    else if k.AverageMargin? then
      if NumericColumn(margin) then Some(Average(Mean(margin.value.cells))) else None
    else if k.MarginRange? then
      if NumericColumn(margin) then Some(Unmodelled) else None
    else if k.DataPeriod? then
      if DatetimeColumn(date) then Some(Days(DateRange(date.value.cells))) else None
    else if k.AvgTransactionsPerDay? then
      if DatetimeColumn(date) && DateRange(date.value.cells).Some? && DateRange(date.value.cells).value > 0
      then Some(Rate(PerDay(rows, DateRange(date.value.cells).value))) else None
    else None
  }

  /** Each block sets its own keys, to the sales entry, when its column
      qualifies, and leaves every other key as it was. */
  lemma RevenueStepGet(d: Kpis, cols: SalesColumns, rows: nat, k: KpiKey)
    requires !HoldsNoValue(cols.product)
    ensures Get(RevenueStep(d, cols.revenue), k) ==
      if NumericColumn(cols.revenue) && (k.TotalRevenue? || k.AverageOrderValue? || k.RevenueStdDev?)
      then SalesEntry(cols, rows, k) else Get(d, k)
  {
    if NumericColumn(cols.revenue) {
      var c := cols.revenue.value.cells;
      var d1 := Put(d, TotalRevenue, Amount(Sum(c)));
      var d2 := Put(d1, AverageOrderValue, Average(Mean(c)));
      GetPut(d, TotalRevenue, Amount(Sum(c)), k);
      GetPut(d1, AverageOrderValue, Average(Mean(c)), k);
      GetPut(d2, RevenueStdDev, Unmodelled, k);
    }
  }

  lemma QuantityStepGet(d: Kpis, cols: SalesColumns, rows: nat, k: KpiKey)
    requires !HoldsNoValue(cols.product)
    ensures Get(QuantityStep(d, cols.quantity), k) ==
      if NumericColumn(cols.quantity) && (k.TotalUnitsSold? || k.AvgUnitsPerTransaction?)
      then SalesEntry(cols, rows, k) else Get(d, k)
  {
    if NumericColumn(cols.quantity) {
      var c := cols.quantity.value.cells;
      GetPut(d, TotalUnitsSold, Amount(Sum(c)), k);
      GetPut(Put(d, TotalUnitsSold, Amount(Sum(c))), AvgUnitsPerTransaction, Average(Mean(c)), k);
    }
  }

  lemma ProductStepGet(d: Kpis, cols: SalesColumns, rows: nat, k: KpiKey)
    requires !HoldsNoValue(cols.product)
    ensures Get(ProductStep(d, cols.product), k) ==
      if cols.product.Some? && (k.UniqueProducts? || k.TopProduct?)
      then SalesEntry(cols, rows, k) else Get(d, k)
  {
    if cols.product.Some? {
      var p := cols.product.value;
      GetPut(d, UniqueProducts, Count(Nunique(p.cells)), k);
      GetPut(Put(d, UniqueProducts, Count(Nunique(p.cells))), TopProduct, TopOf(p), k);
    }
  }

  lemma MarginStepGet(d: Kpis, cols: SalesColumns, rows: nat, k: KpiKey)
    requires !HoldsNoValue(cols.product)
    ensures Get(MarginStep(d, cols.margin), k) ==
      if NumericColumn(cols.margin) && (k.AverageMargin? || k.MarginRange?)
      then SalesEntry(cols, rows, k) else Get(d, k)
  {
    if NumericColumn(cols.margin) {
      var c := cols.margin.value.cells;
      GetPut(d, AverageMargin, Average(Mean(c)), k);
      GetPut(Put(d, AverageMargin, Average(Mean(c))), MarginRange, Unmodelled, k);
    }
  }

  lemma DateStepGet(d: Kpis, cols: SalesColumns, rows: nat, k: KpiKey)
    requires !HoldsNoValue(cols.product)
    ensures Get(DateStep(d, cols.date, rows), k) ==
      if (k.DataPeriod? || k.AvgTransactionsPerDay?) && SalesEntry(cols, rows, k).Some?
      then SalesEntry(cols, rows, k) else Get(d, k)
  {
    if DatetimeColumn(cols.date) {
      var span := DateRange(cols.date.value.cells);
      GetPut(d, DataPeriod, Days(span), k);
      if span.Some? && span.value > 0 {
        GetPut(Put(d, DataPeriod, Days(span)), AvgTransactionsPerDay, Rate(PerDay(rows, span.value)), k);
      }
    }
  }

  /** Every lookup in the sales KPIs gives the entry the source promises;
      in particular no key of another domain appears. */
  lemma SalesLookup(cols: SalesColumns, rows: nat, k: KpiKey)
    requires !HoldsNoValue(cols.product)
    ensures Get(SalesKpisOf(cols, rows), k) == SalesEntry(cols, rows, k)
    ensures !Has(SalesKpisOf(cols, rows), DatasetType)
  {
    var d1 := RevenueStep([], cols.revenue);
    var d2 := QuantityStep(d1, cols.quantity);
    var d3 := ProductStep(d2, cols.product);
    var d4 := MarginStep(d3, cols.margin);
    RevenueStepGet([], cols, rows, k);
    QuantityStepGet(d1, cols, rows, k);
    ProductStepGet(d2, cols, rows, k);
    MarginStepGet(d3, cols, rows, k);
    DateStepGet(d4, cols, rows, k);
    RevenueStepGet([], cols, rows, DatasetType);
    QuantityStepGet(d1, cols, rows, DatasetType);
    ProductStepGet(d2, cols, rows, DatasetType);
    MarginStepGet(d3, cols, rows, DatasetType);
    DateStepGet(d4, cols, rows, DatasetType);
  }

  /** The block assignments of `extract_sales_kpis`, one method each. */
  method PutRevenueKpis(d: Kpis, rev: Option<Column>) returns (d': Kpis)
    ensures d' == RevenueStep(d, rev)
  {
    d' := d;
    if NumericColumn(rev) {
      var c := rev.value.cells;
      d' := Put(d', TotalRevenue, Amount(Sum(c)));
      d' := Put(d', AverageOrderValue, Average(Mean(c)));
      d' := Put(d', RevenueStdDev, Unmodelled);
    }
  }

  method PutQuantityKpis(d: Kpis, qty: Option<Column>) returns (d': Kpis)
    ensures d' == QuantityStep(d, qty)
  {
    d' := d;
    if NumericColumn(qty) {
      var c := qty.value.cells;
      d' := Put(d', TotalUnitsSold, Amount(Sum(c)));
      d' := Put(d', AvgUnitsPerTransaction, Average(Mean(c)));
    }
  }

  /** The product block raises after `Unique Products` is set when the column
      holds no value. */
  method PutProductKpis(d: Kpis, prod: Option<Column>) returns (r: Result<Kpis>)
    ensures r.Err? <==> HoldsNoValue(prod)
    ensures r.Ok? ==> r.value == ProductStep(d, prod)
  {
    var d' := d;
    if prod.Some? {
      d' := Put(d', UniqueProducts, Count(Nunique(prod.value.cells)));
      if Mode(prod.value.cells).None? {
        return Err(IlocErrorMsg);
      }
      d' := Put(d', TopProduct, TopOf(prod.value));
    }
    return Ok(d');
  }

  method PutMarginKpis(d: Kpis, margin: Option<Column>) returns (d': Kpis)
    ensures d' == MarginStep(d, margin)
  {
    d' := d;
    if NumericColumn(margin) {
      d' := Put(d', AverageMargin, Average(Mean(margin.value.cells)));
      d' := Put(d', MarginRange, Unmodelled);
    }
  }

  method PutDateKpis(d: Kpis, date: Option<Column>, rows: nat) returns (d': Kpis)
    ensures d' == DateStep(d, date, rows)
  {
    d' := d;
    if DatetimeColumn(date) {
      var span := DateRange(date.value.cells);
      d' := Put(d', DataPeriod, Days(span));
      if span.Some? && span.value > 0 {
        d' := Put(d', AvgTransactionsPerDay, Rate(PerDay(rows, span.value)));
      }
    }
  }

  /** `extract_sales_kpis` once its columns are found. */
  method SalesKpis(cols: SalesColumns, rows: nat) returns (r: Result<Kpis>)
    ensures r.Err? <==> HoldsNoValue(cols.product)
    ensures r.Ok? ==> r.value == SalesKpisOf(cols, rows)
  {
    var d := PutRevenueKpis([], cols.revenue);
    d := PutQuantityKpis(d, cols.quantity);
    var p := PutProductKpis(d, cols.product);
    if p.Err? {
      return Err(p.error);
    }
    d := PutMarginKpis(p.value, cols.margin);
    d := PutDateKpis(d, cols.date, rows);
    return Ok(d);
  }

  // ---------------------------------------------------------------------
  // Finance
  // ---------------------------------------------------------------------

  /** The columns `extract_finance_kpis` looks for. */
  datatype FinanceColumns = FinanceColumns(
    balance: Option<Column>, debit: Option<Column>, credit: Option<Column>,
    account: Option<Column>, transaction: Option<Column>)

  function FinanceColumnsOf(t: Table): FinanceColumns {
    FinanceColumns(Resolve(t, BalanceKeywords), Resolve(t, DebitKeywords), Resolve(t, CreditKeywords),
      Resolve(t, AccountKeywords), Resolve(t, TransactionKeywords))
  }

  /** `credit.sum() - debit.sum()` raises when either sum is not a number. */
  predicate NetFails(debit: Option<Column>, credit: Option<Column>) {
    debit.Some? && credit.Some? && (NumberSum(debit.value).None? || NumberSum(credit.value).None?)
  }

  /** `extract_finance_kpis` raises exactly when the net position cannot be
      computed or a transaction column is found that holds no value. */
  predicate FinanceFailsWith(cols: FinanceColumns) {
    NetFails(cols.debit, cols.credit) || HoldsNoValue(cols.transaction)
  }

  predicate FinanceFails(t: Table) {
    FinanceFailsWith(FinanceColumnsOf(t))
  }

  function BalanceStep(d: Kpis, balance: Option<Column>): Kpis {
    if NumericColumn(balance) then
      var c := balance.value.cells;
      Put(Put(Put(d, TotalBalance, Amount(Sum(c))), AverageBalance, Average(Mean(c))), MedianBalance, Unmodelled)
    else d
  }

  function DebitStep(d: Kpis, debit: Option<Column>): Kpis {
    if NumericColumn(debit) then
      var c := debit.value.cells;
      Put(Put(d, TotalDebits, Amount(Sum(c))), AverageDebit, Average(Mean(c)))
    else d
  }

  function CreditStep(d: Kpis, credit: Option<Column>): Kpis {
    if NumericColumn(credit) then
      var c := credit.value.cells;
      Put(Put(d, TotalCredits, Amount(Sum(c))), AverageCredit, Average(Mean(c)))
    else d
  }

  /** Both columns found, whatever their dtype: the credit sum less the debit sum. */
  function NetStep(d: Kpis, debit: Option<Column>, credit: Option<Column>): Kpis
    requires !NetFails(debit, credit)
  {
    if debit.Some? && credit.Some? then
      Put(d, NetPosition, Amount(NumberSum(credit.value).value - NumberSum(debit.value).value))
    else d
  }

  function AccountStep(d: Kpis, account: Option<Column>): Kpis {
    if account.Some? then Put(d, TotalAccounts, Count(Nunique(account.value.cells))) else d
  }

  function TransactionStep(d: Kpis, transaction: Option<Column>): Kpis
    requires !HoldsNoValue(transaction)
  {
    if transaction.Some? then
      var c := transaction.value.cells;
      Put(Put(d, TransactionTypes, Count(Nunique(c))), MostCommonTransaction, Label(Mode(c).value))
    else d
  }

  /** The finance KPIs: the six blocks applied to an empty dict. */
  function FinanceKpisOf(cols: FinanceColumns): Kpis
    requires !FinanceFailsWith(cols)
  {
    TransactionStep(AccountStep(NetStep(CreditStep(DebitStep(BalanceStep([], cols.balance), cols.debit),
      cols.credit), cols.debit, cols.credit), cols.account), cols.transaction)
  }

  /** What `kpis.get(k)` gives on the finance KPIs. */
  function FinanceEntry(cols: FinanceColumns, k: KpiKey): Option<KpiValue>
    requires !FinanceFailsWith(cols)
  {
    var balance, debit, credit, account, transaction := cols.balance, cols.debit, cols.credit, cols.account, cols.transaction;
    if k.TotalBalance? then
      if NumericColumn(balance) then Some(Amount(Sum(balance.value.cells))) else None
    else if k.AverageBalance? then
      if NumericColumn(balance) then Some(Average(Mean(balance.value.cells))) else None
    else if k.MedianBalance? then
      if NumericColumn(balance) then Some(Unmodelled) else None
    else if k.TotalDebits? then
      if NumericColumn(debit) then Some(Amount(Sum(debit.value.cells))) else None
    else if k.AverageDebit? then
      if NumericColumn(debit) then Some(Average(Mean(debit.value.cells))) else None
    else if k.TotalCredits? then
      if NumericColumn(credit) then Some(Amount(Sum(credit.value.cells))) else None
    else if k.AverageCredit? then
      if NumericColumn(credit) then Some(Average(Mean(credit.value.cells))) else None
    else if k.NetPosition? then
      if debit.Some? && credit.Some? then Some(Amount(NumberSum(credit.value).value - NumberSum(debit.value).value)) else None
    else if k.TotalAccounts? then
      if account.Some? then Some(Count(Nunique(account.value.cells))) else None
    else if k.TransactionTypes? then
      if transaction.Some? then Some(Count(Nunique(transaction.value.cells))) else None
    else if k.MostCommonTransaction? then
      if transaction.Some? then Some(Label(Mode(transaction.value.cells).value)) else None
    else None
  }

  lemma BalanceStepGet(d: Kpis, cols: FinanceColumns, k: KpiKey)
    requires !FinanceFailsWith(cols)
    ensures Get(BalanceStep(d, cols.balance), k) ==
      if NumericColumn(cols.balance) && (k.TotalBalance? || k.AverageBalance? || k.MedianBalance?)
      then FinanceEntry(cols, k) else Get(d, k)
  {
    if NumericColumn(cols.balance) {
      var c := cols.balance.value.cells;
      var d1 := Put(d, TotalBalance, Amount(Sum(c)));
      GetPut(d, TotalBalance, Amount(Sum(c)), k);
      GetPut(d1, AverageBalance, Average(Mean(c)), k);
      GetPut(Put(d1, AverageBalance, Average(Mean(c))), MedianBalance, Unmodelled, k);
    }
  }

  lemma DebitStepGet(d: Kpis, cols: FinanceColumns, k: KpiKey)
    requires !FinanceFailsWith(cols)
    ensures Get(DebitStep(d, cols.debit), k) ==
      if NumericColumn(cols.debit) && (k.TotalDebits? || k.AverageDebit?)
      then FinanceEntry(cols, k) else Get(d, k)
  {
    if NumericColumn(cols.debit) {
      var c := cols.debit.value.cells;
      GetPut(d, TotalDebits, Amount(Sum(c)), k);
      GetPut(Put(d, TotalDebits, Amount(Sum(c))), AverageDebit, Average(Mean(c)), k);
    }
  }

  lemma CreditStepGet(d: Kpis, cols: FinanceColumns, k: KpiKey)
    requires !FinanceFailsWith(cols)
    ensures Get(CreditStep(d, cols.credit), k) ==
      if NumericColumn(cols.credit) && (k.TotalCredits? || k.AverageCredit?)
      then FinanceEntry(cols, k) else Get(d, k)
  {
    if NumericColumn(cols.credit) {
      var c := cols.credit.value.cells;
      GetPut(d, TotalCredits, Amount(Sum(c)), k);
      GetPut(Put(d, TotalCredits, Amount(Sum(c))), AverageCredit, Average(Mean(c)), k);
    }
  }

  lemma NetStepGet(d: Kpis, cols: FinanceColumns, k: KpiKey)
    requires !FinanceFailsWith(cols)
    ensures Get(NetStep(d, cols.debit, cols.credit), k) ==
      if cols.debit.Some? && cols.credit.Some? && k.NetPosition? then FinanceEntry(cols, k) else Get(d, k)
  {
    if cols.debit.Some? && cols.credit.Some? {
      GetPut(d, NetPosition, Amount(NumberSum(cols.credit.value).value - NumberSum(cols.debit.value).value), k);
    }
  }

  lemma AccountStepGet(d: Kpis, cols: FinanceColumns, k: KpiKey)
    requires !FinanceFailsWith(cols)
    ensures Get(AccountStep(d, cols.account), k) ==
      if cols.account.Some? && k.TotalAccounts? then FinanceEntry(cols, k) else Get(d, k)
  {
    if cols.account.Some? {
      GetPut(d, TotalAccounts, Count(Nunique(cols.account.value.cells)), k);
    }
  }

  lemma TransactionStepGet(d: Kpis, cols: FinanceColumns, k: KpiKey)
    requires !FinanceFailsWith(cols)
    ensures Get(TransactionStep(d, cols.transaction), k) ==
      if cols.transaction.Some? && (k.TransactionTypes? || k.MostCommonTransaction?)
      then FinanceEntry(cols, k) else Get(d, k)
  {
    if cols.transaction.Some? {
      var c := cols.transaction.value.cells;
      GetPut(d, TransactionTypes, Count(Nunique(c)), k);
      GetPut(Put(d, TransactionTypes, Count(Nunique(c))), MostCommonTransaction, Label(Mode(c).value), k);
    }
  }

  /** Every lookup in the finance KPIs gives the entry the source promises. */
  lemma FinanceLookup(cols: FinanceColumns, k: KpiKey)
    requires !FinanceFailsWith(cols)
    ensures Get(FinanceKpisOf(cols), k) == FinanceEntry(cols, k)
    ensures !Has(FinanceKpisOf(cols), DatasetType)
  {
    var d1 := BalanceStep([], cols.balance);
    var d2 := DebitStep(d1, cols.debit);
    var d3 := CreditStep(d2, cols.credit);
    var d4 := NetStep(d3, cols.debit, cols.credit);
    var d5 := AccountStep(d4, cols.account);
    BalanceStepGet([], cols, k);
    DebitStepGet(d1, cols, k);
    CreditStepGet(d2, cols, k);
    NetStepGet(d3, cols, k);
    AccountStepGet(d4, cols, k);
    TransactionStepGet(d5, cols, k);
    BalanceStepGet([], cols, DatasetType);
    DebitStepGet(d1, cols, DatasetType);
    CreditStepGet(d2, cols, DatasetType);
    NetStepGet(d3, cols, DatasetType);
    AccountStepGet(d4, cols, DatasetType);
    TransactionStepGet(d5, cols, DatasetType);
  }

  /** The net position is present whenever both a debit-like and a
      credit-like column are found, numeric or not, and its amount is the
      credit sum less the debit sum. */
  lemma NetPositionPresent(cols: FinanceColumns)
    requires !FinanceFailsWith(cols)
    ensures Has(FinanceKpisOf(cols), NetPosition) <==> cols.debit.Some? && cols.credit.Some?
    ensures cols.debit.Some? && cols.credit.Some? ==>
      Get(FinanceKpisOf(cols), NetPosition) == Some(Amount(NumberSum(cols.credit.value).value - NumberSum(cols.debit.value).value))
  {
    FinanceLookup(cols, NetPosition);
  }

  method PutBalanceKpis(d: Kpis, balance: Option<Column>) returns (d': Kpis)
    ensures d' == BalanceStep(d, balance)
  {
    d' := d;
    if NumericColumn(balance) {
      var c := balance.value.cells;
      d' := Put(d', TotalBalance, Amount(Sum(c)));
      d' := Put(d', AverageBalance, Average(Mean(c)));
      d' := Put(d', MedianBalance, Unmodelled);
    }
  }

  method PutDebitKpis(d: Kpis, debit: Option<Column>) returns (d': Kpis)
    ensures d' == DebitStep(d, debit)
  {
    d' := d;
    if NumericColumn(debit) {
      var c := debit.value.cells;
      d' := Put(d', TotalDebits, Amount(Sum(c)));
      d' := Put(d', AverageDebit, Average(Mean(c)));
    }
  }

  method PutCreditKpis(d: Kpis, credit: Option<Column>) returns (d': Kpis)
    ensures d' == CreditStep(d, credit)
  {
    d' := d;
    if NumericColumn(credit) {
      var c := credit.value.cells;
      d' := Put(d', TotalCredits, Amount(Sum(c)));
      d' := Put(d', AverageCredit, Average(Mean(c)));
    }
  }

  /** The subtraction raises when a sum is text or a date. */
  method PutNetKpis(d: Kpis, debit: Option<Column>, credit: Option<Column>) returns (r: Result<Kpis>)
    ensures r.Err? <==> NetFails(debit, credit)
    ensures r.Ok? ==> r.value == NetStep(d, debit, credit)
  {
    if debit.Some? && credit.Some? {
      var credits, debits := NumberSum(credit.value), NumberSum(debit.value);
      if credits.None? || debits.None? {
        return Err(TypeErrorMsg);
      }
      return Ok(Put(d, NetPosition, Amount(credits.value - debits.value)));
    }
    return Ok(d);
  }

  method PutAccountKpis(d: Kpis, account: Option<Column>) returns (d': Kpis)
    ensures d' == AccountStep(d, account)
  {
    d' := d;
    if account.Some? {
      d' := Put(d', TotalAccounts, Count(Nunique(account.value.cells)));
    }
  }

  method PutTransactionKpis(d: Kpis, transaction: Option<Column>) returns (r: Result<Kpis>)
    ensures r.Err? <==> HoldsNoValue(transaction)
    ensures r.Ok? ==> r.value == TransactionStep(d, transaction)
  {
    var d' := d;
    if transaction.Some? {
      var c := transaction.value.cells;
      d' := Put(d', TransactionTypes, Count(Nunique(c)));
      var top := Mode(c);
      if top.None? {
        return Err(IndexErrorMsg);
      }
      d' := Put(d', MostCommonTransaction, Label(top.value));
    }
    return Ok(d');
  }

  /** `extract_finance_kpis` once its columns are found. */
  method FinanceKpis(cols: FinanceColumns) returns (r: Result<Kpis>)
    ensures r.Err? <==> FinanceFailsWith(cols)
    ensures r.Ok? ==> r.value == FinanceKpisOf(cols)
  {
    var d := PutBalanceKpis([], cols.balance);
    d := PutDebitKpis(d, cols.debit);
    d := PutCreditKpis(d, cols.credit);
    var n := PutNetKpis(d, cols.debit, cols.credit);
    if n.Err? {
      return Err(n.error);
    }
    d := PutAccountKpis(n.value, cols.account);
    r := PutTransactionKpis(d, cols.transaction);
  }

  // ---------------------------------------------------------------------
  // Customer
  // ---------------------------------------------------------------------

  /** The columns `extract_customer_kpis` looks for. */
  datatype CustomerColumns = CustomerColumns(
    customer: Option<Column>, churn: Option<Column>, age: Option<Column>,
    segment: Option<Column>, value: Option<Column>)

  function CustomerColumnsOf(t: Table): CustomerColumns {
    CustomerColumns(Resolve(t, CustomerKeywords), Resolve(t, ChurnKeywords), Resolve(t, AgeKeywords),
      Resolve(t, SegmentKeywords), Resolve(t, ValueKeywords))
  }

  /** A found column has one cell per row of the frame. */
  predicate HasRows(c: Option<Column>, rows: nat) {
    c.Some? ==> |c.value.cells| == rows
  }

  /** `extract_customer_kpis` raises exactly when a segment column is found
      that holds no value at all. */
  predicate CustomerFails(t: Table) {
    HoldsNoValue(CustomerColumnsOf(t).segment)
  }

  function CustomerStep(d: Kpis, customer: Option<Column>): Kpis {
    if customer.Some? then Put(d, TotalCustomers, Count(Nunique(customer.value.cells))) else d
  }

  function ChurnStep(d: Kpis, churn: Option<Column>, rows: nat): Kpis {
    if churn.Some? then
      var pct := ChurnPct(churn.value, rows);
      Put(Put(d, ChurnRate, Percent(pct)), RetentionRate, Percent(Retention(pct)))
    else d
  }

  function AgeStep(d: Kpis, age: Option<Column>): Kpis {
    if NumericColumn(age) then
      Put(Put(d, AverageAgeTenure, Average(Mean(age.value.cells))), AgeTenureRange, Unmodelled)
    else d
  }

  function SegmentStep(d: Kpis, segment: Option<Column>, rows: nat): Kpis
    requires !HoldsNoValue(segment) && HasRows(segment, rows)
  {
    if segment.Some? then
      Put(Put(d, CustomerSegments, Count(Nunique(segment.value.cells))), LargestSegment, ShareOf(segment.value, rows))
    else d
  }

  function ValueStep(d: Kpis, value: Option<Column>): Kpis {
    if NumericColumn(value) then
      var c := value.value.cells;
      Put(Put(Put(d, AvgCustomerValue, Average(Mean(c))), TotalCustomerValue, Amount(Sum(c))), MedianCustomerValue, Unmodelled)
    else d
  }

  /** The customer KPIs: the five blocks applied to an empty dict. */
  function CustomerKpisOf(cols: CustomerColumns, rows: nat): Kpis
    requires !HoldsNoValue(cols.segment) && HasRows(cols.segment, rows)
  {
    ValueStep(SegmentStep(AgeStep(ChurnStep(CustomerStep([], cols.customer), cols.churn, rows), cols.age),
      cols.segment, rows), cols.value)
  }

  /** What `kpis.get(k)` gives on the customer KPIs. */
  function CustomerEntry(cols: CustomerColumns, rows: nat, k: KpiKey): Option<KpiValue>
    requires !HoldsNoValue(cols.segment) && HasRows(cols.segment, rows)
  {
    var customer, churn, age, segment, value := cols.customer, cols.churn, cols.age, cols.segment, cols.value;
    if k.TotalCustomers? then
      if customer.Some? then Some(Count(Nunique(customer.value.cells))) else None
    else if k.ChurnRate? then
      if churn.Some? then Some(Percent(ChurnPct(churn.value, rows))) else None
    else if k.RetentionRate? then
      if churn.Some? then Some(Percent(Retention(ChurnPct(churn.value, rows)))) else None
    else if k.AverageAgeTenure? then
      if NumericColumn(age) then Some(Average(Mean(age.value.cells))) else None
    else if k.AgeTenureRange? then
      if NumericColumn(age) then Some(Unmodelled) else None
    else if k.CustomerSegments? then
      if segment.Some? then Some(Count(Nunique(segment.value.cells))) else None
    else if k.LargestSegment? then
      if segment.Some? then Some(ShareOf(segment.value, rows)) else None
    else if k.AvgCustomerValue? then
      if NumericColumn(value) then Some(Average(Mean(value.value.cells))) else None
    else if k.TotalCustomerValue? then
      if NumericColumn(value) then Some(Amount(Sum(value.value.cells))) else None
    else if k.MedianCustomerValue? then
      if NumericColumn(value) then Some(Unmodelled) else None
    else None
  }

  lemma CustomerStepGet(d: Kpis, cols: CustomerColumns, rows: nat, k: KpiKey)
    requires !HoldsNoValue(cols.segment) && HasRows(cols.segment, rows)
    ensures Get(CustomerStep(d, cols.customer), k) ==
      if cols.customer.Some? && k.TotalCustomers? then CustomerEntry(cols, rows, k) else Get(d, k)
  {
    if cols.customer.Some? {
      GetPut(d, TotalCustomers, Count(Nunique(cols.customer.value.cells)), k);
    }
  }

  lemma ChurnStepGet(d: Kpis, cols: CustomerColumns, rows: nat, k: KpiKey)
    requires !HoldsNoValue(cols.segment) && HasRows(cols.segment, rows)
    ensures Get(ChurnStep(d, cols.churn, rows), k) ==
      if cols.churn.Some? && (k.ChurnRate? || k.RetentionRate?) then CustomerEntry(cols, rows, k) else Get(d, k)
  {
    if cols.churn.Some? {
      var pct := ChurnPct(cols.churn.value, rows);
      GetPut(d, ChurnRate, Percent(pct), k);
      GetPut(Put(d, ChurnRate, Percent(pct)), RetentionRate, Percent(Retention(pct)), k);
    }
  }

  lemma AgeStepGet(d: Kpis, cols: CustomerColumns, rows: nat, k: KpiKey)
    requires !HoldsNoValue(cols.segment) && HasRows(cols.segment, rows)
    ensures Get(AgeStep(d, cols.age), k) ==
      if NumericColumn(cols.age) && (k.AverageAgeTenure? || k.AgeTenureRange?) then CustomerEntry(cols, rows, k) else Get(d, k)
  {
    if NumericColumn(cols.age) {
      var c := cols.age.value.cells;
      GetPut(d, AverageAgeTenure, Average(Mean(c)), k);
      GetPut(Put(d, AverageAgeTenure, Average(Mean(c))), AgeTenureRange, Unmodelled, k);
    }
  }

  lemma SegmentStepGet(d: Kpis, cols: CustomerColumns, rows: nat, k: KpiKey)
    requires !HoldsNoValue(cols.segment) && HasRows(cols.segment, rows)
    ensures Get(SegmentStep(d, cols.segment, rows), k) ==
      if cols.segment.Some? && (k.CustomerSegments? || k.LargestSegment?) then CustomerEntry(cols, rows, k) else Get(d, k)
  {
    if cols.segment.Some? {
      var s := cols.segment.value;
      GetPut(d, CustomerSegments, Count(Nunique(s.cells)), k);
      GetPut(Put(d, CustomerSegments, Count(Nunique(s.cells))), LargestSegment, ShareOf(s, rows), k);
    }
  }

  lemma ValueStepGet(d: Kpis, cols: CustomerColumns, rows: nat, k: KpiKey)
    requires !HoldsNoValue(cols.segment) && HasRows(cols.segment, rows)
    ensures Get(ValueStep(d, cols.value), k) ==
      if NumericColumn(cols.value) && (k.AvgCustomerValue? || k.TotalCustomerValue? || k.MedianCustomerValue?)
      then CustomerEntry(cols, rows, k) else Get(d, k)
  {
    if NumericColumn(cols.value) {
      var c := cols.value.value.cells;
      var d1 := Put(d, AvgCustomerValue, Average(Mean(c)));
      GetPut(d, AvgCustomerValue, Average(Mean(c)), k);
      GetPut(d1, TotalCustomerValue, Amount(Sum(c)), k);
      GetPut(Put(d1, TotalCustomerValue, Amount(Sum(c))), MedianCustomerValue, Unmodelled, k);
    }
  }

  /** Every lookup in the customer KPIs gives the entry the source promises. */
  lemma CustomerLookup(cols: CustomerColumns, rows: nat, k: KpiKey)
    requires !HoldsNoValue(cols.segment) && HasRows(cols.segment, rows)
    ensures Get(CustomerKpisOf(cols, rows), k) == CustomerEntry(cols, rows, k)
    ensures !Has(CustomerKpisOf(cols, rows), DatasetType)
  {
    var d1 := CustomerStep([], cols.customer);
    var d2 := ChurnStep(d1, cols.churn, rows);
    var d3 := AgeStep(d2, cols.age);
    var d4 := SegmentStep(d3, cols.segment, rows);
    CustomerStepGet([], cols, rows, k);
    ChurnStepGet(d1, cols, rows, k);
    AgeStepGet(d2, cols, rows, k);
    SegmentStepGet(d3, cols, rows, k);
    ValueStepGet(d4, cols, rows, k);
    CustomerStepGet([], cols, rows, DatasetType);
    ChurnStepGet(d1, cols, rows, DatasetType);
    AgeStepGet(d2, cols, rows, DatasetType);
    SegmentStepGet(d3, cols, rows, DatasetType);
    ValueStepGet(d4, cols, rows, DatasetType);
  }

  method PutCustomerCountKpis(d: Kpis, customer: Option<Column>) returns (d': Kpis)
    ensures d' == CustomerStep(d, customer)
  {
    d' := d;
    if customer.Some? {
      d' := Put(d', TotalCustomers, Count(Nunique(customer.value.cells)));
    }
  }

  method PutChurnKpis(d: Kpis, churn: Option<Column>, rows: nat) returns (d': Kpis)
    ensures d' == ChurnStep(d, churn, rows)
  {
    d' := d;
    if churn.Some? {
      var pct := ChurnPct(churn.value, rows);
      d' := Put(d', ChurnRate, Percent(pct));
      d' := Put(d', RetentionRate, Percent(Retention(pct)));
    }
  }

  method PutAgeKpis(d: Kpis, age: Option<Column>) returns (d': Kpis)
    ensures d' == AgeStep(d, age)
  {
    d' := d;
    if NumericColumn(age) {
      d' := Put(d', AverageAgeTenure, Average(Mean(age.value.cells)));
      d' := Put(d', AgeTenureRange, Unmodelled);
    }
  }

  method PutSegmentKpis(d: Kpis, segment: Option<Column>, rows: nat) returns (r: Result<Kpis>)
    requires HasRows(segment, rows)
    ensures r.Err? <==> HoldsNoValue(segment)
    ensures r.Ok? ==> r.value == SegmentStep(d, segment, rows)
  {
    var d' := d;
    if segment.Some? {
      d' := Put(d', CustomerSegments, Count(Nunique(segment.value.cells)));
      if Mode(segment.value.cells).None? {
        return Err(IndexErrorMsg);
      }
      d' := Put(d', LargestSegment, ShareOf(segment.value, rows));
    }
    return Ok(d');
  }

  method PutValueKpis(d: Kpis, value: Option<Column>) returns (d': Kpis)
    ensures d' == ValueStep(d, value)
  {
    d' := d;
    if NumericColumn(value) {
      var c := value.value.cells;
      d' := Put(d', AvgCustomerValue, Average(Mean(c)));
      d' := Put(d', TotalCustomerValue, Amount(Sum(c)));
      d' := Put(d', MedianCustomerValue, Unmodelled);
    }
  }

  /** `extract_customer_kpis` once its columns are found. */
  method CustomerKpis(cols: CustomerColumns, rows: nat) returns (r: Result<Kpis>)
    requires HasRows(cols.segment, rows)
    ensures r.Err? <==> HoldsNoValue(cols.segment)
    ensures r.Ok? ==> r.value == CustomerKpisOf(cols, rows)
  {
    var d := PutCustomerCountKpis([], cols.customer);
    d := PutChurnKpis(d, cols.churn, rows);
    d := PutAgeKpis(d, cols.age);
    var s := PutSegmentKpis(d, cols.segment, rows);
    if s.Err? {
      return Err(s.error);
    }
    d := PutValueKpis(s.value, cols.value);
    return Ok(d);
  }

  // ---------------------------------------------------------------------
  // General
  // ---------------------------------------------------------------------

  /** `select_dtypes(include=[np.number])` and `select_dtypes(include=['object', 'category'])`. */
  function NumberColumns(t: Table): seq<Column> { ColumnsOfKind(t.columns, Numeric) }

  function CategoricalColumns(t: Table): seq<Column> { ColumnsOfKind(t.columns, Categorical) }

  /** `means.idxmax()` finds no defined mean (every numeric column is empty),
      so looking the result up raises. */
  predicate NoDefinedMean(t: Table) {
    |NumberColumns(t)| > 0 && FirstMaxDefined(Means(NumberColumns(t))).None?
  }

  /** `nunique() / len(df)` on integers raises for a frame without rows. */
  predicate DiversityDividesByZero(t: Table) {
    |CategoricalColumns(t)| > 0 && t.rows == 0
  }

  /** `extract_general_kpis` raises exactly in these two cases. */
  predicate GeneralFails(t: Table) {
    NoDefinedMean(t) || DiversityDividesByZero(t)
  }

  /** `(total_cells - missing_cells) / total_cells * 100`. */
  function Completeness(t: Table): Option<real> {
    Utils.CompletenessPct(t.rows * |t.columns|, TotalNulls(t.columns))
  }

  function BasicStep(d: Kpis, t: Table): Kpis {
    Put(Put(Put(d, TotalRecords, Count(t.rows)), TotalColumns, Count(|t.columns|)), DataCompleteness, Percent(Completeness(t)))
  }

  /** The position of the numeric column with the highest mean. */
  function TopNumeric(t: Table): nat
    requires |NumberColumns(t)| > 0 && !NoDefinedMean(t)
  {
    FirstMaxDefined(Means(NumberColumns(t))).value
  }

  function HighestAvgStep(d: Kpis, t: Table): Kpis
    requires !NoDefinedMean(t)
  {
    if |NumberColumns(t)| > 0 then
      var top := TopNumeric(t);
      Put(d, HighestAvg(NumberColumns(t)[top].name), Average(Means(NumberColumns(t))[top]))
    else d
  }

  /** The position of the most diverse categorical column. */
  function MostDiverse(t: Table): nat
    requires |CategoricalColumns(t)| > 0 && t.rows > 0
  {
    FirstMaxDefined(Diversities(CategoricalColumns(t), t.rows)).value
  }

  function DiversityStep(d: Kpis, t: Table): Kpis
    requires !DiversityDividesByZero(t)
  {
    if |CategoricalColumns(t)| > 0 then
      var c := CategoricalColumns(t)[MostDiverse(t)];
      Put(d, MostDiverseColumn, Diverse(c.name, Nunique(c.cells)))
    else d
  }

  /** The general KPIs: the three blocks applied to an empty dict. */
  function GeneralKpisOf(t: Table): Kpis
    requires !GeneralFails(t)
  {
    DiversityStep(HighestAvgStep(BasicStep([], t), t), t)
  }

  /** What `kpis.get(k)` gives on the general KPIs. */
  function GeneralEntry(t: Table, k: KpiKey): Option<KpiValue>
    requires !GeneralFails(t)
  {
    if k.TotalRecords? then Some(Count(t.rows))
    else if k.TotalColumns? then Some(Count(|t.columns|))
    else if k.DataCompleteness? then Some(Percent(Completeness(t)))
    else if k.HighestAvg? then HighestAvgEntry(t, k.column)
    else if k.MostDiverseColumn? then DiversityEntry(t)
    else None
  }

  /** `kpis.get(f'Highest Avg {name}')`. */
  function HighestAvgEntry(t: Table, name: string): Option<KpiValue>
    requires !NoDefinedMean(t)
  {
    if |NumberColumns(t)| > 0 && name == NumberColumns(t)[TopNumeric(t)].name
    then Some(Average(Means(NumberColumns(t))[TopNumeric(t)])) else None
  }

  /** `kpis.get('Most Diverse Column')`. */
  function DiversityEntry(t: Table): Option<KpiValue>
    requires !DiversityDividesByZero(t)
  {
    if |CategoricalColumns(t)| > 0 then
      var c := CategoricalColumns(t)[MostDiverse(t)];
      Some(Diverse(c.name, Nunique(c.cells)))
    else None
  }

  lemma BasicStepGet(d: Kpis, t: Table, k: KpiKey)
    ensures Get(BasicStep(d, t), k) ==
      if k.TotalRecords? then Some(Count(t.rows))
      else if k.TotalColumns? then Some(Count(|t.columns|))
      else if k.DataCompleteness? then Some(Percent(Completeness(t)))
      else Get(d, k)
  {
    var d1 := Put(d, TotalRecords, Count(t.rows));
    var d2 := Put(d1, TotalColumns, Count(|t.columns|));
    GetPut(d, TotalRecords, Count(t.rows), k);
    GetPut(d1, TotalColumns, Count(|t.columns|), k);
    GetPut(d2, DataCompleteness, Percent(Completeness(t)), k);
  }

  lemma HighestAvgStepGet(d: Kpis, t: Table, k: KpiKey)
    requires !NoDefinedMean(t)
    ensures Get(HighestAvgStep(d, t), k) ==
      if k.HighestAvg? && HighestAvgEntry(t, k.column).Some? then HighestAvgEntry(t, k.column) else Get(d, k)
  {
    if |NumberColumns(t)| > 0 {
      var top := TopNumeric(t);
      GetPut(d, HighestAvg(NumberColumns(t)[top].name), Average(Means(NumberColumns(t))[top]), k);
    }
  }

  lemma DiversityStepGet(d: Kpis, t: Table, k: KpiKey)
    requires !DiversityDividesByZero(t)
    ensures Get(DiversityStep(d, t), k) ==
      if k.MostDiverseColumn? && |CategoricalColumns(t)| > 0 then DiversityEntry(t) else Get(d, k)
  {
    if |CategoricalColumns(t)| > 0 {
      var c := CategoricalColumns(t)[MostDiverse(t)];
      GetPut(d, MostDiverseColumn, Diverse(c.name, Nunique(c.cells)), k);
    }
  }

  /** Every lookup in the general KPIs gives the entry the source promises. */
  lemma GeneralLookup(t: Table, k: KpiKey)
    requires !GeneralFails(t)
    ensures Get(GeneralKpisOf(t), k) == GeneralEntry(t, k)
    ensures !Has(GeneralKpisOf(t), DatasetType)
  {
    var d1 := BasicStep([], t);
    var d2 := HighestAvgStep(d1, t);
    BasicStepGet([], t, k);
    HighestAvgStepGet(d1, t, k);
    DiversityStepGet(d2, t, k);
    GeneralLacksDatasetType(t);
  }

  lemma GeneralLacksDatasetType(t: Table)
    requires !GeneralFails(t)
    ensures !Has(GeneralKpisOf(t), DatasetType)
  {
    var d1 := BasicStep([], t);
    BasicStepGet([], t, DatasetType);
    HighestAvgStepGet(d1, t, DatasetType);
    DiversityStepGet(HighestAvgStep(d1, t), t, DatasetType);
  }

  /** For a frame with at least one cell, data completeness is a percentage,
      and 100 exactly when nothing is missing. */
  lemma CompletenessBounds(t: Table)
    requires ValidTable(t) && t.rows * |t.columns| > 0
    ensures Completeness(t).Some?
    ensures 0.0 <= Completeness(t).value <= 100.0
    ensures Completeness(t).value == 100.0 <==> TotalNulls(t.columns) == 0
  {
    TotalNullsBound(t.columns, t.rows);
    Utils.CompletenessRange(t.rows * |t.columns|, TotalNulls(t.columns));
  }

  /** The `Highest Avg` key names a numeric column whose mean is at least
      every other numeric column's mean, and no earlier numeric column has
      the same mean. */
  lemma HighestAvgIsMaximal(t: Table)
    requires !GeneralFails(t) && |NumberColumns(t)| > 0
    ensures var nums, top := NumberColumns(t), TopNumeric(t);
      && top < |nums| && Mean(nums[top].cells).Some?
      && (forall i :: 0 <= i < |nums| && Mean(nums[i].cells).Some? ==> Mean(nums[i].cells).value <= Mean(nums[top].cells).value)
      && (forall i :: 0 <= i < top && Mean(nums[i].cells).Some? ==> Mean(nums[i].cells).value < Mean(nums[top].cells).value)
  {
    var nums, top := NumberColumns(t), TopNumeric(t);
    var ms := Means(nums);
    forall i | 0 <= i < |nums| && Mean(nums[i].cells).Some?
      ensures Mean(nums[i].cells).value <= Mean(nums[top].cells).value
    {
      assert ms[i] == Mean(nums[i].cells);
    }
    forall i | 0 <= i < top && Mean(nums[i].cells).Some?
      ensures Mean(nums[i].cells).value < Mean(nums[top].cells).value
    {
      assert ms[i] == Mean(nums[i].cells);
    }
  }

  /** The most diverse column has at least as many distinct values as every
      categorical column, and strictly more than every earlier one. */
  lemma MostDiverseIsMaximal(t: Table)
    requires |CategoricalColumns(t)| > 0 && t.rows > 0
    ensures var cats, k := CategoricalColumns(t), MostDiverse(t);
      && k < |cats|
      && (forall i :: 0 <= i < |cats| ==> Nunique(cats[i].cells) <= Nunique(cats[k].cells))
      && (forall i :: 0 <= i < k ==> Nunique(cats[i].cells) < Nunique(cats[k].cells))
  {
    var cats, k := CategoricalColumns(t), MostDiverse(t);
    var ds := Diversities(cats, t.rows);
    var n := t.rows as real;
    forall i | 0 <= i < |cats| ensures Nunique(cats[i].cells) <= Nunique(cats[k].cells) {
      assert ds[i].Some?;
      DivideMonotone(Nunique(cats[i].cells), Nunique(cats[k].cells), n);
    }
    forall i | 0 <= i < k ensures Nunique(cats[i].cells) < Nunique(cats[k].cells) {
      assert ds[i].Some?;
      DivideMonotone(Nunique(cats[k].cells), Nunique(cats[i].cells), n);
    }
  }

  /** Dividing by a positive number keeps the order of two counts. */
  lemma DivideMonotone(a: nat, b: nat, n: real)
    requires n > 0.0
    ensures a as real / n <= b as real / n <==> a <= b
  {
    var x, y := a as real / n, b as real / n;
    assert x * n == a as real && y * n == b as real;
    if x <= y { assert x * n <= y * n; }
  }

  method PutBasicKpis(d: Kpis, t: Table) returns (d': Kpis)
    ensures d' == BasicStep(d, t)
  {
    d' := Put(d, TotalRecords, Count(t.rows));
    d' := Put(d', TotalColumns, Count(|t.columns|));
    var totalCells := t.rows * |t.columns|;
    var missingCells := TotalNulls(t.columns);
    d' := Put(d', DataCompleteness, Percent(Utils.CompletenessPct(totalCells, missingCells)));
  }

  method PutHighestAvgKpis(d: Kpis, t: Table) returns (r: Result<Kpis>)
    ensures r.Err? <==> NoDefinedMean(t)
    ensures r.Ok? ==> r.value == HighestAvgStep(d, t)
  {
    var nums := NumberColumns(t);
    if |nums| > 0 {
      var means := Means(nums);
      var top := FirstMaxDefined(means);
      if top.None? {
        return Err(KeyErrorMsg);
      }
      return Ok(Put(d, HighestAvg(nums[top.value].name), Average(means[top.value])));
    }
    return Ok(d);
  }

  method PutDiversityKpis(d: Kpis, t: Table) returns (r: Result<Kpis>)
    ensures r.Err? <==> DiversityDividesByZero(t)
    ensures r.Ok? ==> r.value == DiversityStep(d, t)
  {
    var cats := CategoricalColumns(t);
    if |cats| > 0 {
      if t.rows == 0 {
        return Err(ZeroDivisionMsg);
      }
      var k := FirstMaxDefined(Diversities(cats, t.rows)).value;
      return Ok(Put(d, MostDiverseColumn, Diverse(cats[k].name, Nunique(cats[k].cells))));
    }
    return Ok(d);
  }

  /** `extract_general_kpis`. */
  method GeneralKpis(t: Table) returns (r: Result<Kpis>)
    ensures r.Err? <==> GeneralFails(t)
    ensures r.Ok? ==> r.value == GeneralKpisOf(t)
  {
    var d := PutBasicKpis([], t);
    var h := PutHighestAvgKpis(d, t);
    if h.Err? {
      return Err(h.error);
    }
    r := PutDiversityKpis(h.value, t);
  }

  // ---------------------------------------------------------------------
  // Dispatch
  // ---------------------------------------------------------------------

  /** What the extractor for the tag returns; `None` where it raises. Any
      tag other than sales, finance and customer gets the general KPIs. */
  function DomainKpis(t: Table, tag: string): Option<Kpis>
    requires ValidTable(t)
  {
    if tag == "sales" then
      if SalesFails(t) then None else Some(SalesKpisOf(SalesColumnsOf(t), t.rows))
    else if tag == "finance" then
      if FinanceFails(t) then None else Some(FinanceKpisOf(FinanceColumnsOf(t)))
    else if tag == "customer" then
      if CustomerFails(t) then None else ResolvedHasRows(t, SegmentKeywords); Some(CustomerKpisOf(CustomerColumnsOf(t), t.rows))
    else
      if GeneralFails(t) then None else Some(GeneralKpisOf(t))
  }

  /** `self.kpis` after `extract_all_kpis`: the domain KPIs, then the
      title-cased tag under `Dataset Type`. */
  function AllKpisOf(t: Table, tag: string): Option<Kpis>
    requires ValidTable(t)
  {
    match DomainKpis(t, tag)
    case None => None
    case Some(d) => Some(Put(d, DatasetType, Text(Title(tag))))
  }

  /** A column `df[...]` returns has one cell per row. */
  lemma ResolvedHasRows(t: Table, keywords: seq<string>)
    requires ValidTable(t)
    ensures HasRows(Resolve(t, keywords), t.rows)
  {
    var c := Resolve(t, keywords);
    if c.Some? {
      var j :| 0 <= j < |t.columns| && t.columns[j] == c.value;
    }
  }

  /** No domain extractor sets `Dataset Type`. */
  lemma DomainLacksDatasetType(t: Table, tag: string)
    requires ValidTable(t) && DomainKpis(t, tag).Some?
    ensures !Has(DomainKpis(t, tag).value, DatasetType)
  {
    if tag == "sales" {
      SalesLookup(SalesColumnsOf(t), t.rows, DatasetType);
    } else if tag == "finance" {
      FinanceLookup(FinanceColumnsOf(t), DatasetType);
    } else if tag == "customer" {
      ResolvedHasRows(t, SegmentKeywords);
      CustomerLookup(CustomerColumnsOf(t), t.rows, DatasetType);
    } else {
      GeneralLookup(t, DatasetType);
    }
  }

  /** After `extract_all_kpis`, `Dataset Type` is the last key and holds
      the title-cased tag, and every other key holds what the domain
      extractor put there. */
  lemma AllKpisLookup(t: Table, tag: string, k: KpiKey)
    requires ValidTable(t) && AllKpisOf(t, tag).Some?
    ensures var r, d := AllKpisOf(t, tag).value, DomainKpis(t, tag).value;
      && |r| > 0 && r[|r| - 1] == (DatasetType, Text(Title(tag)))
      && Get(r, k) == if k == DatasetType then Some(Text(Title(tag))) else Get(d, k)
  {
    var d := DomainKpis(t, tag).value;
    DomainLacksDatasetType(t, tag);
    PutFresh(d, DatasetType, Text(Title(tag)));
    GetPut(d, DatasetType, Text(Title(tag)), k);
  }

  lemma DatasetTypeTitle(tag: string)
    requires tag == "sales" || tag == "finance" || tag == "customer" || tag == "general"
    ensures Title(tag) == [UpperChar(tag[0])] + tag[1..]
  {
    TitleLowerWord(tag);
  }

  // ---------------------------------------------------------------------
  // The extractor
  // ---------------------------------------------------------------------

  /** The inner loop of `_find_column`: the first index entry whose key
      contains `kw`. */
  method FirstContaining(index: seq<(string, string)>, kw: string) returns (r: Option<nat>)
    ensures r == FirstContainingFrom(index, kw, 0)
  {
    for j := 0 to |index|
      invariant forall j' :: 0 <= j' < j ==> !Contains(index[j'].0, kw)
      invariant FirstContainingFrom(index, kw, 0) == FirstContainingFrom(index, kw, j)
    {
      if Contains(index[j].0, kw) {
        return Some(j);
      }
    }
    return None;
  }

  class KpiExtractor {
    const df: Table
    const datasetType: string
    var kpis: Kpis

    /** `KPIExtractor(df, dataset_type)`: starts with no KPIs. */
    constructor (t: Table, tag: string)
      requires ValidTable(t)
      ensures df == t && datasetType == tag && kpis == []
    {
      df := t;
      datasetType := tag;
      kpis := [];
    }

    /** `_find_column(keywords)`: for each keyword in turn, the first index
        entry whose lower-cased name contains it. */
    method FindColumn(keywords: seq<string>) returns (r: Option<string>)
      ensures r == ResolveName(Names(df.columns), keywords)
    {
      var index := LowerIndex(Names(df.columns));
      for i := 0 to |keywords|
        invariant forall k', j :: 0 <= k' < i && 0 <= j < |index| ==> !Contains(index[j].0, keywords[k'])
        invariant ResolveFrom(index, keywords, 0) == ResolveFrom(index, keywords, i)
      {
        var j := FirstContaining(index, keywords[i]);
        if j.Some? {
          return Some(index[j.value].1);
        }
      }
      return None;
    }

    /** `df[col]` for the column `_find_column` finds. */
    method ColumnFor(keywords: seq<string>) returns (c: Option<Column>)
      ensures c == Resolve(df, keywords)
    {
      var name := FindColumn(keywords);
      c := if name.Some? then ColumnByName(df.columns, name.value) else None;
    }

    /** `extract_sales_kpis()`. */
    method ExtractSalesKpis() returns (r: Result<Kpis>)
      ensures r.Err? <==> SalesFails(df)
      ensures r.Ok? ==> r.value == SalesKpisOf(SalesColumnsOf(df), df.rows)
    {
      var revenue := ColumnFor(RevenueKeywords);
      var quantity := ColumnFor(QuantityKeywords);
      var product := ColumnFor(ProductKeywords);
      var margin := ColumnFor(MarginKeywords);
      var date := ColumnFor(DateKeywords);
      r := SalesKpis(SalesColumns(revenue, quantity, product, margin, date), df.rows);
    }

    /** `extract_finance_kpis()`. */
    method ExtractFinanceKpis() returns (r: Result<Kpis>)
      ensures r.Err? <==> FinanceFails(df)
      ensures r.Ok? ==> r.value == FinanceKpisOf(FinanceColumnsOf(df))
    {
      var balance := ColumnFor(BalanceKeywords);
      var debit := ColumnFor(DebitKeywords);
      var credit := ColumnFor(CreditKeywords);
      var account := ColumnFor(AccountKeywords);
      var transaction := ColumnFor(TransactionKeywords);
      r := FinanceKpis(FinanceColumns(balance, debit, credit, account, transaction));
    }

    /** `extract_customer_kpis()`. */
    method ExtractCustomerKpis() returns (r: Result<Kpis>)
      requires ValidTable(df)
      ensures r.Err? <==> CustomerFails(df)
      ensures r.Ok? ==> HasRows(CustomerColumnsOf(df).segment, df.rows) && r.value == CustomerKpisOf(CustomerColumnsOf(df), df.rows)
    {
      var customer := ColumnFor(CustomerKeywords);
      var churn := ColumnFor(ChurnKeywords);
      var age := ColumnFor(AgeKeywords);
      var segment := ColumnFor(SegmentKeywords);
      var value := ColumnFor(ValueKeywords);
      ResolvedHasRows(df, SegmentKeywords);
      r := CustomerKpis(CustomerColumns(customer, churn, age, segment, value), df.rows);
    }

    /** `extract_general_kpis()`. */
    method ExtractGeneralKpis() returns (r: Result<Kpis>)
      ensures r.Err? <==> GeneralFails(df)
      ensures r.Ok? ==> r.value == GeneralKpisOf(df)
    {
      r := GeneralKpis(df);
    }

    /** `extract_all_kpis()`: replaces `self.kpis` with the extractor the tag
        selects and adds `Dataset Type`; when the extractor raises, `self.kpis`
        is left as it was. */
    method ExtractAllKpis() returns (r: Result<Kpis>)
      requires ValidTable(df)
      modifies `kpis
      ensures r.Err? <==> AllKpisOf(df, datasetType).None?
      ensures r.Ok? ==> r.value == kpis == AllKpisOf(df, datasetType).value
      ensures r.Err? ==> kpis == old(kpis)
    {
      var extracted: Result<Kpis>;
      if datasetType == "sales" {
        extracted := ExtractSalesKpis();
      } else if datasetType == "finance" {
        extracted := ExtractFinanceKpis();
      } else if datasetType == "customer" {
        extracted := ExtractCustomerKpis();
      } else {
        extracted := ExtractGeneralKpis();
      }
      if extracted.Err? {
        return Err(extracted.error);
      }
      kpis := extracted.value;
      kpis := Put(kpis, DatasetType, Text(Title(datasetType)));
      return Ok(kpis);
    }
  }
}
