/** The EDA engine: the column split made at construction, the dataset-type
    vote over column names, missing-value analysis, the rules that choose
    which columns get statistics and plots, and the summary `run_full_eda`
    stores. Float statistics, the correlation values and the drawing itself
    are not modelled; each plotting step is modelled by the list of columns
    it would draw. */
module Eda {
  import opened Wrappers
  import opened Strings
  import opened Frames

  // ---------------------------------------------------------------------
  // Dataset-type detection
  // ---------------------------------------------------------------------

  const SalesKeywords: seq<string> := ["sales", "revenue", "price", "quantity", "product", "order"]
  const FinanceKeywords: seq<string> := ["balance", "debit", "credit", "transaction", "account", "profit", "margin"]
  const CustomerKeywords: seq<string> := ["customer", "churn", "retention", "lifetime", "segment", "age"]

  /** `any(kw in col for kw in keywords)`. */
  predicate MatchesAny(col: string, keywords: seq<string>) {
    keywords != [] && (Contains(col, keywords[0]) || MatchesAny(col, keywords[1..]))
  }

  lemma {:induction false} MatchesAnyIff(col: string, keywords: seq<string>)
    ensures MatchesAny(col, keywords) <==> exists k :: 0 <= k < |keywords| && Contains(col, keywords[k])
  {
    if keywords != [] {
      MatchesAnyIff(col, keywords[1..]);
      if exists k :: 0 <= k < |keywords| && Contains(col, keywords[k]) {
        var k :| 0 <= k < |keywords| && Contains(col, keywords[k]);
        if k > 0 { assert keywords[1..][k - 1] == keywords[k]; }
      }
      if MatchesAny(col, keywords[1..]) {
        var k :| 0 <= k < |keywords[1..]| && Contains(col, keywords[1..][k]);
        assert keywords[k + 1] == keywords[1..][k];
      }
    }
  }

  /** A domain's score: how many lower-cased column names contain at least one
      of its keywords. */
  function Score(names: seq<string>, keywords: seq<string>): (n: nat)
    ensures n <= |names|
  {
    if names == [] then 0
    else (if MatchesAny(Lower(names[0]), keywords) then 1 else 0) + Score(names[1..], keywords)
  }

  lemma {:induction false} ScoreAppend(a: seq<string>, b: seq<string>, keywords: seq<string>)
    ensures Score(a + b, keywords) == Score(a, keywords) + Score(b, keywords)
  {
    if a == [] {
      assert a + b == b;
    } else {
      assert (a + b)[0] == a[0] && (a + b)[1..] == a[1..] + b;
      ScoreAppend(a[1..], b, keywords);
    }
  }

  /** A score depends only on the multiset of column names, not on their order. */
  lemma {:induction false} ScorePermutation(a: seq<string>, b: seq<string>, keywords: seq<string>)
    requires multiset(a) == multiset(b)
    ensures Score(a, keywords) == Score(b, keywords)
    decreases |a|
  {
    if a == [] {
      assert |b| == |multiset(b)| == 0;
    } else {
      var x := a[0];
      assert x in multiset(b);
      var j :| 0 <= j < |b| && b[j] == x;
      var rest := b[..j] + b[j + 1..];
      assert b == b[..j] + [x] + b[j + 1..];
      assert multiset(rest) == multiset(b) - multiset{x};
      assert a == [x] + a[1..];
      assert multiset(a[1..]) == multiset(rest);
      ScorePermutation(a[1..], rest, keywords);
      ScoreRemoveAt(b, j, keywords);
    }
  }

  /** Taking one name out of the list takes its vote out of the score. */
  lemma ScoreRemoveAt(b: seq<string>, j: nat, keywords: seq<string>)
    requires j < |b|
    ensures Score(b, keywords) == Score([b[j]], keywords) + Score(b[..j] + b[j + 1..], keywords)
  {
    assert b == b[..j] + [b[j]] + b[j + 1..];
    ScoreAppend(b[..j] + [b[j]], b[j + 1..], keywords);
    ScoreAppend(b[..j], [b[j]], keywords);
    ScoreAppend(b[..j], b[j + 1..], keywords);
  }

  /** `max(scores, key=scores.get)` over an insertion-ordered dict: the index
      of the first entry whose score is maximal. */
  function FirstMaxIndex(scores: seq<(string, nat)>): (k: nat)
    requires |scores| > 0
    ensures k < |scores|
    ensures forall j :: 0 <= j < |scores| ==> scores[j].1 <= scores[k].1
    ensures forall j :: 0 <= j < k ==> scores[j].1 < scores[k].1
  {
    FirstMaxFrom(scores, 1, 0)
  }

  function FirstMaxFrom(scores: seq<(string, nat)>, i: nat, best: nat): (k: nat)
    requires best < i <= |scores|
    requires forall j :: 0 <= j < i ==> scores[j].1 <= scores[best].1
    requires forall j :: 0 <= j < best ==> scores[j].1 < scores[best].1
    ensures k < |scores|
    ensures forall j :: 0 <= j < |scores| ==> scores[j].1 <= scores[k].1
    ensures forall j :: 0 <= j < k ==> scores[j].1 < scores[k].1
    decreases |scores| - i
  {
    if i == |scores| then best
    else if scores[i].1 > scores[best].1 then FirstMaxFrom(scores, i + 1, i)
    else FirstMaxFrom(scores, i + 1, best)
  }

  /** The three domain scores of a list of column names. */
  function Scores(names: seq<string>): seq<(string, nat)> {
    [("sales", Score(names, SalesKeywords)),
     ("finance", Score(names, FinanceKeywords)),
     ("customer", Score(names, CustomerKeywords))]
  }

  /** `_detect_dataset_type`: the domain with the highest score, the first in
      the order sales, finance, customer on a tie, or `general` when no score
      reaches 2. */
  function DetectDatasetType(names: seq<string>): (tag: string)
    ensures tag in {"sales", "finance", "customer", "general"}
  {
    var scores := Scores(names);
    var k := FirstMaxIndex(scores);
    if scores[k].1 >= 2 then scores[k].0 else "general"
  }

  /** The outcome of the vote, stated in terms of the three scores. */
  lemma DetectionRule(names: seq<string>)
    ensures var s, f, c := Score(names, SalesKeywords), Score(names, FinanceKeywords), Score(names, CustomerKeywords);
      && (DetectDatasetType(names) == "general" <==> s < 2 && f < 2 && c < 2)
      && (DetectDatasetType(names) == "sales" <==> s >= 2 && s >= f && s >= c)
      && (DetectDatasetType(names) == "finance" <==> f >= 2 && f > s && f >= c)
      && (DetectDatasetType(names) == "customer" <==> c >= 2 && c > s && c > f)
  {
    var scores := Scores(names);
    var k := FirstMaxIndex(scores);
    assert scores[0].0 == "sales" && scores[1].0 == "finance" && scores[2].0 == "customer";
    assert k == 0 || k == 1 || k == 2;
  }

  /** Classification looks only at the multiset of column names: reordering the
      columns (or changing any cell) leaves the type unchanged. */
  lemma DetectionIgnoresOrder(a: seq<string>, b: seq<string>)
    requires multiset(a) == multiset(b)
    ensures DetectDatasetType(a) == DetectDatasetType(b)
  {
    ScorePermutation(a, b, SalesKeywords);
    ScorePermutation(a, b, FinanceKeywords);
    ScorePermutation(a, b, CustomerKeywords);
  }

  /** One column is never enough: a single matching name leaves every score
      below the threshold of 2. */
  lemma SingleColumnIsGeneral(name: string)
    ensures DetectDatasetType([name]) == "general"
  {
    DetectionRule([name]);
  }

  lemma {:induction false} NotContainsShort(s: string, sub: string)
    requires |sub| > |s| || (|sub| > 0 && sub[0] !in s)
    ensures !Contains(s, sub)
    decreases |s|
  {
    if s != [] {
      assert sub[0] !in s ==> sub[0] !in s[1..];
      NotContainsShort(s[1..], sub);
    }
  }

  /** A name matches none of the keywords when each keyword is longer than
      the name or starts with a letter the name lacks. */
  lemma {:induction false} FirstLettersMiss(col: string, keywords: seq<string>)
    requires forall k :: 0 <= k < |keywords| ==>
      |keywords[k]| > |col| || (|keywords[k]| > 0 && keywords[k][0] !in col)
    ensures !MatchesAny(col, keywords)
  {
    if keywords != [] {
      NotContainsShort(col, keywords[0]);
      FirstLettersMiss(col, keywords[1..]);
    }
  }

  lemma ScoreSingle(name: string, keywords: seq<string>)
    ensures Score([name], keywords) == if MatchesAny(Lower(name), keywords) then 1 else 0
  {
    assert [name][1..] == [];
  }

  lemma KeywordMatches(col: string, keywords: seq<string>, k: nat)
    requires k < |keywords| && Contains(col, keywords[k])
    ensures MatchesAny(col, keywords)
  {
    MatchesAnyIff(col, keywords);
  }

  lemma LowerKeepsLowerText(s: string)
    requires forall i :: 0 <= i < |s| ==> !IsUpper(s[i])
    ensures Lower(s) == s
  {
  }

  /** `name`, already lower-case, starts with the keyword at `k`. */
  lemma NameMatches(name: string, keywords: seq<string>, k: nat)
    requires k < |keywords| && keywords[k] == name
    requires forall i :: 0 <= i < |name| ==> !IsUpper(name[i])
    ensures MatchesAny(Lower(name), keywords)
  {
    LowerKeepsLowerText(name);
    assert IsPrefix(name, name);
    KeywordMatches(name, keywords, k);
  }

  lemma SalesNamesMatch()
    ensures MatchesAny(Lower("product"), SalesKeywords)
    ensures MatchesAny(Lower("revenue"), SalesKeywords)
    ensures MatchesAny(Lower("quantity"), SalesKeywords)
  {
    NameMatches("product", SalesKeywords, 4);
    NameMatches("revenue", SalesKeywords, 1);
    NameMatches("quantity", SalesKeywords, 3);
  }

  /** "revenue" matches no finance keyword: each is longer or starts with a
      letter "revenue" lacks. */
  lemma RevenueIsNotFinance()
    ensures !MatchesAny(Lower("revenue"), FinanceKeywords)
  {
    LowerKeepsLowerText("revenue");
    FirstLettersMiss("revenue", FinanceKeywords);
  }

  /** Nor any customer keyword, for the same reason. */
  lemma RevenueIsNotCustomer()
    ensures !MatchesAny(Lower("revenue"), CustomerKeywords)
  {
    LowerKeepsLowerText("revenue");
    FirstLettersMiss("revenue", CustomerKeywords);
  }

  /** A table with columns product, revenue, quantity and region is a sales
      table: three names match sales keywords, while "revenue" matches no
      finance or customer keyword, so neither of those can score more. */
  lemma SalesScenario()
    ensures DetectDatasetType(["product", "revenue", "quantity", "region"]) == "sales"
  {
    var names := ["product", "revenue", "quantity", "region"];
    SalesNamesMatch();
    RevenueIsNotFinance();
    RevenueIsNotCustomer();
    ScoreOfFour("product", "revenue", "quantity", "region", SalesKeywords);
    ScoreOfFour("product", "revenue", "quantity", "region", FinanceKeywords);
    ScoreOfFour("product", "revenue", "quantity", "region", CustomerKeywords);
    ScoreSingle("product", SalesKeywords);
    ScoreSingle("revenue", SalesKeywords);
    ScoreSingle("quantity", SalesKeywords);
    ScoreSingle("revenue", FinanceKeywords);
    ScoreSingle("revenue", CustomerKeywords);
    assert Score(names, SalesKeywords) >= 3;
    assert Score(names, FinanceKeywords) <= 3;
    assert Score(names, CustomerKeywords) <= 3;
    DetectionRule(names);
  }

  /** The score of four names is the sum of their single votes. */
  lemma ScoreOfFour(a: string, b: string, c: string, d: string, kws: seq<string>)
    ensures Score([a, b, c, d], kws) == Score([a], kws) + Score([b], kws) + Score([c], kws) + Score([d], kws)
  {
    assert [a, b, c, d] == [a] + ([b] + ([c] + [d]));
    ScoreAppend([a], [b] + ([c] + [d]), kws);
    ScoreAppend([b], [c] + [d], kws);
    ScoreAppend([c], [d], kws);
  }

  // ---------------------------------------------------------------------
  // Missing values
  // ---------------------------------------------------------------------

  /** One row of `missing_details`. */
  datatype MissingDetail = MissingDetail(column: string, count: nat, percentage: real)

  /** The dict `analyze_missing_values` returns. */
  datatype MissingReport = MissingReport(totalMissing: nat, columnsWithMissing: nat, details: seq<MissingDetail>)

  /** The entry of a column with `rows` rows: its null count and the share
      of its rows that are missing, in percent. */
  function DetailOf(c: Column, rows: nat): (d: MissingDetail)
    requires rows > 0
    ensures d.column == c.name && d.count == NullCount(c.cells)
    ensures d.percentage == d.count as real / rows as real * 100.0
    ensures d.percentage >= 0.0 && (d.percentage == 0.0 <==> forall i :: 0 <= i < |c.cells| ==> c.cells[i].Some?)
    ensures |c.cells| == rows ==> d.percentage <= 100.0 && (d.percentage == 100.0 <==> d.count == rows)
  {
    PercentBounds(NullCount(c.cells), rows);
    MissingDetail(c.name, NullCount(c.cells), NullCount(c.cells) as real / rows as real * 100.0)
  }

  /** `n / rows * 100` is a percentage of `rows`: zero exactly for `n = 0`,
      and at most 100, reached exactly at `n = rows`, when `n <= rows`. */
  lemma PercentBounds(n: nat, rows: nat)
    requires rows > 0
    ensures var p := n as real / rows as real * 100.0;
      && p >= 0.0 && (p == 0.0 <==> n == 0)
      && (n <= rows ==> p <= 100.0 && (p == 100.0 <==> n == rows))
  {
    var q, r := n as real / rows as real, rows as real;
    assert q * r == n as real;
    assert q >= 0.0;
    if n <= rows {
      assert r / r == 1.0;
      assert q <= r / r;
      if q == 1.0 { assert n as real == r; }
    }
  }

  /** The columns with at least one missing cell, in frame order. */
  function MissingEntries(cols: seq<Column>, rows: nat): (r: seq<MissingDetail>)
    requires forall j :: 0 <= j < |cols| ==> |cols[j].cells| == rows
    ensures |r| <= |cols|
  {
    if cols == [] then []
    else
      var here := if NullCount(cols[0].cells) > 0 then [DetailOf(cols[0], rows)] else [];
      here + MissingEntries(cols[1..], rows)
  }

  /** An entry is reported exactly for the columns that have a missing cell. */
  lemma {:induction false} MissingEntriesExact(cols: seq<Column>, rows: nat, d: MissingDetail)
    requires forall j :: 0 <= j < |cols| ==> |cols[j].cells| == rows
    ensures d in MissingEntries(cols, rows) <==>
      exists j :: 0 <= j < |cols| && NullCount(cols[j].cells) > 0 && d == DetailOf(cols[j], rows)
  {
    if cols != [] {
      MissingEntriesExact(cols[1..], rows, d);
      if exists j :: 0 <= j < |cols[1..]| && NullCount(cols[1..][j].cells) > 0 && d == DetailOf(cols[1..][j], rows) {
        var j :| 0 <= j < |cols[1..]| && NullCount(cols[1..][j].cells) > 0 && d == DetailOf(cols[1..][j], rows);
        assert cols[j + 1] == cols[1..][j];
      }
      if exists j :: 0 <= j < |cols| && NullCount(cols[j].cells) > 0 && d == DetailOf(cols[j], rows) {
        var j :| 0 <= j < |cols| && NullCount(cols[j].cells) > 0 && d == DetailOf(cols[j], rows);
        if j > 0 { assert cols[1..][j - 1] == cols[j]; }
      }
    }
  }

  /** Ordered by percentage, largest first. */
  ghost predicate SortedByPercentageDesc(ds: seq<MissingDetail>) {
    forall i :: 0 < i < |ds| ==> ds[i - 1].percentage >= ds[i].percentage
  }

  /** Inserts `d` before the first entry whose percentage it reaches. */
  function InsertByPercentage(d: MissingDetail, ds: seq<MissingDetail>): (r: seq<MissingDetail>)
    ensures multiset(r) == multiset(ds) + multiset{d}
    ensures |r| > 0 && (r[0] == d || (ds != [] && r[0] == ds[0]))
  {
    if ds == [] || d.percentage >= ds[0].percentage then [d] + ds
    else
      assert ds == [ds[0]] + ds[1..];
      [ds[0]] + InsertByPercentage(d, ds[1..])
  }

  /** Inserting into a list sorted by decreasing percentage keeps it sorted. */
  lemma {:induction false} InsertKeepsOrder(d: MissingDetail, ds: seq<MissingDetail>)
    requires SortedByPercentageDesc(ds)
    ensures SortedByPercentageDesc(InsertByPercentage(d, ds))
  {
    if !(ds == [] || d.percentage >= ds[0].percentage) {
      var tail := InsertByPercentage(d, ds[1..]);
      InsertKeepsOrder(d, ds[1..]);
      assert InsertByPercentage(d, ds) == [ds[0]] + tail;
      assert tail[0].percentage <= ds[0].percentage;
    }
  }

  /** `sort_values('Missing_Percentage', ascending=False)`. */
  function SortByPercentage(ds: seq<MissingDetail>): (r: seq<MissingDetail>)
    ensures SortedByPercentageDesc(r)
    ensures multiset(r) == multiset(ds)
  {
    if ds == [] then []
    else
      assert ds == [ds[0]] + ds[1..];
      InsertKeepsOrder(ds[0], SortByPercentage(ds[1..]));
      InsertByPercentage(ds[0], SortByPercentage(ds[1..]))
  }

  /** How many columns have at least one missing cell. */
  function ColumnsWithMissing(cols: seq<Column>): (n: nat)
    ensures n <= |cols|
  {
    if cols == [] then 0 else (if NullCount(cols[0].cells) > 0 then 1 else 0) + ColumnsWithMissing(cols[1..])
  }

  lemma {:induction false} MissingEntriesCount(cols: seq<Column>, rows: nat)
    requires forall j :: 0 <= j < |cols| ==> |cols[j].cells| == rows
    ensures |MissingEntries(cols, rows)| == ColumnsWithMissing(cols)
  {
    if cols != [] { MissingEntriesCount(cols[1..], rows); }
  }

  /** `analyze_missing_values()`: the total of the per-column null counts, the
      number of columns with a missing cell, and those columns with their
      counts, largest percentage first. */
  function AnalyzeMissingValues(t: Table): (r: MissingReport)
    requires ValidTable(t)
    ensures r.totalMissing == TotalNulls(t.columns)
    ensures r.columnsWithMissing == |r.details| == ColumnsWithMissing(t.columns) <= |t.columns|
    ensures SortedByPercentageDesc(r.details)
    ensures multiset(r.details) == multiset(MissingEntries(t.columns, t.rows))
  {
    var entries := MissingEntries(t.columns, t.rows);
    var details := SortByPercentage(entries);
    MissingEntriesCount(t.columns, t.rows);
    assert |details| == |multiset(details)| == |multiset(entries)| == |entries|;
    MissingReport(TotalNulls(t.columns), |details|, details)
  }

  /** A detail is reported if and only if it is the entry of a column that
      has a missing cell. */
  lemma MissingDetailsExact(t: Table, d: MissingDetail)
    requires ValidTable(t)
    ensures d in AnalyzeMissingValues(t).details <==>
      exists j :: 0 <= j < |t.columns| && NullCount(t.columns[j].cells) > 0 && d == DetailOf(t.columns[j], t.rows)
  {
    var r := AnalyzeMissingValues(t);
    assert d in r.details <==> d in multiset(r.details);
    assert d in MissingEntries(t.columns, t.rows) <==> d in multiset(MissingEntries(t.columns, t.rows));
    MissingEntriesExact(t.columns, t.rows, d);
  }

  // ---------------------------------------------------------------------
  // Column split and the engine
  // ---------------------------------------------------------------------

  /** Names of the columns of one dtype family, in frame order. */
  function NamesOfKind(t: Table, k: Kind): seq<string> {
    Names(ColumnsOfKind(t.columns, k))
  }

  /** The numeric, categorical and datetime lists together with the boolean
      columns (in none of them) account for every column exactly once. */
  lemma {:induction false} ColumnSplitCounts(cols: seq<Column>)
    ensures |ColumnsOfKind(cols, Numeric)| + |ColumnsOfKind(cols, Categorical)|
          + |ColumnsOfKind(cols, Datetime)| + |ColumnsOfKind(cols, Bool)| == |cols|
  {
    if cols != [] { ColumnSplitCounts(cols[1..]); }
  }

  /** `dataset_info` of the summary. */
  datatype DatasetInfo = DatasetInfo(
    rows: nat, columns: nat, datasetType: string,
    numericColumns: nat, categoricalColumns: nat, datetimeColumns: nat)

  /** `stats['categorical'][col]`; `topValue == None` is the 'N/A' case. */
  datatype CategoricalStat = CategoricalStat(column: string, uniqueValues: nat, topValue: Option<Value>, topFrequency: nat)

  /** `stats['datetime'][col]`; `None` stands for NaT. */
  datatype DatetimeStat = DatetimeStat(column: string, minDay: Option<int>, maxDay: Option<int>, rangeDays: Option<int>)

  /** `get_column_statistics()`: the numeric part is keyed by the numeric
      column names (its float values are not modelled). */
  datatype ColumnStatistics = ColumnStatistics(numeric: seq<string>, categorical: seq<CategoricalStat>, datetime: seq<DatetimeStat>)

  /** `generate_distribution_plots()`: `Some(cols)` when that figure is drawn,
      with the columns of its panels. */
  datatype DistributionPlots = DistributionPlots(numeric: Option<seq<string>>, categorical: Option<seq<string>>)

  datatype Visualizations = Visualizations(correlationHeatmap: Option<seq<string>>, distributions: DistributionPlots)

  datatype EdaSummary = EdaSummary(
    datasetInfo: DatasetInfo, missingValues: MissingReport,
    statistics: ColumnStatistics, visualizations: Visualizations)

  /** The statistics of one categorical column. `value_counts().iloc[0]` is
      taken whenever the column has rows, so a column whose cells are all
      missing raises an IndexError. */
  function CategoricalStatOf(c: Column): (r: Result<CategoricalStat>)
    ensures r.Err? <==> |c.cells| > 0 && NonNullCount(c.cells) == 0
    ensures r.Ok? ==> r.value.column == c.name && r.value.uniqueValues == Nunique(c.cells)
    ensures r.Ok? ==> (r.value.topValue.Some? <==> NonNullCount(c.cells) > 0)
    ensures r.Ok? && r.value.topValue.None? ==> r.value.topFrequency == 0
    ensures r.Ok? && r.value.topValue.Some? ==>
      r.value.topFrequency == Freq(c.cells, r.value.topValue.value) > 0 &&
      forall w :: Freq(c.cells, w) <= r.value.topFrequency
  {
    var mode := Mode(c.cells);
    if mode.Some? then
      assert forall w :: Freq(c.cells, w) <= Freq(c.cells, mode.value) by {
        forall w ensures Freq(c.cells, w) <= Freq(c.cells, mode.value) { ModeIsMostFrequent(c.cells, w); }
      }
      ModeIsMostFrequent(c.cells, mode.value);
      Ok(CategoricalStat(c.name, Nunique(c.cells), mode, Freq(c.cells, mode.value)))
    else if |c.cells| > 0 then Err(IlocErrorMsg)
    else Ok(CategoricalStat(c.name, Nunique(c.cells), None, 0))
  }

  function DatetimeStatOf(c: Column): (r: DatetimeStat)
    ensures r.column == c.name
    ensures r.minDay == MinDay(c.cells) && r.maxDay == MaxDay(c.cells)
    ensures r.minDay.Some? <==> r.maxDay.Some?
    ensures r.rangeDays.Some? <==> r.minDay.Some?
    ensures r.rangeDays.Some? ==> r.rangeDays.value == r.maxDay.value - r.minDay.value >= 0
  {
    DayBounds(c.cells);
    DatetimeStat(c.name, MinDay(c.cells), MaxDay(c.cells), DateRange(c.cells))
  }

  /** At most 20 distinct values: the categorical columns worth a bar chart. */
  function LowCardinality(cols: seq<Column>): (r: seq<Column>)
    ensures |r| <= |cols|
  {
    if cols == [] then []
    else (if Nunique(cols[0].cells) <= 20 then [cols[0]] else []) + LowCardinality(cols[1..])
  }

  function Min(a: int, b: int): int { if a < b then a else b }

  /** The loop over the first `top` categorical columns; the first column
      whose statistics raise aborts it. */
  method CategoricalStats(cats: seq<Column>, top: nat) returns (r: Result<seq<CategoricalStat>>)
    requires top <= |cats|
    ensures r.Ok? <==> forall i :: 0 <= i < top ==> CategoricalStatOf(cats[i]).Ok?
    ensures r.Ok? ==> |r.value| == top && forall i :: 0 <= i < top ==> CategoricalStatOf(cats[i]) == Ok(r.value[i])
  {
    var stats: seq<CategoricalStat> := [];
    for i := 0 to top
      invariant |stats| == i
      invariant forall j :: 0 <= j < i ==> CategoricalStatOf(cats[j]) == Ok(stats[j])
    {
      var stat := CategoricalStatOf(cats[i]);
      if stat.Err? {
        return Err(stat.error);
      }
      stats := stats + [stat.value];
    }
    return Ok(stats);
  }

  /** The columns that get a panel in a 2x2 grid of axes: one per column
      while axes remain. */
  method DrawPanels(cols: seq<string>) returns (panels: seq<string>)
    ensures panels == cols[..Min(4, |cols|)]
  {
    panels := [];
    for idx := 0 to |cols|
      invariant panels == cols[..Min(4, idx)]
    {
      if idx < 4 {
        panels := panels + [cols[idx]];
      }
    }
  }

  /** The categorical figure: a bar chart for each of the first four
      low-cardinality columns, and no figure when there is none. */
  method CategoricalPlot(cats: seq<Column>) returns (plot: Option<seq<string>>)
    ensures var valid := Names(LowCardinality(cats));
      && (plot.Some? <==> |valid| > 0)
      && (plot.Some? ==> plot.value == valid[..Min(4, |valid|)])
  {
    plot := None;
    if |cats| > 0 {
      var candidates := LowCardinalityNames(cats);
      var validCats := candidates[..Min(4, |candidates|)];
      if |validCats| > 0 {
        var panels := DrawPanels(validCats);
        plot := Some(panels);
      }
    } else {
      assert Names(LowCardinality(cats)) == [];
    }
  }

  /** The comprehension keeping the categorical columns with at most 20
      distinct values. */
  method LowCardinalityNames(cats: seq<Column>) returns (names: seq<string>)
    ensures names == Names(LowCardinality(cats))
  {
    names := [];
    for i := 0 to |cats|
      invariant names == Names(LowCardinality(cats[..i]))
    {
      assert cats[..i + 1] == cats[..i] + [cats[i]];
      LowCardinalityNamesSnoc(cats[..i], cats[i]);
      if Nunique(cats[i].cells) <= 20 {
        names := names + [cats[i].name];
      }
    }
    assert cats[..|cats|] == cats;
  }

  /** The loop over the datetime columns. */
  method DatetimeStats(dts: seq<Column>) returns (r: seq<DatetimeStat>)
    ensures |r| == |dts|
    ensures forall i :: 0 <= i < |dts| ==> r[i] == DatetimeStatOf(dts[i])
  {
    r := [];
    for i := 0 to |dts|
      invariant |r| == i
      invariant forall j :: 0 <= j < i ==> r[j] == DatetimeStatOf(dts[j])
    {
      r := r + [DatetimeStatOf(dts[i])];
    }
  }

  class EdaEngine {
    const df: Table
    const numericCols: seq<string>
    const categoricalCols: seq<string>
    const datetimeCols: seq<string>
    const datasetType: string
    var edaSummary: Option<EdaSummary>

    /** The column lists the constructor fixes, tied to the frame. */
    ghost predicate Valid() {
      && ValidTable(df)
      && numericCols == NamesOfKind(df, Numeric)
      && categoricalCols == NamesOfKind(df, Categorical)
      && datetimeCols == NamesOfKind(df, Datetime)
    }

    /** The dataset type the constructor fixes. */
    ghost predicate Classified() {
      datasetType == DetectDatasetType(Names(df.columns))
    }

    /** `EDAEngine(df)`: splits the columns by dtype and detects the dataset
        type; the output directory is not modelled. */
    constructor (t: Table)
      requires ValidTable(t)
      ensures Valid() && Classified() && df == t && edaSummary == None
    {
      df := t;
      numericCols := NamesOfKind(t, Numeric);
      categoricalCols := NamesOfKind(t, Categorical);
      datetimeCols := NamesOfKind(t, Datetime);
      datasetType := DetectDatasetType(Names(t.columns));
      edaSummary := None;
    }

    /** `dataset_info`: row and column counts, the type and the sizes of the
        three dtype lists. */
    function DatasetInfoOf(): (info: DatasetInfo)
      requires Valid() && Classified()
      ensures info.rows == df.rows && info.columns == |df.columns|
      ensures info.datasetType in {"sales", "finance", "customer", "general"}
      ensures info.numericColumns == |numericCols| && info.categoricalColumns == |categoricalCols|
      ensures info.datetimeColumns == |datetimeCols|
      ensures info.numericColumns + info.categoricalColumns + info.datetimeColumns <= info.columns
    {
      ColumnSplitCounts(df.columns);
      DatasetInfo(df.rows, |df.columns|, datasetType, |numericCols|, |categoricalCols|, |datetimeCols|)
    }

    /** `get_column_statistics()`: every numeric column, the first ten
        categorical columns and every datetime column. */
    method GetColumnStatistics() returns (r: Result<ColumnStatistics>)
      requires Valid()
      ensures var cats := ColumnsOfKind(df.columns, Categorical);
        r.Ok? <==> forall i :: 0 <= i < Min(10, |cats|) ==> CategoricalStatOf(cats[i]).Ok?
      ensures r.Ok? ==> r.value.numeric == numericCols
      ensures var cats := ColumnsOfKind(df.columns, Categorical);
        r.Ok? ==> (|r.value.categorical| == Min(10, |cats|) && |r.value.categorical| <= 10 &&
          forall i :: 0 <= i < |r.value.categorical| ==> CategoricalStatOf(cats[i]) == Ok(r.value.categorical[i]))
      ensures r.Ok? ==> forall i :: 0 <= i < |r.value.categorical| ==> r.value.categorical[i].column == categoricalCols[i]
      ensures var dts := ColumnsOfKind(df.columns, Datetime);
        r.Ok? ==> (|r.value.datetime| == |dts| &&
          forall i :: 0 <= i < |dts| ==> r.value.datetime[i] == DatetimeStatOf(dts[i]))
    {
      var cats := ColumnsOfKind(df.columns, Categorical);
      var categorical := CategoricalStats(cats, Min(10, |cats|));
      if categorical.Err? {
        assert !(forall i :: 0 <= i < Min(10, |cats|) ==> CategoricalStatOf(cats[i]).Ok?);
        assert cats == ColumnsOfKind(df.columns, Categorical);
        return Err(categorical.error);
      }
      var datetime := DatetimeStats(ColumnsOfKind(df.columns, Datetime));
      r := Ok(ColumnStatistics(numericCols, categorical.value, datetime));
    }

    /** `generate_correlation_heatmap()`: no heatmap below two numeric
        columns, otherwise one over all of them. */
    function CorrelationColumns(): (r: Option<seq<string>>)
      requires Valid()
      ensures r.None? <==> |ColumnsOfKind(df.columns, Numeric)| < 2
      ensures r.Some? ==> r.value == Names(ColumnsOfKind(df.columns, Numeric)) && |r.value| >= 2
    {
      if |numericCols| < 2 then None else Some(numericCols)
    }

    /** `generate_distribution_plots()`: histograms of the first four numeric
        columns, and bar charts of the first four categorical columns that
        have at most 20 distinct values; a figure with no panel is not drawn. */
    method GenerateDistributionPlots() returns (plots: DistributionPlots)
      requires Valid()
      ensures plots.numeric.Some? <==> |numericCols| > 0
      ensures plots.numeric.Some? ==> plots.numeric.value == numericCols[..Min(4, |numericCols|)]
      ensures var valid := Names(LowCardinality(ColumnsOfKind(df.columns, Categorical)));
        && (plots.categorical.Some? <==> |valid| > 0)
        && (plots.categorical.Some? ==> plots.categorical.value == valid[..Min(4, |valid|)])
    {
      var numericPlot: Option<seq<string>> := None;
      if |numericCols| > 0 {
        var panels := DrawPanels(numericCols[..Min(4, |numericCols|)]);
        numericPlot := Some(panels);
      }
      var categoricalPlot := CategoricalPlot(ColumnsOfKind(df.columns, Categorical));
      plots := DistributionPlots(numericPlot, categoricalPlot);
    }

    /** What `get_column_statistics` reports: the numeric list, the
        statistics of the first ten categorical columns and those of every
        datetime column, in frame order. */
    ghost predicate StatisticsOfFrame(st: ColumnStatistics) {
      var cats, dts := ColumnsOfKind(df.columns, Categorical), ColumnsOfKind(df.columns, Datetime);
      && st.numeric == numericCols
      && |st.categorical| == Min(10, |cats|)
      && (forall i :: 0 <= i < |st.categorical| ==> CategoricalStatOf(cats[i]) == Ok(st.categorical[i]))
      && |st.datetime| == |dts|
      && (forall i :: 0 <= i < |dts| ==> st.datetime[i] == DatetimeStatOf(dts[i]))
    }

    /** What `generate_distribution_plots` selects: the first four numeric
        columns, and the first four categorical columns with at most 20
        distinct values; no plot when there is no such column. */
    ghost predicate PlotsOfFrame(plots: DistributionPlots) {
      var valid := Names(LowCardinality(ColumnsOfKind(df.columns, Categorical)));
      && (plots.numeric.Some? <==> |numericCols| > 0)
      && (plots.numeric.Some? ==> plots.numeric.value == numericCols[..Min(4, |numericCols|)])
      && (plots.categorical.Some? <==> |valid| > 0)
      && (plots.categorical.Some? ==> plots.categorical.value == valid[..Min(4, |valid|)])
    }

    /** `run_full_eda()`: builds the summary and stores it in `edaSummary`; if
        computing the statistics raises, nothing is stored. */
    method RunFullEda() returns (r: Result<EdaSummary>)
      requires Valid() && Classified()
      modifies this`edaSummary
      ensures r.Ok? ==> edaSummary == Some(r.value)
      ensures r.Err? ==> edaSummary == old(edaSummary)
      ensures r.Ok? ==> r.value.datasetInfo == DatasetInfoOf()
      ensures r.Ok? ==> r.value.missingValues == AnalyzeMissingValues(df)
      ensures var cats := ColumnsOfKind(df.columns, Categorical);
        r.Ok? <==> forall i :: 0 <= i < Min(10, |cats|) ==> CategoricalStatOf(cats[i]).Ok?
      ensures r.Ok? ==> StatisticsOfFrame(r.value.statistics)
      ensures r.Ok? ==> r.value.visualizations.correlationHeatmap == CorrelationColumns()
      ensures r.Ok? ==> PlotsOfFrame(r.value.visualizations.distributions)
    {
      var info := DatasetInfoOf();
      var missing := AnalyzeMissingValues(df);
      var stats := GetColumnStatistics();
      if stats.Err? {
        return Err(stats.error);
      }
      assert StatisticsOfFrame(stats.value);
      var heatmap := CorrelationColumns();
      var distributions := GenerateDistributionPlots();
      assert PlotsOfFrame(distributions);
      var summary := EdaSummary(info, missing, stats.value, Visualizations(heatmap, distributions));
      edaSummary := Some(summary);
      r := Ok(summary);
    }
  }

  /** The kept columns are exactly the ones with at most 20 distinct values. */
  lemma {:induction false} LowCardinalityExact(cols: seq<Column>, c: Column)
    ensures c in LowCardinality(cols) <==> c in cols && Nunique(c.cells) <= 20
  {
    if cols != [] {
      LowCardinalityExact(cols[1..], c);
      assert cols == [cols[0]] + cols[1..];
    }
  }

  lemma LowCardinalityNamesSnoc(cols: seq<Column>, c: Column)
    ensures Names(LowCardinality(cols + [c]))
      == Names(LowCardinality(cols)) + (if Nunique(c.cells) <= 20 then [c.name] else [])
  {
    LowCardinalityAppend(cols, [c]);
    assert [c][1..] == [];
    NamesAppend(LowCardinality(cols), LowCardinality([c]));
  }

  lemma {:induction false} LowCardinalityAppend(a: seq<Column>, b: seq<Column>)
    ensures LowCardinality(a + b) == LowCardinality(a) + LowCardinality(b)
  {
    if a == [] {
      assert a + b == b;
    } else {
      var h := if Nunique(a[0].cells) <= 20 then [a[0]] else [];
      assert (a + b)[0] == a[0] && (a + b)[1..] == a[1..] + b;
      assert LowCardinality(a + b) == h + LowCardinality(a[1..] + b);
      LowCardinalityAppend(a[1..], b);
      assert h + (LowCardinality(a[1..]) + LowCardinality(b)) == (h + LowCardinality(a[1..])) + LowCardinality(b);
    }
  }
}
