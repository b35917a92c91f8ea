# AI Insight Reporter — a verified model of the analysis pipeline

AI Insight Reporter turns a table into a business report in four stages:

1. It profiles the table: splits the columns by dtype, counts missing values and picks the columns that get statistics and plots.
2. It classifies the dataset as `sales`, `finance`, `customer` or `general` by a keyword vote over the column names.
3. It extracts a dictionary of domain KPIs, finding each source column by a greedy keyword search.
4. It writes a narrative. It first tries a remote GPT-4 call and falls back to a rule-based template.

This project models those four stages in Dafny and proves what each one promises.

A table is a sequence of columns (`Frames.Table`). Each column has a name, a kind (`Numeric`, `Datetime`, `Bool` or `Categorical`) and cells of type `Option<Value>`, where `None` is a missing cell.

- A Python dict becomes a sequence of key/value pairs (module `Dicts`). Assigning to a key updates it in place if it exists and appends it otherwise, so insertion order, and with it "first" and "last", stays observable.
- An exception the source can raise becomes an `Err` of `Wrappers.Result`.
- A NaN becomes `None`.
- Objects whose fields the source assigns become classes:
  - `Eda.EdaEngine` stores the column lists at construction, and `run_full_eda` stores its summary.
  - `Kpi.KpiExtractor.ExtractAllKpis` overwrites the `kpis` field.
  - `Narrator.AiNarrator` holds the key, the model name and whether a client exists.
- Where the source works step by step, the model does too. The KPI extractors assign entries one block at a time. The column-info loop appends to four lists. The fallback report and the prompt accumulate text line by line. Each of these methods is proved equal to a specification function: `SalesKpisOf`, `EntriesIn`, `FallbackText`, `PromptText` and the others.
- The report text is modelled exactly, character for character. It is built as a sequence of `Narrator.Line` values in order, rendered by `Narrator.Render`. The lemmas about the report's structure are stated on those lines.

Modules, one file each:

- `Wrappers`: `Option` and `Result`.
- `Strings`: ASCII case mapping, `str.title`, substring search, decimal digits.
- `Frames`: the table, null counts, sums, means, distinct values, the mode and date bounds.
- `Dicts`: the ordered dict.
- `Utils`: `src/utils.py`.
- `Eda`: `src/eda_engine.py`.
- `Kpi`: `src/kpi_extractor.py`.
- `Narrator`: `src/ai_narrator.py`.

Behaviour of the code that a reader might not expect, and that the model keeps:

- **Classification threshold.** The code requires the best score to be at least 2, so a single matching column still gives `general` (`Eda.DetectionRule`, `Eda.SingleColumnIsGeneral`).
- **Column resolution.** The code only tests containment, keyword first and then column (`Kpi.ResolveNameFirstColumn`). An exact case-insensitive match for a later keyword loses to a containment match for an earlier one.
- **Extraction failures.** KPI extraction and the rule-based narrative raise in these cases, and the model returns `Err` for each:
  - `value_counts().iloc[0]` on a column with no value;
  - `value_counts().index[0]` on a column with no value;
  - `credit.sum() - debit.sum()` on non-numeric sums;
  - `idxmax` when no numeric column has a mean;
  - `nunique() / len(df)` on a frame without rows;
  - the fallback's completeness division when rows × columns is 0.
- **Method labels.** The two narrative methods are reported as `"gpt-4"` and `"fallback"`.
- **Dtype classification.** Columns are split into numeric, categorical and datetime by their dtypes, not by inspecting values. A numeric column holds integers only or floats only, as a pandas dtype does (`Frames.ValidColumn`), so its distinct values compare as numbers (`Frames.NumericValuesByNumber`).
- **Zero columns.** The constructor of `EDAEngine` does not reject a frame without columns. `validate_dataframe` rejects only `None` and frames with zero rows.

In `src/eda_engine.py` line 179, the `plt.title(...)` call of `generate_correlation_heatmap` is indented four spaces, so the file as written does not parse. The model follows the evident intent: the call belongs to the heatmap method, whose only decision is the guard at lines 155-156.

## Model

| member | source | states |
|---|---|---|
| Strings.Lower | src/eda_engine.py:63 | `str.lower` on ASCII: same length, each upper-case letter mapped to its lower-case form, everything else kept |
| Strings.ContainsIff | src/eda_engine.py:67 | `kw in col` holds exactly when the keyword occurs at some position of the name |
| Strings.TitleLowerWord | src/kpi_extractor.py:253 | `str.title` of a lower-case word upper-cases its first letter and keeps the rest |
| Strings.DigitsRoundTrip | src/utils.py:73-74 | the decimal digits of a natural number read back as that number |
| Strings.IntToDecimalValue | src/utils.py:73-74 | `str(n)` reads back as `n`: decimal digits without leading zeros, after a `-` exactly when `n` is negative |
| Frames.Names | src/eda_engine.py:63 | the column names, one per column, in frame order |
| Frames.ColumnsOfKind | src/eda_engine.py:49-51 | `select_dtypes` keeps only columns of the kind, drops none of them and never grows the list |
| Frames.ColumnsOfKindAppend | src/eda_engine.py:49-51 | the selection distributes over concatenation, so frame order is kept |
| Frames.ColumnByName | src/kpi_extractor.py:68-69 | `df[name]` finds a column exactly when the name is in the frame, and that column carries the name |
| Frames.NullCount | src/eda_engine.py:95 | `isnull().sum()` of a column is at most its length, and 0 exactly when every cell is present |
| Frames.TotalNullsBound | src/utils.py:145-146 | a frame's missing cells never exceed rows × columns |
| Frames.Mean | src/kpi_extractor.py:70 | `mean()` is NaN exactly when no value is present; otherwise mean × count equals the column sum |
| Frames.Distinct | src/eda_engine.py:133 | the distinct values are exactly the values present in the column |
| Frames.ModeIsMostFrequent | src/kpi_extractor.py:81-82 | the first entry of `value_counts()` is present in the column, and no value occurs more often |
| Frames.DayBounds | src/kpi_extractor.py:91-93 | the minimum date exists exactly when the maximum does; every date lies between them, and both are dates of the column |
| Frames.NumericValuesByNumber | src/eda_engine.py:133 | two values of a numeric column are the same value exactly when they are the same number, so distinct values are counted as pandas counts them |
| Frames.DateRange | src/kpi_extractor.py:92-93 | `(max - min).days` is never negative |
| Dicts.GetPut | src/kpi_extractor.py:68-71 | after `d[k] = v`, `k` maps to `v` and every other key keeps its value |
| Dicts.PutKeys | src/kpi_extractor.py:253 | assignment keeps the key order, and a new key goes last |
| Dicts.GetKeys | src/kpi_extractor.py:253 | a key is present exactly when it is among the keys, paired with its value |
| Utils.ReplaceSpaces | src/utils.py:226 | every space becomes `_`, and every other character is kept in place |
| Utils.KeepWordChars | src/utils.py:229 | only `[A-Za-z0-9_]` characters remain, and the result is never longer |
| Utils.CleanNameChar | src/utils.py:226-232 | one character: a space gives `_`, a word character its lower-case form, anything else nothing |
| Utils.CleanNameAppend | src/utils.py:226-232 | cleaning works character by character: it distributes over concatenation |
| Utils.CleanNameShape | src/utils.py:226-232 | a cleaned name holds only `a-z`, `0-9` and `_`, and is no longer than the original |
| Utils.CleanNameFixes | src/utils.py:226-232 | a name already made of `a-z0-9_` is left unchanged |
| Utils.CleanNameIdempotent | src/utils.py:226-232 | cleaning twice is cleaning once |
| Utils.CleanColumnNames | src/utils.py:213-234 | the copy keeps the row count and the column count and order, and changes only each column's name, to its cleaned form |
| Utils.CleanColumnNamesIdempotent | src/utils.py:213-234 | cleaning the columns of a cleaned frame changes nothing |
| Utils.GroupRemoveCommas | src/utils.py:73-74 | deleting the commas of a grouped digit string gives the digits back |
| Utils.FormatNumberRoundTrip | src/utils.py:62-76 | deleting the commas of `f"{value:,}"` gives `str(value)`, sign included |
| Utils.GroupIsWellGrouped | src/utils.py:73-74 | grouping yields a head of 1-3 digits followed by comma-and-three-digit groups |
| Utils.FormatNumberGrouped | src/utils.py:62-76 | `format_number` of an int is well grouped, after a `-` when negative |
| Utils.CompletenessRange | src/utils.py:154 | with cells and at most that many missing, completeness lies in [0, 100] and is 100 exactly when nothing is missing |
| Utils.ValidateDataframe | src/utils.py:129-156 | invalid with "DataFrame is empty" exactly for `None` or zero rows; otherwise rows, columns, total cells = rows × columns, the missing count, and a completeness that is NaN exactly when there are no columns |
| Utils.ValidateCompleteness | src/utils.py:145-154 | for a frame with rows and columns, the reported completeness is a percentage, and 100 exactly when no cell is missing |
| Utils.GetColumnInfo | src/utils.py:159-210 | the loop fills the four buckets with exactly the entries of the ordered dtype test, in column order |
| Utils.BucketsPartition | src/utils.py:176-208 | every column lands in exactly one bucket: the bucket sizes add up to the column count |
| Utils.BooleanBucketEmpty | src/utils.py:179-201 | `is_numeric_dtype` accepts booleans first, so the boolean bucket is always empty |
| Utils.BucketNames | src/utils.py:176-208 | each bucket lists the names of the columns the dtype test sends there, in frame order |
| Eda.MatchesAnyIff | src/eda_engine.py:67 | `any(kw in col for kw in keywords)` holds exactly when some keyword occurs in the name |
| Eda.Score | src/eda_engine.py:66-75 | a domain score never exceeds the number of columns |
| Eda.ScoreAppend | src/eda_engine.py:66-75 | the score of two lists of names, laid end to end, is the sum of their scores |
| Eda.ScorePermutation | src/eda_engine.py:63-75 | reordering the column names leaves every score unchanged |
| Eda.FirstMaxIndex | src/eda_engine.py:83-85 | `max(scores, key=scores.get)`: the result's score is maximal, and every earlier entry scores strictly less |
| Eda.DetectDatasetType | src/eda_engine.py:56-86 | the label is one of `sales`, `finance`, `customer`, `general` |
| Eda.DetectionRule | src/eda_engine.py:63-86 | `general` exactly when every score is below 2; otherwise the highest-scoring domain, ties going to sales, then finance, then customer |
| Eda.DetectionIgnoresOrder | src/eda_engine.py:63-75 | the label depends only on the multiset of column names, not on their order; rows never enter it |
| Eda.SingleColumnIsGeneral | src/eda_engine.py:83-86 | a one-column frame is always `general`, even when its column name matches a keyword |
| Eda.SalesScenario | src/eda_engine.py:56-86 | the columns product, revenue, quantity, region are classified `sales` |
| Eda.DetailOf | src/eda_engine.py:95-100 | a column's entry carries its null count and `count / len(df) * 100`, a percentage that is 0 exactly when nothing is missing and 100 exactly when every row is |
| Eda.MissingEntriesExact | src/eda_engine.py:98-104 | the details hold exactly the columns with at least one null, each with its count and percentage |
| Eda.MissingEntriesCount | src/eda_engine.py:101-108 | the number of details is the number of columns with a null |
| Eda.InsertKeepsOrder | src/eda_engine.py:101-103 | inserting into a list sorted by descending percentage keeps it sorted |
| Eda.SortByPercentage | src/eda_engine.py:101-103 | the result is sorted by descending percentage and is a permutation of its input |
| Eda.AnalyzeMissingValues | src/eda_engine.py:88-110 | the total is the sum of the null counts; columns_with_missing equals the number of details and is at most the column count; the details are sorted by descending percentage and are a permutation of the columns with nulls |
| Eda.MissingDetailsExact | src/eda_engine.py:88-110 | a detail is reported exactly for each column with a null, with that column's count and percentage |
| Eda.ColumnSplitCounts | src/eda_engine.py:49-51 | the numeric, categorical and datetime lists, with the boolean columns that go in none of them, account for every column once |
| Eda.EdaEngine.constructor | src/eda_engine.py:37-54 | the three lists are the names of the frame's numeric, categorical and datetime columns, in frame order, and the dataset type is the detected one |
| Eda.EdaEngine.DatasetInfoOf | src/eda_engine.py:278-285 | rows, columns and the three list lengths, which add up to at most the column count; the type is one of the four labels |
| Eda.CategoricalStatOf | src/eda_engine.py:131-136 | raises exactly for a column with rows but no value; otherwise it gives the number of distinct values, a most frequent value exactly when some value is present, and its frequency (0 when there is none) |
| Eda.CategoricalStats | src/eda_engine.py:131-136 | the loop succeeds exactly when every selected column's statistics do, and then lists them in order |
| Eda.DatetimeStatOf | src/eda_engine.py:139-144 | the minimum and maximum are the column's earliest and latest dates; they and the range exist together, and range = maximum − minimum ≥ 0 |
| Eda.DatetimeStats | src/eda_engine.py:139-144 | one entry per datetime column, in order |
| Eda.EdaEngine.GetColumnStatistics | src/eda_engine.py:112-146 | the numeric list; statistics for exactly the first min(10, n) categorical columns, failing exactly when one of those has rows but no value; and one entry per datetime column |
| Eda.EdaEngine.CorrelationColumns | src/eda_engine.py:155-156 | no heatmap exactly when the frame has fewer than 2 numeric-dtype columns; otherwise one over all of them, in frame order |
| Eda.DrawPanels | src/eda_engine.py:198-228 | the plotted panels are the first min(4, n) columns given |
| Eda.LowCardinalityExact | src/eda_engine.py:233-234 | a categorical column is kept for plotting exactly when it has at most 20 distinct values |
| Eda.LowCardinalityAppend | src/eda_engine.py:233-234 | the filter distributes over concatenation, so column order is kept |
| Eda.LowCardinalityNames | src/eda_engine.py:233-234 | the loop collects the names of exactly the kept columns, in order |
| Eda.CategoricalPlot | src/eda_engine.py:230-266 | a categorical plot exists exactly when some column is kept, and covers the first min(4, n) kept columns |
| Eda.EdaEngine.GenerateDistributionPlots | src/eda_engine.py:188-268 | a numeric plot exists exactly when there is a numeric column, covering the first min(4, n); the categorical plot as above |
| Eda.EdaEngine.RunFullEda | src/eda_engine.py:270-295 | succeeds exactly when the statistics of the first ten categorical columns do; then stores in `edaSummary` the dataset info, the missing-value report, the numeric list, the statistics of the first ten categorical and of every datetime column, the heatmap columns, and the first four numeric and first four low-cardinality categorical plot columns (no panel when there are none); on failure nothing is stored |
| Kpi.LowerIndexSound | src/kpi_extractor.py:44 | every entry of `{col.lower(): col}` maps the lower-cased form of a real column to it |
| Kpi.LowerIndexComplete | src/kpi_extractor.py:44 | every column's lower-cased name is a key |
| Kpi.LowerIndexNoCollision | src/kpi_extractor.py:44 | with no two names lower-casing alike, the index is the column list in order |
| Kpi.LowerIndexKeepsLast | src/kpi_extractor.py:44 | a key of `{col.lower(): col}` holds the last column that lower-cases to it |
| Kpi.LowerIndexKeyOrder | src/kpi_extractor.py:44 | the keys are distinct and come in the order of the first column of each lower-case name |
| Kpi.LowerIndexCollision | src/kpi_extractor.py:44 | an instance of the two lemmas above: for `Revenue` and `REVENUE`, one entry is kept, at the first one's position with the later one's name |
| Kpi.FirstContainingFrom | src/kpi_extractor.py:46-48 | the inner loop finds the first index entry containing the keyword, or reports that none does |
| Kpi.FirstContaining | src/kpi_extractor.py:46-48 | the loop with early return computes exactly that entry |
| Kpi.ResolveFrom | src/kpi_extractor.py:45-49 | keyword-major search: the hit is for the earliest keyword that occurs anywhere, at the first entry containing it; `None` when no keyword occurs |
| Kpi.ResolveNameSound | src/kpi_extractor.py:34-49 | a found name is an original column name whose lower-cased form contains a keyword that no earlier keyword preempts |
| Kpi.ResolveNameNone | src/kpi_extractor.py:34-49 | `None` exactly when no keyword occurs in any lower-cased column name |
| Kpi.ResolveNameFirstColumn | src/kpi_extractor.py:45-48 | with distinct lower-cased names, the result is the first column, in frame order, containing the earliest matching keyword |
| Kpi.ResolveCollision | src/kpi_extractor.py:44-48 | searching `revenue` among `Revenue` and `REVENUE` returns `REVENUE` |
| Kpi.KpiExtractor.constructor | src/kpi_extractor.py:22-32 | stores the frame and the type tag, with an empty KPI dict |
| Kpi.KpiExtractor.FindColumn | src/kpi_extractor.py:34-49 | the nested loop returns the greedily resolved column name |
| Kpi.KpiExtractor.ColumnFor | src/kpi_extractor.py:34-49 | `df[_find_column(...)]`: the resolved column, if any |
| Kpi.RevenueStepGet | src/kpi_extractor.py:68-71 | Total Revenue, Average Order Value and Revenue Std Dev are assigned exactly when a revenue column resolves and is numeric; nothing else changes |
| Kpi.QuantityStepGet | src/kpi_extractor.py:74-76 | the two unit keys are assigned exactly when a quantity column resolves and is numeric |
| Kpi.ProductStepGet | src/kpi_extractor.py:79-83 | Unique Products and Top Product are assigned exactly when a product column resolves |
| Kpi.MarginStepGet | src/kpi_extractor.py:86-88 | the margin keys are assigned exactly when a margin column resolves and is numeric |
| Kpi.DateStepGet | src/kpi_extractor.py:91-95 | Data Period is assigned for a datetime date column; Avg Transactions per Day only when its range exceeds 0 days |
| Kpi.SalesLookup | src/kpi_extractor.py:51-97 | each sales key maps to its entry: Total Revenue is the column sum, Average Order Value the mean (sum / count), and so on; absent keys are exactly those whose column is missing or of the wrong kind; no Dataset Type key |
| Kpi.PutRevenueKpis | src/kpi_extractor.py:68-71 | the revenue block's assignments |
| Kpi.PutQuantityKpis | src/kpi_extractor.py:74-76 | the quantity block's assignments |
| Kpi.PutProductKpis | src/kpi_extractor.py:79-83 | raises exactly for a product column with no value; otherwise the product block's assignments |
| Kpi.PutMarginKpis | src/kpi_extractor.py:86-88 | the margin block's assignments |
| Kpi.PutDateKpis | src/kpi_extractor.py:91-95 | the date block's assignments |
| Kpi.SalesKpis | src/kpi_extractor.py:51-97 | fails exactly when a product column holds no value; otherwise returns exactly the sales KPIs |
| Kpi.KpiExtractor.ExtractSalesKpis | src/kpi_extractor.py:51-97 | the sales KPIs of the resolved columns, failing exactly as `SalesFails` says |
| Kpi.BalanceStepGet | src/kpi_extractor.py:116-119 | the balance keys are assigned exactly when a balance column resolves and is numeric |
| Kpi.DebitStepGet | src/kpi_extractor.py:122-124 | the debit keys are assigned exactly when a debit column resolves and is numeric |
| Kpi.CreditStepGet | src/kpi_extractor.py:126-128 | the credit keys are assigned exactly when a credit column resolves and is numeric |
| Kpi.NetStepGet | src/kpi_extractor.py:131-133 | Net Position is assigned whenever both a debit and a credit column resolve, with no dtype test |
| Kpi.AccountStepGet | src/kpi_extractor.py:136-137 | Total Accounts is assigned exactly when an account column resolves |
| Kpi.TransactionStepGet | src/kpi_extractor.py:140-143 | the transaction keys are assigned exactly when a transaction column resolves |
| Kpi.FinanceLookup | src/kpi_extractor.py:99-145 | each finance key maps to its entry, and no Dataset Type key is set |
| Kpi.NetPositionPresent | src/kpi_extractor.py:131-133 | Net Position is present exactly when both columns resolve, and equals sum(credit) − sum(debit) |
| Kpi.PutNetKpis | src/kpi_extractor.py:131-133 | raises exactly when a sum is not a number; otherwise sets Net Position |
| Kpi.PutTransactionKpis | src/kpi_extractor.py:140-143 | raises exactly for a transaction column with no value |
| Kpi.PutBalanceKpis | src/kpi_extractor.py:116-119 | the balance block's assignments |
| Kpi.PutDebitKpis | src/kpi_extractor.py:122-124 | the debit block's assignments |
| Kpi.PutCreditKpis | src/kpi_extractor.py:126-128 | the credit block's assignments |
| Kpi.PutAccountKpis | src/kpi_extractor.py:136-137 | the account block's assignment |
| Kpi.FinanceKpis | src/kpi_extractor.py:99-145 | fails exactly when the net position or the top transaction raises; otherwise returns the finance KPIs |
| Kpi.KpiExtractor.ExtractFinanceKpis | src/kpi_extractor.py:99-145 | the finance KPIs of the resolved columns, failing exactly as `FinanceFails` says |
| Kpi.ChurnedCountRows | src/kpi_extractor.py:173 | `isin(['yes','true','1','churned']).sum()` counts exactly the rows whose lower-cased text is one of those words |
| Kpi.ChurnRange | src/kpi_extractor.py:168-177 | for a non-numeric churn column, the churn rate is 100 × churned / rows, a percentage, and retention = 100 − churn |
| Kpi.LargestSegmentShare | src/kpi_extractor.py:185-189 | the largest segment is a most frequent value, and its share of the rows lies in (0, 100] |
| Kpi.CustomerStepGet | src/kpi_extractor.py:164-165 | Total Customers is assigned exactly when a customer column resolves |
| Kpi.ChurnStepGet | src/kpi_extractor.py:168-177 | the churn and retention keys are assigned exactly when a churn column resolves |
| Kpi.AgeStepGet | src/kpi_extractor.py:180-182 | the age keys are assigned exactly when an age column resolves and is numeric |
| Kpi.SegmentStepGet | src/kpi_extractor.py:185-189 | the segment keys are assigned exactly when a segment column resolves |
| Kpi.ValueStepGet | src/kpi_extractor.py:192-195 | the value keys are assigned exactly when a value column resolves and is numeric |
| Kpi.CustomerLookup | src/kpi_extractor.py:147-197 | each customer key maps to its entry, and no Dataset Type key is set |
| Kpi.PutCustomerCountKpis | src/kpi_extractor.py:164-165 | the customer block's assignment |
| Kpi.PutChurnKpis | src/kpi_extractor.py:168-177 | the churn block's assignments |
| Kpi.PutAgeKpis | src/kpi_extractor.py:180-182 | the age block's assignments |
| Kpi.PutSegmentKpis | src/kpi_extractor.py:185-189 | raises exactly for a segment column with no value |
| Kpi.PutValueKpis | src/kpi_extractor.py:192-195 | the value block's assignments |
| Kpi.CustomerKpis | src/kpi_extractor.py:147-197 | fails exactly when a segment column holds no value; otherwise returns the customer KPIs |
| Kpi.KpiExtractor.ExtractCustomerKpis | src/kpi_extractor.py:147-197 | the customer KPIs of the resolved columns, failing exactly as `CustomerFails` says |
| Kpi.ResolvedHasRows | src/kpi_extractor.py:34-49 | a resolved column of a well-formed frame has one cell per row |
| Kpi.FirstMaxDefined | src/kpi_extractor.py:219-224 | `idxmax` skips NaN: the result is the first maximal defined mean, or none exactly when all are NaN |
| Kpi.Means | src/kpi_extractor.py:222 | one mean per numeric column, in order |
| Kpi.Diversities | src/kpi_extractor.py:229-230 | one ratio nunique / rows per categorical column |
| Kpi.BasicStepGet | src/kpi_extractor.py:209-216 | Total Records, Total Columns and Data Completeness are always assigned |
| Kpi.HighestAvgStepGet | src/kpi_extractor.py:219-224 | the `Highest Avg (c)` key is assigned exactly when there is a numeric column, named after the column with the top mean |
| Kpi.DiversityStepGet | src/kpi_extractor.py:227-232 | Most Diverse Column is assigned exactly when there is a categorical column |
| Kpi.GeneralLookup | src/kpi_extractor.py:199-234 | each general key maps to its entry |
| Kpi.GeneralLacksDatasetType | src/kpi_extractor.py:199-234 | the general KPIs set no Dataset Type key |
| Kpi.CompletenessBounds | src/kpi_extractor.py:213-216 | with cells, completeness = (cells − missing) / cells × 100 lies in [0, 100], and is 100 exactly when nothing is missing |
| Kpi.HighestAvgIsMaximal | src/kpi_extractor.py:219-224 | the chosen column has a defined mean that no other numeric column exceeds, and every earlier one is strictly lower |
| Kpi.MostDiverseIsMaximal | src/kpi_extractor.py:227-232 | the chosen column has the most distinct values, the earliest such column |
| Kpi.PutBasicKpis | src/kpi_extractor.py:209-216 | the basic block's assignments |
| Kpi.PutHighestAvgKpis | src/kpi_extractor.py:219-224 | raises exactly when no numeric column has a mean |
| Kpi.PutDiversityKpis | src/kpi_extractor.py:227-232 | raises exactly for categorical columns in a frame without rows |
| Kpi.GeneralKpis | src/kpi_extractor.py:199-234 | fails exactly in those two cases; otherwise returns the general KPIs |
| Kpi.KpiExtractor.ExtractGeneralKpis | src/kpi_extractor.py:199-234 | the general KPIs of the frame, failing exactly as `GeneralFails` says |
| Kpi.DomainLacksDatasetType | src/kpi_extractor.py:243-250 | whichever extractor the tag selects, its dict has no Dataset Type key |
| Kpi.AllKpisLookup | src/kpi_extractor.py:236-255 | Dataset Type is the title-cased tag and the last key; every other key is the selected extractor's, with `sales`, `finance` and `customer` dispatched to their own and any other tag to the general one |
| Kpi.DatasetTypeTitle | src/kpi_extractor.py:253 | the title-cased tag is the tag with its first letter upper-cased |
| Kpi.KpiExtractor.ExtractAllKpis | src/kpi_extractor.py:236-255 | succeeds exactly when the selected extractor does; then `kpis` and the result are the full dict, and on failure `kpis` is unchanged |
| Narrator.KpiItems | src/ai_narrator.py:79-80 | one `- key: value` line per KPI, in dict order |
| Narrator.PromptListsEveryKpi | src/ai_narrator.py:61-108 | the prompt is 14 header lines ending with the KPI heading, then exactly one line per KPI in dict order, then the fixed instructions |
| Narrator.PromptOnEdaSummary | src/ai_narrator.py:67-74 | on a profile summary, the prompt shows its title-cased type, the grouped record count, the column count and the missing total |
| Narrator.AppendKpiItems | src/ai_narrator.py:79-80 | the `+=` loop appends exactly the rendered KPI lines |
| Narrator.AiNarrator.BuildAnalysisPrompt | src/ai_narrator.py:50-109 | the built prompt is exactly the text of the prompt lines |
| Narrator.FindingLines | src/ai_narrator.py:174-179 | one finding bullet per KPI, in dict order |
| Narrator.FindingBullet | src/ai_narrator.py:176-179 | a bullet gets the commentary suffix exactly when its lower-cased key contains `total` or `average` |
| Narrator.AppendFindings | src/ai_narrator.py:174-179 | the `+=` loop appends exactly the rendered findings |
| Narrator.Shown | src/ai_narrator.py:174-175 | `kpi_list[:6]`: a prefix of the KPIs in dict order, all of them when there are at most six and exactly six otherwise |
| Narrator.RecommendationBlocks | src/ai_narrator.py:190-221 | every block has 6 bullets; `sales`, `finance` and `customer` get their own block exactly, and every other tag the generic one |
| Narrator.RecommendationBlock | src/ai_narrator.py:190-221 | the if-chain picks the block of the dataset type |
| Narrator.QualityGate | src/ai_narrator.py:229-231 | completeness < 95 exactly when 20 × missing > rows × columns |
| Narrator.WriteReportBody | src/ai_narrator.py:163-226 | the text up to the risks heading is exactly the rendered report body |
| Narrator.AppendLines | src/ai_narrator.py:182-238 | appending a rendered block to rendered text renders the joined line list |
| Narrator.FallbackLayout | src/ai_narrator.py:147-240 | the report is the header, at most six findings in dict order, three fixed findings, the six-bullet block of the type, the risks heading, the data-quality risk exactly when more than one cell in twenty is missing, and the four standing risks |
| Narrator.FallbackNonEmpty | src/ai_narrator.py:147-240 | with cells, the report exists and is not empty |
| Narrator.CellsOnEdaSummary | src/ai_narrator.py:229 | on a profile summary, rows × columns is 0 exactly when rows or columns are 0 |
| Narrator.FallbackOnEdaSummary | src/ai_narrator.py:229 | on a profile summary, the report divides by zero exactly when rows or columns are 0 |
| Narrator.NoDatasetInfoFails | src/ai_narrator.py:158-160 | a summary without dataset info defaults rows to 0 and so divides by zero |
| Narrator.AiNarrator.GenerateFallbackNarrative | src/ai_narrator.py:147-240 | returns the text of the report's lines, failing exactly when rows × columns is 0 |
| Narrator.AiNarrator.constructor | src/ai_narrator.py:32-48 | the key is the argument, or the environment's when the argument is empty; the model defaults to `gpt-4-turbo-preview`; a client exists exactly with a key, the package and a client that starts |
| Narrator.AiNarrator.GenerateWithGpt4 | src/ai_narrator.py:111-145 | without a client, `None`; with one, the remote answer, with an exception modelled as `None` |
| Narrator.AiNarrator.GenerateNarrative | src/ai_narrator.py:242-273 | the remote model is asked, with the built prompt, exactly when it is not forced off and a client exists; the method is `gpt-4` exactly when it answered with non-empty text, and the report is then that text; otherwise it is the fallback report; the narrative is never empty; the model is `self.model` exactly for `gpt-4`, otherwise `rule-based`; `api_available` is whether a client exists |
| Narrator.GenerateNarrativeWith | src/ai_narrator.py:276-289 | a fresh narrator never forced off: it asks the remote model exactly when a client can be built, and fails only when no remote text came back and the table has no cells |

## Left out

- Float statistics are out: standard deviation, median, quartiles, min/max text, correlation values and `:,.2f` formatting. KPI values are the quantities behind the text (sums, means, counts, exact percentages). Std, median and range entries are `Unmodelled`; their presence is still modelled.
- Floats are exact reals. The completeness < 95 gate and every percentage are computed in exact arithmetic, so rounding at a boundary is not modelled.
- Frames.ModeIsMostFrequent: states a value of maximal frequency, not pandas' tie order among equally frequent values. The same holds for Top Product, Most Common Transaction, Largest Segment and the top categorical value.
- Eda.SortByPercentage: states sorted by descending percentage and a permutation; the order among equal percentages is not stated, because pandas' default quicksort is not stable.
- Duplicate column names are not modelled. pandas returns a frame rather than a column for `df[name]` when the name repeats.
- The pandas `category` dtype is not separated from object columns: categorical cells are strings. Booleans are their own kind. `select_dtypes('number')` leaves booleans out, while `is_numeric_dtype` takes them in. This is why the boolean bucket of `get_column_info` is always empty.
- Datetime values are whole days, and `(max - min).days` is an integer difference.
- The narrator receives the KPI dict as already formatted key/value strings, as the source renders them with f-strings. Formatting `KpiValue` into those strings is left out with the float text.
- Case mapping is ASCII-only in `lower`, `title` and the name cleaner; Unicode case rules are not modelled.
- Narrator.AiNarrator.GenerateFallbackNarrative: computes rows × columns before writing the text, which is unobservable because writing the text has no effects; it fails exactly where the source raises.
- The OpenAI client, `dotenv` and the environment lookup are parameters. `Environment` holds the two variables read; `openAiAvailable` says whether the import succeeded; `clientStarts` whether `OpenAI(...)` returned. The remote call is the oracle `remote(model, prompt)`, with any exception as `None`. Timeouts, retries and the request's other parameters are not modelled.
- Plotting with matplotlib and seaborn, image paths and the output directory are out. Only the rules that choose which columns are plotted are modelled.
- The rest of `src/utils.py` is out: `load_dataset`, `save_summary_json` and `create_directory_structure` (file I/O), `generate_sample_sales_data` (random numbers), `format_currency` and `format_percentage` (float text), the float branch of `format_number`, and the memory figure of `validate_dataframe`.
- `src/pdf_generator.py`, `streamlit_app.py`, `main.py`, `generate_sample_data.py`, `setup.py` and `src/__init__.py` are not part of this model: report layout, web UI, command line and packaging.
- `print` warnings in the source are not modelled.
