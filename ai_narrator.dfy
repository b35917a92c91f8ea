/** `src/ai_narrator.py`: the narrative step. A narrator either sends an
    analysis prompt to a remote language model or, when that is switched
    off, unavailable or answers with nothing, writes a rule-based report
    from a fixed template. Both texts are modelled as lists of lines: every
    kind of line the narrator writes is a constructor of `Line`, `LineText`
    spells it out, and a text is its lines, each followed by a newline
    (`Render`). */
module Narrator {
  import opened Wrappers
  import opened Strings
  import Utils
  import Eda

  // ---------------------------------------------------------------------
  // What the narrator reads
  // ---------------------------------------------------------------------

  /** `eda_summary['dataset_info']` as `dict.get` sees it: `None` for an
      absent key. */
  datatype InfoView = InfoView(
    datasetType: Option<string>, rows: Option<nat>, columns: Option<nat>,
    numericColumns: Option<nat>, categoricalColumns: Option<nat>)

  /** `eda_summary['missing_values']`, likewise. */
  datatype MissingView = MissingView(totalMissing: Option<nat>, columnsWithMissing: Option<nat>)

  datatype SummaryView = SummaryView(datasetInfo: Option<InfoView>, missingValues: Option<MissingView>)

  /** `d.get(key, default)`. */
  function GetOr<T>(o: Option<T>, default: T): T {
    if o.Some? then o.value else default
  }

  /** `eda_summary.get('dataset_info', {})`. */
  function Info(s: SummaryView): InfoView {
    GetOr(s.datasetInfo, InfoView(None, None, None, None, None))
  }

  /** `eda_summary.get('missing_values', {})`. */
  function Missing(s: SummaryView): MissingView {
    GetOr(s.missingValues, MissingView(None, None))
  }

  /** The summary `EDAEngine.run_full_eda` produces: every key is there. */
  function ViewOf(e: Eda.EdaSummary): (v: SummaryView)
    ensures Info(v).rows == Some(e.datasetInfo.rows) && Info(v).columns == Some(e.datasetInfo.columns)
    ensures Info(v).datasetType == Some(e.datasetInfo.datasetType)
    ensures Missing(v).totalMissing == Some(e.missingValues.totalMissing)
  {
    var info := e.datasetInfo;
    SummaryView(
      Some(InfoView(Some(info.datasetType), Some(info.rows), Some(info.columns),
                    Some(info.numericColumns), Some(info.categoricalColumns))),
      Some(MissingView(Some(e.missingValues.totalMissing), Some(e.missingValues.columnsWithMissing))))
  }

  /** The KPI dict handed to the narrator: display keys and their formatted
      values, in insertion order. */
  type KpiText = seq<(string, string)>

  /** Python truthiness of an optional string: present and not empty. */
  predicate Truthy(o: Option<string>) {
    o.Some? && o.value != ""
  }

  // ---------------------------------------------------------------------
  // The lines the narrator writes
  // ---------------------------------------------------------------------

  datatype Heading =
    | ExecutiveSummary | KeyFindings | ActionableRecommendations | RisksAndLimitations
    | DatasetOverview | DataQuality | KeyPerformanceIndicators

  function HeadingText(h: Heading): string {
    match h
    case ExecutiveSummary => "## EXECUTIVE SUMMARY"
    case KeyFindings => "## KEY FINDINGS"
    case ActionableRecommendations => "## ACTIONABLE RECOMMENDATIONS"
    case RisksAndLimitations => "## RISKS & LIMITATIONS"
    case DatasetOverview => "DATASET OVERVIEW:"
    case DataQuality => "DATA QUALITY:"
    case KeyPerformanceIndicators => "KEY PERFORMANCE INDICATORS:"
  }

  /** Fixed sentences: the prompt's opening, the three generic findings and
      three of the standing risks. */
  datatype Remark =
    | AnalystBrief
    | StatisticalAnalysis | CorrelationAnalysis | DataCompleteness
    | TemporalLimitations | CorrelationVsCausation | ExternalFactors

  function RemarkText(r: Remark): string {
    match r
    case AnalystBrief =>
      "You are a senior business analyst at Algorzen Research Division. Analyze the following dataset and provide an executive-level business intelligence report."
    case StatisticalAnalysis => "• Statistical analysis reveals distribution patterns requiring strategic attention"
    case CorrelationAnalysis => "• Correlation analysis identifies key interdependencies between business metrics"
    case DataCompleteness => "• Data completeness metrics enable confidence in analytical conclusions"
    case TemporalLimitations =>
      "• **Temporal Limitations**: Results reflect current dataset timeframe; market conditions may evolve"
    case CorrelationVsCausation =>
      "• **Correlation vs Causation**: Observed patterns require validation before implementing strategic changes"
    case ExternalFactors =>
      "• **External Factors**: Analysis does not account for exogenous variables affecting business performance"
  }

  /** The lines of the structure the prompt asks the model to follow. */
  datatype Instruction =
    | RequestStructure
    | SummarySection | SummaryOverview | SummaryCritical | SummarySignificance
    | FindingsSection | FindingsInsights | FindingsPatterns | FindingsHighlights
    | RecommendationsSection | RecommendationsActions | RecommendationsPriority | RecommendationsMeasurable
    | RisksSection | RisksQuality | RisksAnalytical | RisksCaveats
    | Tone | Focus | Format

  function InstructionText(i: Instruction): string {
    match i
    case RequestStructure => "Please provide a comprehensive analysis in the following structure:"
    case SummarySection => "1. EXECUTIVE SUMMARY (3-5 sentences)"
    case SummaryOverview => "   - High-level overview of the dataset"
    case SummaryCritical => "   - Most critical findings"
    case SummarySignificance => "   - Strategic significance"
    case FindingsSection => "2. KEY FINDINGS (4-6 bullet points)"
    case FindingsInsights => "   - Data-driven insights"
    case FindingsPatterns => "   - Patterns and trends"
    case FindingsHighlights => "   - Statistical highlights"
    case RecommendationsSection => "3. ACTIONABLE RECOMMENDATIONS (4-6 bullet points)"
    case RecommendationsActions => "   - Strategic actions based on data"
    case RecommendationsPriority => "   - Prioritized by business impact"
    case RecommendationsMeasurable => "   - Specific and measurable"
    case RisksSection => "4. RISKS & LIMITATIONS (3-4 bullet points)"
    case RisksQuality => "   - Data quality concerns"
    case RisksAnalytical => "   - Analytical limitations"
    case RisksCaveats => "   - Caveats for decision-making"
    case Tone => "Tone: Professional, executive-level (McKinsey style)"
    case Focus => "Focus: Business value and strategic insights"
    case Format => "Format: Use clear headings and bullet points"
  }

  /** The recommendation bullets, six per dataset type. */
  datatype Advice =
    | OptimizeRevenueStreams | EnhanceCustomerTargeting | InventoryManagement
    | PricingStrategy | SalesForecasting | PerformanceMonitoring
    | CashFlowOptimization | RiskAssessment | AccountSegmentation
    | CostControl | FinancialPlanning | ComplianceMonitoring
    | ChurnPrevention | LifetimeValueOptimization | SegmentationStrategy
    | ExperienceEnhancement | LoyaltyPrograms | PredictiveAnalytics
    | DataQualityImprovement | FeatureEngineering | AutomatedMonitoring
    | StakeholderReporting | PredictiveModeling | ProcessOptimization

  function AdviceText(a: Advice): string {
    match a
    case OptimizeRevenueStreams =>
      "• **Optimize Revenue Streams**: Focus on high-performing products and channels identified in the analysis"
    case EnhanceCustomerTargeting =>
      "• **Enhance Customer Targeting**: Leverage segmentation insights to improve conversion rates"
    case InventoryManagement =>
      "• **Inventory Management**: Align stock levels with demand patterns observed in quantity metrics"
    case PricingStrategy =>
      "• **Pricing Strategy**: Review pricing elasticity based on revenue and margin correlations"
    case SalesForecasting =>
      "• **Sales Forecasting**: Implement predictive models using historical trend patterns"
    case PerformanceMonitoring =>
      "• **Performance Monitoring**: Establish dashboards for real-time KPI tracking"
    case CashFlowOptimization =>
      "• **Cash Flow Optimization**: Monitor debit/credit patterns to improve liquidity management"
    case RiskAssessment =>
      "• **Risk Assessment**: Analyze transaction patterns for anomaly detection and fraud prevention"
    case AccountSegmentation =>
      "• **Account Segmentation**: Develop targeted strategies for high-value account retention"
    case CostControl =>
      "• **Cost Control**: Identify expense categories with optimization potential"
    case FinancialPlanning =>
      "• **Financial Planning**: Use historical patterns for improved budget forecasting"
    case ComplianceMonitoring =>
      "• **Compliance Monitoring**: Ensure transaction data quality for regulatory reporting"
    case ChurnPrevention =>
      "• **Churn Prevention**: Implement retention programs targeting at-risk customer segments"
    case LifetimeValueOptimization =>
      "• **Customer Lifetime Value Optimization**: Focus resources on high-value customer acquisition"
    case SegmentationStrategy =>
      "• **Segmentation Strategy**: Develop tailored engagement approaches for each customer tier"
    case ExperienceEnhancement =>
      "• **Experience Enhancement**: Address pain points identified in customer behavior patterns"
    case LoyaltyPrograms =>
      "• **Loyalty Programs**: Design initiatives based on observed retention factors"
    case PredictiveAnalytics =>
      "• **Predictive Analytics**: Build churn prediction models for proactive intervention"
    case DataQualityImprovement =>
      "• **Data Quality Improvement**: Address missing values and inconsistencies identified in the analysis"
    case FeatureEngineering =>
      "• **Feature Engineering**: Develop new metrics based on correlation insights"
    case AutomatedMonitoring =>
      "• **Automated Monitoring**: Implement systematic tracking of key performance indicators"
    case StakeholderReporting =>
      "• **Stakeholder Reporting**: Create executive dashboards for strategic decision support"
    case PredictiveModeling =>
      "• **Predictive Modeling**: Leverage historical patterns for forecasting initiatives"
    case ProcessOptimization =>
      "• **Process Optimization**: Use data insights to streamline operational workflows"
  }

  datatype Line =
    | Blank
    | Head(heading: Heading)
    | Note(remark: Remark)
    | Ask(instruction: Instruction)
    | Advise(advice: Advice)
      /** `- name: value`: the prompt's overview figures and KPIs. */
    | Item(name: string, value: string)
      /** The report's first paragraph. */
    | Overview(datasetType: string, rows: nat, columns: nat, totalMissing: nat, columnsWithMissing: nat)
      /** The report's second paragraph. */
    | Patterns(numericColumns: nat, categoricalColumns: nat)
      /** The bullet of one KPI. */
    | Finding(key: string, value: string)
      /** The risk raised by poor completeness. */
    | QualityRisk(totalMissing: nat)
      /** The first standing risk. */
    | SampleSizeRisk(rows: nat)

  /** A key whose lower-cased text mentions a total or an average. */
  predicate Tagged(key: string) {
    Contains(Lower(key), "total") || Contains(Lower(key), "average")
  }

  function LineText(l: Line): string {
    match l
    case Blank => ""
    case Head(h) => HeadingText(h)
    case Note(r) => RemarkText(r)
    case Ask(i) => InstructionText(i)
    case Advise(a) => AdviceText(a)
    case Item(name, value) => "- " + name + ": " + value
    case Overview(t, n, c, m, cm) =>
      "This " + t + " dataset comprises " + Utils.FormatNumber(n) + " records across " + IntToDecimal(c)
        + " features, providing a comprehensive view of operational metrics. The analysis reveals key performance indicators with strategic implications for business optimization. Data quality assessment indicates "
        + IntToDecimal(m) + " missing values across " + IntToDecimal(cm) + " columns, requiring attention in downstream analytics."
    case Patterns(nc, cc) =>
      "Our automated analysis identifies critical patterns in " + IntToDecimal(nc) + " numeric and " + IntToDecimal(cc)
        + " categorical dimensions, enabling data-driven decision-making."
    case Finding(k, v) =>
      if Tagged(k) then "• **" + k + "**: " + v + " represents a critical operational metric for performance tracking"
      else "• **" + k + "**: " + v
    case QualityRisk(m) => "• **Data Quality**: " + IntToDecimal(m) + " missing values may impact analytical reliability"
    case SampleSizeRisk(n) =>
      "• **Sample Size Considerations**: Analysis based on " + Utils.FormatNumber(n) + " records; trends may vary with additional data"
  }

  /** A text made of `lines`, each followed by a newline. */
  function Render(lines: seq<Line>): string {
    if lines == [] then "" else Render(lines[..|lines| - 1]) + LineText(lines[|lines| - 1]) + "\n"
  }

  /** Concatenation regroups freely; called where a proof needs the two
      groupings of one text to be recognised as equal. */
  lemma AppendAssoc<T>(a: seq<T>, b: seq<T>, c: seq<T>)
    ensures a + (b + c) == (a + b) + c
  {
  }

  lemma {:induction false} RenderSnoc(lines: seq<Line>, l: Line)
    ensures Render(lines + [l]) == Render(lines) + LineText(l) + "\n"
  {
    assert (lines + [l])[..|lines|] == lines;
  }

  /** The text of two blocks of lines is the text of the first, then the
      text of the second. */
  lemma {:induction false} RenderAppend(a: seq<Line>, b: seq<Line>)
    ensures Render(a + b) == Render(a) + Render(b)
  {
    if b == [] {
      assert a + b == a;
      assert Render(a) + "" == Render(a);
    } else {
      var b', l := b[..|b| - 1], b[|b| - 1];
      assert b == b' + [l];
      AppendAssoc(a, b', [l]);
      RenderAppend(a, b');
      RenderSnoc(a + b', l);
      RenderSnoc(b', l);
      AppendAssoc(Render(a), Render(b') + LineText(l), "\n");
      AppendAssoc(Render(a), Render(b'), LineText(l));
    }
  }

  /** Where the parts of a block of lines laid end to end sit. Stated once
      over generic sequences, so that the prompt and report layout lemmas
      reason about positions without unfolding the line blocks themselves. */
  lemma Layout3<T>(a: seq<T>, b: seq<T>, c: seq<T>)
    ensures var w := a + b + c;
      && |w| == |a| + |b| + |c|
      && w[..|a|] == a
      && (forall i :: 0 <= i < |b| ==> w[|a| + i] == b[i])
      && w[|a| + |b|..] == c
  {
  }

  /** The same for the seven blocks of the fallback report. */
  lemma Layout7<T>(a: seq<T>, b: seq<T>, c: seq<T>, d: seq<T>, e: seq<T>, f: seq<T>, g: seq<T>)
    ensures var w := a + b + c + d + e + f + g;
      var nb, nc, nd, ne := |a| + |b|, |a| + |b| + |c|, |a| + |b| + |c| + |d|, |a| + |b| + |c| + |d| + |e|;
      && |w| == ne + |f| + |g|
      && w[..|a|] == a
      && (forall i :: 0 <= i < |b| ==> w[|a| + i] == b[i])
      && w[nb..nc] == c
      && w[nc..nd] == d
      && w[nd..ne] == e
      && (forall i :: 0 <= i < |f| ==> w[ne + i] == f[i])
      && w[|w| - |g|..] == g
  {
  }

  /** Every line contributes at least its newline. */
  lemma {:induction false} RenderLength(lines: seq<Line>)
    ensures |Render(lines)| >= |lines|
  {
    if lines != [] {
      RenderLength(lines[..|lines| - 1]);
    }
  }

  // ---------------------------------------------------------------------
  // The analysis prompt
  // ---------------------------------------------------------------------

  /** The prompt's overview, down to the KPI heading. */
  function PromptHeader(s: SummaryView): seq<Line> {
    var info, missing := Info(s), Missing(s);
    [Note(AnalystBrief),
     Blank,
     Head(DatasetOverview),
     Item("Type", Title(GetOr(info.datasetType, "general"))),
     Item("Records", Utils.FormatNumber(GetOr(info.rows, 0))),
     Item("Columns", IntToDecimal(GetOr(info.columns, 0))),
     Item("Numeric Features", IntToDecimal(GetOr(info.numericColumns, 0))),
     Item("Categorical Features", IntToDecimal(GetOr(info.categoricalColumns, 0))),
     Blank,
     Head(DataQuality),
     Item("Total Missing Values", IntToDecimal(GetOr(missing.totalMissing, 0))),
     Item("Columns with Missing Data", IntToDecimal(GetOr(missing.columnsWithMissing, 0))),
     Blank,
     Head(KeyPerformanceIndicators)]
  }

  /** One `- key: value` line per KPI, in dict order. */
  function KpiItems(kpis: KpiText): (r: seq<Line>)
    ensures |r| == |kpis|
    ensures forall i :: 0 <= i < |kpis| ==> r[i] == Item(kpis[i].0, kpis[i].1)
  {
    if kpis == [] then [] else KpiItems(kpis[..|kpis| - 1]) + [Item(kpis[|kpis| - 1].0, kpis[|kpis| - 1].1)]
  }

  /** The instructions after the KPI list. */
  const PromptTrailer: seq<Line> := [
    Blank, Ask(RequestStructure),
    Blank, Ask(SummarySection), Ask(SummaryOverview), Ask(SummaryCritical), Ask(SummarySignificance),
    Blank, Ask(FindingsSection), Ask(FindingsInsights), Ask(FindingsPatterns), Ask(FindingsHighlights),
    Blank, Ask(RecommendationsSection), Ask(RecommendationsActions), Ask(RecommendationsPriority),
    Ask(RecommendationsMeasurable),
    Blank, Ask(RisksSection), Ask(RisksQuality), Ask(RisksAnalytical), Ask(RisksCaveats),
    Blank, Ask(Tone), Ask(Focus), Ask(Format)]

  function PromptLines(s: SummaryView, kpis: KpiText): seq<Line> {
    PromptHeader(s) + KpiItems(kpis) + PromptTrailer
  }

  /** `_build_analysis_prompt(eda_summary, kpis)`. */
  function PromptText(s: SummaryView, kpis: KpiText): string {
    Render(PromptLines(s, kpis))
  }

  /** Right after the KPI heading the prompt holds exactly one `- key: value`
      line per KPI, in dict order, and then the fixed instructions. */
  lemma PromptListsEveryKpi(s: SummaryView, kpis: KpiText)
    ensures var lines := PromptLines(s, kpis);
      && |lines| == 14 + |kpis| + 26
      && lines[13] == Head(KeyPerformanceIndicators)
      && (forall i :: 0 <= i < |kpis| ==> lines[14 + i] == Item(kpis[i].0, kpis[i].1))
      && lines[14 + |kpis|..] == PromptTrailer
  {
    Layout3(PromptHeader(s), KpiItems(kpis), PromptTrailer);
  }

  /** On a summary from the EDA engine the prompt reports the engine's own
      figures: the title-cased type, the grouped row count, the column count
      and the missing-value total. */
  lemma PromptOnEdaSummary(e: Eda.EdaSummary, kpis: KpiText)
    ensures var lines := PromptLines(ViewOf(e), kpis);
      && lines[3] == Item("Type", Title(e.datasetInfo.datasetType))
      && lines[4] == Item("Records", Utils.FormatNumber(e.datasetInfo.rows))
      && lines[5] == Item("Columns", IntToDecimal(e.datasetInfo.columns))
      && lines[10] == Item("Total Missing Values", IntToDecimal(e.missingValues.totalMissing))
  {
  }

  // ---------------------------------------------------------------------
  // The rule-based report
  // ---------------------------------------------------------------------

  /** The executive summary, down to the findings heading. */
  function FallbackHeader(s: SummaryView): seq<Line> {
    var info, missing := Info(s), Missing(s);
    [Head(ExecutiveSummary),
     Blank,
     Overview(GetOr(info.datasetType, "general"), GetOr(info.rows, 0), GetOr(info.columns, 0),
              GetOr(missing.totalMissing, 0), GetOr(missing.columnsWithMissing, 0)),
     Blank,
     Patterns(GetOr(info.numericColumns, 0), GetOr(info.categoricalColumns, 0)),
     Blank,
     Head(KeyFindings),
     Blank]
  }

  /** One finding bullet per KPI, in dict order. */
  function FindingLines(kpis: KpiText): (r: seq<Line>)
    ensures |r| == |kpis|
    ensures forall i :: 0 <= i < |kpis| ==> r[i] == Finding(kpis[i].0, kpis[i].1)
  {
    if kpis == [] then [] else FindingLines(kpis[..|kpis| - 1]) + [Finding(kpis[|kpis| - 1].0, kpis[|kpis| - 1].1)]
  }

  /** The three generic findings, then the recommendations heading. */
  const FixedFindings: seq<Line> := [
    Blank, Note(StatisticalAnalysis), Note(CorrelationAnalysis), Note(DataCompleteness),
    Blank, Head(ActionableRecommendations), Blank]

  const SalesAdvice: seq<Line> := [
    Advise(OptimizeRevenueStreams), Advise(EnhanceCustomerTargeting), Advise(InventoryManagement),
    Advise(PricingStrategy), Advise(SalesForecasting), Advise(PerformanceMonitoring)]

  const FinanceAdvice: seq<Line> := [
    Advise(CashFlowOptimization), Advise(RiskAssessment), Advise(AccountSegmentation),
    Advise(CostControl), Advise(FinancialPlanning), Advise(ComplianceMonitoring)]

  const CustomerAdvice: seq<Line> := [
    Advise(ChurnPrevention), Advise(LifetimeValueOptimization), Advise(SegmentationStrategy),
    Advise(ExperienceEnhancement), Advise(LoyaltyPrograms), Advise(PredictiveAnalytics)]

  const GeneralAdvice: seq<Line> := [
    Advise(DataQualityImprovement), Advise(FeatureEngineering), Advise(AutomatedMonitoring),
    Advise(StakeholderReporting), Advise(PredictiveModeling), Advise(ProcessOptimization)]

  /** The recommendation block of a dataset type. */
  function Recommendations(tag: string): seq<Line> {
    if tag == "sales" then SalesAdvice
    else if tag == "finance" then FinanceAdvice
    else if tag == "customer" then CustomerAdvice
    else GeneralAdvice
  }

  const RisksHeading: seq<Line> := [Blank, Head(RisksAndLimitations), Blank]

  /** The four risk bullets every report ends with. */
  function StandingRisks(rows: nat): seq<Line> {
    [SampleSizeRisk(rows), Note(TemporalLimitations), Note(CorrelationVsCausation), Note(ExternalFactors)]
  }

  /** `rows * dataset_info.get('columns', 1)`, the divisor of the
      completeness figure. */
  function CellCount(s: SummaryView): nat {
    GetOr(Info(s).rows, 0) * GetOr(Info(s).columns, 1)
  }

  function MissingCount(s: SummaryView): nat {
    GetOr(Missing(s).totalMissing, 0)
  }

  /** `100 - (total_missing / cells * 100)`, in exact arithmetic. */
  function CompletenessOf(missing: nat, cells: nat): real
    requires cells > 0
  {
    100.0 - (missing as real / cells as real * 100.0)
  }

  lemma ScaleShare(m: real, c: real)
    requires c > 0.0
    ensures 20.0 * (m / c) > 1.0 <==> 20.0 * m > c
  {
    var q := m / c;
    assert q * c == m;
    if 20.0 * q > 1.0 {
      assert (20.0 * q - 1.0) * c > 0.0;
      assert (20.0 * q - 1.0) * c == 20.0 * m - c;
    } else {
      assert (1.0 - 20.0 * q) * c >= 0.0;
      assert (1.0 - 20.0 * q) * c == c - 20.0 * m;
    }
  }

  /** The data-quality risk is raised exactly when more than one cell in
      twenty is missing. */
  lemma QualityGate(missing: nat, cells: nat)
    requires cells > 0
    ensures CompletenessOf(missing, cells) < 95.0 <==> 20 * missing > cells
  {
    var m, c := missing as real, cells as real;
    ScaleShare(m, c);
    assert CompletenessOf(missing, cells) == 100.0 - m / c * 100.0;
    assert (20 * missing) as real == 20.0 * m;
  }

  /** The data-quality risk of a summary with cells, if it is raised. */
  function QualityRisks(s: SummaryView): seq<Line>
    requires CellCount(s) > 0
  {
    if CompletenessOf(MissingCount(s), CellCount(s)) < 95.0 then [QualityRisk(MissingCount(s))] else []
  }

  function Min(a: int, b: int): int { if a < b then a else b }

  /** `kpi_list[:6]`: the KPIs the findings mention. */
  function Shown(kpis: KpiText): (r: KpiText)
    ensures |r| <= 6 && r <= kpis
    ensures |kpis| <= 6 ==> r == kpis
    ensures |kpis| > 6 ==> |r| == 6
  {
    kpis[..Min(6, |kpis|)]
  }

  /** The shown KPIs by position, as the layout lemmas use them. */
  lemma ShownFirst(kpis: KpiText)
    ensures |Shown(kpis)| == Min(6, |kpis|)
    ensures forall i :: 0 <= i < |Shown(kpis)| ==> Shown(kpis)[i] == kpis[i]
  {
  }

  /** The report down to the risks heading: everything written before the
      completeness figure is computed. */
  function ReportBody(s: SummaryView, kpis: KpiText): seq<Line> {
    FallbackHeader(s) + FindingLines(Shown(kpis)) + FixedFindings
      + Recommendations(GetOr(Info(s).datasetType, "general")) + RisksHeading
  }

  /** The lines of the rule-based report of a summary with cells. */
  function FallbackLines(s: SummaryView, kpis: KpiText): seq<Line>
    requires CellCount(s) > 0
  {
    ReportBody(s, kpis) + QualityRisks(s) + StandingRisks(GetOr(Info(s).rows, 0))
  }

  /** `_generate_fallback_narrative(eda_summary, kpis)`: it divides by the
      cell count, so a summary without cells raises. */
  function FallbackText(s: SummaryView, kpis: KpiText): Result<string> {
    if CellCount(s) == 0 then Err(ZeroDivisionMsg) else Ok(Render(FallbackLines(s, kpis)))
  }

  /** The shape of the report: the executive summary, a bullet for each of
      the first six KPIs in dict order, the three generic findings, the
      recommendation block of the dataset type, the data-quality risk
      exactly when more than one cell in twenty is missing, and the four
      standing risks. */
  lemma FallbackLayout(s: SummaryView, kpis: KpiText)
    requires CellCount(s) > 0
    ensures var lines, m := FallbackLines(s, kpis), Min(6, |kpis|);
      var gate := 20 * MissingCount(s) > CellCount(s);
      && |lines| == 8 + m + 7 + 6 + 3 + (if gate then 1 else 0) + 4
      && lines[..8] == FallbackHeader(s)
      && (forall i :: 0 <= i < m ==> lines[8 + i] == Finding(kpis[i].0, kpis[i].1))
      && lines[8 + m..15 + m] == FixedFindings
      && lines[15 + m..21 + m] == Recommendations(GetOr(Info(s).datasetType, "general"))
      && lines[21 + m..24 + m] == RisksHeading
      && (gate ==> lines[24 + m] == QualityRisk(MissingCount(s)))
      && lines[|lines| - 4..] == StandingRisks(GetOr(Info(s).rows, 0))
  {
    QualityGate(MissingCount(s), CellCount(s));
    ShownFirst(kpis);
    Layout7(FallbackHeader(s), FindingLines(Shown(kpis)), FixedFindings,
            Recommendations(GetOr(Info(s).datasetType, "general")), RisksHeading,
            QualityRisks(s), StandingRisks(GetOr(Info(s).rows, 0)));
  }

  /** Every dataset type gets six recommendations; the three known types
      each get their own block and every other tag the generic one. */
  lemma RecommendationBlocks(tag: string)
    ensures |Recommendations(tag)| == 6
    ensures tag !in {"sales", "finance", "customer"} ==> Recommendations(tag) == GeneralAdvice
    ensures Recommendations(tag) == SalesAdvice <==> tag == "sales"
    ensures Recommendations(tag) == FinanceAdvice <==> tag == "finance"
    ensures Recommendations(tag) == CustomerAdvice <==> tag == "customer"
  {
    assert SalesAdvice[0] != FinanceAdvice[0] && SalesAdvice[0] != CustomerAdvice[0];
    assert SalesAdvice[0] != GeneralAdvice[0] && FinanceAdvice[0] != CustomerAdvice[0];
    assert FinanceAdvice[0] != GeneralAdvice[0] && CustomerAdvice[0] != GeneralAdvice[0];
  }

  /** The report is never empty. */
  lemma FallbackNonEmpty(s: SummaryView, kpis: KpiText)
    requires CellCount(s) > 0
    ensures FallbackText(s, kpis).Ok? && |FallbackText(s, kpis).value| > 0
  {
    RenderLength(FallbackLines(s, kpis));
  }

  /** On a summary from the EDA engine the report fails exactly when the
      frame has no rows or no columns. */
  lemma FallbackOnEdaSummary(e: Eda.EdaSummary, kpis: KpiText)
    ensures FallbackText(ViewOf(e), kpis).Err? <==> e.datasetInfo.rows == 0 || e.datasetInfo.columns == 0
  {
    CellsOnEdaSummary(e);
  }

  /** The cell count of an EDA summary is zero exactly when the frame has no
      rows or no columns. */
  lemma CellsOnEdaSummary(e: Eda.EdaSummary)
    ensures CellCount(ViewOf(e)) == 0 <==> e.datasetInfo.rows == 0 || e.datasetInfo.columns == 0
  {
    var n, c := e.datasetInfo.rows, e.datasetInfo.columns;
    assert CellCount(ViewOf(e)) == n * c;
    if n > 0 && c > 0 {
      assert n * c >= c;
    }
  }

  /** A summary without `dataset_info` counts one column but no rows, so
      the report always fails on it. */
  lemma NoDatasetInfoFails(missing: Option<MissingView>, kpis: KpiText)
    ensures FallbackText(SummaryView(None, missing), kpis) == Err(ZeroDivisionMsg)
  {
  }

  /** Appends the text of `block` to the text of `lines`. */
  method AppendLines(text: string, ghost lines: seq<Line>, block: seq<Line>) returns (r: string)
    requires text == Render(lines)
    ensures r == Render(lines + block)
  {
    RenderAppend(lines, block);
    r := text + Render(block);
  }

  /** The findings loop: one bullet per KPI, with the remark on KPIs whose
      key mentions a total or an average. */
  method AppendFindings(text: string, ghost lines: seq<Line>, shown: KpiText) returns (r: string)
    requires text == Render(lines)
    ensures r == Render(lines + FindingLines(shown))
  {
    r := text;
    ghost var findings: seq<Line> := [];
    assert lines + findings == lines;
    for i := 0 to |shown|
      invariant findings == FindingLines(shown[..i])
      invariant r == Render(lines + findings)
    {
      var key, value := shown[i].0, shown[i].1;
      FindingStep(shown, i);
      AppendAssoc(lines, findings, [Finding(key, value)]);
      RenderSnoc(lines + findings, Finding(key, value));
      var bullet := FindingBullet(key, value);
      r := r + bullet + "\n";
      findings := findings + [Finding(key, value)];
    }
    assert shown[..|shown|] == shown;
  }

  /** The first part of `_generate_fallback_narrative`: the executive
      summary, the findings, the recommendations of the dataset type and
      the risks heading. */
  method WriteReportBody(s: SummaryView, kpis: KpiText) returns (narrative: string)
    ensures narrative == Render(ReportBody(s, kpis))
  {
    var datasetType := GetOr(Info(s).datasetType, "general");
    var header := FallbackHeader(s);
    narrative := Render(header);
    narrative := AppendFindings(narrative, header, Shown(kpis));
    ghost var lines := header + FindingLines(Shown(kpis));
    narrative := AppendLines(narrative, lines, FixedFindings);
    lines := lines + FixedFindings;
    var block := RecommendationBlock(datasetType);
    narrative := AppendLines(narrative, lines, block);
    lines := lines + block;
    narrative := AppendLines(narrative, lines, RisksHeading);
  }

  /** The prompt's KPI loop: a `- key: value` line per KPI. */
  method AppendKpiItems(text: string, ghost lines: seq<Line>, kpis: KpiText) returns (r: string)
    requires text == Render(lines)
    ensures r == Render(lines + KpiItems(kpis))
  {
    r := text;
    ghost var items: seq<Line> := [];
    assert lines + items == lines;
    for i := 0 to |kpis|
      invariant items == KpiItems(kpis[..i])
      invariant r == Render(lines + items)
    {
      var key, value := kpis[i].0, kpis[i].1;
      KpiStep(kpis, i);
      AppendAssoc(lines, items, [Item(key, value)]);
      RenderSnoc(lines + items, Item(key, value));
      r := r + ("- " + key + ": " + value) + "\n";
      items := items + [Item(key, value)];
    }
    assert kpis[..|kpis|] == kpis;
  }

  lemma KpiStep(kpis: KpiText, i: nat)
    requires i < |kpis|
    ensures KpiItems(kpis[..i + 1]) == KpiItems(kpis[..i]) + [Item(kpis[i].0, kpis[i].1)]
  {
    assert kpis[..i + 1][..i] == kpis[..i];
  }

  lemma FindingStep(kpis: KpiText, i: nat)
    requires i < |kpis|
    ensures FindingLines(kpis[..i + 1]) == FindingLines(kpis[..i]) + [Finding(kpis[i].0, kpis[i].1)]
  {
    assert kpis[..i + 1][..i] == kpis[..i];
  }

  /** The bullet of one KPI, with the remark on a key that mentions a total
      or an average. */
  method FindingBullet(key: string, value: string) returns (bullet: string)
    ensures bullet == LineText(Finding(key, value))
  {
    if Contains(Lower(key), "total") || Contains(Lower(key), "average") {
      bullet := "• **" + key + "**: " + value + " represents a critical operational metric for performance tracking";
    } else {
      bullet := "• **" + key + "**: " + value;
    }
  }

  /** The `if`/`elif` chain on the dataset type. */
  method RecommendationBlock(datasetType: string) returns (block: seq<Line>)
    ensures block == Recommendations(datasetType)
  {
    if datasetType == "sales" {
      block := SalesAdvice;
    } else if datasetType == "finance" {
      block := FinanceAdvice;
    } else if datasetType == "customer" {
      block := CustomerAdvice;
    } else {
      block := GeneralAdvice;
    }
  }

  // ---------------------------------------------------------------------
  // The narrator
  // ---------------------------------------------------------------------

  /** The environment variables the narrator consults (after `.env` has
      been loaded). */
  datatype Environment = Environment(apiKey: Option<string>, model: Option<string>)

  /** The dict `generate_narrative` returns. */
  datatype NarrativeReport = NarrativeReport(narrative: string, methodUsed: string, model: string, apiAvailable: bool)

  /** Whether a narrator built from these inputs holds a client: a key
      (the argument, or the environment's when the argument is empty),
      the OpenAI package, and a client that starts. */
  predicate ClientFor(apiKey: Option<string>, env: Environment, openAiAvailable: bool, clientStarts: bool) {
    Truthy(if Truthy(apiKey) then apiKey else env.apiKey) && openAiAvailable && clientStarts
  }

  class AiNarrator {
    const apiKey: Option<string>
    const model: string
    /** `self.client is not None`. */
    const hasClient: bool

    /** `AINarrator(api_key)`. The package import and the client's
        construction are outside the model: `openAiAvailable` says whether
        the import succeeded and `clientStarts` whether `OpenAI(...)`
        returned without raising. */
    constructor (key: Option<string>, env: Environment, openAiAvailable: bool, clientStarts: bool)
      ensures apiKey == (if Truthy(key) then key else env.apiKey)
      ensures model == GetOr(env.model, "gpt-4-turbo-preview")
      ensures hasClient <==> ClientFor(key, env, openAiAvailable, clientStarts)
    {
      apiKey := if Truthy(key) then key else env.apiKey;
      model := GetOr(env.model, "gpt-4-turbo-preview");
      hasClient := Truthy(if Truthy(key) then key else env.apiKey) && openAiAvailable && clientStarts;
    }

    /** `_build_analysis_prompt`: the overview, then a line per KPI
        appended in a loop, then the instructions. */
    method BuildAnalysisPrompt(s: SummaryView, kpis: KpiText) returns (prompt: string)
      ensures prompt == PromptText(s, kpis)
    {
      var header := PromptHeader(s);
      prompt := Render(header);
      prompt := AppendKpiItems(prompt, header, kpis);
      prompt := AppendLines(prompt, header + KpiItems(kpis), PromptTrailer);
    }

    /** `_generate_with_gpt4`: `remote` stands for the chat-completion call
        with this narrator's model; any exception it raises, or a reply
        without content, is `None`. Without a client nothing is sent. */
    method GenerateWithGpt4(prompt: string, remote: (string, string) -> Option<string>) returns (reply: Option<string>)
      ensures !hasClient ==> reply == None
      ensures hasClient ==> reply == remote(model, prompt)
    {
      if !hasClient {
        return None;
      }
      reply := remote(model, prompt);
    }

    /** `_generate_fallback_narrative`: the report text, built by appending
        section after section. */
    method GenerateFallbackNarrative(s: SummaryView, kpis: KpiText) returns (r: Result<string>)
      ensures r == FallbackText(s, kpis)
      ensures r.Err? <==> CellCount(s) == 0
    {
      var info, missing := Info(s), Missing(s);
      var rows := GetOr(info.rows, 0);
      var cells := rows * GetOr(info.columns, 1);
      var narrative := WriteReportBody(s, kpis);
      ghost var lines := ReportBody(s, kpis);
      if cells == 0 {
        return Err(ZeroDivisionMsg);
      }
      var totalMissing := GetOr(missing.totalMissing, 0);
      var completeness := 100.0 - (totalMissing as real / cells as real * 100.0);
      var risk := if completeness < 95.0 then [QualityRisk(totalMissing)] else [];
      assert risk == QualityRisks(s);
      narrative := AppendLines(narrative, lines, risk);
      lines := lines + risk;
      narrative := AppendLines(narrative, lines, StandingRisks(rows));
      lines := lines + StandingRisks(rows);
      assert lines == FallbackLines(s, kpis);
      return Ok(narrative);
    }

    /** `generate_narrative`: the remote model unless `forceFallback` is set
        or there is no client, and the rule-based report whenever no text
        came back. `attempted` is the prompt sent to the remote model, if
        any. */
    method GenerateNarrative(s: SummaryView, kpis: KpiText, forceFallback: bool, remote: (string, string) -> Option<string>)
      returns (r: Result<NarrativeReport>, attempted: Option<string>)
      ensures attempted.Some? <==> !forceFallback && hasClient
      ensures attempted.Some? ==> attempted.value == PromptText(s, kpis)
      ensures var gpt := attempted.Some? && Truthy(remote(model, attempted.value));
        && (gpt ==> r == Ok(NarrativeReport(remote(model, attempted.value).value, "gpt-4", model, hasClient)))
        && (!gpt ==> (r.Err? <==> CellCount(s) == 0))
        && (!gpt && r.Ok? ==> r.value == NarrativeReport(FallbackText(s, kpis).value, "fallback", "rule-based", hasClient))
      ensures r.Ok? ==> r.value.narrative != ""
      ensures r.Ok? ==> (r.value.methodUsed == "gpt-4" <==> attempted.Some? && Truthy(remote(model, attempted.value)))
      ensures r.Ok? ==> r.value.model == (if r.value.methodUsed == "gpt-4" then model else "rule-based")
      ensures r.Ok? ==> r.value.apiAvailable == hasClient
    {
      var narrativeText: Option<string> := None;
      var methodUsed := "fallback";
      attempted := None;
      if !forceFallback && hasClient {
        var prompt := BuildAnalysisPrompt(s, kpis);
        attempted := Some(prompt);
        narrativeText := GenerateWithGpt4(prompt, remote);
        if Truthy(narrativeText) {
          methodUsed := "gpt-4";
        }
      }
      if !Truthy(narrativeText) {
        var fallback := GenerateFallbackNarrative(s, kpis);
        if fallback.Err? {
          return Err(fallback.error), attempted;
        }
        FallbackNonEmpty(s, kpis);
        narrativeText := Some(fallback.value);
      }
      r := Ok(NarrativeReport(narrativeText.value, methodUsed, if methodUsed == "gpt-4" then model else "rule-based", hasClient));
    }
  }

  /** The module-level `generate_narrative(eda_summary, kpis, api_key)`: a
      fresh narrator, never forced onto the fallback. */
  method GenerateNarrativeWith(s: SummaryView, kpis: KpiText, apiKey: Option<string>, env: Environment,
                               openAiAvailable: bool, clientStarts: bool, remote: (string, string) -> Option<string>)
    returns (r: Result<NarrativeReport>, attempted: Option<string>)
    ensures attempted.Some? <==> ClientFor(apiKey, env, openAiAvailable, clientStarts)
    ensures attempted.Some? ==> attempted.value == PromptText(s, kpis)
    ensures r.Ok? ==> r.value.apiAvailable == ClientFor(apiKey, env, openAiAvailable, clientStarts)
    ensures r.Ok? ==> r.value.narrative != ""
    ensures r.Err? <==> !(attempted.Some? && Truthy(remote(GetOr(env.model, "gpt-4-turbo-preview"), attempted.value))) && CellCount(s) == 0
  {
    var narrator := new AiNarrator(apiKey, env, openAiAvailable, clientStarts);
    r, attempted := narrator.GenerateNarrative(s, kpis, false, remote);
  }
}
