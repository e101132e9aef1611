/** The executive summary added to every answer that passed the input
    defences: one sentence chosen by the analysis' label, with the figures
    that sentence reports. The rendering of those figures (thousands
    separators, two decimals, a signed percentage) is not part of this
    model; the sentence kind and its figures are. */
module Summary {
  import opened Common
  import opened Text
  import opened Usage
  import opened Analysis
  import opened Synthesis

  datatype ExecutiveSummary =
    | LimitedData
    | CostSummary(totalSpend: real)
    | OptimizationSummary(count: nat, savings: real)
    | TrendSummary(change: real)
    | GovernanceSummary(count: nat, cost: real)
    | SecuritySummary
    | GenericSummary

  /** The sentences that carry no figure. */
  function FixedSentence(s: ExecutiveSummary): Option<string> {
    match s
    case LimitedData => Some("Analysis completed with limited data availability. Recommend reviewing data sources.")
    case SecuritySummary => Some("Security and token usage analysis completed. All systems operating within normal security parameters.")
    case GenericSummary => Some("Analysis completed successfully with comprehensive insights and recommendations provided.")
    case _ => None
  }

  /** `sum(month_data['total_cost'] for month_data in monthly_totals.values())`. */
  function TotalSpend(d: Dict<Totals>): real {
    if d == [] then 0.0 else TotalSpend(d[..|d| - 1]) + d[|d| - 1].1.totalCost
  }

  /** `sum(res['cost'] for res in untagged)`. */
  function UntaggedCost(u: seq<Untagged>): real {
    if u == [] then 0.0 else UntaggedCost(u[..|u| - 1]) + u[|u| - 1].cost
  }

  /** The month-over-month change in per cent, the previous month's cost
      taken as at least one. */
  function Change(recent: real, previous: real): real {
    (recent - previous) / (if previous > 1.0 then previous else 1.0) * 100.0
  }

  /** `_generate_executive_summary`: limited data when the analysis gave
      none (which includes the error result), otherwise the sentence of
      the label; a trend question with fewer than two months of data, and
      a `general` one, get the generic sentence. */
  function Summarize(a: Analysis): ExecutiveSummary {
    if !DataAvailable(a) then LimitedData
    else
      var r := a.results;
      match r.classification
      case CostInquiry => CostSummary(TotalSpend(r.monthlyTotals))
      case OptimizationAnalysis => OptimizationSummary(|r.opportunities|, SumSavings(r.opportunities))
      case TrendAnalysis =>
        if |r.trendData| >= 2 then TrendSummary(Change(r.trendData[0].cost, r.trendData[1].cost)) else GenericSummary
      case GovernanceAnalysis =>
        var u := if r.untagged.Some? then r.untagged.value else [];
        GovernanceSummary(|u|, UntaggedCost(u))
      case SecurityInquiry => SecuritySummary
      case General => GenericSummary
  }

  // ----- What the summary promises -----

  /** The change has the sign of the difference between the two months. */
  lemma ChangeSign(recent: real, previous: real)
    ensures Change(recent, previous) > 0.0 <==> recent > previous
    ensures Change(recent, previous) == 0.0 <==> recent == previous
    ensures Change(recent, previous) < 0.0 <==> recent < previous
  {
    var m := if previous > 1.0 then previous else 1.0;
    assert Change(recent, previous) == (recent - previous) * (100.0 / m);
    assert 100.0 / m > 0.0;
  }

  /** When the previous month cost at least one, the change is the exact
      relative difference in per cent. */
  lemma ChangeIsRelative(recent: real, previous: real)
    requires previous >= 1.0
    ensures Change(recent, previous) * previous == (recent - previous) * 100.0
  {
    if previous > 1.0 {
      assert Change(recent, previous) == (recent - previous) * 100.0 / previous;
    }
  }

  /** The limited-data sentence is given exactly when there is no data, and
      every other sentence follows the label: a figure sentence for the
      four labels that have one (a trend only with two months of data), the
      security sentence for `security_inquiry`, the generic one otherwise. */
  lemma SummaryFollowsLabel(a: Analysis)
    ensures Summarize(a) == LimitedData <==> !DataAvailable(a)
    ensures a.Failed? ==> Summarize(a) == LimitedData
    ensures DataAvailable(a) ==>
      && (Summarize(a).CostSummary? <==> a.results.classification == CostInquiry)
      && (Summarize(a).OptimizationSummary? <==> a.results.classification == OptimizationAnalysis)
      && (Summarize(a).TrendSummary? <==> a.results.classification == TrendAnalysis && |a.results.trendData| >= 2)
      && (Summarize(a).GovernanceSummary? <==> a.results.classification == GovernanceAnalysis)
      && (Summarize(a) == SecuritySummary <==> a.results.classification == SecurityInquiry)
      && (Summarize(a) == GenericSummary <==> a.results.classification == General || (a.results.classification == TrendAnalysis && |a.results.trendData| < 2))
  {
  }

  /** A security question that the analysis completed gets the security
      sentence, whatever else it mentions. */
  lemma SecurityQuestionSummary(query: string, db: Outcome<Database>, usage: UsageStats, patternsMonitored: nat)
    requires Fires(SecurityGroup, Lower(query))
    requires Analyze(query, db, usage, patternsMonitored).Completed?
    ensures Summarize(Analyze(query, db, usage, patternsMonitored)) == SecuritySummary
  {
    SecurityQuestionWins(query, db, usage, patternsMonitored);
  }

  /** The optimisation sentence reports seventy per cent of the idle
      resources' total cost. */
  lemma OptimizationSummarySavings(query: string, db: Outcome<Database>, usage: UsageStats, patternsMonitored: nat)
    requires Summarize(Analyze(query, db, usage, patternsMonitored)).OptimizationSummary?
    ensures var a := Analyze(query, db, usage, patternsMonitored);
      Summarize(a).savings == SumCosts(a.results.opportunities) * 0.7
  {
    var a := Analyze(query, db, usage, patternsMonitored);
    AnalysisPriced(query, db, usage, patternsMonitored);
    SavingsAreSeventyPercent(a.results.opportunities);
  }

  /** A trend sentence reports a rise exactly when the latest month cost
      more than the one before. */
  lemma TrendSummaryDirection(a: Analysis)
    requires Summarize(a).TrendSummary?
    ensures Summarize(a).change > 0.0 <==> a.results.trendData[0].cost > a.results.trendData[1].cost
    ensures Summarize(a).change < 0.0 <==> a.results.trendData[0].cost < a.results.trendData[1].cost
  {
    ChangeSign(a.results.trendData[0].cost, a.results.trendData[1].cost);
  }
}
