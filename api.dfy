/** The rule-based parts of the HTTP API: the question validator, the
    overall health status and the cost-optimisation recommendations. The
    database is represented by the rows its queries return; the selection,
    grouping and ordering done in SQL is not part of this model. */
module Api {
  import opened Common
  import opened Text
  import opened StableSort
  import Analysis

  // ----- Question validation -----

  /** The validator's list of suspicious fragments, compared lower-cased. */
  const SuspiciousPatterns: seq<string> := [
    "ignore", "system:", "assistant:", "prompt:", "instructions:",
    "<script>", "javascript:", "DROP TABLE", "DELETE FROM",
    "rm -rf", "../", "passwd", "sudo"]

  const MaxQuestionLength := 2000

  /** Why a question is refused: the field's length bounds, a blank
      question, or the first suspicious fragment found. */
  datatype Rejection = TooShort | TooLong | BlankQuestion | Harmful(pattern: string)

  datatype Validated = Accepted(question: string) | Rejected(reason: Rejection)

  /** The first pattern, in list order, whose lower-cased form occurs in
      `text`. */
  function FirstHarmful(text: string, patterns: seq<string>): (r: Option<string>)
    ensures r.None? <==> forall i :: 0 <= i < |patterns| ==> !Contains(text, Lower(patterns[i]))
    ensures r.Some? ==> exists i :: 0 <= i < |patterns| && patterns[i] == r.value && Contains(text, Lower(r.value))
                          && forall j :: 0 <= j < i ==> !Contains(text, Lower(patterns[j]))
  {
    if patterns == [] then None
    else if Contains(text, Lower(patterns[0])) then Some(patterns[0])
    else
      var r := FirstHarmful(text, patterns[1..]);
      assert forall i :: 1 <= i < |patterns| ==> patterns[i] == patterns[1..][i - 1];
      r
  }

  /** The question field with the given patterns: the length bounds of the
      field come first, then the blank check, then the pattern scan over
      the lower-cased question; an accepted question is returned
      stripped. */
  function Validate(v: string, patterns: seq<string>): Validated {
    if |v| < 1 then Rejected(TooShort)
    else if |v| > MaxQuestionLength then Rejected(TooLong)
    else if Strip(v) == [] then Rejected(BlankQuestion)
    else match FirstHarmful(Lower(v), patterns)
      case Some(p) => Rejected(Harmful(p))
      case None => Accepted(Strip(v))
  }

  /** `QuestionRequest.validate_question`, behind the field's bounds. */
  function ValidateQuestion(v: string): Validated {
    Validate(v, SuspiciousPatterns)
  }

  /** A question is accepted exactly when it is within the bounds, not
      blank, and free of every pattern. */
  lemma ValidationRules(v: string, patterns: seq<string>)
    ensures Validate(v, patterns).Accepted? <==>
      && 1 <= |v| <= MaxQuestionLength
      && Strip(v) != []
      && forall i :: 0 <= i < |patterns| ==> !Contains(Lower(v), Lower(patterns[i]))
  {
    var h := FirstHarmful(Lower(v), patterns);
    assert Validate(v, patterns).Accepted? <==> 1 <= |v| <= MaxQuestionLength && Strip(v) != [] && h.None?;
  }

  /** What is accepted is the stripped question, neither empty nor
      padded. */
  lemma AcceptedIsStripped(v: string, patterns: seq<string>)
    requires Validate(v, patterns).Accepted?
    ensures var q := Validate(v, patterns).question;
      q == Strip(v) && q != [] && !IsSpace(q[0]) && !IsSpace(q[|q| - 1])
  {
  }

  /** A rejection for a pattern names a pattern of the list that occurs in
      the lower-cased question. */
  lemma RejectionNamesPattern(v: string, patterns: seq<string>)
    requires Validate(v, patterns).Rejected? && Validate(v, patterns).reason.Harmful?
    ensures Validate(v, patterns).reason.pattern in patterns
    ensures Contains(Lower(v), Lower(Validate(v, patterns).reason.pattern))
  {
  }

  /** A string contains what any of its slices contains. */
  lemma SliceContains(s: string, a: nat, b: nat, needle: string)
    requires a <= b <= |s| && Contains(s[a..b], needle)
    ensures Contains(s, needle)
  {
    ContainsAt(s[a..b], needle);
    var i :| OccursAt(s[a..b], needle, i);
    forall k | 0 <= k < |needle| ensures s[a + i + k] == needle[k] {
      assert s[a..b][i..i + |needle|][k] == needle[k];
    }
    assert s[a + i..a + i + |needle|] == needle;
    assert OccursAt(s, needle, a + i);
    ContainsAt(s, needle);
  }

  /** A string contains what its stripped form contains. */
  lemma StripContained(s: string, needle: string)
    requires Contains(Strip(s), needle)
    ensures Contains(s, needle)
  {
    var a := |s| - |LStrip(s)|;
    SliceContains(s, a, a + |Strip(s)|, needle);
  }

  /** Stripping a string with no padding changes nothing. */
  lemma StripUnpadded(s: string)
    requires s != [] && !IsSpace(s[0]) && !IsSpace(s[|s| - 1])
    ensures Strip(s) == s
  {
  }

  /** The conditions under which the validator accepts. */
  lemma AcceptedWhen(v: string, patterns: seq<string>)
    requires 1 <= |v| <= MaxQuestionLength && Strip(v) != [] && FirstHarmful(Lower(v), patterns).None?
    ensures Validate(v, patterns) == Accepted(Strip(v))
  {
  }

  /** An accepted question passes the validator again unchanged. */
  lemma ValidationIdempotent(v: string, patterns: seq<string>)
    requires Validate(v, patterns).Accepted?
    ensures Validate(Validate(v, patterns).question, patterns) == Validate(v, patterns)
  {
    var q := Strip(v);
    assert Validate(v, patterns) == Accepted(q);
    assert FirstHarmful(Lower(v), patterns).None?;
    StripUnpadded(q);
    var l := Lower(v);
    LowerStrip(v);
    assert Lower(q) == Strip(l);
    forall i | 0 <= i < |patterns| ensures !Contains(Strip(l), Lower(patterns[i])) {
      if Contains(Strip(l), Lower(patterns[i])) {
        StripContained(l, Lower(patterns[i]));
        assert false;
      }
    }
    AcceptedWhen(q, patterns);
  }

  // ----- Health status -----

  datatype DbStatus = DbHealthy | NoData | DbError
  datatype Status = Healthy | Degraded | Critical

  /** `get_db_stats`' billing count: the count when the queries succeed,
      zero when they raise. */
  function BillingRecords(count: Outcome<nat>): nat {
    if count.Ok? then count.value else 0
  }

  /** The database status read off the billing count. */
  function DbStatusOf(records: int): DbStatus {
    if records > 0 then DbHealthy else if records == 0 then NoData else DbError
  }

  /** The overall status from the database status, the error rate in per
      cent and whether the question-answering service is loaded. */
  function OverallStatus(db: DbStatus, errorRate: real, ragService: bool): Status {
    if db == DbError || errorRate > 20.0 then Critical
    else if db == NoData || errorRate > 10.0 || !ragService then Degraded
    else Healthy
  }

  /** `health_check`'s status. */
  function HealthStatus(count: Outcome<nat>, errorRate: real, ragService: bool): Status {
    OverallStatus(DbStatusOf(BillingRecords(count)), errorRate, ragService)
  }

  function Severity(s: Status): nat {
    match s
    case Healthy => 0
    case Degraded => 1
    case Critical => 2
  }

  /** The database never reads as failed, since a failed count is reported
      as zero; so the service is critical exactly when more than a fifth of
      the requests failed, and healthy exactly when there is billing data,
      at most a tenth failed and the service is loaded. */
  lemma HealthRules(count: Outcome<nat>, errorRate: real, ragService: bool)
    ensures DbStatusOf(BillingRecords(count)) != DbError
    ensures HealthStatus(count, errorRate, ragService) == Critical <==> errorRate > 20.0
    ensures HealthStatus(count, errorRate, ragService) == Healthy <==>
      BillingRecords(count) > 0 && errorRate <= 10.0 && ragService
    ensures count.Raised? ==> HealthStatus(count, errorRate, ragService) != Healthy
  {
  }

  /** More failures never make the status better. */
  lemma StatusMonotone(db: DbStatus, r1: real, r2: real, ragService: bool)
    requires r1 <= r2
    ensures Severity(OverallStatus(db, r1, ragService)) <= Severity(OverallStatus(db, r2, ragService))
  {
  }

  // ----- Recommendations -----

  datatype Priority = High | Medium | Low
  datatype Category = IdleResource | TaggingGap | HighCostReview

  datatype Recommendation = Recommendation(
    category: Category, priority: Priority, resourceId: string, currentCost: real, estimatedSavings: real)

  /** A row of the idle-resource query: the month's cost and the average
      usage. */
  datatype IdleRow = IdleRow(resourceId: string, monthlyCost: real, avgUsage: real)
  /** A row of the tagging-gap or the high-cost query. */
  datatype CostRow = CostRow(resourceId: string, monthlyCost: real)

  /** The utilisation rate in per cent, 100 units of usage being full use. */
  function Utilization(avgUsage: real): real {
    if avgUsage > 0.0 then avgUsage / 100.0 * 100.0 else 0.0
  }

  /** The share of an idle resource's cost that its recommendation saves. */
  function IdleFraction(utilization: real): real {
    if utilization < 5.0 then 0.90 else if utilization < 20.0 then 0.60 else 0.30
  }

  function IdleRecommendation(r: IdleRow): Recommendation {
    var u := Utilization(r.avgUsage);
    var priority := if u < 5.0 || (u < 20.0 && r.monthlyCost > 100.0) then High else Medium;
    Recommendation(IdleResource, priority, r.resourceId, r.monthlyCost, r.monthlyCost * IdleFraction(u))
  }

  /** Tagging gaps save nothing directly; they are urgent above 50. */
  function TaggingRecommendation(r: CostRow): Recommendation {
    Recommendation(TaggingGap, if r.monthlyCost > 50.0 then High else Medium, r.resourceId, r.monthlyCost, 0.0)
  }

  /** The share of a high-cost resource's cost that a review saves. */
  function HighCostFraction(cost: real): real {
    if cost > 1000.0 then 0.30 else if cost > 500.0 then 0.20 else 0.15
  }

  function HighCostRecommendation(r: CostRow): Recommendation {
    Recommendation(HighCostReview, if r.monthlyCost > 1000.0 then High else Medium, r.resourceId,
      r.monthlyCost, r.monthlyCost * HighCostFraction(r.monthlyCost))
  }

  /** Lower use never earns a smaller share, and every share is between
      30% and 90%. */
  lemma IdleTiers(u1: real, u2: real)
    requires u1 <= u2
    ensures IdleFraction(u1) >= IdleFraction(u2)
    ensures 0.30 <= IdleFraction(u1) <= 0.90
  {
  }

  /** An idle resource is urgent when it is nearly unused, or underused and
      costing more than 100; its savings are a share of its cost. */
  lemma IdlePriority(r: IdleRow)
    requires r.monthlyCost >= 0.0
    ensures IdleRecommendation(r).priority == High <==>
      r.avgUsage < 5.0 || (r.avgUsage < 20.0 && r.monthlyCost > 100.0)
    ensures 0.30 * r.monthlyCost <= IdleRecommendation(r).estimatedSavings <= 0.90 * r.monthlyCost
  {
    var u := Utilization(r.avgUsage);
    assert r.avgUsage > 0.0 ==> u == r.avgUsage;
    IdleTiers(u, u);
  }

  /** A costlier resource never earns a smaller saving from its review. */
  lemma HighCostTiers(c1: real, c2: real)
    requires 0.0 <= c1 <= c2
    ensures HighCostFraction(c1) <= HighCostFraction(c2)
    ensures c1 * HighCostFraction(c1) <= c2 * HighCostFraction(c2)
  {
    assert c1 * HighCostFraction(c1) <= c2 * HighCostFraction(c1);
  }

  datatype PriorityCounts = PriorityCounts(high: nat, medium: nat, low: nat)

  const NoCounts := PriorityCounts(0, 0, 0)

  function CountOne(c: PriorityCounts, p: Priority): PriorityCounts {
    match p
    case High => c.(high := c.high + 1)
    case Medium => c.(medium := c.medium + 1)
    case Low => c.(low := c.low + 1)
  }

  /** The priority breakdown of a list. */
  function CountsOf(recs: seq<Recommendation>): PriorityCounts {
    if recs == [] then NoCounts else CountOne(CountsOf(recs[..|recs| - 1]), recs[|recs| - 1].priority)
  }

  /** The sum of the estimated savings of a list. */
  function TotalSavings(recs: seq<Recommendation>): real {
    if recs == [] then 0.0 else recs[0].estimatedSavings + TotalSavings(recs[1..])
  }

  function SavingsOf(r: Recommendation): real { r.estimatedSavings }

  /** The recommendations in the order they are appended: the idle
      resources, the tagging gaps, the high-cost reviews. */
  function Appended(idle: seq<IdleRow>, tagging: seq<CostRow>, highCost: seq<CostRow>): seq<Recommendation> {
    Analysis.Map(idle, IdleRecommendation) + Analysis.Map(tagging, TaggingRecommendation)
      + Analysis.Map(highCost, HighCostRecommendation)
  }

  /** The endpoint's answer: the ranked list, the total monthly saving, the
      priority breakdown and the month analysed. */
  datatype Report = Report(recommendations: seq<Recommendation>, totalSavings: real, counts: PriorityCounts, period: string)

  lemma {:induction false} TotalAppend(a: seq<Recommendation>, b: seq<Recommendation>)
    ensures TotalSavings(a + b) == TotalSavings(a) + TotalSavings(b)
  {
    if a != [] {
      assert (a + b)[0] == a[0];
      assert (a + b)[1..] == a[1..] + b;
      TotalAppend(a[1..], b);
    } else {
      assert a + b == b;
    }
  }

  /** Every recommendation is counted under exactly one priority. */
  lemma {:induction false} CountsCoverAll(recs: seq<Recommendation>)
    ensures CountsOf(recs).high + CountsOf(recs).medium + CountsOf(recs).low == |recs|
    ensures (forall i :: 0 <= i < |recs| ==> recs[i].priority != Low) ==> CountsOf(recs).low == 0
  {
    if recs != [] {
      CountsCoverAll(recs[..|recs| - 1]);
    }
  }

  /** Tagging gaps add nothing to the total. */
  lemma {:induction false} TaggingSavesNothing(rows: seq<CostRow>)
    ensures TotalSavings(Analysis.Map(rows, TaggingRecommendation)) == 0.0
  {
    if rows != [] {
      assert Analysis.Map(rows, TaggingRecommendation)[1..] == Analysis.Map(rows[1..], TaggingRecommendation);
      TaggingSavesNothing(rows[1..]);
    }
  }

  /** The stable ranking keeps the total. */
  lemma {:induction false} InsertKeepsTotal(x: Recommendation, t: seq<Recommendation>)
    ensures TotalSavings(InsertDesc(x, t, SavingsOf)) == x.estimatedSavings + TotalSavings(t)
  {
    if t != [] && SavingsOf(t[0]) > SavingsOf(x) {
      InsertKeepsTotal(x, t[1..]);
    }
  }

  lemma {:induction false} RankingKeepsTotal(s: seq<Recommendation>)
    ensures TotalSavings(SortDesc(s, SavingsOf)) == TotalSavings(s)
  {
    if s != [] {
      RankingKeepsTotal(s[1..]);
      InsertKeepsTotal(s[0], SortDesc(s[1..], SavingsOf));
    }
  }

  /** `get_recommendations` over the rows of the latest month: each row's
      recommendation is appended, its saving added and its priority
      counted, then the list is ranked by saving. No month, or an empty
      one, gives the empty report. */
  method Recommend(latestMonth: Option<string>, idle: seq<IdleRow>, tagging: seq<CostRow>, highCost: seq<CostRow>)
    returns (report: Report)
    ensures latestMonth.None? || latestMonth.value == [] ==> report == Report([], 0.0, NoCounts, "No data")
    ensures latestMonth.Some? && latestMonth.value != [] ==>
      var all := Appended(idle, tagging, highCost);
      report == Report(SortDesc(all, SavingsOf), TotalSavings(all), CountsOf(all), latestMonth.value)
  {
    if latestMonth.None? || latestMonth.value == [] {
      return Report([], 0.0, NoCounts, "No data");
    }
    var recs, total, counts := AppendRows([], 0.0, NoCounts, idle, IdleRecommendation, true);
    assert recs == Analysis.Map(idle, IdleRecommendation);
    recs, total, counts := AppendRows(recs, total, counts, tagging, TaggingRecommendation, false);
    ghost var upToTagging := recs;
    recs, total, counts := AppendRows(recs, total, counts, highCost, HighCostRecommendation, true);
    assert recs == upToTagging + Analysis.Map(highCost, HighCostRecommendation);
    assert recs == Appended(idle, tagging, highCost);
    recs := SortDesc(recs, SavingsOf);
    return Report(recs, total, counts, latestMonth.value);
  }

  /** One of the endpoint's three loops: append each row's recommendation,
      add its saving to the total (the tagging loop adds nothing, its
      savings being zero) and count its priority. */
  method AppendRows<R>(recs: seq<Recommendation>, total: real, counts: PriorityCounts, rows: seq<R>,
                       f: R -> Recommendation, addSavings: bool)
    returns (recs': seq<Recommendation>, total': real, counts': PriorityCounts)
    requires total == TotalSavings(recs) && counts == CountsOf(recs)
    requires !addSavings ==> forall i :: 0 <= i < |rows| ==> f(rows[i]).estimatedSavings == 0.0
    ensures recs' == recs + Analysis.Map(rows, f)
    ensures total' == TotalSavings(recs') && counts' == CountsOf(recs')
  {
    recs', total', counts' := recs, total, counts;
    for i := 0 to |rows|
      invariant recs' == recs + Analysis.Map(rows[..i], f)
      invariant total' == TotalSavings(recs') && counts' == CountsOf(recs')
    {
      var r := f(rows[i]);
      TotalAppend(recs', [r]);
      assert TotalSavings([r]) == r.estimatedSavings by {
        assert [r][1..] == [];
      }
      assert !addSavings ==> r.estimatedSavings == 0.0;
      MapStep(rows, i, f);
      assert recs' + [r] == recs + Analysis.Map(rows[..i + 1], f);
      assert CountsOf(recs' + [r]) == CountOne(CountsOf(recs'), r.priority) by {
        assert (recs' + [r])[..|recs'|] == recs';
      }
      if addSavings {
        total' := total' + r.estimatedSavings;
      }
      counts' := CountOne(counts', r.priority);
      recs' := recs' + [r];
    }
    assert rows[..|rows|] == rows;
  }

  /** Mapping one more row appends its image. */
  lemma MapStep<R, T>(rows: seq<R>, i: int, f: R -> T)
    requires 0 <= i < |rows|
    ensures Analysis.Map(rows[..i + 1], f) == Analysis.Map(rows[..i], f) + [f(rows[i])]
  {
  }

  /** The report's list is ranked by saving, highest first, holds exactly
      the appended recommendations, and sums to the reported total. */
  lemma ReportRanking(idle: seq<IdleRow>, tagging: seq<CostRow>, highCost: seq<CostRow>)
    ensures var all := Appended(idle, tagging, highCost);
      var recs := SortDesc(all, SavingsOf);
      && SortedDesc(recs, SavingsOf)
      && multiset(recs) == multiset(all)
      && TotalSavings(recs) == TotalSavings(all)
  {
    var all := Appended(idle, tagging, highCost);
    SortDescSorted(all, SavingsOf);
    RankingKeepsTotal(all);
  }

  /** Only idle resources and high-cost reviews contribute to the total;
      the breakdown counts every recommendation once and never uses the low
      priority. */
  lemma ReportTotals(idle: seq<IdleRow>, tagging: seq<CostRow>, highCost: seq<CostRow>)
    ensures var all := Appended(idle, tagging, highCost);
      && TotalSavings(all) == TotalSavings(Analysis.Map(idle, IdleRecommendation))
                              + TotalSavings(Analysis.Map(highCost, HighCostRecommendation))
      && CountsOf(all).high + CountsOf(all).medium == |all|
      && CountsOf(all).low == 0
  {
    var all := Appended(idle, tagging, highCost);
    var a := Analysis.Map(idle, IdleRecommendation);
    var t := Analysis.Map(tagging, TaggingRecommendation);
    var h := Analysis.Map(highCost, HighCostRecommendation);
    TotalAppend(a + t, h);
    TotalAppend(a, t);
    TaggingSavesNothing(tagging);
    CountsCoverAll(all);
  }
}
