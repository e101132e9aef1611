/** How an answer is put together from the retrieved context and the
    database analysis: the generative path, which asks the language model
    and estimates the tokens it used, and the two fallback answers given
    when there is no model or the call fails. The model itself is not part
    of this model: its answer is given as a `Backend` value, and the word
    count of the prompt the service assembles is given as a number. */
module Synthesis {
  import opened Common
  import opened Text
  import opened StableSort
  import opened Retrieval
  import opened Analysis

  datatype TokenUsage = TokenUsage(inputTokens: int, outputTokens: int, totalTokens: int, estimatedCost: real)

  const NoTokens := TokenUsage(0, 0, 0, 0.0)

  /** What the generative model does: none is configured, the call
      raises, or it answers with a text. */
  datatype Backend = NotConfigured | GenerationFailed | Generated(text: string)

  /** One entry of the fallback answer's `response_parts`: the fixed
      lines by name (`PartText` gives their text), and the lines that show
      data with their values rather than their formatting. */
  datatype Part =
    | Banner | Blank | Unavailable
    | CostHeading | MonthLine(month: string, totals: Totals)
    | ServiceHeading | ServiceLine(service: string, share: Share)
    | SavingsHeading | SavingsLine(total: real) | CountLine(count: nat)
    | GuidelineHeading | GuidelineLine(topic: string, excerpt: string)
    | EnhanceHeading | EnsureConfigured | CheckHealth | VerifyCredentials

  /** The text of the fixed lines. */
  function PartText(p: Part): Option<string> {
    match p
    case Banner => Some("## \U{1F4CA} Cloud Cost Analysis (Fallback Mode)")
    case Blank => Some("")
    case Unavailable => Some("The AI analysis service is currently unavailable, but I can provide information based on your database:")
    case CostHeading => Some("\n**\U{1F4B0} Cost Summary:**")
    case ServiceHeading => Some("\n**\U{1F3D7}\U{FE0F} Service Breakdown:**")
    case SavingsHeading => Some("\n**\U{1F4A1} Optimization Opportunities:**")
    case GuidelineHeading => Some("\n**\U{1F4DA} Related FinOps Guidelines:**")
    case EnhanceHeading => Some("\n**\U{1F527} To get enhanced analysis:**")
    case EnsureConfigured => Some("- Ensure the AI service is properly configured")
    case CheckHealth => Some("- Check the system health at /health endpoint")
    case VerifyCredentials => Some("- Verify API credentials and service availability")
    case _ => None
  }

  /** The `answer` field. */
  datatype Answer =
    | GeneratedText(text: string)
    | SecurityReport(info: Option<SecurityInfo>)
    | FallbackReport(parts: seq<Part>)
    | SecurityAlert(message: string)

  /** The response dict; `keyMetrics` is present only on the generative
      path. */
  datatype Response = Response(
    answer: Answer,
    sources: Sources,
    recommendations: Advice,
    confidence: real,
    dataAvailable: bool,
    classification: Label,
    keyMetrics: Option<Dict<Totals>>,
    tokenUsage: TokenUsage)

  // ----- Token estimates -----

  /** `int(words * 1.3)`: the token estimate for `words` words, truncated
      toward zero. */
  function EstimateTokens(words: nat): (t: nat)
    ensures t as real <= words as real * 1.3 < t as real + 1.0
  {
    var t := words * 13 / 10;
    assert 10 * t <= 13 * words < 10 * t + 10;
    t
  }

  /** The price of a call: $0.00025 per thousand input tokens and
      $0.00075 per thousand output tokens, on the untruncated estimates. */
  function GenerationCost(inputWords: nat, outputWords: nat): real {
    (inputWords as real * 1.3 / 1000.0) * 0.00025 + (outputWords as real * 1.3 / 1000.0) * 0.00075
  }

  /** The reported usage as the service computes it: the total is the
      truncation of the sum of the two estimates, not the sum of the two
      truncations. */
  function TokenUsageAsWritten(inputWords: nat, outputWords: nat): TokenUsage {
    TokenUsage(EstimateTokens(inputWords), EstimateTokens(outputWords),
      (inputWords + outputWords) * 13 / 10, GenerationCost(inputWords, outputWords))
  }

  /** A prompt of 105 words and an answer of 5 words are reported as 136
      input and 6 output tokens but 143 in total. */
  lemma TotalAsWrittenDisagrees()
    ensures exists i: nat, o: nat ::
      TokenUsageAsWritten(i, o).totalTokens != TokenUsageAsWritten(i, o).inputTokens + TokenUsageAsWritten(i, o).outputTokens
  {
    var u := TokenUsageAsWritten(105, 5);
    assert u.inputTokens == 136 && u.outputTokens == 6 && u.totalTokens == 143;
  }

  /** The reported usage with the total that the accountant counts: the
      two truncated estimates added up. */
  function TokenUsageOf(inputWords: nat, outputWords: nat): (u: TokenUsage)
    ensures u.totalTokens == u.inputTokens + u.outputTokens
    ensures u.inputTokens == EstimateTokens(inputWords) && u.outputTokens == EstimateTokens(outputWords)
  {
    var i, o := EstimateTokens(inputWords), EstimateTokens(outputWords);
    TokenUsage(i, o, i + o, GenerationCost(inputWords, outputWords))
  }

  /** The corrected total under-counts the exact estimate by less than two
      tokens, and never over-counts it. */
  lemma TokenUsageBounds(inputWords: nat, outputWords: nat)
    ensures var u := TokenUsageOf(inputWords, outputWords);
      u.totalTokens as real <= (inputWords + outputWords) as real * 1.3 < u.totalTokens as real + 2.0
  {
    var i, o := EstimateTokens(inputWords), EstimateTokens(outputWords);
    assert (inputWords + outputWords) as real * 1.3 == inputWords as real * 1.3 + outputWords as real * 1.3;
  }

  /** The as-written usage and the corrected one report the same input
      tokens, output tokens and cost; their totals differ by truncation
      alone, the as-written total being the larger by at most one. */
  lemma TokenUsageCorrection(inputWords: nat, outputWords: nat)
    ensures var w, u := TokenUsageAsWritten(inputWords, outputWords), TokenUsageOf(inputWords, outputWords);
      && w.inputTokens == u.inputTokens && w.outputTokens == u.outputTokens
      && w.estimatedCost == u.estimatedCost
      && u.totalTokens <= w.totalTokens <= u.totalTokens + 1
  {
    var a, b := inputWords * 13, outputWords * 13;
    var qa, qb, q := a / 10, b / 10, (a + b) / 10;
    assert a == 10 * qa + a % 10 && b == 10 * qb + b % 10 && a + b == 10 * q + (a + b) % 10;
    assert (inputWords + outputWords) * 13 == a + b;
  }

  // ----- Recommendations -----

  /** The words that make a line of the answer a recommendation. */
  const RecommendationKeywords: seq<string> := ["recommend", "should", "consider", "action"]

  /** The characters `strip('•-*')` removes. */
  predicate IsBullet(c: char) {
    c == '\U{2022}' || c == '-' || c == '*'
  }

  /** The number of bullet characters at the start of `s`. */
  function LeadBullets(s: string): (n: nat)
    ensures n <= |s|
    ensures forall i :: 0 <= i < n ==> IsBullet(s[i])
    ensures n < |s| ==> !IsBullet(s[n])
  {
    if s != [] && IsBullet(s[0]) then 1 + LeadBullets(s[1..]) else 0
  }

  /** The number of bullet characters at the end of `s`. */
  function TrailBullets(s: string): (n: nat)
    ensures n <= |s|
    ensures forall i :: |s| - n <= i < |s| ==> IsBullet(s[i])
    ensures n < |s| ==> !IsBullet(s[|s| - 1 - n])
  {
    if s != [] && IsBullet(s[|s| - 1]) then 1 + TrailBullets(s[..|s| - 1]) else 0
  }

  /** `s.strip('•-*')`. */
  function TrimBullets(s: string): (r: string)
    ensures r == [] || (LeadBullets(s) < |s| - TrailBullets(s) && r == s[LeadBullets(s)..|s| - TrailBullets(s)])
    ensures r == [] ==> forall i :: 0 <= i < |s| ==> IsBullet(s[i])
  {
    var a := LeadBullets(s);
    if a == |s| then [] else s[a..|s| - TrailBullets(s)]
  }

  /** `line.strip('•-*').strip()`. */
  function CleanLine(line: string): string {
    Strip(TrimBullets(line))
  }

  /** A line is kept when its lower-cased form contains a keyword and its
      cleaned form is longer than ten characters. */
  predicate Qualifies(line: string) {
    ContainsAny(Lower(line), RecommendationKeywords) && |CleanLine(line)| > 10
  }

  /** What one line contributes: its cleaned form when it qualifies. */
  function Kept(line: string): seq<string> {
    if Qualifies(line) then [CleanLine(line)] else []
  }

  /** The contributions of `xs` in order: `[y for x in xs for y in f(x)]`. */
  function FlatMap<T, U>(xs: seq<T>, f: T -> seq<U>): seq<U> {
    if xs == [] then [] else FlatMap(xs[..|xs| - 1], f) + f(xs[|xs| - 1])
  }

  /** An element of the flattened list comes from one of the inputs ... */
  lemma {:induction false} FlatMapFrom<T, U>(xs: seq<T>, f: T -> seq<U>, u: U)
    requires u in FlatMap(xs, f)
    ensures exists i :: 0 <= i < |xs| && u in f(xs[i])
  {
    var init := xs[..|xs| - 1];
    if u in FlatMap(init, f) {
      FlatMapFrom(init, f, u);
      var i :| 0 <= i < |init| && u in f(init[i]);
      assert xs[i] == init[i];
    } else {
      assert u in f(xs[|xs| - 1]);
    }
  }

  /** ... and every element an input contributes is in it. */
  lemma {:induction false} FlatMapOf<T, U>(xs: seq<T>, f: T -> seq<U>, i: int, u: U)
    requires 0 <= i < |xs| && u in f(xs[i])
    ensures u in FlatMap(xs, f)
  {
    var init := xs[..|xs| - 1];
    if i < |init| {
      assert init[i] == xs[i];
      FlatMapOf(init, f, i, u);
    }
  }

  /** The tests the loop makes on one line. */
  method KeepLine(line: string) returns (kept: seq<string>)
    ensures kept == Kept(line)
  {
    kept := [];
    if ContainsAny(Lower(line), RecommendationKeywords) {
      var clean := CleanLine(line);
      if clean != [] && |clean| > 10 {
        kept := [clean];
      }
    }
  }

  /** The extraction loop over `text.split('\n')`. */
  method ExtractRecommendations(text: string) returns (recs: seq<string>)
    ensures recs == FlatMap(SplitOn(text, '\n'), Kept)
  {
    var lines := SplitOn(text, '\n');
    recs := [];
    for i := 0 to |lines|
      invariant recs == FlatMap(lines[..i], Kept)
    {
      assert lines[..i + 1][..i] == lines[..i];
      var kept := KeepLine(lines[i]);
      recs := recs + kept;
    }
    assert lines[..|lines|] == lines;
  }

  /** A keyword that starts and ends with a lower-case letter. */
  predicate Wordlike(k: string) {
    k != [] && 'a' <= k[0] <= 'z' && 'a' <= k[|k| - 1] <= 'z'
  }

  /** Stripping bullets never cuts into a keyword. */
  lemma TrimKeepsKeyword(line: string, k: string)
    requires Wordlike(k) && Contains(Lower(line), k)
    ensures Contains(Lower(TrimBullets(line)), k)
  {
    var l := Lower(line);
    ContainsAt(l, k);
    var i :| OccursAt(l, k, i);
    var a, b := LeadBullets(line), |line| - TrailBullets(line);
    KeywordInsideBullets(line, k, i);
    assert TrimBullets(line) == line[a..b];
    OccursInSlice(l, k, i, a, b);
    LowerSlice(line, a, b);
    assert OccursAt(Lower(TrimBullets(line)), k, i - a);
    ContainsAt(Lower(TrimBullets(line)), k);
  }

  /** A keyword occurrence lies between the leading and the trailing
      bullets, as its first and last characters are letters. */
  lemma KeywordInsideBullets(line: string, k: string, i: int)
    requires Wordlike(k) && OccursAt(Lower(line), k, i)
    ensures LeadBullets(line) <= i && i + |k| <= |line| - TrailBullets(line)
  {
    var j := i + |k| - 1;
    KeywordEndsAreLetters(line, k, i);
    LetterIsNoBullet(line[i]);
    LetterIsNoBullet(line[j]);
    LeadBulletsBefore(line, i);
    TrailBulletsAfter(line, j);
  }

  /** The characters of `line` under a keyword's first and last letters
      lower-case to letters. */
  lemma KeywordEndsAreLetters(line: string, k: string, i: int)
    requires Wordlike(k) && OccursAt(Lower(line), k, i)
    ensures 0 <= i && i + |k| <= |line|
    ensures 'a' <= LowerChar(line[i]) <= 'z' && 'a' <= LowerChar(line[i + |k| - 1]) <= 'z'
  {
    OccursAtEnds(Lower(line), k, i);
  }

  /** A character that lower-cases to a lower-case letter is no bullet. */
  lemma LetterIsNoBullet(c: char)
    requires 'a' <= LowerChar(c) <= 'z'
    ensures !IsBullet(c)
  {
  }

  /** The leading bullets end before any character that is no bullet. */
  lemma LeadBulletsBefore(s: string, i: int)
    requires 0 <= i < |s| && !IsBullet(s[i])
    ensures LeadBullets(s) <= i
  {
  }

  /** The trailing bullets start after any character that is no bullet. */
  lemma TrailBulletsAfter(s: string, j: int)
    requires 0 <= j < |s| && !IsBullet(s[j])
    ensures j < |s| - TrailBullets(s)
  {
  }

  /** Stripping bullets and then spaces never cuts into a keyword. */
  lemma KeywordSurvives(line: string, k: string)
    requires Wordlike(k) && Contains(Lower(line), k)
    ensures Contains(Lower(CleanLine(line)), k)
  {
    var t := TrimBullets(line);
    TrimKeepsKeyword(line, k);
    StripKeepsNeedle(Lower(t), k);
    LowerStrip(t);
  }

  /** What the generative answer's recommendations promise: at most three,
      each longer than ten characters, on one line, and still carrying one
      of the keywords. */
  lemma RecommendationsQualify(text: string)
    ensures var recs := Take(FlatMap(SplitOn(text, '\n'), Kept), 3);
      |recs| <= 3 && forall r :: r in recs ==> |r| > 10 && '\n' !in r && ContainsAny(Lower(r), RecommendationKeywords)
  {
    var lines := SplitOn(text, '\n');
    var all := FlatMap(lines, Kept);
    forall r | r in Take(all, 3) ensures |r| > 10 && '\n' !in r && ContainsAny(Lower(r), RecommendationKeywords) {
      assert r in all;
      FlatMapFrom(lines, Kept, r);
      var i :| 0 <= i < |lines| && r in Kept(lines[i]);
      KeptQualifies(lines[i], r);
    }
  }

  /** What one kept line is. */
  lemma KeptQualifies(line: string, r: string)
    requires r in Kept(line)
    ensures |r| > 10 && ('\n' !in line ==> '\n' !in r) && ContainsAny(Lower(r), RecommendationKeywords)
  {
    var j :| 0 <= j < |RecommendationKeywords| && Contains(Lower(line), RecommendationKeywords[j]);
    RecommendationKeywordsWordlike();
    KeywordSurvives(line, RecommendationKeywords[j]);
    CleanLineInside(line);
  }

  /** A cleaned line is a piece of the line. */
  lemma CleanLineInside(line: string)
    ensures forall c :: c in CleanLine(line) ==> c in line
  {
    var t := TrimBullets(line);
    forall c | c in CleanLine(line) ensures c in line {
      var j :| 0 <= j < |CleanLine(line)| && CleanLine(line)[j] == c;
      var o := |t| - |LStrip(t)|;
      assert c == t[o + j];
    }
  }

  /** The service's keywords all start and end with a letter. */
  lemma RecommendationKeywordsWordlike()
    ensures forall j :: 0 <= j < |RecommendationKeywords| ==> Wordlike(RecommendationKeywords[j])
  {
  }

  // ----- The fallback answers -----

  const FallbackHeader: seq<Part> := [Banner, Blank, Unavailable]
  const FallbackClosing: seq<Part> := [EnhanceHeading, EnsureConfigured, CheckHealth, VerifyCredentials]
  /** `query_classification` of a response: the analysis' label, its
      error label, or the label of a refused question. */
  datatype Label = Classified(c: Classification) | AnalysisError | SecurityBlocked

  function LabelName(l: Label): string {
    match l
    case Classified(c) => ClassificationName(c)
    case AnalysisError => "error"
    case SecurityBlocked => "security_blocked"
  }

  /** The label the analysis gives the question. */
  function LabelOf(a: Analysis): Label {
    if a.Completed? then Classified(a.results.classification) else AnalysisError
  }

  /** Where a response says its answer comes from: the retrieved topics
      followed by a note on the database, or one of two fixed lists. */
  datatype DatabaseNote = LiveAnalysis | FallbackAnalysis
  datatype Sources = Cited(topics: seq<string>, note: DatabaseNote) | SecuritySystems | SecurityValidation

  function SourceList(s: Sources): seq<string> {
    match s
    case Cited(topics, LiveAnalysis) => topics + ["Live database analysis"]
    case Cited(topics, FallbackAnalysis) => topics + ["Database analysis (fallback mode)"]
    case SecuritySystems => ["System security monitoring", "Token usage tracking", "Prompt injection prevention system"]
    case SecurityValidation => ["Security validation system"]
  }

  /** The recommendations of a response: the lines taken from the model's
      answer, or one of three fixed lists. */
  datatype Advice = Extracted(lines: seq<string>) | FallbackAdvice | SecurityAdvice | RephraseAdvice

  function AdviceList(a: Advice): seq<string> {
    match a
    case Extracted(lines) => lines
    case FallbackAdvice => [
      "Enable AI service for enhanced analysis and recommendations",
      "Review database results for immediate cost optimization opportunities",
      "Check system configuration and API credentials"]
    case SecurityAdvice => [
      "Continue monitoring token usage to optimize AI costs",
      "Review security logs regularly for potential threats",
      "Consider implementing additional rate limiting for high-volume usage"]
    case RephraseAdvice => [
      "Rephrase your question to focus on cloud costs and FinOps topics",
      "Avoid using system commands or special characters",
      "Ask specific questions about cloud spending, optimization, or cost trends"]
  }

  function MonthLineOf(e: (string, Totals)): Part { MonthLine(e.0, e.1) }
  function ServiceLineOf(e: (string, Share)): Part { ServiceLine(e.0, e.1) }
  /** A guideline: its topic and the first 200 characters of its content. */
  function GuidelineOf(c: Context): Part { GuidelineLine(c.topic, Take(c.content, 200)) }
  function TopicOf(c: Context): string { c.topic }

  /** `sum(opp['potential_savings'] for opp in opportunities)`. */
  function SumSavings(opps: seq<Opportunity>): real {
    if opps == [] then 0.0 else SumSavings(opps[..|opps| - 1]) + opps[|opps| - 1].potentialSavings
  }

  /** The sum of the opportunities' costs. */
  function SumCosts(opps: seq<Opportunity>): real {
    if opps == [] then 0.0 else SumCosts(opps[..|opps| - 1]) + opps[|opps| - 1].cost
  }

  /** The savings line reports seventy per cent of the idle resources'
      total cost. */
  lemma {:induction false} SavingsAreSeventyPercent(opps: seq<Opportunity>)
    requires forall i :: 0 <= i < |opps| ==> Priced(opps[i])
    ensures SumSavings(opps) == SumCosts(opps) * 0.7
  {
    if opps != [] {
      SavingsAreSeventyPercent(opps[..|opps| - 1]);
      assert Priced(opps[|opps| - 1]);
    }
  }

  /** The monthly totals, under their heading, when there are any. */
  function MonthParts(r: Results): seq<Part> {
    if r.monthlyTotals != [] then [CostHeading] + Map(r.monthlyTotals, MonthLineOf) else []
  }

  /** The five first services, under their heading, when there are any. */
  function ServiceParts(r: Results): seq<Part> {
    if r.serviceBreakdown != [] then [ServiceHeading] + Map(Take(r.serviceBreakdown, 5), ServiceLineOf) else []
  }

  /** The savings summary, when there are opportunities. */
  function SavingsParts(r: Results): seq<Part> {
    if r.opportunities != [] then [SavingsHeading, SavingsLine(SumSavings(r.opportunities)), CountLine(|r.opportunities|)] else []
  }

  /** The lines drawn from the database: the monthly totals, the five first
      services and the savings summary, each only when there is any. */
  function DataParts(r: Results): seq<Part> {
    MonthParts(r) + ServiceParts(r) + SavingsParts(r)
  }

  /** The two first guidelines, under their heading, when there are any. */
  function GuidelineParts(context: seq<Context>): seq<Part> {
    if context != [] then [GuidelineHeading] + Map(Take(context, 2), GuidelineOf) else []
  }

  /** The generic fallback's `response_parts`. */
  function FallbackParts(a: Analysis, context: seq<Context>): seq<Part> {
    FallbackHeader + (if DataAvailable(a) then DataParts(a.results) else []) + GuidelineParts(context) + FallbackClosing
  }

  /** The lines of the database part, appended as the service does. */
  method BuildDataParts(r: Results) returns (parts: seq<Part>)
    ensures parts == DataParts(r)
  {
    parts := [];
    if r.monthlyTotals != [] {
      parts := parts + [CostHeading];
      parts := AppendAll(parts, r.monthlyTotals, MonthLineOf);
    }
    assert parts == MonthParts(r);
    if r.serviceBreakdown != [] {
      parts := parts + [ServiceHeading];
      parts := AppendAll(parts, Take(r.serviceBreakdown, 5), ServiceLineOf);
    }
    assert parts == MonthParts(r) + ServiceParts(r);
    if r.opportunities != [] {
      parts := parts + [SavingsHeading, SavingsLine(SumSavings(r.opportunities)), CountLine(|r.opportunities|)];
    }
  }

  /** The guideline lines, appended as the service does. */
  method BuildGuidelineParts(context: seq<Context>) returns (parts: seq<Part>)
    ensures parts == GuidelineParts(context)
  {
    parts := [];
    if context != [] {
      parts := parts + [GuidelineHeading];
      parts := AppendAll(parts, Take(context, 2), GuidelineOf);
    }
  }

  /** `_generate_fallback_response`'s generic branch: `response_parts`
      built by appending. */
  method BuildFallbackParts(a: Analysis, context: seq<Context>) returns (parts: seq<Part>)
    ensures parts == FallbackParts(a, context)
  {
    parts := FallbackHeader;
    if DataAvailable(a) {
      var data := BuildDataParts(a.results);
      parts := parts + data;
    }
    var guidelines := BuildGuidelineParts(context);
    parts := parts + guidelines;
    parts := parts + FallbackClosing;
  }

  /** The two kinds of listed lines of the generic fallback. */
  datatype LineKind = Services | Guidelines

  predicate OfKind(p: Part, keep: LineKind) {
    match keep
    case Services => p.ServiceLine?
    case Guidelines => p.GuidelineLine?
  }

  /** The parts of kind `keep`, in order. */
  function Lines(parts: seq<Part>, keep: LineKind): (r: seq<Part>)
    ensures |r| <= |parts|
  {
    if parts == [] then []
    else Lines(parts[..|parts| - 1], keep) + (if OfKind(parts[|parts| - 1], keep) then [parts[|parts| - 1]] else [])
  }

  lemma {:induction false} LinesAppend(xs: seq<Part>, ys: seq<Part>, keep: LineKind)
    ensures Lines(xs + ys, keep) == Lines(xs, keep) + Lines(ys, keep)
  {
    if ys != [] {
      var zs := xs + ys;
      assert zs[..|zs| - 1] == xs + ys[..|ys| - 1];
      assert zs[|zs| - 1] == ys[|ys| - 1];
      LinesAppend(xs, ys[..|ys| - 1], keep);
    } else {
      assert xs + ys == xs;
    }
  }

  lemma {:induction false} LinesAll(xs: seq<Part>, keep: LineKind)
    requires forall i :: 0 <= i < |xs| ==> OfKind(xs[i], keep)
    ensures Lines(xs, keep) == xs
  {
    if xs != [] {
      LinesAll(xs[..|xs| - 1], keep);
      assert xs == xs[..|xs| - 1] + [xs[|xs| - 1]];
    }
  }

  lemma {:induction false} LinesNone(xs: seq<Part>, keep: LineKind)
    requires forall i :: 0 <= i < |xs| ==> !OfKind(xs[i], keep)
    ensures Lines(xs, keep) == []
  {
    if xs != [] {
      LinesNone(xs[..|xs| - 1], keep);
    }
  }

  lemma Lines3(xs: seq<Part>, ys: seq<Part>, zs: seq<Part>, keep: LineKind)
    ensures Lines(xs + ys + zs, keep) == Lines(xs, keep) + Lines(ys, keep) + Lines(zs, keep)
  {
    LinesAppend(xs + ys, zs, keep);
    LinesAppend(xs, ys, keep);
  }

  /** A heading followed by lines that are all kept. */
  lemma LinesUnderHeading(h: Part, xs: seq<Part>, keep: LineKind)
    requires !OfKind(h, keep) && forall i :: 0 <= i < |xs| ==> OfKind(xs[i], keep)
    ensures Lines([h] + xs, keep) == xs
  {
    LinesAppend([h], xs, keep);
    LinesNone([h], keep);
    LinesAll(xs, keep);
  }

  /** The service lines of the database part are the first five services,
      in the order the breakdown gives them. */
  lemma DataServices(r: Results)
    ensures Lines(DataParts(r), Services) == Map(Take(r.serviceBreakdown, 5), ServiceLineOf)
  {
    var m, v, x := MonthParts(r), ServiceParts(r), SavingsParts(r);
    Lines3(m, v, x, Services);
    MonthPartsUnlisted(r);
    LinesNone(x, Services);
    ServicePartLines(r);
    assert Lines(m, Services) + Lines(v, Services) + Lines(x, Services) == Lines(v, Services);
  }

  /** The monthly totals hold no service line. */
  lemma MonthPartsUnlisted(r: Results)
    ensures Lines(MonthParts(r), Services) == []
  {
    LinesNone(MonthParts(r), Services);
  }

  /** The service part lists the first five services under a heading that
      is not itself a service line. */
  lemma ServicePartLines(r: Results)
    ensures Lines(ServiceParts(r), Services) == Map(Take(r.serviceBreakdown, 5), ServiceLineOf)
  {
    if r.serviceBreakdown != [] {
      LinesUnderHeading(ServiceHeading, Map(Take(r.serviceBreakdown, 5), ServiceLineOf), Services);
    }
  }

  /** The database part holds no guideline. */
  lemma DataNoGuidelines(r: Results)
    ensures Lines(DataParts(r), Guidelines) == []
  {
    LinesNone(DataParts(r), Guidelines);
  }

  /** The generic fallback's lines of one kind are those of its database
      part followed by those of its guideline part. */
  lemma FallbackLines(a: Analysis, context: seq<Context>, keep: LineKind)
    ensures Lines(FallbackParts(a, context), keep) ==
      Lines(if DataAvailable(a) then DataParts(a.results) else [], keep) + Lines(GuidelineParts(context), keep)
  {
    FixedPartsUnlisted(keep);
    FramedLines(FallbackHeader, if DataAvailable(a) then DataParts(a.results) else [], GuidelineParts(context), FallbackClosing, keep);
  }

  /** Between a header and a closing with no lines of one kind, the lines
      of that kind are those of the two middle parts. */
  lemma FramedLines(h: seq<Part>, d: seq<Part>, g: seq<Part>, c: seq<Part>, keep: LineKind)
    requires Lines(h, keep) == [] && Lines(c, keep) == []
    ensures Lines(h + d + g + c, keep) == Lines(d, keep) + Lines(g, keep)
  {
    LinesAppend(h + d + g, c, keep);
    Lines3(h, d, g, keep);
  }

  /** The fixed header and closing lines are of neither kind. */
  lemma FixedPartsUnlisted(keep: LineKind)
    ensures Lines(FallbackHeader, keep) == [] && Lines(FallbackClosing, keep) == []
  {
    LinesNone(FallbackHeader, keep);
    LinesNone(FallbackClosing, keep);
  }

  /** The generic fallback lists the first five services of the breakdown
      when there is data, and no service otherwise. */
  lemma FallbackServices(a: Analysis, context: seq<Context>)
    ensures Lines(FallbackParts(a, context), Services) ==
      if DataAvailable(a) then Map(Take(a.results.serviceBreakdown, 5), ServiceLineOf) else []
  {
    FallbackLines(a, context, Services);
    LinesNone(GuidelineParts(context), Services);
    if DataAvailable(a) {
      DataServices(a.results);
    }
  }

  /** The guideline lines are the first two retrieved contexts, each with
      its topic and at most the first 200 characters of its content. */
  lemma FallbackGuidelines(a: Analysis, context: seq<Context>)
    ensures var gl := Lines(FallbackParts(a, context), Guidelines);
      && gl == Map(Take(context, 2), GuidelineOf)
      && forall i :: 0 <= i < |gl| ==> gl[i].topic == context[i].topic && context[i].content[..|gl[i].excerpt|] == gl[i].excerpt && |gl[i].excerpt| <= 200
  {
    FallbackGuidelineLines(a, context);
    GuidelineExcerpts(context);
  }

  lemma FallbackGuidelineLines(a: Analysis, context: seq<Context>)
    ensures Lines(FallbackParts(a, context), Guidelines) == Map(Take(context, 2), GuidelineOf)
  {
    FallbackLines(a, context, Guidelines);
    if DataAvailable(a) {
      DataNoGuidelines(a.results);
    }
    if context != [] {
      LinesUnderHeading(GuidelineHeading, Map(Take(context, 2), GuidelineOf), Guidelines);
    }
  }

  /** Each guideline line carries its context's topic and a prefix of at
      most 200 characters of its content. */
  lemma GuidelineExcerpts(context: seq<Context>)
    ensures var gs := Map(Take(context, 2), GuidelineOf);
      forall i :: 0 <= i < |gs| ==> gs[i].topic == context[i].topic && context[i].content[..|gs[i].excerpt|] == gs[i].excerpt && |gs[i].excerpt| <= 200
  {
    var gs := Map(Take(context, 2), GuidelineOf);
    forall i | 0 <= i < |gs|
      ensures gs[i].topic == context[i].topic && context[i].content[..|gs[i].excerpt|] == gs[i].excerpt && |gs[i].excerpt| <= 200
    {
      assert Take(context, 2)[i] == context[i];
      assert gs[i] == GuidelineLine(context[i].topic, Take(context[i].content, 200));
    }
  }

  /** The analysis labelled the question `security_inquiry`. */
  predicate IsSecurityInquiry(a: Analysis) {
    a.Completed? && a.results.classification == SecurityInquiry
  }

  /** The label test the fallback makes on the label's text is the test on
      the classification, and the `fallback` default of the label is never
      used, as every analysis has a label. */
  lemma SecurityLabel(a: Analysis)
    ensures LabelName(LabelOf(a)) == "security_inquiry" <==> IsSecurityInquiry(a)
    ensures LabelName(LabelOf(a)) != "fallback"
  {
  }

  /** Distinct labels have distinct names, so a label stands for its name. */
  lemma LabelNamesDistinct(l1: Label, l2: Label)
    ensures LabelName(l1) == LabelName(l2) <==> l1 == l2
  {
  }

  /** The answer without a model: the security report for a question
      labelled `security_inquiry`, otherwise the generic summary of what
      the database gave. */
  function FallbackResponse(context: seq<Context>, a: Analysis): Response {
    if IsSecurityInquiry(a) then
      Response(SecurityReport(a.results.securityInfo), SecuritySystems,
        SecurityAdvice, 1.0, true, Classified(SecurityInquiry), None, NoTokens)
    else
      Response(FallbackReport(FallbackParts(a, context)), Cited(Map(context, TopicOf), FallbackAnalysis),
        FallbackAdvice, 0.3, DataAvailable(a), LabelOf(a), None, NoTokens)
  }

  /** The answer from a model's text: the recommendations are the first
      three qualifying lines, and the confidence depends on whether the
      database gave data. */
  function GeneratedResponse(text: string, promptWords: nat, context: seq<Context>, a: Analysis): Response {
    Response(GeneratedText(text), Cited(Map(context, TopicOf), LiveAnalysis),
      Extracted(Take(FlatMap(SplitOn(text, '\n'), Kept), 3)),
      if DataAvailable(a) then 0.9 else 0.6, DataAvailable(a), LabelOf(a),
      Some(if a.Completed? then a.results.monthlyTotals else []),
      TokenUsageOf(promptWords, |Split(text)|))
  }

  /** `_generate_ai_response`: the model's answer when it gives one, the
      fallback otherwise. */
  function ResponseFor(backend: Backend, promptWords: nat, context: seq<Context>, a: Analysis): Response {
    match backend
    case Generated(text) => GeneratedResponse(text, promptWords, context, a)
    case _ => FallbackResponse(context, a)
  }

  /** The confidence rules: 0.9 or 0.6 for a generated answer, by whether
      there is data; 1.0 for the security report; 0.3 otherwise. The label
      is always the analysis' own (never the `fallback` default), and only
      a generated answer reports tokens. */
  lemma ResponseRules(backend: Backend, promptWords: nat, context: seq<Context>, a: Analysis)
    ensures var r := ResponseFor(backend, promptWords, context, a);
      && r.confidence == (if backend.Generated? then (if DataAvailable(a) then 0.9 else 0.6)
                          else if IsSecurityInquiry(a) then 1.0 else 0.3)
      && r.classification == LabelOf(a)
      && (r.dataAvailable <==> DataAvailable(a) || (!backend.Generated? && IsSecurityInquiry(a)))
      && (!backend.Generated? ==> r.tokenUsage == NoTokens)
      && (r.recommendations.Extracted? <==> backend.Generated?)
      && (r.recommendations.Extracted? ==> |r.recommendations.lines| <= 3)
  {
  }

}
