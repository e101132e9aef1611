/** The question-answering service: the injection check, then the
    sanitiser, the retrieval, the database analysis, the answer and its
    executive summary, with the token accountant the service owns. The
    vector index, the billing store and the language model are given as
    the answers they give; the clock as the hour, day and cutoff keys the
    accountant files a call under. */
module Pipeline {
  import opened Common
  import opened Text
  import opened StableSort
  import opened SecurityGate
  import opened Sanitizer
  import opened Retrieval
  import opened Usage
  import opened Analysis
  import opened Synthesis
  import opened Summary

  /** How many chunks `_retrieve_context` asks for. */
  const ContextSize := 5

  /** The text of the security alert for the detector's `message`. */
  function AlertText(message: string): string {
    "\U{1F6E1}\U{FE0F} **Security Alert**: Your question was blocked due to potential security concerns: "
    + message + ". Please rephrase your question focusing on cloud cost analysis and optimization."
  }

  /** The answer to a refused question. */
  function BlockedResponse(message: string): Response {
    Response(SecurityAlert(message), SecurityValidation, RephraseAdvice, 0.0, false,
      SecurityBlocked, None, NoTokens)
  }

  /** What `ask_question` returns: the response, with the executive summary
      on every answer to a question that passed the detector. */
  datatype Reply = Reply(response: Response, summary: Option<ExecutiveSummary>)

  /** The reply from what the stages give: the detector's verdict, the
      retrieved context (or the retrieval's error), the analysis and the
      model's answer. A refused question is answered at once. */
  function Compose(verdict: Verdict, retrieved: Outcome<seq<Context>>, a: Analysis, backend: Backend, promptWords: nat): Outcome<Reply> {
    if verdict.Blocked? then Ok(Reply(BlockedResponse(Message(verdict.reason)), None))
    else
      match retrieved
      case Raised(e) => Raised(e)
      case Ok(context) => Ok(Reply(ResponseFor(backend, promptWords, context, a), Some(Summarize(a))))
  }

  /** `ask_question` for the service's patterns and corpus, the token usage
      `stats` it has counted so far, and what the index, the store and the
      model answer: the retrieval and the analysis see the sanitised
      question only. It raises only when the keyword search does. */
  function AnswerTo(question: string, patterns: seq<string>, corpus: seq<Article>, stats: UsageStats,
                    vector: VectorOutcome, db: Outcome<Database>, backend: Backend, promptWords: nat): Outcome<Reply>
  {
    var clean := Sanitize(question);
    Compose(InjectionVerdict(question, patterns, ScriptIndicators), Retrieve(clean, corpus, vector, ContextSize),
      Analyze(clean, db, stats, |patterns|), backend, promptWords)
  }

  /** The model was asked and answered: the only case in which the call is
      counted. */
  predicate Counted(question: string, patterns: seq<string>, corpus: seq<Article>, vector: VectorOutcome, backend: Backend) {
    && InjectionVerdict(question, patterns, ScriptIndicators).Clean?
    && Retrieve(Sanitize(question), corpus, vector, ContextSize).Ok?
    && backend.Generated?
  }

  class RagService {
    const usage: UsageAccountant
    const corpus: seq<Article>
    const patterns: seq<string>

    ghost predicate Valid()
      reads this, usage
    {
      usage.Valid()
    }

    /** A fresh service: the built-in patterns, the knowledge base, and an
        accountant that has counted nothing. */
    constructor (knowledge: seq<Article>)
      ensures Valid() && fresh(usage)
      ensures corpus == knowledge && patterns == SecurityPatterns
      ensures usage.totalTokens == 0 && usage.inputTokens == 0 && usage.outputTokens == 0 && usage.requests == 0
      ensures usage.totalCost == 0.0 && usage.requestsByHour == map[] && usage.costByDay == map[]
    {
      usage := new UsageAccountant();
      corpus := knowledge;
      patterns := SecurityPatterns;
    }

    /** The source list comprehension `[item['topic'] for item in context]`. */
    static method Topics(context: seq<Context>) returns (topics: seq<string>)
      ensures topics == Map(context, TopicOf)
    {
      topics := [];
      var i := 0;
      while i < |context|
        invariant 0 <= i <= |context|
        invariant topics == Map(context[..i], TopicOf)
      {
        topics := topics + [context[i].topic];
        i := i + 1;
      }
      assert context[..i] == context;
    }

    /** `_generate_fallback_response`. */
    static method Fallback(context: seq<Context>, a: Analysis) returns (r: Response)
      ensures r == FallbackResponse(context, a)
    {
      if IsSecurityInquiry(a) {
        return Response(SecurityReport(a.results.securityInfo), SecuritySystems,
          SecurityAdvice, 1.0, true, Classified(SecurityInquiry), None, NoTokens);
      }
      var parts := BuildFallbackParts(a, context);
      var topics := Topics(context);
      r := Response(FallbackReport(parts), Cited(topics, FallbackAnalysis),
        FallbackAdvice, 0.3, DataAvailable(a), LabelOf(a), None, NoTokens);
    }

    /** `_generate_ai_response`: without a model, or when the call fails,
        the fallback; otherwise the call is counted once, with the two
        truncated token estimates and its price, and the answer is built
        from the model's text. */
    method GenerateResponse(context: seq<Context>, a: Analysis, backend: Backend, promptWords: nat,
                            hour: string, day: string, cutoff: string) returns (r: Response)
      requires Valid()
      modifies usage
      ensures Valid()
      ensures r == ResponseFor(backend, promptWords, context, a)
      ensures !backend.Generated? ==> unchanged(usage)
      ensures backend.Generated? ==>
        && usage.totalTokens == old(usage.totalTokens) + r.tokenUsage.totalTokens
        && usage.totalTokens == old(usage.totalTokens) + r.tokenUsage.inputTokens + r.tokenUsage.outputTokens
        && usage.inputTokens == old(usage.inputTokens) + r.tokenUsage.inputTokens
        && usage.outputTokens == old(usage.outputTokens) + r.tokenUsage.outputTokens
        && usage.requests == old(usage.requests) + 1
        && usage.totalCost == old(usage.totalCost) + r.tokenUsage.estimatedCost
        && usage.requestsByHour == CountHour(old(usage.requestsByHour), hour, r.tokenUsage.totalTokens, r.tokenUsage.estimatedCost)
        && usage.costByDay == CountDay(old(usage.costByDay), day, r.tokenUsage.estimatedCost, cutoff)
    {
      if !backend.Generated? {
        r := Fallback(context, a);
        return;
      }
      var text := backend.text;
      var outputWords := |Split(text)|;
      var tokens := TokenUsageOf(promptWords, outputWords);
      ghost var hours := usage.requestsByHour;
      assert tokens.inputTokens + tokens.outputTokens == tokens.totalTokens;
      usage.Update(tokens.inputTokens, tokens.outputTokens, tokens.estimatedCost, hour, day, cutoff);
      assert usage.requestsByHour == CountHour(hours, hour, tokens.totalTokens, tokens.estimatedCost);
      r := Generated(text, outputWords, promptWords, context, a);
      assert r.tokenUsage == tokens;
    }

    /** The answer built from the model's text of `outputWords` words. */
    static method Generated(text: string, outputWords: nat, promptWords: nat, context: seq<Context>, a: Analysis) returns (r: Response)
      requires outputWords == |Split(text)|
      ensures r == GeneratedResponse(text, promptWords, context, a)
    {
      var recs := ExtractRecommendations(text);
      var topics := Topics(context);
      r := Response(GeneratedText(text), Cited(topics, LiveAnalysis), Extracted(Take(recs, 3)),
        if DataAvailable(a) then 0.9 else 0.6, DataAvailable(a), LabelOf(a),
        Some(if a.Completed? then a.results.monthlyTotals else []),
        TokenUsageOf(promptWords, outputWords));
    }

    /** `ask_question`. A refused question is answered at once, with no
        call counted; otherwise the sanitised question is retrieved for and
        analysed (the security group reading the usage counted so far), the
        answer is generated and the summary added. */
    method Ask(question: string, vector: VectorOutcome, db: Outcome<Database>, backend: Backend, promptWords: nat,
               hour: string, day: string, cutoff: string) returns (reply: Outcome<Reply>)
      requires Valid()
      modifies usage
      ensures Valid()
      ensures reply == AnswerTo(question, patterns, corpus, old(usage.Stats()), vector, db, backend, promptWords)
      ensures !Counted(question, patterns, corpus, vector, backend) ==> unchanged(usage)
      ensures Counted(question, patterns, corpus, vector, backend) ==>
        && usage.totalTokens == old(usage.totalTokens) + reply.value.response.tokenUsage.totalTokens
        && usage.totalTokens == old(usage.totalTokens) + reply.value.response.tokenUsage.inputTokens
             + reply.value.response.tokenUsage.outputTokens
        && usage.inputTokens == old(usage.inputTokens) + reply.value.response.tokenUsage.inputTokens
        && usage.outputTokens == old(usage.outputTokens) + reply.value.response.tokenUsage.outputTokens
        && usage.requests == old(usage.requests) + 1
        && usage.totalCost == old(usage.totalCost) + reply.value.response.tokenUsage.estimatedCost
        && usage.requestsByHour == CountHour(old(usage.requestsByHour), hour,
             reply.value.response.tokenUsage.totalTokens, reply.value.response.tokenUsage.estimatedCost)
        && usage.costByDay == CountDay(old(usage.costByDay), day, reply.value.response.tokenUsage.estimatedCost, cutoff)
    {
      var blocked, message := DetectPromptInjection(question, patterns);
      if blocked {
        return Ok(Reply(BlockedResponse(message), None));
      }
      reply := AnswerClean(Sanitize(question), vector, db, backend, promptWords, hour, day, cutoff);
    }

    /** The rest of `ask_question` once the question passed the detector
        and was sanitised to `clean`. */
    method AnswerClean(clean: string, vector: VectorOutcome, db: Outcome<Database>, backend: Backend, promptWords: nat,
                       hour: string, day: string, cutoff: string) returns (reply: Outcome<Reply>)
      requires Valid()
      modifies usage
      ensures Valid()
      ensures reply == Compose(Clean, Retrieve(clean, corpus, vector, ContextSize),
        Analyze(clean, db, old(usage.Stats()), |patterns|), backend, promptWords)
      ensures !(Retrieve(clean, corpus, vector, ContextSize).Ok? && backend.Generated?) ==> unchanged(usage)
      ensures Retrieve(clean, corpus, vector, ContextSize).Ok? && backend.Generated? ==>
        && usage.totalTokens == old(usage.totalTokens) + reply.value.response.tokenUsage.totalTokens
        && usage.totalTokens == old(usage.totalTokens) + reply.value.response.tokenUsage.inputTokens
             + reply.value.response.tokenUsage.outputTokens
        && usage.inputTokens == old(usage.inputTokens) + reply.value.response.tokenUsage.inputTokens
        && usage.outputTokens == old(usage.outputTokens) + reply.value.response.tokenUsage.outputTokens
        && usage.requests == old(usage.requests) + 1
        && usage.totalCost == old(usage.totalCost) + reply.value.response.tokenUsage.estimatedCost
        && usage.requestsByHour == CountHour(old(usage.requestsByHour), hour,
             reply.value.response.tokenUsage.totalTokens, reply.value.response.tokenUsage.estimatedCost)
        && usage.costByDay == CountDay(old(usage.costByDay), day, reply.value.response.tokenUsage.estimatedCost, cutoff)
    {
      var context: Outcome<seq<Context>>;
      if vector.Hits? {
        context := Ok(vector.chunks);
      } else {
        context := KeywordSearch(clean, corpus, ContextSize);
      }
      if context.Raised? {
        return Raised(context.error);
      }
      var a := AnalyzeDatabase(clean, db, usage.Stats(), |patterns|);
      var response := GenerateResponse(context.value, a, backend, promptWords, hour, day, cutoff);
      reply := Ok(Reply(response, Some(Summarize(a))));
    }
  }

  // ----- What the service promises -----

  /** A question the detector refuses is answered with the security alert:
      confidence 0.0, no data, the `security_blocked` label, no tokens and
      no summary. */
  lemma RefusedQuestion(verdict: Verdict, retrieved: Outcome<seq<Context>>, a: Analysis, backend: Backend, promptWords: nat)
    requires verdict.Blocked?
    ensures var reply := Compose(verdict, retrieved, a, backend, promptWords);
      && reply.Ok? && reply.value.summary == None
      && reply.value.response.confidence == 0.0 && !reply.value.response.dataAvailable
      && reply.value.response.classification == SecurityBlocked
      && reply.value.response.tokenUsage == NoTokens
      && reply.value.response.answer == SecurityAlert(Message(verdict.reason))
  {
  }

  /** Every other answer carries a summary and the label of the analysis,
      so the `security_blocked` label marks exactly the refused
      questions. */
  lemma BlockedLabelMarksRefusal(verdict: Verdict, retrieved: Outcome<seq<Context>>, a: Analysis, backend: Backend, promptWords: nat)
    requires Compose(verdict, retrieved, a, backend, promptWords).Ok?
    ensures var r := Compose(verdict, retrieved, a, backend, promptWords).value;
      (r.response.classification == SecurityBlocked <==> verdict.Blocked?) && (r.summary.None? <==> verdict.Blocked?)
  {
    if verdict.Clean? {
      ResponseRules(backend, promptWords, retrieved.value, a);
    }
  }

  /** A question that passes the detector and the retrieval is answered
      from the analysis: the summary is that of the analysis, the limited
      data sentence exactly when it has no data; the label is the
      analysis' own; and the confidence is 0.9 or 0.6 for a generated
      answer, 1.0 for the security report and 0.3 for the generic
      fallback. */
  lemma AnsweredQuestion(verdict: Verdict, retrieved: Outcome<seq<Context>>, a: Analysis, backend: Backend, promptWords: nat)
    requires verdict.Clean? && retrieved.Ok?
    ensures var reply := Compose(verdict, retrieved, a, backend, promptWords);
      && reply.Ok?
      && reply.value.summary == Some(Summarize(a))
      && (reply.value.summary == Some(LimitedData) <==> !DataAvailable(a))
      && reply.value.response.classification == LabelOf(a)
      && reply.value.response.confidence == (if backend.Generated? then (if DataAvailable(a) then 0.9 else 0.6)
                                              else if IsSecurityInquiry(a) then 1.0 else 0.3)
      && (reply.value.response.recommendations.Extracted? <==> backend.Generated?)
      && (reply.value.response.recommendations.Extracted? ==> |reply.value.response.recommendations.lines| <= 3)
  {
    ResponseRules(backend, promptWords, retrieved.value, a);
    SummaryFollowsLabel(a);
  }

  /** The retrieval and the analysis see the sanitised question only: two
      questions that sanitise alike and pass the detector get the same
      answer. */
  lemma SanitisedAlike(q1: string, q2: string, patterns: seq<string>, corpus: seq<Article>, stats: UsageStats,
                       vector: VectorOutcome, db: Outcome<Database>, backend: Backend, promptWords: nat)
    requires InjectionVerdict(q1, patterns, ScriptIndicators).Clean? && InjectionVerdict(q2, patterns, ScriptIndicators).Clean?
    requires Sanitize(q1) == Sanitize(q2)
    ensures AnswerTo(q1, patterns, corpus, stats, vector, db, backend, promptWords)
         == AnswerTo(q2, patterns, corpus, stats, vector, db, backend, promptWords)
  {
  }
}
