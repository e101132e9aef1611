# FinOps RAG assistant: a verified model of its question pipeline

The service answers cloud-cost questions. It screens a question for prompt
injection, sanitises it, retrieves knowledge-base excerpts (vector search,
falling back to a keyword scan), runs a keyword-driven analysis of the
billing database, and answers with generated text when the Gemini backend is
configured or with a templated fallback otherwise. It keeps token-usage
accounting across questions, and it returns an executive summary. The API
layer adds four things: a process-wide metrics store, question validation, a
health status and tiered cost-saving recommendations.

The Dafny modules follow the program's structure:

- `Common`: the `Option` and `Outcome` wrappers. `Outcome.Raised` stands for a Python exception.
- `Text`: ASCII lower-casing, `strip`, `split`, substring search and lexicographic order.
- `StableSort`: Python's stable `sort(reverse=True)` by a real key.
- `SecurityGate`: `_detect_prompt_injection` and its pattern list.
- `Sanitizer`: `_sanitize_input`.
- `Retrieval`: `_retrieve_context` and its keyword fallback.
- `Usage`: the token-usage accountant, a class with `_update_token_usage` and `get_token_usage_stats`.
- `Month`: `_extract_month_from_query`.
- `Analysis`: `_analyze_database`. It is a run of seven query groups over an in-memory database, with one imperative step method per group.
- `Synthesis`: `_generate_ai_response` and `_generate_fallback_response`. Their token estimates, recommendation extraction and templated answers are modelled as structured parts.
- `Summary`: `_generate_executive_summary`.
- `Pipeline`: `EnterpriseRAGService` as a class, with `ask_question`.
- `Metrics`: `METRICS_STORE` and `update_metrics`, as a class.
- `Api`: `validate_question`, the health status, and the recommendation tiers and totals of `get_recommendations`.

Everything that varies from run to run is a parameter of the model:

- the database (`Outcome<Database>`);
- the vector-search outcome;
- the Gemini backend outcome;
- the prompt's word count;
- the current hour, day and 7-day cutoff strings.

## Model

| member | source | states |
|---|---|---|
| SecurityGate.VerdictBlocks | app/services/enhanced_rag_service.py:332-355 | The detector refuses a question exactly when one of its four tests fails: a listed phrase occurs in the lower-cased, stripped text; there are more than 10 line breaks; the text is longer than 2000 characters; or a script indicator occurs. |
| SecurityGate.PatternTakesPrecedence | app/services/enhanced_rag_service.py:337-341 | The first listed pattern found wins, and it is the reason reported, before any later test. |
| SecurityGate.BlockedPhraseIsRefused | app/services/enhanced_rag_service.py:57-78 | Any phrase of the list found in the lower-cased question causes a refusal for a security pattern. Stripping never hides a phrase, because every listed phrase is trimmed. |
| SecurityGate.SecurityPatternsTrimmed | app/services/enhanced_rag_service.py:57-78 | Every pattern of the service's list, once lower-cased, has no leading or trailing whitespace. |
| SecurityGate.FirstPatternHit | app/services/enhanced_rag_service.py:337-341 | Returns the index of the first pattern that occurs, or the list's length when none does. |
| SecurityGate.ScanPatterns | app/services/enhanced_rag_service.py:337-341 | The pattern loop returns the index of the first pattern that occurs. |
| SecurityGate.ScanIndicators | app/services/enhanced_rag_service.py:349-353 | The script-indicator loop returns the index of the first indicator that occurs. |
| SecurityGate.DetectPromptInjection | app/services/enhanced_rag_service.py:332-355 | Returns `(blocked, message)`: `blocked` is set exactly when the verdict is a refusal, the message is the one for its reason, and the message is empty otherwise. |
| Sanitizer.SanitizeClean | app/services/enhanced_rag_service.py:357-372 | The sanitised text is at most 2000 characters. It has no control characters, its only whitespace is single spaces, it holds no `<...>` tag, and it has no leading or trailing space. |
| Sanitizer.SanitizeIdempotent | app/services/enhanced_rag_service.py:357-372 | Sanitising twice gives the same text as sanitising once. |
| Sanitizer.CleanIsFixed | app/services/enhanced_rag_service.py:357-372 | A text that already meets every guarantee of the sanitiser is left unchanged. |
| Sanitizer.RemoveControl | app/services/enhanced_rag_service.py:360 | Every output character is one of the input's and has code 32 or above or is a newline or tab; every such input character is kept. |
| Sanitizer.StripTagsProps | app/services/enhanced_rag_service.py:367 | Removing `<...>` tags leaves no tag and adds no character. |
| Sanitizer.CollapseRunsSingle | app/services/enhanced_rag_service.py:370 | After collapsing, no two whitespace characters are adjacent. |
| Sanitizer.CollapseRunsChars | app/services/enhanced_rag_service.py:370 | Every collapsed character is a single space or a non-whitespace character of the input, and the output starts with whitespace exactly when the input does. |
| Sanitizer.CollapseRunsKeepsText | app/services/enhanced_rag_service.py:370 | Collapsing keeps every non-whitespace character of the input, in order: the non-whitespace characters of the output and of the input are the same sequence. |
| Retrieval.KeywordSearch | app/services/enhanced_rag_service.py:398-425 | The keyword loop computes the keyword results: a division by zero on an empty word list, otherwise the top `k` positive-scoring articles by relevance. |
| Retrieval.KeywordSearchPromises | app/services/enhanced_rag_service.py:398-425 | The keyword results are at most `k` long and sorted by decreasing relevance. Each one is the chunk of an article of the corpus, with a relevance in (0, 3]. |
| Retrieval.KeywordSearchKeepsBest | app/services/enhanced_rag_service.py:413-425 | The search returns `min(k, n)` chunks of the `n` positive-scoring articles, all of them when `n <= k`; a positive-scoring article left out scores no higher than any chunk returned. |
| Retrieval.KeywordSearchRaises | app/services/enhanced_rag_service.py:407-411 | The keyword search raises exactly when the corpus is non-empty and the question has no words, since the score divides by the word count. |
| Retrieval.ScoreRange | app/services/enhanced_rag_service.py:407-411 | An article's score lies between 0 and 3. It is positive exactly when a word of the question occurs in its topic or its content. |
| Retrieval.ScoredMembers | app/services/enhanced_rag_service.py:413-419 | A chunk is kept exactly when its article scored above zero. |
| Retrieval.RankingKeepsTies | app/services/enhanced_rag_service.py:421-422 | Ranking by relevance keeps articles of equal relevance in corpus order (the sort is stable). |
| Retrieval.CountHitsPositive | app/services/enhanced_rag_service.py:407-409 | The hit count is positive exactly when some word occurs in the text. |
| StableSort.SortDescSorted | app/services/enhanced_rag_service.py:421-422 | Sorting in reverse gives non-increasing keys and a permutation of the input. |
| StableSort.SortDescStable | app/services/enhanced_rag_service.py:421-422 | The elements with any given key keep their relative order. |
| Usage.UsageAccountant.constructor | app/services/enhanced_rag_service.py:45-54 | All counters start at zero and both maps start empty. |
| Usage.UsageAccountant.Update | app/services/enhanced_rag_service.py:293-330 | Adds the tokens, the request and the cost to the running totals. Counts the request in its hour bucket and the cost in its day, and drops days before the 7-day cutoff. Keeps total = input + output. |
| Usage.UsageAccountant.CountInHour | app/services/enhanced_rag_service.py:306-315 | Adds one request, the tokens and the cost to the hour's bucket, creating it if absent. |
| Usage.UsageAccountant.CountInDay | app/services/enhanced_rag_service.py:317-328 | Adds the cost to the day and keeps only days not older than the cutoff. |
| Usage.UsageAccountant.Stats | app/services/enhanced_rag_service.py:958-965 | Reports the accountant's counters, its per-hour buckets and its per-day costs as they stand, and averages equal to the totals divided by `max(requests, 1)`. |
| Usage.CountKeepsConsistent | app/services/enhanced_rag_service.py:299-315 | One update keeps the totals consistent: total tokens equal input plus output. |
| Usage.PruneKeepsRecent | app/services/enhanced_rag_service.py:323-328 | After pruning, exactly the days at or after the cutoff remain, with their amounts. |
| Usage.PruneTwice | app/services/enhanced_rag_service.py:323-328 | Pruning at an earlier cutoff and then a later one equals pruning once at the later one. |
| Usage.CountDayKeepsToday | app/services/enhanced_rag_service.py:317-328 | The current day survives its own pruning when it is not older than the cutoff, and no kept day is older than the cutoff. |
| Month.ExtractMonthShape | app/services/enhanced_rag_service.py:631-663 | Any month returned has the form `20YY-MM`. |
| Month.NumericMonthFirst | app/services/enhanced_rag_service.py:648-653 | The leftmost `20YY-MM` in the question is returned as written, before any month name is considered. |
| Month.NamedMonth | app/services/enhanced_rag_service.py:655-661 | Without a numeric month, the first month name in list order gives the month. The first `20YY` gives the year, and 2024 when there is none. |
| Month.NoMonth | app/services/enhanced_rag_service.py:631-663 | The extractor returns nothing exactly when the question has neither a `20YY-MM` nor a month name. |
| Month.MonthNumbersAreDigits | app/services/enhanced_rag_service.py:633-646 | Every month number in the name table is two ASCII digits. |
| Analysis.AnalyzeDatabase | app/services/enhanced_rag_service.py:427-629 | The imperative analysis computes the analysis specification: the seven groups run in order, and the first failing query turns the result into an error. |
| Analysis.AnalysisPromises | app/services/enhanced_rag_service.py:427-629 | The analysis fails exactly when the store cannot be opened or a query of a group that fires raises. Otherwise the label is that of the last labelled group that fires, data is available exactly when some firing group gets rows, and without data every part is empty. |
| Analysis.SecurityQuestionWins | app/services/enhanced_rag_service.py:598-614 | A question mentioning tokens, security, prompts or injection is labelled a security inquiry and has data. |
| Analysis.AnalysisPriced | app/services/enhanced_rag_service.py:541-568 | Every optimisation opportunity's potential savings are 70% of its cost. |
| Analysis.RunLabel | app/services/enhanced_rag_service.py:449-614 | A later group's label overrides an earlier one's. |
| Analysis.RunData | app/services/enhanced_rag_service.py:449-614 | The data flag is set exactly when some group gets rows, and it is never reset. |
| Analysis.RunRaises | app/services/enhanced_rag_service.py:623-629 | The run raises exactly when a query of a firing group raises. |
| Analysis.StepRaises | app/services/enhanced_rag_service.py:623-629 | One group raises exactly when it fires and its query raises. |
| Analysis.StepLabel | app/services/enhanced_rag_service.py:449-614 | One group writes its label exactly when it fires and has one. |
| Analysis.StepData | app/services/enhanced_rag_service.py:449-614 | One group sets the data flag exactly when it gets rows. |
| Analysis.UnlabelledKeepLabel | app/services/enhanced_rag_service.py:481-517 | The service and resource-group breakdowns never change the label. |
| Analysis.CollectInto | app/services/enhanced_rag_service.py:491-495 | Filling a dictionary row by row equals inserting each row in turn, later rows overwriting earlier ones. |
| Analysis.PutAllGet | app/services/enhanced_rag_service.py:491-495 | A key of the filled dictionary maps to the value of the last row with that key. |
| Analysis.PutAllUnique | app/services/enhanced_rag_service.py:491-495 | The filled dictionary has unique keys. |
| Analysis.CostStep | app/services/enhanced_rag_service.py:449-479 | The cost group's imperative step computes its specification. |
| Analysis.BreakdownStep | app/services/enhanced_rag_service.py:481-517 | The service or resource-group step computes its specification. |
| Analysis.TrendStep | app/services/enhanced_rag_service.py:519-539 | The trend step computes its specification. |
| Analysis.OptimizationStep | app/services/enhanced_rag_service.py:541-568 | The optimisation step computes its specification. |
| Analysis.GovernanceStep | app/services/enhanced_rag_service.py:570-596 | The governance step computes its specification. |
| Analysis.SecurityStep | app/services/enhanced_rag_service.py:598-614 | The security step computes its specification. |
| Synthesis.TokenUsageCorrection | app/services/enhanced_rag_service.py:723-767 | The as-written usage and the corrected one agree on input tokens, output tokens and cost; the as-written total is at least the corrected total and at most one more. |
| Synthesis.TokenUsageBounds | app/services/enhanced_rag_service.py:723-745 | The corrected total never exceeds 1.3 times the total word count, and falls short of it by less than two tokens. |
| Synthesis.EstimateTokens | app/services/enhanced_rag_service.py:725 | `int(words * 1.3)`: the largest integer not above 1.3 times the word count. |
| Synthesis.TotalAsWrittenDisagrees | app/services/enhanced_rag_service.py:765-767 | As written, the total can differ from input plus output: 105 input and 5 output words give totals 143 and 142. |
| Synthesis.ExtractRecommendations | app/services/enhanced_rag_service.py:747-754 | The loop keeps, in order, every line longer than 10 characters after trimming bullets that mentions a recommendation keyword. |
| Synthesis.RecommendationsQualify | app/services/enhanced_rag_service.py:747-759 | Each of the first three extracted recommendations is longer than 10 characters, has no line break and contains a keyword. |
| Synthesis.KeywordSurvives | app/services/enhanced_rag_service.py:751-753 | Trimming bullets and spaces never removes the keyword that qualified a line. |
| Synthesis.BuildFallbackParts | app/services/enhanced_rag_service.py:828-861 | The fallback's loops build its parts: the header, the data lines, two guideline excerpts and the closing lines. |
| Synthesis.BuildDataParts | app/services/enhanced_rag_service.py:835-851 | Builds the monthly lines, at most five service lines and the savings line. |
| Synthesis.BuildGuidelineParts | app/services/enhanced_rag_service.py:853-856 | Builds one guideline line for each of the first two contexts. |
| Synthesis.FallbackServices | app/services/enhanced_rag_service.py:842-845 | The fallback lists exactly the first five services, in order. |
| Synthesis.FallbackGuidelineLines | app/services/enhanced_rag_service.py:853-856 | The fallback quotes exactly the first two contexts, in order. |
| Synthesis.GuidelineExcerpts | app/services/enhanced_rag_service.py:855-856 | Each quoted excerpt is a prefix of its context of at most 200 characters, under the context's topic. |
| Synthesis.SavingsAreSeventyPercent | app/services/enhanced_rag_service.py:847-851 | The reported savings total is 70% of the opportunities' total cost. |
| Synthesis.SecurityLabel | app/services/enhanced_rag_service.py:779-880 | A response is labelled `security_inquiry` exactly for a security analysis, and never `fallback`. |
| Synthesis.LabelNamesDistinct | app/services/enhanced_rag_service.py:756-902 | Distinct labels have distinct names. |
| Synthesis.ResponseRules | app/services/enhanced_rag_service.py:665-880 | Confidence is 0.9 or 0.6 for a generated answer (with or without data), 1.0 for the security report and 0.3 for the fallback. The label is the analysis' own in every case, the security report's included. A non-generated answer uses no tokens. Extracted recommendations (at most three) exist exactly when text was generated. |
| Summary.SummaryFollowsLabel | app/services/enhanced_rag_service.py:924-956 | Without data the summary is the limited-data sentence. With data, each label selects its own summary, and trend needs two months. |
| Summary.SecurityQuestionSummary | app/services/enhanced_rag_service.py:953-954 | A completed security question always gets the security summary. |
| Summary.OptimizationSummarySavings | app/services/enhanced_rag_service.py:935-938 | The optimisation summary reports 70% of the opportunities' cost. |
| Summary.TrendSummaryDirection | app/services/enhanced_rag_service.py:940-946 | The reported change is positive exactly when the latest month costs more than the previous one, and negative exactly when it costs less. |
| Summary.ChangeSign | app/services/enhanced_rag_service.py:943-945 | The change's sign is the sign of recent minus previous, including when the previous month is zero. |
| Summary.ChangeIsRelative | app/services/enhanced_rag_service.py:943-945 | For a previous cost of at least 1, the change is the percentage difference. |
| Pipeline.RagService.constructor | app/services/enhanced_rag_service.py:37-78 | The service starts with the knowledge base and the pattern list; every usage counter (tokens in, out and total, requests, cost) is zero and the hour and day maps are empty. |
| Pipeline.RagService.Ask | app/services/enhanced_rag_service.py:882-922 | The answer is the one `Pipeline.AnswerTo` gives for the question and the usage before it. Usage changes only when text was generated. Then the input, output and total token counters grow by the response's input tokens, output tokens, and their sum; the cost by its cost; the requests by one; the hour's bucket and the day's cost as the accountant counts them. |
| Pipeline.RagService.AnswerClean | app/services/enhanced_rag_service.py:904-922 | A clean question is retrieved, analysed, answered and summarised, and retrieval errors propagate. A generated answer adds its input tokens, output tokens and their sum to the three token counters, its cost and one request, and is counted in its hour's bucket and its day's cost. |
| Pipeline.RagService.GenerateResponse | app/services/enhanced_rag_service.py:665-774 | Returns the response for the backend's outcome. Only a generated answer is counted in the usage, with its input plus output tokens, its cost and one request, in its hour's bucket and its day's cost. |
| Pipeline.RagService.Generated | app/services/enhanced_rag_service.py:723-770 | Builds the generated response from the text's word count. |
| Pipeline.RagService.Fallback | app/services/enhanced_rag_service.py:776-880 | Builds the fallback response. |
| Pipeline.RagService.Topics | app/services/enhanced_rag_service.py:758 | Lists the topics of the contexts, in order. |
| Pipeline.RefusedQuestion | app/services/enhanced_rag_service.py:887-902 | A refused question gets the security alert with the detector's message, label `security_blocked`, confidence 0, no data, no tokens and no summary. |
| Pipeline.BlockedLabelMarksRefusal | app/services/enhanced_rag_service.py:882-922 | An answer is labelled `security_blocked`, and lacks a summary, exactly when the question was refused. |
| Pipeline.AnsweredQuestion | app/services/enhanced_rag_service.py:904-922 | A clean question gets the analysis' summary (limited data exactly when there is none), the analysis' label whatever the backend did, and the confidence rules. |
| Pipeline.SanitisedAlike | app/services/enhanced_rag_service.py:904-914 | Two clean questions that sanitise to the same text get the same answer. |
| Metrics.MetricsStore.constructor | app/main.py:37-57 | Every counter, the sums and the lists start empty or at zero. |
| Metrics.MetricsStore.Update | app/main.py:59-86 | A listed counter is incremented by the value. A response time is added to the sum and to the last 1000 times. Active users keep the maximum. The current hour is counted, and only the 48 newest hours are kept. |
| Metrics.MetricsStore.Apply | app/main.py:63-74 | Applies the counter, response-time or active-user update selected by the metric's name, and nothing else. |
| Metrics.MetricsStore.CountHour | app/main.py:76-86 | Counts a request in its hour and prunes to 48 hours. The current hour survives when it is the newest. |
| Metrics.MetricsStore.PruneHours | app/main.py:82-86 | Keeps exactly the 48 lexicographically greatest hours, with their counts. |
| Metrics.MetricsStore.ErrorRate | app/main.py:462-463 | The error rate is errors times 100 divided by `max(requests, 1)`. |
| Metrics.Oldest | app/main.py:84 | Returns the least hour in lexicographic order. |
| Metrics.NamesSelectTheirCounter | app/main.py:63-66 | Each of the twelve counter names selects its own counter. |
| Metrics.NewestAreDetermined | app/main.py:82-86 | Only one map keeps the newest hours, so the model's removal loop and the source's sort-then-slice agree. |
| Metrics.NewestKeepsLatest | app/main.py:76-86 | The newest hour is never pruned. |
| Metrics.LatestKeepsNewest | app/main.py:67-72 | After appending a time, the list keeps at most 1000 times, ends with the new one and is a suffix of the history. |
| Api.FirstHarmful | app/main.py:100-109 | Returns the first listed pattern found in the lower-cased question, or none exactly when no pattern occurs. |
| Api.ValidationRules | app/main.py:91-111 | A question is accepted exactly when it has 1 to 2000 characters, is not blank and contains no suspicious pattern. |
| Api.AcceptedIsStripped | app/main.py:111 | The accepted question is the stripped input: non-empty and without surrounding whitespace. |
| Api.RejectionNamesPattern | app/main.py:106-109 | A harmful-content rejection names a listed pattern that occurs in the question. |
| Api.AcceptedWhen | app/main.py:94-111 | A question of valid length, not blank and without pattern, is accepted as its stripped form. |
| Api.ValidationIdempotent | app/main.py:94-111 | Validating an accepted question again gives the same result. |
| Api.HealthRules | app/main.py:453-487 | The database is never reported in error, since a failed count becomes zero. Status is critical exactly when the error rate exceeds 20%. It is healthy exactly when there are billing records, the error rate is at most 10% and the RAG service is up. A failed count is never healthy. |
| Api.StatusMonotone | app/main.py:483-487 | A higher error rate never gives a better status. |
| Api.IdleTiers | app/main.py:954-977 | The idle savings fraction falls (0.90, 0.60, 0.30) as utilisation rises. |
| Api.IdlePriority | app/main.py:960-968 | An idle resource is high priority exactly when utilisation is below 5%, or below 20% with a cost over 100. Its savings are 30% to 90% of its cost. |
| Api.HighCostTiers | app/main.py:1069-1086 | The high-cost fraction (0.15, 0.20, 0.30) and the savings rise with cost. |
| Api.TaggingSavesNothing | app/main.py:1024-1028 | Tagging gaps add nothing to the estimated savings. |
| Api.CountsCoverAll | app/main.py:928 | The priority counts add up to the number of recommendations, and the low count is zero when no recommendation is low. |
| Api.TotalAppend | app/main.py:926-1086 | The total savings of concatenated lists add up. |
| Api.RankingKeepsTotal | app/main.py:1112 | Sorting by savings keeps the total. |
| Api.Recommend | app/main.py:910-1145 | Without a billing month, the report is empty with period "No data". Otherwise it holds all recommendations sorted by savings, their total and their priority counts. |
| Api.AppendRows | app/main.py:954-1086 | Each loop appends one recommendation per row and keeps the running total and counts equal to those of the list. |
| Api.ReportRanking | app/main.py:1112 | The report ranks the recommendations by decreasing savings. It is a permutation of them and has the same total. |
| Api.ReportTotals | app/main.py:1115-1145 | The total equals the idle plus high-cost savings. High and medium counts cover every recommendation, and the low count is zero. |

## Left out

- I/O: logging, timestamps, request identifiers and HTTP framing are not modelled. The clock's hour, day and 7-day cutoff are parameters, and so are the database contents, the vector index outcome, the Gemini outcome and the prompt's word count.
- Concurrency: the service and the metrics store are modelled single-threaded.
- Floating point: money, scores, rates and token costs are modelled as reals. `round(..., 2)` and `round(..., 6)` are not modelled.
- Text: `lower()` is ASCII lower-casing and `\d` is an ASCII digit. Response and summary text is modelled as structured parts, not rendered strings.
- Retrieval: the vector search (SentenceTransformer embeddings looked up in a FAISS `IndexFlatL2` index) is a parameter, `VectorOutcome`. Only the keyword fallback is computed.
- Keyword search: an empty sanitised question with a non-empty corpus raises a ZeroDivisionError in the source, and the model propagates it as `Raised` rather than precluding it.
- Month extraction: the month SUM query always returns one row, even when no billing row matches, so the cost group always has data when it fires.
- Backend: a security question with a configured Gemini backend is sent to Gemini like any other question. Only without a backend does it get the security report.
- Labels: the fallback's default `fallback` label never occurs, because the analysis always supplies one.
- Synthesis.TokenUsageOf: the model uses the corrected total (input plus output). The as-written `int(1.3 * (i + o))` is kept only as `Synthesis.TokenUsageAsWritten`, for the finding below, and `Synthesis.TokenUsageCorrection` bounds the difference by one token.
- Synthesis.GeneratedResponse: the reported `total_tokens` is the corrected one, so for some word counts (2 and 2 words: 4 here, 5 in the source) it is one less than the source reports.
- Pipeline.RagService.Generated: builds its usage with `Synthesis.TokenUsageOf`, so its `total_tokens` is the corrected one, not the source's.
- Pipeline.RagService.GenerateResponse: the response's `total_tokens` is the corrected one. The usage it counts (input plus output tokens) is the same as the source's.
- Pipeline.RagService.AnswerClean: the reply's `total_tokens` is the corrected one. The usage it counts (input plus output tokens) is the same as the source's.
- Pipeline.RagService.Ask: the reply's `total_tokens` is the corrected one. The usage it counts (input plus output tokens) is the same as the source's.
- Metrics.MetricsStore.Update: `value` has no default; the default `value = 1` of `update_metrics` is not modelled, and a call that omits it, such as `update_metrics('errors_total')`, corresponds to `Update(name, 1.0, hour)`. Metric values are reals. Unknown names change no counter, but they still count an hour. Session duration and the system-load fields of the health report need a clock and the OS, and are left out.
- Metrics.MetricsStore.PruneHours: the source sorts the hours and deletes all but the newest 48. The model deletes the oldest hour until 48 remain, and `Metrics.NewestAreDetermined` shows that both give the same map.
- Api.ValidationRules: Pydantic's `min_length=1` and `max_length=2000` on the field are checked before the validator. The model applies them in that order.
- Api.HealthRules: the AI status and system load of the health report are left out.
- Api.Recommend: a recommendation's descriptive fields are left out: name, text, confidence, utilisation rounding, annual impact, optimisation options, and the category breakdown and effort estimate of the summary. The SQL queries are parameters: their rows arrive as the idle, untagged and high-cost lists.

## Findings

| source | as written | input that shows it | evidently intended | confidence | as-written member | corrected member |
|---|---|---|---|---|---|---|
| app/services/enhanced_rag_service.py:765-767 | the reported `total_tokens` truncates the sum of the two 1.3-per-word estimates, while `input_tokens` and `output_tokens` (and the usage accountant, lines 741-745) truncate each estimate separately | 105 prompt words and 5 response words: input 136, output 6, total 143 | total tokens equal input plus output tokens (142) | not executed | Synthesis.TotalAsWrittenDisagrees | Synthesis.TokenUsageBounds |
