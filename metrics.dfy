/** The API's in-process metrics store: a dozen counters, the running sum
    and the recent list of response times, the peak of active users and a
    per-hour request count that keeps the last 48 hours. The clock is read
    by the caller, which passes the current hour key in the store's
    `%Y-%m-%d %H:00` format; metric values are real numbers (the counters
    are only ever given whole numbers). */
module Metrics {
  import opened Text

  /** The names `update_metrics` adds the value to. */
  datatype Counter =
    | ApiRequests | AiQueries | Errors | CacheHits | CacheMisses | DatabaseQueries
    | GeminiApiCalls | SecurityBlocks | ValidationFailures | GeminiTokensUsed
    | GeminiInputTokens | GeminiOutputTokens

  /** What a metric name selects: a counter, the response-time sum, the
      active-user peak, or nothing but the hourly count. */
  datatype Metric = Add(counter: Counter) | ResponseTime | ActiveUsers | Untracked

  function CounterName(c: Counter): string {
    match c
    case ApiRequests => "api_requests_total"
    case AiQueries => "ai_queries_total"
    case Errors => "errors_total"
    case CacheHits => "cache_hits"
    case CacheMisses => "cache_misses"
    case DatabaseQueries => "database_queries"
    case GeminiApiCalls => "gemini_api_calls"
    case SecurityBlocks => "security_blocks"
    case ValidationFailures => "validation_failures"
    case GeminiTokensUsed => "gemini_tokens_used"
    case GeminiInputTokens => "gemini_input_tokens"
    case GeminiOutputTokens => "gemini_output_tokens"
  }

  /** The branch of `update_metrics` a name takes. */
  function MetricNamed(name: string): Metric {
    if name == "api_requests_total" then Add(ApiRequests)
    else if name == "ai_queries_total" then Add(AiQueries)
    else if name == "errors_total" then Add(Errors)
    else if name == "cache_hits" then Add(CacheHits)
    else if name == "cache_misses" then Add(CacheMisses)
    else if name == "database_queries" then Add(DatabaseQueries)
    else if name == "gemini_api_calls" then Add(GeminiApiCalls)
    else if name == "security_blocks" then Add(SecurityBlocks)
    else if name == "validation_failures" then Add(ValidationFailures)
    else if name == "gemini_tokens_used" then Add(GeminiTokensUsed)
    else if name == "gemini_input_tokens" then Add(GeminiInputTokens)
    else if name == "gemini_output_tokens" then Add(GeminiOutputTokens)
    else if name == "response_time_sum" then ResponseTime
    else if name == "active_users" then ActiveUsers
    else Untracked
  }

  /** Each counter's own name selects it. */
  lemma NamesSelectTheirCounter(c: Counter)
    ensures MetricNamed(CounterName(c)) == Add(c)
  {
  }

  /** Every counter starts at zero. */
  function Initial(c: Counter): real { 0.0 }

  const ResponseTimesKept := 1000
  const HoursKept := 48

  /** Python's `s[-n:]` once `len(s) > n`: the last `n` entries. */
  function Latest(s: seq<real>, n: nat): (r: seq<real>) {
    if |s| > n then s[|s| - n..] else s
  }

  /** The hour map after one more request in `hour`. */
  function CountRequest(hours: map<string, nat>, hour: string): map<string, nat> {
    hours[hour := (if hour in hours then hours[hour] else 0) + 1]
  }

  /** `after` is what the clean-up leaves of `before`: the entries of the
      `n` greatest keys in string order (all of them when there are no
      more than `n`), with their counts. */
  ghost predicate KeepsNewest(before: map<string, nat>, after: map<string, nat>, n: nat) {
    && after.Keys <= before.Keys
    && (forall k :: k in after ==> after[k] == before[k])
    && |after| == (if |before| <= n then |before| else n)
    && (forall dropped, kept :: dropped in before && dropped !in after && kept in after ==> LexLess(dropped, kept))
  }

  /** A proper subset is smaller. */
  lemma ProperSubsetSmaller(a: set<string>, b: set<string>)
    requires a <= b && a != b
    ensures |a| < |b|
  {
    var c := b - a;
    assert b == a + c && a * c == {};
    assert |b| == |a| + |c|;
    var x :| x in b && x !in a;
    assert x in c;
  }

  /** There is only one way to keep the newest `n` hours: the clean-up's
      result is determined by the map it starts from. */
  lemma NewestAreDetermined(before: map<string, nat>, a1: map<string, nat>, a2: map<string, nat>, n: nat)
    requires KeepsNewest(before, a1, n) && KeepsNewest(before, a2, n)
    ensures a1 == a2
  {
    if a1.Keys != a2.Keys {
      if a1.Keys <= a2.Keys {
        ProperSubsetSmaller(a1.Keys, a2.Keys);
        assert false;
      }
      var x :| x in a1 && x !in a2;
      if a2.Keys <= a1.Keys {
        ProperSubsetSmaller(a2.Keys, a1.Keys);
        assert false;
      }
      var y :| y in a2 && y !in a1;
      assert LexLess(x, y);
      LexLessAsymmetric(x, y);
      assert false;
    }
  }

  /** The latest hour of the map survives the clean-up, with its count. */
  lemma NewestKeepsLatest(before: map<string, nat>, after: map<string, nat>, n: nat, hour: string)
    requires KeepsNewest(before, after, n) && n >= 1
    requires hour in before && forall k :: k in before ==> LexLessEq(k, hour)
    ensures hour in after && after[hour] == before[hour]
  {
    if hour !in after {
      assert |after| >= 1;
      var k :| k in after;
      assert LexLess(hour, k);
      LexLessAsymmetric(hour, k);
      assert false;
    }
  }

  /** The response-time list keeps the most recent values, ending with the
      newest one, and never more than `n`. */
  lemma LatestKeepsNewest(s: seq<real>, v: real, n: nat)
    requires n >= 1
    ensures var r := Latest(s + [v], n);
      && |r| == (if |s| + 1 <= n then |s| + 1 else n)
      && r[|r| - 1] == v
      && r == (s + [v])[|s| + 1 - |r|..]
  {
  }

  class MetricsStore {
    /** Every counter has an entry, so the map is total. */
    var counters: imap<Counter, real>
    var responseTimeSum: real
    var responseTimes: seq<real>
    var activeUsers: real
    var requestsByHour: map<string, nat>

    ghost predicate Valid()
      reads this
    {
      && (forall c: Counter :: c in counters)
      && |responseTimes| <= ResponseTimesKept
      && |requestsByHour| <= HoursKept
    }

    /** The store as the process starts: everything zero and empty. */
    constructor ()
      ensures Valid()
      ensures forall c: Counter :: counters[c] == 0.0
      ensures responseTimeSum == 0.0 && responseTimes == [] && activeUsers == 0.0 && requestsByHour == map[]
    {
      counters := imap c: Counter :: Initial(c);
      responseTimeSum := 0.0;
      responseTimes := [];
      activeUsers := 0.0;
      requestsByHour := map[];
    }

    /** `update_metrics`: apply the metric's own change, then count the
        call in the current hour and keep only the newest 48 hours. */
    method Update(name: string, value: real, hour: string)
      requires Valid()
      modifies this
      ensures Valid()
      ensures var m := MetricNamed(name);
        && counters == (if m.Add? then old(counters)[m.counter := old(counters)[m.counter] + value] else old(counters))
        && responseTimeSum == old(responseTimeSum) + (if m.ResponseTime? then value else 0.0)
        && responseTimes == (if m.ResponseTime? then Latest(old(responseTimes) + [value], ResponseTimesKept) else old(responseTimes))
        && activeUsers == (if m.ActiveUsers? && value > old(activeUsers) then value else old(activeUsers))
      ensures KeepsNewest(CountRequest(old(requestsByHour), hour), requestsByHour, HoursKept)
      ensures (forall k :: k in old(requestsByHour) ==> LexLessEq(k, hour)) ==>
        hour in requestsByHour && requestsByHour[hour] == (if hour in old(requestsByHour) then old(requestsByHour)[hour] else 0) + 1
    {
      Apply(MetricNamed(name), value);
      CountHour(hour);
    }

    /** The metric's own branch of `update_metrics`. */
    method Apply(m: Metric, value: real)
      requires (forall c: Counter :: c in counters) && |responseTimes| <= ResponseTimesKept
      modifies this`counters, this`responseTimeSum, this`responseTimes, this`activeUsers
      ensures (forall c: Counter :: c in counters) && |responseTimes| <= ResponseTimesKept
      ensures counters == (if m.Add? then old(counters)[m.counter := old(counters)[m.counter] + value] else old(counters))
      ensures responseTimeSum == old(responseTimeSum) + (if m.ResponseTime? then value else 0.0)
      ensures responseTimes == (if m.ResponseTime? then Latest(old(responseTimes) + [value], ResponseTimesKept) else old(responseTimes))
      ensures activeUsers == (if m.ActiveUsers? && value > old(activeUsers) then value else old(activeUsers))
    {
      match m
      case Add(c) =>
        counters := counters[c := counters[c] + value];
      case ResponseTime =>
        responseTimeSum := responseTimeSum + value;
        responseTimes := responseTimes + [value];
        if |responseTimes| > ResponseTimesKept {
          responseTimes := responseTimes[|responseTimes| - ResponseTimesKept..];
        }
      case ActiveUsers =>
        if value > activeUsers {
          activeUsers := value;
        }
      case Untracked =>
    }

    /** The hourly part of `update_metrics`: one more request in `hour`,
        then the clean-up. An hour no earlier than every kept one is kept
        with its count raised by one. */
    method CountHour(hour: string)
      modifies this`requestsByHour
      ensures KeepsNewest(CountRequest(old(requestsByHour), hour), requestsByHour, HoursKept)
      ensures |requestsByHour| <= HoursKept
      ensures (forall k :: k in old(requestsByHour) ==> LexLessEq(k, hour)) ==>
        hour in requestsByHour && requestsByHour[hour] == (if hour in old(requestsByHour) then old(requestsByHour)[hour] else 0) + 1
    {
      ghost var before := requestsByHour;
      if hour !in requestsByHour {
        requestsByHour := requestsByHour[hour := 0];
      }
      requestsByHour := requestsByHour[hour := requestsByHour[hour] + 1];
      assert requestsByHour == CountRequest(before, hour);
      ghost var counted := requestsByHour;
      PruneHours();
      if forall k :: k in before ==> LexLessEq(k, hour) {
        forall k | k in counted ensures LexLessEq(k, hour) {
        }
        NewestKeepsLatest(counted, requestsByHour, HoursKept, hour);
      }
    }

    /** The clean-up: while more than 48 hours are kept, drop the oldest. */
    method PruneHours()
      modifies this`requestsByHour
      ensures KeepsNewest(old(requestsByHour), requestsByHour, HoursKept)
    {
      ghost var before := requestsByHour;
      while |requestsByHour| > HoursKept
        invariant requestsByHour.Keys <= before.Keys
        invariant forall k :: k in requestsByHour ==> requestsByHour[k] == before[k]
        invariant requestsByHour == before || |requestsByHour| >= HoursKept
        invariant forall dropped, kept :: dropped in before && dropped !in requestsByHour && kept in requestsByHour ==> LexLess(dropped, kept)
        decreases |requestsByHour|
      {
        var oldest := Oldest(requestsByHour.Keys);
        requestsByHour := requestsByHour - {oldest};
      }
    }

    /** `errors_total / max(api_requests_total, 1) * 100`. */
    function ErrorRate(): (rate: real)
      reads this
      requires Valid()
      ensures counters[ApiRequests] >= 1.0 ==> rate * counters[ApiRequests] == counters[Errors] * 100.0
      ensures counters[ApiRequests] < 1.0 ==> rate == counters[Errors] * 100.0
    {
      var requests := if counters[ApiRequests] > 1.0 then counters[ApiRequests] else 1.0;
      counters[Errors] / requests * 100.0
    }
  }

  /** The least key of a non-empty set in string order. */
  method Oldest(keys: set<string>) returns (r: string)
    requires keys != {}
    ensures r in keys && forall k :: k in keys ==> LexLessEq(r, k)
  {
    r :| r in keys;
    var rest := keys - {r};
    while rest != {}
      invariant rest <= keys && r in keys && r !in rest
      invariant forall k :: k in keys && k !in rest ==> LexLessEq(r, k)
      decreases |rest|
    {
      var k :| k in rest;
      if LexLess(k, r) {
        forall j | j in keys && j !in rest && j != r ensures LexLess(k, j) {
          LexLessTransitive(k, r, j);
        }
        r := k;
      } else {
        LexLessTotal(k, r);
      }
      rest := rest - {k};
    }
  }
}
