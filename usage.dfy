/** The service's token-usage accountant: running totals, one bucket per
    clock hour and a per-day cost map that only keeps the last week. The
    clock is read by the caller, which passes the current hour key, the
    current day key and the cutoff day key (seven days ago), all in the
    service's `%Y-%m-%d` / `%Y-%m-%d %H:00` formats. */
module Usage {
  import opened Text

  /** One hour's counters. */
  datatype HourBucket = HourBucket(requests: nat, tokens: int, cost: real)

  /** `get_token_usage_stats`, without the clock-dependent session length:
      the accountant's counters and maps, and the per-request averages. */
  datatype UsageStats = UsageStats(
    totalTokens: int, inputTokens: int, outputTokens: int, requests: nat, totalCost: real,
    requestsByHour: map<string, HourBucket>, costByDay: map<string, real>,
    avgTokensPerRequest: real, avgCostPerRequest: real)

  /** The day map rebuilt by the clean-up: the keys not before `cutoff`, in
      Python's string order. */
  function Prune(days: map<string, real>, cutoff: string): map<string, real> {
    map k | k in days && LexLessEq(cutoff, k) :: days[k]
  }

  /** The hour bucket after one more request. */
  function Bump(b: HourBucket, tokens: int, cost: real): HourBucket {
    HourBucket(b.requests + 1, b.tokens + tokens, b.cost + cost)
  }

  const EmptyBucket := HourBucket(0, 0, 0.0)

  /** The hour map after one request in `hour`: its bucket is created
      empty if absent, then bumped. */
  function CountHour(hours: map<string, HourBucket>, hour: string, tokens: int, cost: real): map<string, HourBucket> {
    hours[hour := Bump(if hour in hours then hours[hour] else EmptyBucket, tokens, cost)]
  }

  /** The day map after `cost` is added to `day` and the days before
      `cutoff` are dropped. */
  function CountDay(days: map<string, real>, day: string, cost: real, cutoff: string): map<string, real> {
    Prune(days[day := (if day in days then days[day] else 0.0) + cost], cutoff)
  }

  /** The accountant's invariant over its values: the token totals agree,
      and every request landed in exactly one hour bucket, so no bucket is
      empty and there are no more buckets than requests. */
  ghost predicate Consistent(total: int, input: int, output: int, requests: nat, hours: map<string, HourBucket>) {
    && total == input + output
    && (forall h :: h in hours ==> hours[h].requests >= 1)
    && |hours| <= requests
  }

  /** One more request keeps the invariant. */
  lemma CountKeepsConsistent(total: int, input: int, output: int, requests: nat, hours: map<string, HourBucket>,
                             inTok: int, outTok: int, cost: real, hour: string)
    requires Consistent(total, input, output, requests, hours)
    ensures Consistent(total + (inTok + outTok), input + inTok, output + outTok, requests + 1,
                       CountHour(hours, hour, inTok + outTok, cost))
  {
    var r := CountHour(hours, hour, inTok + outTok, cost);
    if hour in hours {
      assert r.Keys == hours.Keys;
    } else {
      assert r.Keys == hours.Keys + {hour};
    }
  }

  class UsageAccountant {
    var totalTokens: int
    var inputTokens: int
    var outputTokens: int
    var requests: nat
    var totalCost: real
    var requestsByHour: map<string, HourBucket>
    var costByDay: map<string, real>

    ghost predicate Valid()
      reads this
    {
      Consistent(totalTokens, inputTokens, outputTokens, requests, requestsByHour)
    }

    constructor ()
      ensures Valid()
      ensures totalTokens == 0 && inputTokens == 0 && outputTokens == 0 && requests == 0
      ensures totalCost == 0.0 && requestsByHour == map[] && costByDay == map[]
    {
      totalTokens := 0;
      inputTokens := 0;
      outputTokens := 0;
      requests := 0;
      totalCost := 0.0;
      requestsByHour := map[];
      costByDay := map[];
    }

    /** `_update_token_usage`: count one request of `input + output` tokens
        costing `cost` in the hour `hour` and the day `day`, then drop the
        days before `cutoff`. */
    method Update(input: int, output: int, cost: real, hour: string, day: string, cutoff: string)
      requires Valid()
      modifies this
      ensures Valid()
      ensures totalTokens == old(totalTokens) + input + output
      ensures inputTokens == old(inputTokens) + input
      ensures outputTokens == old(outputTokens) + output
      ensures requests == old(requests) + 1
      ensures totalCost == old(totalCost) + cost
      ensures requestsByHour == CountHour(old(requestsByHour), hour, input + output, cost)
      ensures costByDay == CountDay(old(costByDay), day, cost, cutoff)
    {
      CountKeepsConsistent(totalTokens, inputTokens, outputTokens, requests, requestsByHour, input, output, cost, hour);
      totalTokens := totalTokens + (input + output);
      inputTokens := inputTokens + input;
      outputTokens := outputTokens + output;
      requests := requests + 1;
      totalCost := totalCost + cost;
      CountInHour(hour, input + output, cost);
      CountInDay(day, cost, cutoff);
    }

    /** The hour-bucket step of `Update`. */
    method CountInHour(hour: string, tokens: int, cost: real)
      modifies this`requestsByHour
      ensures requestsByHour == CountHour(old(requestsByHour), hour, tokens, cost)
    {
      if hour !in requestsByHour {
        requestsByHour := requestsByHour[hour := EmptyBucket];
      }
      requestsByHour := requestsByHour[hour := Bump(requestsByHour[hour], tokens, cost)];
    }

    /** The day-cost step of `Update`, with the clean-up that rebuilds the
        map from the days not before `cutoff`. */
    method CountInDay(day: string, cost: real, cutoff: string)
      modifies this`costByDay
      ensures costByDay == CountDay(old(costByDay), day, cost, cutoff)
    {
      if day !in costByDay {
        costByDay := costByDay[day := 0.0];
      }
      costByDay := costByDay[day := costByDay[day] + cost];
      costByDay := Prune(costByDay, cutoff);
    }

    /** `get_token_usage_stats`: the counters, the hour and day maps, and
        the per-request averages, dividing by at least one request. */
    function Stats(): (r: UsageStats)
      reads this
      ensures r.requests == requests && r.totalTokens == totalTokens && r.totalCost == totalCost
      ensures r.inputTokens == inputTokens && r.outputTokens == outputTokens
      ensures r.requestsByHour == requestsByHour && r.costByDay == costByDay
      ensures r.avgTokensPerRequest * (if requests > 1 then requests else 1) as real == totalTokens as real
      ensures r.avgCostPerRequest * (if requests > 1 then requests else 1) as real == totalCost
    {
      var n := if requests > 1 then requests else 1;
      UsageStats(totalTokens, inputTokens, outputTokens, requests, totalCost, requestsByHour, costByDay,
        totalTokens as real / n as real, totalCost / n as real)
    }
  }

  /** The clean-up keeps exactly the days not before the cutoff, with
      their costs. */
  lemma PruneKeepsRecent(days: map<string, real>, cutoff: string)
    ensures forall k :: k in Prune(days, cutoff) <==> k in days && LexLessEq(cutoff, k)
    ensures forall k :: k in Prune(days, cutoff) ==> Prune(days, cutoff)[k] == days[k]
  {
  }

  /** Cleaning up with an earlier cutoff and then a later one is the same
      as cleaning up once with the later one, so repeated updates keep
      only the last cutoff's window. */
  lemma PruneTwice(days: map<string, real>, earlier: string, later: string)
    requires LexLessEq(earlier, later)
    ensures Prune(Prune(days, earlier), later) == Prune(days, later)
  {
    forall k | k in days && LexLessEq(later, k) ensures LexLessEq(earlier, k) {
      if earlier != later && later != k {
        LexLessTransitive(earlier, later, k);
      }
    }
  }

  /** A day not before the cutoff survives the update with its cost
      increased by `cost`; no day before the cutoff survives. */
  lemma CountDayKeepsToday(days: map<string, real>, day: string, cost: real, cutoff: string)
    ensures LexLessEq(cutoff, day) ==>
      day in CountDay(days, day, cost, cutoff) &&
      CountDay(days, day, cost, cutoff)[day] == (if day in days then days[day] else 0.0) + cost
    ensures forall k :: k in CountDay(days, day, cost, cutoff) ==> LexLessEq(cutoff, k)
  {
  }
}
