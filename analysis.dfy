/** The database analysis behind every answer: the lower-cased question is
    tested against seven keyword groups in a fixed order; each group that
    fires runs its own query and fills its own part of the result, and the
    groups that carry a label overwrite the classification, so the last
    one to fire decides it. The database is given as the answers it gives
    to the queries the service issues (their SQL is not part of this
    model); any query may raise, and then the whole analysis is the error
    result. */
module Analysis {
  import opened Common
  import opened Text
  import opened Month
  import opened Usage

  // ----- Rows returned by the queries (`NULL` is `None`) -----

  /** `SUM(cost), COUNT(DISTINCT resource_id)` for one month. */
  datatype TotalRow = TotalRow(total: Option<real>, resources: Option<int>)
  /** The same per month, for the six latest months. */
  datatype MonthRow = MonthRow(month: string, total: Option<real>, resources: Option<int>)
  /** Cost and resource count per service or per resource group. */
  datatype BreakdownRow = BreakdownRow(name: string, cost: Option<real>, resources: Option<int>)
  /** Cost per month, latest first. */
  datatype TrendRow = TrendRow(month: string, cost: Option<real>)
  /** A resource with low average usage. */
  datatype IdleRow = IdleRow(resourceId: string, service: string, group: string, avgUsage: Option<real>, cost: Option<real>)
  /** A resource whose owner or environment tag is missing. */
  datatype UntaggedRow = UntaggedRow(resourceId: string, service: string, group: string, cost: Option<real>)

  /** The answers of the billing store to the service's queries. The month
      and breakdown queries take the month the question mentions. */
  datatype Database = Database(
    monthTotal: string -> Outcome<seq<TotalRow>>,
    recentTotals: Outcome<seq<MonthRow>>,
    services: Option<string> -> Outcome<seq<BreakdownRow>>,
    groups: Option<string> -> Outcome<seq<BreakdownRow>>,
    trend: Outcome<seq<TrendRow>>,
    idle: Outcome<seq<IdleRow>>,
    untagged: Outcome<seq<UntaggedRow>>)

  // ----- The analysis result -----

  /** A Python dict as the list of its items in insertion order. */
  type Dict<V> = seq<(string, V)>

  datatype Totals = Totals(totalCost: real, resourceCount: int)
  datatype Share = Share(cost: real, resources: int)
  datatype TrendPoint = TrendPoint(month: string, cost: real)
  datatype Opportunity = Opportunity(resourceId: string, service: string, group: string, avgUsage: real, cost: real, potentialSavings: real)
  datatype Untagged = Untagged(resourceId: string, service: string, group: string, cost: real)
  /** The usage snapshot the security group reports, without the
      clock-dependent session length. */
  datatype SecurityInfo = SecurityInfo(totalTokens: int, inputTokens: int, outputTokens: int, requests: nat, totalCost: real, patternsMonitored: nat)

  datatype Classification = General | CostInquiry | TrendAnalysis | OptimizationAnalysis | GovernanceAnalysis | SecurityInquiry

  /** `analysis_results` as the groups fill it. */
  datatype Results = Results(
    dataAvailable: bool,
    monthlyTotals: Dict<Totals>,
    serviceBreakdown: Dict<Share>,
    groupBreakdown: Dict<Share>,
    trendData: seq<TrendPoint>,
    opportunities: seq<Opportunity>,
    untagged: Option<seq<Untagged>>,
    securityInfo: Option<SecurityInfo>,
    classification: Classification)

  /** What `_analyze_database` returns: the filled results, or the error
      result (`data_available` false, classification `error`). */
  datatype Analysis = Completed(results: Results) | Failed(error: string)

  function ClassificationName(c: Classification): string {
    match c
    case General => "general"
    case CostInquiry => "cost_inquiry"
    case TrendAnalysis => "trend_analysis"
    case OptimizationAnalysis => "optimization_analysis"
    case GovernanceAnalysis => "governance_analysis"
    case SecurityInquiry => "security_inquiry"
  }

  function DataAvailable(a: Analysis): bool {
    a.Completed? && a.results.dataAvailable
  }

  const Initial := Results(false, [], [], [], [], [], None, None, General)

  // ----- Dict and row conversions -----

  /** `d[k] = v`: an existing key keeps its place, a new key goes last. */
  function Put<V>(d: Dict<V>, k: string, v: V): (r: Dict<V>)
    ensures (exists i :: 0 <= i < |d| && d[i].0 == k) ==> |r| == |d|
    ensures (forall i :: 0 <= i < |d| ==> d[i].0 != k) ==> r == d + [(k, v)]
  {
    if d == [] then [(k, v)]
    else if d[0].0 == k then [(k, v)] + d[1..]
    else [d[0]] + Put(d[1..], k, v)
  }

  /** `d.get(k)`. */
  function Get<V>(d: Dict<V>, k: string): (r: Option<V>)
    ensures r.None? <==> forall i :: 0 <= i < |d| ==> d[i].0 != k
    ensures r.Some? ==> exists i :: 0 <= i < |d| && d[i] == (k, r.value)
  {
    if d == [] then None
    else if d[0].0 == k then Some(d[0].1)
    else
      var r := Get(d[1..], k);
      assert r.Some? ==> exists i :: 0 <= i < |d[1..]| && d[1..][i] == (k, r.value);
      r
  }

  /** The keys of `d`. */
  function Keys<V>(d: Dict<V>): set<string> {
    if d == [] then {} else {d[0].0} + Keys(d[1..])
  }

  /** No key occurs twice, as in any Python dict. */
  predicate UniqueKeys<V>(d: Dict<V>) {
    d == [] || (d[0].0 !in Keys(d[1..]) && UniqueKeys(d[1..]))
  }

  /** After `d[k] = v`, looking up `k` gives `v` and every other key gives
      what it gave before. */
  lemma {:induction false} PutGet<V>(d: Dict<V>, k: string, v: V, key: string)
    ensures Get(Put(d, k, v), key) == if key == k then Some(v) else Get(d, key)
  {
    if d != [] && d[0].0 != k {
      PutGet(d[1..], k, v, key);
    }
  }

  /** Assignment adds `k` to the keys and never duplicates one. */
  lemma {:induction false} PutUnique<V>(d: Dict<V>, k: string, v: V)
    ensures Keys(Put(d, k, v)) == Keys(d) + {k}
    ensures UniqueKeys(d) ==> UniqueKeys(Put(d, k, v))
  {
    if d != [] && d[0].0 != k {
      PutUnique(d[1..], k, v);
    }
  }

  /** `float(x or 0)`. */
  function RealOrZero(x: Option<real>): real {
    if x.Some? then x.value else 0.0
  }

  /** `int(x or 0)`. */
  function IntOrZero(x: Option<int>): int {
    if x.Some? then x.value else 0
  }

  function TotalsOf(r: TotalRow): Totals {
    Totals(RealOrZero(r.total), IntOrZero(r.resources))
  }

  function MonthKey(r: MonthRow): string { r.month }
  function MonthTotals(r: MonthRow): Totals { Totals(RealOrZero(r.total), IntOrZero(r.resources)) }
  function ShareKey(r: BreakdownRow): string { r.name }
  function ShareOf(r: BreakdownRow): Share { Share(RealOrZero(r.cost), IntOrZero(r.resources)) }

  /** `for row in rows: d[key(row)] = val(row)`, as a value. */
  function PutAll<R, V>(d: Dict<V>, rows: seq<R>, key: R -> string, val: R -> V): Dict<V> {
    if rows == [] then d
    else
      var r := rows[|rows| - 1];
      Put(PutAll(d, rows[..|rows| - 1], key, val), key(r), val(r))
  }

  /** The last of `rows` whose key is `k`. */
  function LastWith<R>(rows: seq<R>, key: R -> string, k: string): (r: Option<R>)
    ensures r.Some? ==> r.value in rows && key(r.value) == k
    ensures r.None? ==> forall i :: 0 <= i < |rows| ==> key(rows[i]) != k
  {
    if rows == [] then None
    else if key(rows[|rows| - 1]) == k then Some(rows[|rows| - 1])
    else LastWith(rows[..|rows| - 1], key, k)
  }

  /** After the loop, a key holds the value of the last row that carries
      it; a key no row carries keeps its old value. */
  lemma {:induction false} PutAllGet<R, V>(d: Dict<V>, rows: seq<R>, key: R -> string, val: R -> V, k: string)
    ensures Get(PutAll(d, rows, key, val), k) ==
      match LastWith(rows, key, k)
      case Some(r) => Some(val(r))
      case None => Get(d, k)
  {
    if rows != [] {
      var r := rows[|rows| - 1];
      PutGet(PutAll(d, rows[..|rows| - 1], key, val), key(r), val(r), k);
      PutAllGet(d, rows[..|rows| - 1], key, val, k);
    }
  }

  /** The loop keeps the keys unique. */
  lemma {:induction false} PutAllUnique<R, V>(d: Dict<V>, rows: seq<R>, key: R -> string, val: R -> V)
    requires UniqueKeys(d)
    ensures UniqueKeys(PutAll(d, rows, key, val))
  {
    if rows != [] {
      var r := rows[|rows| - 1];
      PutAllUnique(d, rows[..|rows| - 1], key, val);
      PutUnique(PutAll(d, rows[..|rows| - 1], key, val), key(r), val(r));
    }
  }

  /** `[f(row) for row in rows]`. */
  function Map<R, T>(rows: seq<R>, f: R -> T): (r: seq<T>)
    ensures |r| == |rows|
    ensures forall i :: 0 <= i < |rows| ==> r[i] == f(rows[i])
  {
    seq(|rows|, i requires 0 <= i < |rows| => f(rows[i]))
  }

  function TrendPointOf(r: TrendRow): TrendPoint {
    TrendPoint(r.month, RealOrZero(r.cost))
  }

  /** An idle resource with its estimated saving: 70% of its cost. */
  function OpportunityOf(r: IdleRow): Opportunity {
    Opportunity(r.resourceId, r.service, r.group, RealOrZero(r.avgUsage), RealOrZero(r.cost), RealOrZero(r.cost) * 0.7)
  }

  function UntaggedOf(r: UntaggedRow): Untagged {
    Untagged(r.resourceId, r.service, r.group, RealOrZero(r.cost))
  }

  // ----- The keyword groups -----

  datatype Group = CostGroup | ServiceGroup | ResourceGroupGroup | TrendGroup | OptimizationGroup | GovernanceGroup | SecurityGroup

  /** The groups in the order they are tried. */
  const AllGroups: seq<Group> := CostGroups + TrendGroups + ClosingGroups
  const CostGroups: seq<Group> := [CostGroup, ServiceGroup, ResourceGroupGroup]
  const TrendGroups: seq<Group> := [TrendGroup, OptimizationGroup]
  const ClosingGroups: seq<Group> := [GovernanceGroup, SecurityGroup]

  function Words(g: Group): seq<string> {
    match g
    case CostGroup => ["total", "spend", "cost", "money", "dollar"]
    case ServiceGroup => ["service", "breakdown", "split"]
    case ResourceGroupGroup => ["resource group", "resource_group", "group"]
    case TrendGroup => ["increase", "decrease", "change", "trend", "vs", "compared"]
    case OptimizationGroup => ["idle", "unused", "waste", "optimize", "save"]
    case GovernanceGroup => ["tag", "owner", "missing", "untagged"]
    case SecurityGroup => ["token", "security", "prompt", "injection"]
  }

  /** The label a group writes when it fires; the two breakdown groups
      write none. */
  function Label(g: Group): Option<Classification> {
    match g
    case CostGroup => Some(CostInquiry)
    case ServiceGroup => None
    case ResourceGroupGroup => None
    case TrendGroup => Some(TrendAnalysis)
    case OptimizationGroup => Some(OptimizationAnalysis)
    case GovernanceGroup => Some(GovernanceAnalysis)
    case SecurityGroup => Some(SecurityInquiry)
  }

  predicate Fires(g: Group, lowered: string) {
    ContainsAny(lowered, Words(g))
  }

  /** Everything a group's step needs besides the results so far. */
  datatype Env = Env(lowered: string, month: Option<string>, db: Database, usage: UsageStats, patternsMonitored: nat)

  /** One group's step: nothing when its words do not occur; otherwise
      its label, its query and its part of the results. */
  function Step(g: Group, st: Results, env: Env): Outcome<Results> {
    if !Fires(g, env.lowered) then Ok(st)
    else
      var st := if Label(g).Some? then st.(classification := Label(g).value) else st;
      match g
      case CostGroup =>
        if env.month.Some? then
          (match env.db.monthTotal(env.month.value)
           case Raised(e) => Raised(e)
           case Ok(rows) =>
             if rows == [] then Ok(st)
             else Ok(st.(dataAvailable := true, monthlyTotals := Put(st.monthlyTotals, env.month.value, TotalsOf(rows[0])))))
        else
          (match env.db.recentTotals
           case Raised(e) => Raised(e)
           case Ok(rows) =>
             if rows == [] then Ok(st)
             else Ok(st.(dataAvailable := true, monthlyTotals := PutAll(st.monthlyTotals, rows, MonthKey, MonthTotals))))
      case ServiceGroup =>
        (match env.db.services(env.month)
         case Raised(e) => Raised(e)
         case Ok(rows) =>
           Ok(st.(serviceBreakdown := PutAll(st.serviceBreakdown, rows, ShareKey, ShareOf), dataAvailable := st.dataAvailable || rows != [])))
      case ResourceGroupGroup =>
        (match env.db.groups(env.month)
         case Raised(e) => Raised(e)
         case Ok(rows) =>
           Ok(st.(groupBreakdown := PutAll(st.groupBreakdown, rows, ShareKey, ShareOf), dataAvailable := st.dataAvailable || rows != [])))
      case TrendGroup =>
        (match env.db.trend
         case Raised(e) => Raised(e)
         case Ok(rows) =>
           Ok(st.(trendData := st.trendData + Map(rows, TrendPointOf),
                  dataAvailable := st.dataAvailable || rows != [])))
      case OptimizationGroup =>
        (match env.db.idle
         case Raised(e) => Raised(e)
         case Ok(rows) =>
           Ok(st.(opportunities := st.opportunities + Map(rows, OpportunityOf),
                  dataAvailable := st.dataAvailable || rows != [])))
      case GovernanceGroup =>
        (match env.db.untagged
         case Raised(e) => Raised(e)
         case Ok(rows) =>
           Ok(st.(untagged := Some(Map(rows, UntaggedOf)),
                  dataAvailable := st.dataAvailable || rows != [])))
      case SecurityGroup =>
        var u := env.usage;
        Ok(st.(securityInfo := Some(SecurityInfo(u.totalTokens, u.inputTokens, u.outputTokens, u.requests, u.totalCost, env.patternsMonitored)),
               dataAvailable := true))
  }

  /** The groups' steps in order; the first raise stops the analysis. */
  function RunGroups(st: Results, gs: seq<Group>, env: Env): Outcome<Results>
    decreases |gs|
  {
    if gs == [] then Ok(st)
    else
      match Step(gs[0], st, env)
      case Raised(e) => Raised(e)
      case Ok(next) => RunGroups(next, gs[1..], env)
  }

  /** The rest of the run after one step's outcome. */
  function Then(r: Outcome<Results>, gs: seq<Group>, env: Env): Outcome<Results> {
    match r
    case Raised(e) => Raised(e)
    case Ok(next) => RunGroups(next, gs, env)
  }

  /** `_analyze_database` for the question `query`: the month is taken from
      the lower-cased question, then the groups run. `db` is `Raised` when
      the store cannot be opened. */
  function Analyze(query: string, db: Outcome<Database>, usage: UsageStats, patternsMonitored: nat): Analysis {
    var lowered := Lower(query);
    match db
    case Raised(e) => Failed(e)
    case Ok(d) =>
      match RunGroups(Initial, AllGroups, Env(lowered, ExtractMonth(lowered), d, usage, patternsMonitored))
      case Raised(e) => Failed(e)
      case Ok(st) => Completed(st)
  }

  // ----- What the analysis promises -----

  /** The label of the last group among `gs` that fires and carries a
      label, or `c` when there is none. */
  function LastLabel(c: Classification, gs: seq<Group>, lowered: string): Classification {
    if gs == [] then c
    else
      var g := gs[|gs| - 1];
      if Fires(g, lowered) && Label(g).Some? then Label(g).value
      else LastLabel(c, gs[..|gs| - 1], lowered)
  }

  /** `o` is a query answer with at least one row. */
  predicate HasRows<R>(o: Outcome<seq<R>>) {
    o.Ok? && o.value != []
  }

  /** Group `g` fires and its query hands back rows; the security group
      needs no query. */
  predicate GivesData(g: Group, env: Env) {
    Fires(g, env.lowered) &&
    match g
    case CostGroup =>
      if env.month.Some? then HasRows(env.db.monthTotal(env.month.value)) else HasRows(env.db.recentTotals)
    case ServiceGroup => HasRows(env.db.services(env.month))
    case ResourceGroupGroup => HasRows(env.db.groups(env.month))
    case TrendGroup => HasRows(env.db.trend)
    case OptimizationGroup => HasRows(env.db.idle)
    case GovernanceGroup => HasRows(env.db.untagged)
    case SecurityGroup => true
  }

  /** Group `g` fires and its query raises. */
  predicate QueryRaises(g: Group, env: Env) {
    Fires(g, env.lowered) &&
    match g
    case CostGroup =>
      if env.month.Some? then env.db.monthTotal(env.month.value).Raised? else env.db.recentTotals.Raised?
    case ServiceGroup => env.db.services(env.month).Raised?
    case ResourceGroupGroup => env.db.groups(env.month).Raised?
    case TrendGroup => env.db.trend.Raised?
    case OptimizationGroup => env.db.idle.Raised?
    case GovernanceGroup => env.db.untagged.Raised?
    case SecurityGroup => false
  }

  /** Without data, every part of the results is still empty. */
  predicate EmptyWithoutData(r: Results) {
    !r.dataAvailable ==>
      r.monthlyTotals == [] && r.serviceBreakdown == [] && r.groupBreakdown == []
      && r.trendData == [] && r.opportunities == []
      && (r.untagged.None? || r.untagged == Some([])) && r.securityInfo.None?
  }

  /** One step raises exactly when its group fires and its query raises. */
  lemma StepRaises(g: Group, st: Results, env: Env)
    ensures Step(g, st, env).Raised? <==> QueryRaises(g, env)
  {
  }

  /** One step writes its group's label when the group fires. */
  lemma StepLabel(g: Group, st: Results, env: Env)
    ensures Step(g, st, env).Ok? ==>
      Step(g, st, env).value.classification == (if Fires(g, env.lowered) && Label(g).Some? then Label(g).value else st.classification)
  {
  }

  /** One step sets the flag exactly when its group gets data. */
  lemma StepData(g: Group, st: Results, env: Env)
    ensures Step(g, st, env).Ok? ==>
      (Step(g, st, env).value.dataAvailable <==> st.dataAvailable || GivesData(g, env))
  {
  }

  /** A step that leaves the flag unset fills nothing. */
  lemma StepEmptyWithoutData(g: Group, st: Results, env: Env)
    requires EmptyWithoutData(st)
    ensures Step(g, st, env).Ok? ==> EmptyWithoutData(Step(g, st, env).value)
  {
  }

  /** The classification is the label of the last labelled group that
      fires: a later group overrides an earlier one. */
  lemma {:induction false} RunLabel(st: Results, gs: seq<Group>, env: Env)
    ensures RunGroups(st, gs, env).Ok? ==>
      RunGroups(st, gs, env).value.classification == LastLabel(st.classification, gs, env.lowered)
    decreases |gs|
  {
    if gs != [] {
      StepLabel(gs[0], st, env);
      var step := Step(gs[0], st, env);
      if step.Ok? {
        RunLabel(step.value, gs[1..], env);
        assert gs == [gs[0]] + gs[1..];
        LastLabelCons(st.classification, gs[0], gs[1..], env.lowered);
      }
    }
  }

  /** Data is available exactly when it was before or some group among
      `gs` fires and gets rows; so the flag is never reset. */
  lemma {:induction false} RunData(st: Results, gs: seq<Group>, env: Env)
    ensures RunGroups(st, gs, env).Ok? ==>
      (RunGroups(st, gs, env).value.dataAvailable <==>
        st.dataAvailable || exists i :: 0 <= i < |gs| && GivesData(gs[i], env))
    decreases |gs|
  {
    if gs != [] {
      StepData(gs[0], st, env);
      var step := Step(gs[0], st, env);
      if step.Ok? {
        RunData(step.value, gs[1..], env);
        if exists i :: 0 <= i < |gs| && GivesData(gs[i], env) {
          var i :| 0 <= i < |gs| && GivesData(gs[i], env);
          if i > 0 {
            assert GivesData(gs[1..][i - 1], env);
          }
        }
        if exists i :: 0 <= i < |gs[1..]| && GivesData(gs[1..][i], env) {
          var i :| 0 <= i < |gs[1..]| && GivesData(gs[1..][i], env);
          assert GivesData(gs[i + 1], env);
        }
      }
    }
  }

  /** The run fails exactly when one of the groups that fire has a query
      that raises. */
  lemma {:induction false} RunRaises(st: Results, gs: seq<Group>, env: Env)
    ensures RunGroups(st, gs, env).Raised? <==> exists i :: 0 <= i < |gs| && QueryRaises(gs[i], env)
    decreases |gs|
  {
    if gs != [] {
      StepRaises(gs[0], st, env);
      var step := Step(gs[0], st, env);
      if step.Ok? {
        RunRaises(step.value, gs[1..], env);
        if exists i :: 0 <= i < |gs| && QueryRaises(gs[i], env) {
          var i :| 0 <= i < |gs| && QueryRaises(gs[i], env);
          assert i > 0;
          assert QueryRaises(gs[1..][i - 1], env);
        }
        if exists i :: 0 <= i < |gs[1..]| && QueryRaises(gs[1..][i], env) {
          var i :| 0 <= i < |gs[1..]| && QueryRaises(gs[1..][i], env);
          assert QueryRaises(gs[i + 1], env);
        }
      } else {
        assert QueryRaises(gs[0], env);
      }
    }
  }

  /** A run that sets no data leaves every part of the results empty. */
  lemma {:induction false} RunEmptyWithoutData(st: Results, gs: seq<Group>, env: Env)
    requires EmptyWithoutData(st)
    ensures RunGroups(st, gs, env).Ok? ==> EmptyWithoutData(RunGroups(st, gs, env).value)
    decreases |gs|
  {
    if gs != [] {
      StepEmptyWithoutData(gs[0], st, env);
      var step := Step(gs[0], st, env);
      if step.Ok? {
        RunEmptyWithoutData(step.value, gs[1..], env);
      }
    }
  }

  /** An opportunity whose savings are seventy per cent of its cost. */
  predicate Priced(o: Opportunity) {
    o.potentialSavings == o.cost * 0.7
  }

  predicate AllPriced(st: Results) {
    forall i :: 0 <= i < |st.opportunities| ==> Priced(st.opportunities[i])
  }

  /** A step adds only opportunities priced at seventy per cent. */
  lemma StepPriced(g: Group, st: Results, env: Env)
    requires AllPriced(st)
    ensures Step(g, st, env).Ok? ==> AllPriced(Step(g, st, env).value)
  {
    if g == OptimizationGroup && env.db.idle.Ok? {
      var added := Map(env.db.idle.value, OpportunityOf);
      var all := st.opportunities + added;
      forall i | 0 <= i < |all| ensures Priced(all[i]) {
        if i >= |st.opportunities| {
          assert all[i] == added[i - |st.opportunities|];
        }
      }
    }
  }

  /** Every opportunity a run reports is priced at seventy per cent. */
  lemma {:induction false} RunPriced(st: Results, gs: seq<Group>, env: Env)
    requires AllPriced(st)
    ensures RunGroups(st, gs, env).Ok? ==> AllPriced(RunGroups(st, gs, env).value)
    decreases |gs|
  {
    if gs != [] {
      StepPriced(gs[0], st, env);
      var step := Step(gs[0], st, env);
      if step.Ok? {
        RunPriced(step.value, gs[1..], env);
      }
    }
  }

  /** The analysis reports each idle resource's potential savings as
      seventy per cent of its cost. */
  lemma AnalysisPriced(query: string, db: Outcome<Database>, usage: UsageStats, patternsMonitored: nat)
    ensures var a := Analyze(query, db, usage, patternsMonitored);
      a.Completed? ==> AllPriced(a.results)
  {
    if db.Ok? {
      RunPriced(Initial, AllGroups, EnvOf(query, db.value, usage, patternsMonitored));
    }
  }

  /** The environment `_analyze_database` builds for `query`. */
  function EnvOf(query: string, d: Database, usage: UsageStats, patternsMonitored: nat): Env {
    var lowered := Lower(query);
    Env(lowered, ExtractMonth(lowered), d, usage, patternsMonitored)
  }

  /** The analysis of a question: its label is that of the last labelled
      group whose words occur in it (`general` when none does); data is
      available exactly when some group that fires gets rows or the
      security group fires; without data every part is empty; and the
      analysis fails exactly when the store cannot be opened or a query
      of a group that fires raises. */
  lemma AnalysisPromises(query: string, db: Outcome<Database>, usage: UsageStats, patternsMonitored: nat)
    ensures var a := Analyze(query, db, usage, patternsMonitored);
      && (a.Failed? <==> db.Raised? || exists i :: 0 <= i < |AllGroups| && QueryRaises(AllGroups[i], EnvOf(query, db.value, usage, patternsMonitored)))
      && (a.Completed? ==>
        && a.results.classification == LastLabel(General, AllGroups, Lower(query))
        && (a.results.dataAvailable <==> exists i :: 0 <= i < |AllGroups| && GivesData(AllGroups[i], EnvOf(query, db.value, usage, patternsMonitored)))
        && EmptyWithoutData(a.results))
  {
    if db.Ok? {
      var env := EnvOf(query, db.value, usage, patternsMonitored);
      RunLabel(Initial, AllGroups, env);
      RunData(Initial, AllGroups, env);
      RunRaises(Initial, AllGroups, env);
      RunEmptyWithoutData(Initial, AllGroups, env);
    }
  }

  /** A question that mentions tokens, security, prompts or injection is
      always labelled `security_inquiry` and always has data, whatever
      else it mentions, unless a query of an earlier group raises. */
  lemma SecurityQuestionWins(query: string, db: Outcome<Database>, usage: UsageStats, patternsMonitored: nat)
    requires Fires(SecurityGroup, Lower(query))
    requires Analyze(query, db, usage, patternsMonitored).Completed?
    ensures Analyze(query, db, usage, patternsMonitored).results.classification == SecurityInquiry
    ensures Analyze(query, db, usage, patternsMonitored).results.dataAvailable
  {
    AnalysisPromises(query, db, usage, patternsMonitored);
    var env := EnvOf(query, db.value, usage, patternsMonitored);
    assert AllGroups[6] == SecurityGroup;
    assert GivesData(AllGroups[6], env);
  }

  /** Groups without a label never change it: the two breakdown groups
      leave the label as it was. */
  lemma {:induction false} UnlabelledKeepLabel(c: Classification, gs: seq<Group>, lowered: string)
    requires forall i :: 0 <= i < |gs| ==> Label(gs[i]).None?
    ensures LastLabel(c, gs, lowered) == c
  {
    if gs != [] {
      UnlabelledKeepLabel(c, gs[..|gs| - 1], lowered);
    }
  }

  /** Running one group first and then the rest: the rest's last label
      is computed from the label the first group leaves. */
  lemma {:induction false} LastLabelCons(c: Classification, g: Group, rest: seq<Group>, lowered: string)
    ensures LastLabel(c, [g] + rest, lowered) ==
      LastLabel(if Fires(g, lowered) && Label(g).Some? then Label(g).value else c, rest, lowered)
    decreases |rest|
  {
    if rest != [] {
      assert ([g] + rest)[..|rest|] == [g] + rest[..|rest| - 1];
      LastLabelCons(c, g, rest[..|rest| - 1], lowered);
    } else {
      assert ([g] + rest)[..0] == [];
    }
  }

  // ----- The analysis as the service runs it -----

  /** `for row in rows: d[key(row)] = val(row)`. */
  method CollectInto<R, V>(d: Dict<V>, rows: seq<R>, key: R -> string, val: R -> V) returns (r: Dict<V>)
    ensures r == PutAll(d, rows, key, val)
  {
    r := d;
    for i := 0 to |rows|
      invariant r == PutAll(d, rows[..i], key, val)
    {
      assert rows[..i + 1][..i] == rows[..i];
      r := Put(r, key(rows[i]), val(rows[i]));
    }
    assert rows[..|rows|] == rows;
  }

  /** `for row in rows: acc.append(f(row))`. */
  method AppendAll<R, T>(acc: seq<T>, rows: seq<R>, f: R -> T) returns (r: seq<T>)
    ensures r == acc + Map(rows, f)
  {
    r := acc;
    for i := 0 to |rows|
      invariant r == acc + Map(rows[..i], f)
    {
      r := r + [f(rows[i])];
    }
    assert rows[..|rows|] == rows;
  }

  /** The cost group: the month's total when a month is named, otherwise
      the six latest months. */
  method CostStep(st: Results, env: Env) returns (r: Outcome<Results>)
    ensures r == Step(CostGroup, st, env)
  {
    if !ContainsAny(env.lowered, Words(CostGroup)) {
      return Ok(st);
    }
    var st := st.(classification := CostInquiry);
    if env.month.Some? {
      var answer := env.db.monthTotal(env.month.value);
      if answer.Raised? {
        return Raised(answer.error);
      }
      var rows := answer.value;
      if rows != [] {
        st := st.(dataAvailable := true);
        st := st.(monthlyTotals := Put(st.monthlyTotals, env.month.value, TotalsOf(rows[0])));
      }
    } else {
      var answer := env.db.recentTotals;
      if answer.Raised? {
        return Raised(answer.error);
      }
      var rows := answer.value;
      if rows != [] {
        st := st.(dataAvailable := true);
        var totals := CollectInto(st.monthlyTotals, rows, MonthKey, MonthTotals);
        st := st.(monthlyTotals := totals);
      }
    }
    return Ok(st);
  }

  /** The service and resource-group groups: a breakdown, and no label. */
  method BreakdownStep(g: Group, st: Results, env: Env) returns (r: Outcome<Results>)
    requires g == ServiceGroup || g == ResourceGroupGroup
    ensures r == Step(g, st, env)
  {
    if !ContainsAny(env.lowered, Words(g)) {
      return Ok(st);
    }
    var answer := if g == ServiceGroup then env.db.services(env.month) else env.db.groups(env.month);
    if answer.Raised? {
      return Raised(answer.error);
    }
    var rows := answer.value;
    var st := st;
    if g == ServiceGroup {
      var shares := CollectInto(st.serviceBreakdown, rows, ShareKey, ShareOf);
      st := st.(serviceBreakdown := shares);
    } else {
      var shares := CollectInto(st.groupBreakdown, rows, ShareKey, ShareOf);
      st := st.(groupBreakdown := shares);
    }
    if rows != [] {
      st := st.(dataAvailable := true);
    }
    return Ok(st);
  }

  /** The trend group: the latest months' costs. */
  method TrendStep(st: Results, env: Env) returns (r: Outcome<Results>)
    ensures r == Step(TrendGroup, st, env)
  {
    if !ContainsAny(env.lowered, Words(TrendGroup)) {
      return Ok(st);
    }
    var st := st.(classification := TrendAnalysis);
    var answer := env.db.trend;
    if answer.Raised? {
      return Raised(answer.error);
    }
    var rows := answer.value;
    var points := AppendAll(st.trendData, rows, TrendPointOf);
    st := st.(trendData := points);
    if rows != [] {
      st := st.(dataAvailable := true);
    }
    return Ok(st);
  }

  /** The optimization group: idle resources and their savings. */
  method OptimizationStep(st: Results, env: Env) returns (r: Outcome<Results>)
    ensures r == Step(OptimizationGroup, st, env)
  {
    if !ContainsAny(env.lowered, Words(OptimizationGroup)) {
      return Ok(st);
    }
    var st := st.(classification := OptimizationAnalysis);
    var answer := env.db.idle;
    if answer.Raised? {
      return Raised(answer.error);
    }
    var rows := answer.value;
    var found := AppendAll(st.opportunities, rows, OpportunityOf);
    st := st.(opportunities := found);
    if rows != [] {
      st := st.(dataAvailable := true);
    }
    return Ok(st);
  }

  /** The governance group: resources missing an owner or environment tag. */
  method GovernanceStep(st: Results, env: Env) returns (r: Outcome<Results>)
    ensures r == Step(GovernanceGroup, st, env)
  {
    if !ContainsAny(env.lowered, Words(GovernanceGroup)) {
      return Ok(st);
    }
    var st := st.(classification := GovernanceAnalysis);
    var answer := env.db.untagged;
    if answer.Raised? {
      return Raised(answer.error);
    }
    var rows := answer.value;
    var list := AppendAll([], rows, UntaggedOf);
    assert [] + Map(rows, UntaggedOf) == Map(rows, UntaggedOf);
    st := st.(untagged := Some(list));
    if rows != [] {
      st := st.(dataAvailable := true);
    }
    return Ok(st);
  }

  /** The security group: the usage snapshot, and data is always available. */
  method SecurityStep(st: Results, env: Env) returns (r: Outcome<Results>)
    ensures r == Step(SecurityGroup, st, env)
  {
    if !ContainsAny(env.lowered, Words(SecurityGroup)) {
      return Ok(st);
    }
    var st := st.(classification := SecurityInquiry);
    var u := env.usage;
    st := st.(securityInfo := Some(SecurityInfo(u.totalTokens, u.inputTokens, u.outputTokens, u.requests, u.totalCost, env.patternsMonitored)));
    st := st.(dataAvailable := true);
    return Ok(st);
  }

  /** The first three groups: totals and the two breakdowns. */
  method CostAndBreakdowns(st: Results, env: Env) returns (r: Outcome<Results>)
    ensures r == RunGroups(st, CostGroups, env)
  {
    ghost var rest := CostGroups;
    ghost var whole := RunGroups(st, rest, env);
    var st := st;
    r := CostStep(st, env);
    assert rest[0] == CostGroup;
    assert whole == Then(r, rest[1..], env);
    if r.Raised? {
      return;
    }
    st, rest := r.value, rest[1..];
    r := BreakdownStep(ServiceGroup, st, env);
    assert rest[0] == ServiceGroup;
    assert whole == Then(r, rest[1..], env);
    if r.Raised? {
      return;
    }
    st, rest := r.value, rest[1..];
    r := BreakdownStep(ResourceGroupGroup, st, env);
    assert rest[0] == ResourceGroupGroup && rest[1..] == [];
    assert whole == Then(r, rest[1..], env);
  }

  /** The trend and optimization groups. */
  method TrendAndOptimization(st: Results, env: Env) returns (r: Outcome<Results>)
    ensures r == RunGroups(st, TrendGroups, env)
  {
    ghost var rest := TrendGroups;
    ghost var whole := RunGroups(st, rest, env);
    r := TrendStep(st, env);
    assert rest[0] == TrendGroup;
    assert whole == Then(r, rest[1..], env);
    if r.Raised? {
      return;
    }
    var next := r.value;
    rest := rest[1..];
    r := OptimizationStep(next, env);
    assert rest[0] == OptimizationGroup && rest[1..] == [];
    assert whole == Then(r, rest[1..], env);
  }

  /** The governance and security groups. */
  method GovernanceAndSecurity(st: Results, env: Env) returns (r: Outcome<Results>)
    ensures r == RunGroups(st, ClosingGroups, env)
  {
    ghost var rest := ClosingGroups;
    ghost var whole := RunGroups(st, rest, env);
    r := GovernanceStep(st, env);
    assert rest[0] == GovernanceGroup;
    assert whole == Then(r, rest[1..], env);
    if r.Raised? {
      return;
    }
    var next := r.value;
    rest := rest[1..];
    r := SecurityStep(next, env);
    assert rest[0] == SecurityGroup && rest[1..] == [];
    assert whole == Then(r, rest[1..], env);
  }

  /** Running two lists of groups one after the other is running their
      concatenation. */
  lemma {:induction false} RunGroupsAppend(st: Results, a: seq<Group>, b: seq<Group>, env: Env)
    ensures RunGroups(st, a + b, env) == Then(RunGroups(st, a, env), b, env)
    decreases |a|
  {
    if a == [] {
      assert a + b == b;
    } else {
      assert (a + b)[0] == a[0];
      assert (a + b)[1..] == a[1..] + b;
      match Step(a[0], st, env)
      case Raised(e) =>
      case Ok(next) => RunGroupsAppend(next, a[1..], b, env);
    }
  }

  /** `_analyze_database`: the store is opened, the month is taken from the
      lower-cased question, and the groups run in order, each returning
      early with the error result when its query raises. */
  method AnalyzeDatabase(query: string, db: Outcome<Database>, usage: UsageStats, patternsMonitored: nat) returns (a: Analysis)
    ensures a == Analyze(query, db, usage, patternsMonitored)
  {
    if db.Raised? {
      return Failed(db.error);
    }
    var lowered := Lower(query);
    var month := ExtractMonth(lowered);
    var env := Env(lowered, month, db.value, usage, patternsMonitored);
    assert AllGroups == CostGroups + (TrendGroups + ClosingGroups);
    RunGroupsAppend(Initial, CostGroups, TrendGroups + ClosingGroups, env);
    var r := CostAndBreakdowns(Initial, env);
    if r.Raised? {
      return Failed(r.error);
    }
    RunGroupsAppend(r.value, TrendGroups, ClosingGroups, env);
    r := TrendAndOptimization(r.value, env);
    if r.Raised? {
      return Failed(r.error);
    }
    r := GovernanceAndSecurity(r.value, env);
    if r.Raised? {
      return Failed(r.error);
    }
    return Completed(r.value);
  }
}
