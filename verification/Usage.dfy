/** Usage counters, their deltas, and what a budget has left (harness/session/helpers.go, usage_limits.go). */
module Usages {
  import opened Messages

  /** Counters are unbounded integers: overflow is not modelled. */
  datatype Counters = Counters(
    promptTokens: int, completionTokens: int, totalTokens: int,
    cacheReadTokens: int, cacheCreationTokens: int, reasoningTokens: int,
    requests: int, toolCalls: int)

  datatype RequestUsage = RequestUsage(
    promptTokens: int, completionTokens: int, totalTokens: int,
    cacheReadTokens: int, cacheCreationTokens: int, reasoningTokens: int)

  datatype Usage = Usage(counters: Counters, perRequest: seq<RequestUsage>)

  const ZeroCounters := Counters(0, 0, 0, 0, 0, 0, 0, 0)
  const ZeroUsage := Usage(ZeroCounters, [])

  function Plus(a: Counters, b: Counters): Counters {
    Counters(
      a.promptTokens + b.promptTokens, a.completionTokens + b.completionTokens, a.totalTokens + b.totalTokens,
      a.cacheReadTokens + b.cacheReadTokens, a.cacheCreationTokens + b.cacheCreationTokens,
      a.reasoningTokens + b.reasoningTokens, a.requests + b.requests, a.toolCalls + b.toolCalls)
  }

  function Minus(a: Counters, b: Counters): Counters {
    Counters(
      a.promptTokens - b.promptTokens, a.completionTokens - b.completionTokens, a.totalTokens - b.totalTokens,
      a.cacheReadTokens - b.cacheReadTokens, a.cacheCreationTokens - b.cacheCreationTokens,
      a.reasoningTokens - b.reasoningTokens, a.requests - b.requests, a.toolCalls - b.toolCalls)
  }

  predicate AtMost(a: Counters, b: Counters) {
    && a.promptTokens <= b.promptTokens && a.completionTokens <= b.completionTokens && a.totalTokens <= b.totalTokens
    && a.cacheReadTokens <= b.cacheReadTokens && a.cacheCreationTokens <= b.cacheCreationTokens
    && a.reasoningTokens <= b.reasoningTokens && a.requests <= b.requests && a.toolCalls <= b.toolCalls
  }

  /** None is the error "driver usage counters moved backwards". */
  function UsageDelta(current: Usage, previous: Usage): Option<Usage> {
    if !AtMost(previous.counters, current.counters) || |current.perRequest| < |previous.perRequest| then None
    else Some(Usage(Minus(current.counters, previous.counters), current.perRequest[|previous.perRequest|..]))
  }

  function AddUsage(total: Usage, delta: Usage): Usage {
    Usage(Plus(total.counters, delta.counters), total.perRequest + delta.perRequest)
  }

  predicate UsageEmpty(usage: Usage) {
    usage == ZeroUsage
  }

  /** The driver's own accumulation of one response (internal/core/request.go). */
  function AddResponse(total: Usage, one: Counters): Usage {
    Usage(
      Counters(
        total.counters.promptTokens + one.promptTokens,
        total.counters.completionTokens + one.completionTokens,
        total.counters.totalTokens + one.totalTokens,
        total.counters.cacheReadTokens + one.cacheReadTokens,
        total.counters.cacheCreationTokens + one.cacheCreationTokens,
        total.counters.reasoningTokens + one.reasoningTokens,
        total.counters.requests + 1,
        total.counters.toolCalls),
      total.perRequest + [RequestUsage(one.promptTokens, one.completionTokens, one.totalTokens,
                                       one.cacheReadTokens, one.cacheCreationTokens, one.reasoningTokens)])
  }

  datatype Limits = Limits(
    maxRequestTokens: Option<int>, maxResponseTokens: Option<int>, maxTotalTokens: Option<int>,
    maxRequests: Option<int>, maxToolCalls: Option<int>)

  predicate AtLimit(limit: Option<int>, used: int) {
    limit.Some? && used >= limit.value
  }

  predicate PastLimit(limit: Option<int>, used: int) {
    limit.Some? && used > limit.value
  }

  /** One budget dimension: None is exhaustion. A tool-call budget may reach zero. */
  function Remaining(limit: Option<int>, used: int, zeroAllowed: bool): Option<Option<int>> {
    match limit
    case None => Some(None)
    case Some(max) =>
      var value := max - used;
      if zeroAllowed && value == 0 then Some(Some(0))
      else if value <= 0 then None
      else Some(Some(value))
  }

  /** None is the error that some budget dimension is exhausted. */
  function RemainingLimits(budget: Limits, used: Usage): Option<Limits> {
    var c := used.counters;
    match (Remaining(budget.maxRequestTokens, c.promptTokens, false),
           Remaining(budget.maxResponseTokens, c.completionTokens, false),
           Remaining(budget.maxTotalTokens, c.totalTokens, false),
           Remaining(budget.maxRequests, c.requests, false),
           Remaining(budget.maxToolCalls, c.toolCalls, true))
    case (Some(a), Some(b), Some(t), Some(r), Some(k)) => Some(Limits(a, b, t, r, k))
    case _ => None
  }

  /** The limits a run starts with: none without a budget, None when the budget is exhausted. */
  function RunLimits(budget: Option<Limits>, used: Usage): Option<Option<Limits>> {
    match budget
    case None => Some(None)
    case Some(b) => (match RemainingLimits(b, used) case None => None case Some(l) => Some(Some(l)))
  }

  /** Some dimension of the budget is spent. Tool calls may reach their limit; the others must stay below theirs. */
  predicate OverBudget(budget: Option<Limits>, used: Usage) {
    budget.Some? &&
      var b, c := budget.value, used.counters;
      || AtLimit(b.maxRequestTokens, c.promptTokens) || AtLimit(b.maxResponseTokens, c.completionTokens)
      || AtLimit(b.maxTotalTokens, c.totalTokens) || AtLimit(b.maxRequests, c.requests) || PastLimit(b.maxToolCalls, c.toolCalls)
  }

  /** What is left of one dimension and what was used of it make up its limit; without a limit there is none left. */
  predicate Fills(limit: Option<int>, used: int, left: Option<int>) {
    (limit.None? <==> left.None?) && (limit.Some? ==> left.value + used == limit.value)
  }

  predicate FillsEach(budget: Limits, used: Counters, left: Limits) {
    && Fills(budget.maxRequestTokens, used.promptTokens, left.maxRequestTokens)
    && Fills(budget.maxResponseTokens, used.completionTokens, left.maxResponseTokens)
    && Fills(budget.maxTotalTokens, used.totalTokens, left.maxTotalTokens)
    && Fills(budget.maxRequests, used.requests, left.maxRequests)
    && Fills(budget.maxToolCalls, used.toolCalls, left.maxToolCalls)
  }

  /** Limits that, with what was used, make up the budget; none where there is no budget. */
  predicate MakesUp(budget: Option<Limits>, used: Usage, limits: Option<Limits>) {
    (budget.None? <==> limits.None?) && (budget.Some? ==> FillsEach(budget.value, used.counters, limits.value))
  }

  /** A run gets limits if and only if no dimension of the budget is spent, and then exactly those that make the budget up. */
  lemma LimitsExact(budget: Option<Limits>, used: Usage)
    ensures RunLimits(budget, used).None? <==> OverBudget(budget, used)
    ensures RunLimits(budget, used).Some? ==> MakesUp(budget, used, RunLimits(budget, used).value)
    ensures budget.Some? ==> (RemainingLimits(budget.value, used).None? <==> OverBudget(budget, used))
  {
  }

  /** Limits that make up one budget with one usage are unique. */
  lemma MadeUpOnce(budget: Option<Limits>, used: Usage, a: Option<Limits>, b: Option<Limits>)
    requires MakesUp(budget, used, a) && MakesUp(budget, used, b)
    ensures a == b
  {
  }

  /** A delta put back on the previous reading gives the current one, and is never negative. */
  lemma DeltaRestores(current: Usage, previous: Usage)
    requires UsageDelta(current, previous).Some?
    ensures Plus(previous.counters, UsageDelta(current, previous).value.counters) == current.counters
    ensures AtMost(ZeroCounters, UsageDelta(current, previous).value.counters)
    ensures previous.perRequest <= current.perRequest ==>
      AddUsage(previous, UsageDelta(current, previous).value) == current
  {
  }
}
