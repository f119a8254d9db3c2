/**
 * The throttling information attached to rate-limited WebSocket messages
 * (websocket/dto/ThrottleInfo.java): one factory per throttling strategy.
 *
 * Every field is a boxed Java value and may be null (`None`).
 */
module ThrottleInfoDto {
  import opened Common

  datatype ThrottleInfo = ThrottleInfo(
    throttleKey: Option<string>,
    throttleIntervalMs: Option<int>,
    throttledCount: Option<int>,
    wasDelayed: Option<bool>,
    nextAllowedSendTime: Option<string>,
    throttleStrategy: Option<string>,
    priority: Option<string>,
    metadata: Option<JavaObject>)

  const RateLimit := "RATE_LIMIT"
  const Debounce := "DEBOUNCE"
  const BatchCollect := "BATCH_COLLECT"
  const PriorityQueue := "PRIORITY_QUEUE"

  /** The fields no factory sets. */
  predicate Unset(t: ThrottleInfo)
  {
    t.nextAllowedSendTime.None? && t.metadata.None?
  }

  /** `forRateLimit`: the message counts as delayed exactly when earlier ones were throttled. */
  function ForRateLimit(throttleKey: Option<string>, intervalMs: int, throttledCount: JavaInt): (t: ThrottleInfo)
    ensures t.throttleStrategy == Some(RateLimit)
    ensures t.wasDelayed.Some? && (t.wasDelayed.value <==> throttledCount > 0)
    ensures t.throttleKey == throttleKey && t.throttleIntervalMs == Some(intervalMs) && t.throttledCount == Some(throttledCount as int)
    ensures t.priority.None? && Unset(t)
  {
    ThrottleInfo(throttleKey, Some(intervalMs), Some(throttledCount as int), Some(throttledCount > 0), None, Some(RateLimit), None, None)
  }

  /** `forDebounce`: the delay flag is the caller's; no count is recorded. */
  function ForDebounce(throttleKey: Option<string>, intervalMs: int, wasDelayed: bool): (t: ThrottleInfo)
    ensures t.throttleStrategy == Some(Debounce) && t.wasDelayed == Some(wasDelayed)
    ensures t.throttleKey == throttleKey && t.throttleIntervalMs == Some(intervalMs)
    ensures t.throttledCount.None? && t.priority.None? && Unset(t)
  {
    ThrottleInfo(throttleKey, Some(intervalMs), None, Some(wasDelayed), None, Some(Debounce), None, None)
  }

  /** `forBatchCollect`: a collected message is always delayed; the count is the number collected. */
  function ForBatchCollect(throttleKey: Option<string>, intervalMs: int, collectedCount: JavaInt): (t: ThrottleInfo)
    ensures t.throttleStrategy == Some(BatchCollect) && t.wasDelayed == Some(true)
    ensures t.throttleKey == throttleKey && t.throttleIntervalMs == Some(intervalMs) && t.throttledCount == Some(collectedCount as int)
    ensures t.priority.None? && Unset(t)
  {
    ThrottleInfo(throttleKey, Some(intervalMs), Some(collectedCount as int), Some(true), None, Some(BatchCollect), None, None)
  }

  /** `forPriorityQueue`: the priority is recorded and no interval or count is set. */
  function ForPriorityQueue(throttleKey: Option<string>, priority: Option<string>, wasDelayed: bool): (t: ThrottleInfo)
    ensures t.throttleStrategy == Some(PriorityQueue) && t.priority == priority && t.wasDelayed == Some(wasDelayed)
    ensures t.throttleKey == throttleKey && t.throttleIntervalMs.None? && t.throttledCount.None? && Unset(t)
  {
    ThrottleInfo(throttleKey, None, None, Some(wasDelayed), None, Some(PriorityQueue), priority, None)
  }

  /**
   * The strategy name tells the factories apart: results of two different
   * factories never agree, whatever their arguments.
   */
  lemma StrategiesDistinct(key: Option<string>, interval: int, count: JavaInt, delayed: bool, priority: Option<string>)
    ensures ForRateLimit(key, interval, count) != ForDebounce(key, interval, delayed)
    ensures ForRateLimit(key, interval, count) != ForBatchCollect(key, interval, count)
    ensures ForRateLimit(key, interval, count) != ForPriorityQueue(key, priority, delayed)
    ensures ForDebounce(key, interval, delayed) != ForBatchCollect(key, interval, count)
    ensures ForDebounce(key, interval, delayed) != ForPriorityQueue(key, priority, delayed)
    ensures ForBatchCollect(key, interval, count) != ForPriorityQueue(key, priority, delayed)
  {
  }

  /** Rate limiting and batch collection agree on delay exactly when something was throttled. */
  lemma RateLimitAgreesWithBatchCollect(key: Option<string>, interval: int, count: JavaInt)
    ensures ForRateLimit(key, interval, count).wasDelayed == ForBatchCollect(key, interval, count).wasDelayed <==> count > 0
  {
  }
}
