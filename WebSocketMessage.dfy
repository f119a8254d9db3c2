/**
 * The message envelope sent through Redis Pub/Sub and forwarded to STOMP
 * clients (websocket/dto/WebSocketMessage.java): its identity fields, the
 * builder that fills them in, the cache-invalidation metadata and the
 * routing and expiry tests.
 *
 * The clock, the random UUID and the process-wide sequence counter are
 * parameters: the current instant, a fresh id and a `SequenceGenerator`
 * object. The payload and the free-form metadata map are not modelled.
 */
module WebSocketMessages {
  import opened Common

  /** An instant, as milliseconds since the epoch. */
  datatype Instant = Instant(epochMillis: int)

  /** A value held in the cache-invalidation map. */
  datatype Value = Text(s: string) | Flag(b: bool) | At(t: Instant)

  datatype DeliveryConfirmation = DeliveryConfirmation(
    enabled: bool, timeoutMillis: int, ackDestination: Option<string>, requireClientAck: bool, maxWaitMillis: int)

  /** The field defaults of `DeliveryConfirmation`: off, 30 s timeout, 1 min wait. */
  const DefaultDeliveryConfirmation := DeliveryConfirmation(false, 30000, None, false, 60000)

  /** The retry settings; the backoff multiplier (a double) is not modelled. */
  datatype RetryConfiguration = RetryConfiguration(
    maxRetries: int, initialDelayMillis: int, maxDelayMillis: int, ttlMillis: int, useExponentialBackoff: bool)

  /** The field defaults of `RetryConfiguration`: 3 retries, 1 s first delay, 30 s cap, 5 min time-to-live. */
  const DefaultRetryConfiguration := RetryConfiguration(3, 1000, 30000, 300000, true)

  /** The static `AtomicLong` that numbers messages; `incrementAndGet` wraps like a Java long. */
  class SequenceGenerator {
    var current: int

    constructor()
      ensures current == 0
    {
      current := 0;
    }

    method IncrementAndGet() returns (n: int)
      modifies this
      ensures current == Wrap64(old(current) + 1)
      ensures n == current
    {
      current := Wrap64(current + 1);
      n := current;
    }
  }

  class Message {
    var messageId: Option<string>
    var sequenceNumber: Option<int>
    var destination: Option<string>
    var messageType: Option<string>
    var sourceService: Option<string>
    var targetUser: Option<string>
    var timestamp: Option<Instant>
    var priority: Option<string>
    var cacheInvalidation: Option<map<string, Value>>
    var deliveryConfirmation: Option<DeliveryConfirmation>
    var retryConfiguration: Option<RetryConfiguration>
    var orderingGroup: Option<string>

    /** The no-argument constructor: every field null. */
    constructor Empty()
      ensures messageId.None? && sequenceNumber.None? && destination.None? && messageType.None?
      ensures sourceService.None? && targetUser.None? && timestamp.None? && priority.None?
      ensures cacheInvalidation.None? && deliveryConfirmation.None? && retryConfiguration.None? && orderingGroup.None?
    {
      messageId, sequenceNumber, destination, messageType := None, None, None, None;
      sourceService, targetUser, timestamp, priority := None, None, None, None;
      cacheInvalidation, deliveryConfirmation, retryConfiguration, orderingGroup := None, None, None, None;
    }

    /**
     * The convenience constructors (destination and payload, optionally a
     * type, optionally a target user): stamped with the time, a fresh id
     * and the next sequence number.
     */
    constructor Stamped(destination: Option<string>, messageType: Option<string>, targetUser: Option<string>,
                        now: Instant, freshId: string, gen: SequenceGenerator)
      modifies gen
      ensures this.destination == destination && this.messageType == messageType && this.targetUser == targetUser
      ensures timestamp == Some(now) && messageId == Some(freshId)
      ensures gen.current == Wrap64(old(gen.current) + 1) && sequenceNumber == Some(gen.current)
      ensures sourceService.None? && priority.None? && cacheInvalidation.None?
      ensures deliveryConfirmation.None? && retryConfiguration.None? && orderingGroup.None?
    {
      this.destination := destination;
      this.messageType := messageType;
      this.targetUser := targetUser;
      sourceService, priority, cacheInvalidation := None, None, None;
      deliveryConfirmation, retryConfiguration, orderingGroup := None, None, None;
      timestamp := Some(now);
      messageId := Some(freshId);
      new;
      var n := gen.IncrementAndGet();
      sequenceNumber := Some(n);
    }

    /** `withCacheInvalidation`: the metadata map is replaced. */
    method WithCacheInvalidation(cacheMetadata: Option<map<string, Value>>) returns (r: Message)
      modifies this`cacheInvalidation
      ensures r == this && cacheInvalidation == cacheMetadata
    {
      cacheInvalidation := cacheMetadata;
      r := this;
    }

    /**
     * `withCacheInvalidationScope`: creates the map if there is none and
     * sets scope, version, requiresRefresh = true and the timestamp; every
     * other entry is kept.
     */
    method WithCacheInvalidationScope(scope: string, version: string, now: Instant) returns (r: Message)
      modifies this`cacheInvalidation
      ensures r == this && cacheInvalidation.Some?
      ensures {"scope", "version", "requiresRefresh", "timestamp"} <= cacheInvalidation.value.Keys
      ensures cacheInvalidation.value["scope"] == Text(scope) && cacheInvalidation.value["version"] == Text(version)
      ensures cacheInvalidation.value["requiresRefresh"] == Flag(true) && cacheInvalidation.value["timestamp"] == At(now)
      ensures old(cacheInvalidation).Some? ==>
        forall k :: k in old(cacheInvalidation).value && k !in {"scope", "version", "requiresRefresh", "timestamp"} ==>
          k in cacheInvalidation.value && cacheInvalidation.value[k] == old(cacheInvalidation).value[k]
      ensures old(cacheInvalidation).None? ==> cacheInvalidation.value.Keys == {"scope", "version", "requiresRefresh", "timestamp"}
      ensures HasCacheInvalidation()
    {
      var m := if cacheInvalidation.Some? then cacheInvalidation.value else map[];
      m := m["scope" := Text(scope)];
      m := m["version" := Text(version)];
      m := m["requiresRefresh" := Flag(true)];
      m := m["timestamp" := At(now)];
      cacheInvalidation := Some(m);
      r := this;
    }

    /** `hasCacheInvalidation`: a map is present and holds at least one entry. */
    predicate HasCacheInvalidation()
      reads this
      ensures HasCacheInvalidation() <==> cacheInvalidation.Some? && exists k :: k in cacheInvalidation.value
    {
      cacheInvalidation.Some? && |cacheInvalidation.value| > 0
    }

    /** `isUserSpecific`: a target user that is not all spaces and control characters. */
    function IsUserSpecific(): (r: bool)
      reads this
      ensures r <==> targetUser.Some? && exists i :: 0 <= i < |targetUser.value| && targetUser.value[i] > ' '
    {
      JavaTrimEmptyIff(JavaString(targetUser));
      targetUser.Some? && JavaTrim(targetUser.value) != []
    }

    /** `isHighPriority`: the priority is "HIGH" in any letter case; none is not high. */
    function IsHighPriority(): (r: bool)
      reads this
      ensures r <==> priority.Some? && |priority.value| == 4
                     && LowerChar(priority.value[0]) == 'h' && LowerChar(priority.value[1]) == 'i'
                     && LowerChar(priority.value[2]) == 'g' && LowerChar(priority.value[3]) == 'h'
    {
      priority.Some? && EqualsIgnoreCase("HIGH", priority.value)
    }

    /** `getFormattedDestination`: a user-specific message names its user; otherwise the destination as is. */
    function FormattedDestination(): (r: Option<string>)
      reads this
      ensures !IsUserSpecific() ==> r == destination
      ensures IsUserSpecific() ==> r.Some? && Contains(r.value, targetUser.value)
      ensures IsUserSpecific() ==> StartsWith(r.value, JavaString(destination) + " (user: ")
      ensures IsUserSpecific() ==> |r.value| >= 1 && r.value[|r.value| - 1] == ')'
      ensures IsUserSpecific() ==> |r.value| == |JavaString(destination)| + 8 + |targetUser.value| + 1
    {
      if IsUserSpecific() then
        var prefix := JavaString(destination) + " (user: ";
        var s := prefix + targetUser.value + ")";
        assert OccursAt(s, targetUser.value, |prefix|) by {
          assert s[|prefix|..|prefix| + |targetUser.value|] == targetUser.value;
        }
        assert s[..|prefix|] == prefix;
        assert |s| == |prefix| + |targetUser.value| + 1 && s[|s| - 1] == ')';
        Some(s)
      else destination
    }

    /** `requiresDeliveryConfirmation` */
    predicate RequiresDeliveryConfirmation()
      reads this
      ensures RequiresDeliveryConfirmation() ==> deliveryConfirmation.Some?
      ensures deliveryConfirmation.Some? ==> (RequiresDeliveryConfirmation() <==> deliveryConfirmation.value.enabled)
    {
      deliveryConfirmation.Some? && deliveryConfirmation.value.enabled
    }

    /** `supportsRetry`: a retry configuration allowing at least one retry. */
    predicate SupportsRetry()
      reads this
      ensures SupportsRetry() ==> retryConfiguration.Some?
      ensures retryConfiguration.Some? ==> (SupportsRetry() <==> retryConfiguration.value.maxRetries >= 1)
    {
      retryConfiguration.Some? && retryConfiguration.value.maxRetries > 0
    }

    /** `getMessageAge`: the long difference from the timestamp; no timestamp makes the source throw (None). */
    function MessageAge(now: Instant): (r: Option<int>)
      reads this
      ensures r.Some? <==> timestamp.Some?
      ensures r.Some? ==> LongMin <= r.value <= LongMax
      ensures r.Some? && LongMin <= now.epochMillis - timestamp.value.epochMillis <= LongMax ==>
        r.value == now.epochMillis - timestamp.value.epochMillis
    {
      if timestamp.None? then None else Some(Wrap64(now.epochMillis - timestamp.value.epochMillis))
    }

    /**
     * `isExpired`: never without a retry configuration or with a
     * non-positive time-to-live; otherwise the age must exceed the
     * time-to-live, and a missing timestamp throws (None).
     */
    function IsExpired(now: Instant): (r: Option<bool>)
      reads this
      ensures retryConfiguration.None? || retryConfiguration.value.ttlMillis <= 0 ==> r == Some(false)
      ensures r.None? <==> retryConfiguration.Some? && retryConfiguration.value.ttlMillis > 0 && timestamp.None?
      ensures r == Some(true) <==>
        retryConfiguration.Some? && retryConfiguration.value.ttlMillis > 0 && MessageAge(now).Some?
        && MessageAge(now).value > retryConfiguration.value.ttlMillis
    {
      if retryConfiguration.None? || retryConfiguration.value.ttlMillis <= 0 then Some(false)
      else
        var age := MessageAge(now);
        if age.None? then None else Some(age.value > retryConfiguration.value.ttlMillis)
    }
  }

  /** Expiry is permanent while the clock moves forward and the age stays within a long. */
  lemma ExpiredStaysExpired(m: Message, now: Instant, later: Instant)
    requires m.IsExpired(now) == Some(true)
    requires m.timestamp.Some? && now.epochMillis <= later.epochMillis
    requires LongMin <= now.epochMillis - m.timestamp.value.epochMillis
    requires later.epochMillis - m.timestamp.value.epochMillis <= LongMax
    ensures m.IsExpired(later) == Some(true)
  {
    var ts := m.timestamp.value.epochMillis;
    assert m.MessageAge(now).value == now.epochMillis - ts;
    assert m.MessageAge(later).value == later.epochMillis - ts;
  }

  /** A message on which the builder's `build` has run: time, id and sequence number are all present. */
  predicate IsStamped(m: Message)
    reads m
  {
    m.timestamp.Some? && m.messageId.Some? && m.sequenceNumber.Some?
  }

  /** `WebSocketMessage.builder()`: the setters assign the fields of `message` directly. */
  class Builder {
    var message: Message

    constructor()
      ensures fresh(message)
      ensures message.messageId.None? && message.sequenceNumber.None? && message.timestamp.None?
    {
      message := new Message.Empty();
    }

    /**
     * `build`: the timestamp, id and sequence number are filled only where
     * they are still null (the counter advances only then); every other
     * field is left as set.
     */
    method Build(now: Instant, freshId: string, gen: SequenceGenerator) returns (m: Message)
      modifies message`timestamp, message`messageId, message`sequenceNumber, gen
      ensures m == message && IsStamped(m)
      ensures m.timestamp == if old(message.timestamp).None? then Some(now) else old(message.timestamp)
      ensures m.messageId == if old(message.messageId).None? then Some(freshId) else old(message.messageId)
      ensures old(message.sequenceNumber).None? ==>
        gen.current == Wrap64(old(gen.current) + 1) && m.sequenceNumber == Some(gen.current)
      ensures old(message.sequenceNumber).Some? ==>
        gen.current == old(gen.current) && m.sequenceNumber == old(message.sequenceNumber)
    {
      m := message;
      if m.timestamp.None? {
        m.timestamp := Some(now);
      }
      if m.messageId.None? {
        m.messageId := Some(freshId);
      }
      if m.sequenceNumber.None? {
        var n := gen.IncrementAndGet();
        m.sequenceNumber := Some(n);
      }
    }
  }
}
