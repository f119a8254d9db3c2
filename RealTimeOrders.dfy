/**
 * The client's real-time order connection (useRealTimeOrderManagement): the
 * 0-100 connection quality score and its bands, the network-status rule,
 * the reconnect back-off, the bounded outbound queue with its retry cap and
 * the bounded message history.
 *
 * The clock, `navigator.onLine`, the outcome of each STOMP publish and the
 * success of JSON parsing are parameters.
 */
module RealTimeOrders {
  import opened Common

  datatype Network = ONLINE | OFFLINE | UNSTABLE
  datatype Quality = UNKNOWN | EXCELLENT | GOOD | POOR | CRITICAL

  const MaxReconnectAttempts: nat := 15
  const MaxQueueSize: nat := 50
  const MaxRetries: nat := 3
  const MaxHistory: nat := 50

  // ---------------------------------------------------------------- quality

  /** Points lost for the time since the last heartbeat; `None` is "never" (Infinity). */
  function HeartbeatPenalty(gap: Option<int>): (r: nat)
    ensures r in {0, 10, 20, 40}
    ensures gap.None? ==> r == 40
    ensures gap.Some? && gap.value <= 10000 ==> r == 0
  {
    if gap.None? || gap.value > 30000 then 40
    else if gap.value > 15000 then 20
    else if gap.value > 10000 then 10
    else 0
  }

  /** The score of updateConnectionQuality for a connected client. */
  function QualityScore(errors: nat, gap: Option<int>, network: Network): (r: int)
    ensures r <= 100
    ensures network == OFFLINE ==> r == 0
    ensures r == 100 <==> network != OFFLINE && errors == 0 && HeartbeatPenalty(gap) == 0 && network != UNSTABLE
  {
    var score := 100 - errors * 10 - HeartbeatPenalty(gap);
    if network == UNSTABLE then score - 30
    else if network == OFFLINE then 0
    else score
  }

  /** More errors never raise the score. */
  lemma QualityAntitoneInErrors(e1: nat, e2: nat, gap: Option<int>, network: Network)
    requires e1 <= e2
    ensures QualityScore(e2, gap, network) <= QualityScore(e1, gap, network)
  {
  }

  /** A longer silence never raises the score. */
  lemma QualityAntitoneInGap(errors: nat, g1: int, g2: Option<int>, network: Network)
    requires g2.None? || g1 <= g2.value
    ensures QualityScore(errors, g2, network) <= QualityScore(errors, Some(g1), network)
  {
  }

  /** The quality bands. */
  function Band(score: int): (q: Quality)
    ensures q != UNKNOWN
    ensures q == EXCELLENT <==> score >= 80
    ensures q == CRITICAL <==> score < 30
  {
    if score >= 80 then EXCELLENT
    else if score >= 60 then GOOD
    else if score >= 30 then POOR
    else CRITICAL
  }

  function Rank(q: Quality): nat
  {
    match q
    case CRITICAL => 0
    case POOR => 1
    case GOOD => 2
    case EXCELLENT => 3
    case UNKNOWN => 0
  }

  /** A higher score never gives a worse band. */
  lemma BandMonotone(s1: int, s2: int)
    requires s1 <= s2
    ensures Rank(Band(s1)) <= Rank(Band(s2))
  {
  }

  /** connectionStability: the score clamped to [0, 100]. */
  function Clamp(score: int): (r: int)
    ensures 0 <= r <= 100
    ensures 0 <= score <= 100 ==> r == score
  {
    Max(0, Min(100, score))
  }

  /** Clamping loses nothing the bands can see: quality is a function of stability. */
  lemma BandOfClamp(score: int)
    requires score <= 100
    ensures Band(Clamp(score)) == Band(score)
  {
  }

  /**
   * updateNetworkStatus: offline in the browser wins; otherwise two or more
   * errors or a stability below 70 mean UNSTABLE (the code's first branch,
   * five errors or stability below 30, is a special case of the second).
   */
  function NetworkAfter(online: bool, errors: nat, stability: int): (r: Network)
    ensures r == OFFLINE <==> !online
    ensures r == UNSTABLE <==> online && (errors >= 2 || stability < 70)
    ensures online && errors < 2 && stability >= 70 ==> r == ONLINE
  {
    if !online then OFFLINE
    else if errors >= 5 || stability < 30 then UNSTABLE
    else if errors >= 2 || stability < 70 then UNSTABLE
    else ONLINE
  }

  /**
   * The stability updateNetworkStatus leaves: 0 offline; after the first
   * minute `100 - errorRate * 20` floored at 0, where `agePenalty` is
   * `errorRate * 20` (None while the connection is younger than a minute).
   */
  function StabilityAfter(online: bool, stability: int, agePenalty: Option<nat>): (r: int)
    ensures !online ==> r == 0
    ensures 0 <= stability <= 100 ==> 0 <= r <= 100
    ensures online && agePenalty.None? ==> r == stability
  {
    if !online then 0
    else if agePenalty.Some? then Max(0, 100 - agePenalty.value)
    else stability
  }

  // ---------------------------------------------------------------- back-off

  /** The STOMP client's reconnectDelay: base by network and stability, doubled per attempt, capped. */
  function ReconnectDelay(network: Network, stability: int, attempts: nat): (r: nat)
    ensures 1000 <= r <= (if network == UNSTABLE then 60000 else 30000)
  {
    var base := if network == UNSTABLE then 2000 else if stability < 50 then 1500 else 1000;
    var cap := if network == UNSTABLE then 60000 else 30000;
    Min(base * Pow2(attempts), cap)
  }

  /** The delay never shrinks as attempts accumulate. */
  lemma ReconnectDelayMonotone(network: Network, stability: int, a1: nat, a2: nat)
    requires a1 <= a2
    ensures ReconnectDelay(network, stability, a1) <= ReconnectDelay(network, stability, a2)
  {
    Pow2Monotone(a1, a2);
  }

  /** The cap is reached after a bounded number of attempts and then held. */
  lemma {:induction false} ReconnectDelayReachesCap(network: Network, stability: int, attempts: nat)
    requires attempts >= 5
    ensures ReconnectDelay(network, stability, attempts) == (if network == UNSTABLE then 60000 else 30000)
  {
    assert Pow2(5) == 32 by {
      assert Pow2(0) == 1;
      assert Pow2(1) == 2;
      assert Pow2(2) == 4;
      assert Pow2(3) == 8;
      assert Pow2(4) == 16;
    }
    Pow2Monotone(5, attempts);
  }

  /** scheduleIntelligentReconnection: 1000 doubled per attempt, same caps. */
  function ScheduledDelay(network: Network, attempts: nat): (r: nat)
    ensures 1000 <= r
  {
    Min(1000 * Pow2(attempts), if network == UNSTABLE then 60000 else 30000)
  }

  /** The scheduler's own delay never exceeds the client's reconnectDelay. */
  lemma ScheduledDelayAtMostReconnectDelay(network: Network, stability: int, attempts: nat)
    ensures ScheduledDelay(network, attempts) <= ReconnectDelay(network, stability, attempts)
  {
  }

  // ---------------------------------------------------------------- queue

  datatype QueuedMessage = QueuedMessage(message: string, destination: string, timestamp: int, retryCount: nat)

  /** queueMessage on the queue: drop the oldest entry when full, then append. */
  function Enqueue(q: seq<QueuedMessage>, m: QueuedMessage): (r: seq<QueuedMessage>)
    ensures |q| <= MaxQueueSize ==> |r| <= MaxQueueSize
    ensures |r| > 0 && r[|r| - 1] == m
    ensures |q| < MaxQueueSize ==> r[..|r| - 1] == q
    ensures |q| >= MaxQueueSize ==> r[..|r| - 1] == q[1..]
  {
    (if |q| >= MaxQueueSize then q[1..] else q) + [m]
  }

  predicate RetriesBounded(q: seq<QueuedMessage>)
  {
    forall i :: 0 <= i < |q| ==> q[i].retryCount <= MaxRetries
  }

  function Retried(m: QueuedMessage): QueuedMessage { m.(retryCount := m.retryCount + 1) }

  /** The entry queueMessage makes for a message sent again at `now`. */
  function Fresh(m: QueuedMessage, now: int): QueuedMessage { m.(timestamp := now, retryCount := 0) }

  /**
   * processQueuedMessages while disconnected: each resend goes through
   * sendMessage, which queues a fresh entry and reports success, so no
   * entry is retried.
   */
  function RequeueAll(q: seq<QueuedMessage>, now: int): (r: seq<QueuedMessage>)
    ensures |r| == Min(|q|, MaxQueueSize)
    ensures forall j :: 0 <= j < |r| ==> r[j].retryCount == 0 && r[j].timestamp == now
    decreases |q|
  {
    if q == [] then []
    else
      var acc := RequeueAll(q[..|q| - 1], now);
      var r := Enqueue(acc, Fresh(q[|q| - 1], now));
      assert forall j :: 0 <= j < |r| - 1 ==> r[j] in acc by {
        if |acc| >= MaxQueueSize {
          assert r[..|r| - 1] == acc[1..];
          assert forall j :: 0 <= j < |r| - 1 ==> r[j] == acc[j + 1];
        } else {
          assert r[..|r| - 1] == acc;
          assert forall j :: 0 <= j < |r| - 1 ==> r[j] == acc[j];
        }
      }
      r
  }

  /** A queue within its bound comes back whole and in order, every entry fresh. */
  lemma {:induction false} RequeueKeepsOrder(q: seq<QueuedMessage>, now: int)
    requires |q| <= MaxQueueSize
    ensures |RequeueAll(q, now)| == |q|
    ensures forall i :: 0 <= i < |q| ==> RequeueAll(q, now)[i] == Fresh(q[i], now)
    decreases |q|
  {
    if q != [] {
      var n := |q| - 1;
      RequeueKeepsOrder(q[..n], now);
      var acc := RequeueAll(q[..n], now);
      assert RequeueAll(q, now) == acc + [Fresh(q[n], now)];
    }
  }

  /**
   * The flush processQueuedMessages evidently intends: resend in order and
   * re-queue a failed message once, with its retry count raised, while that
   * count is below three.
   */
  function FlushIntended(q: seq<QueuedMessage>, delivered: seq<bool>): (r: seq<QueuedMessage>)
    requires |delivered| == |q|
    ensures |r| <= |q|
    ensures RetriesBounded(q) ==> RetriesBounded(r)
    ensures forall j :: 0 <= j < |r| ==> r[j].retryCount >= 1
    decreases |q|
  {
    if q == [] then []
    else
      var n := |q| - 1;
      FlushIntended(q[..n], delivered[..n]) + (if !delivered[n] && q[n].retryCount < MaxRetries then [Retried(q[n])] else [])
  }

  /** `m` is the retried form of an entry of `q` whose send failed with retries left. */
  predicate RetriedFailure(q: seq<QueuedMessage>, delivered: seq<bool>, m: QueuedMessage)
    requires |delivered| == |q|
  {
    exists i :: 0 <= i < |q| && !delivered[i] && q[i].retryCount < MaxRetries && m == Retried(q[i])
  }

  /** Every entry a flush keeps is an earlier entry that failed, retried once more. */
  lemma {:induction false} FlushIntendedKeepsFailures(q: seq<QueuedMessage>, delivered: seq<bool>)
    requires |delivered| == |q|
    ensures forall m :: m in FlushIntended(q, delivered) ==> RetriedFailure(q, delivered, m)
    decreases |q|
  {
    if q != [] {
      var n := |q| - 1;
      FlushIntendedKeepsFailures(q[..n], delivered[..n]);
      var r0 := FlushIntended(q[..n], delivered[..n]);
      forall m | m in FlushIntended(q, delivered)
        ensures RetriedFailure(q, delivered, m)
      {
        if m in r0 {
          assert RetriedFailure(q[..n], delivered[..n], m);
          var i :| 0 <= i < n && !delivered[..n][i] && q[..n][i].retryCount < MaxRetries && m == Retried(q[..n][i]);
          assert q[i] == q[..n][i] && delivered[i] == delivered[..n][i];
        } else {
          assert m == Retried(q[n]) && !delivered[n] && q[n].retryCount < MaxRetries;
        }
      }
    }
  }

  /** A flush in which every send succeeds empties the queue. */
  lemma {:induction false} FlushAllDelivered(q: seq<QueuedMessage>, delivered: seq<bool>)
    requires |delivered| == |q|
    requires forall i :: 0 <= i < |q| ==> delivered[i]
    ensures FlushIntended(q, delivered) == []
    decreases |q|
  {
    if q != [] {
      FlushAllDelivered(q[..|q| - 1], delivered[..|q| - 1]);
    }
  }

  /** A message is given up once it has failed with three retries behind it. */
  lemma FlushDropsExhausted(q: seq<QueuedMessage>, delivered: seq<bool>)
    requires |delivered| == |q|
    requires forall i :: 0 <= i < |q| ==> q[i].retryCount >= MaxRetries
    ensures FlushIntended(q, delivered) == []
  {
    FlushIntendedKeepsFailures(q, delivered);
  }

  /**
   * processQueuedMessages as written, while connected with queuing on: a
   * failed resend goes through sendMessage, which queues a fresh copy with
   * retry count 0, and the loop then also pushes the old entry with its count
   * raised, past the size check.
   */
  function FlushAsWritten(q: seq<QueuedMessage>, delivered: seq<bool>, now: int): (r: seq<QueuedMessage>)
    requires |delivered| == |q|
    ensures |q| == 0 ==> r == []
    decreases |q|
  {
    if q == [] then []
    else
      var n := |q| - 1;
      var acc := FlushAsWritten(q[..n], delivered[..n], now);
      if delivered[n] then acc
      else
        Enqueue(acc, Fresh(q[n], now))
        + (if q[n].retryCount < MaxRetries then [Retried(q[n])] else [])
  }

  /** As written, a single failed resend leaves two copies of the message queued. */
  lemma AsWrittenDuplicatesFailure(m: QueuedMessage, now: int)
    requires m.retryCount == 0
    ensures FlushAsWritten([m], [false], now) == [Fresh(m, now), Retried(m)]
    ensures FlushIntended([m], [false]) == [Retried(m)]
  {
    assert [m][..0] == [];
    assert [false][..0] == [];
  }

  /** As written, a message that has used up its retries is queued again with a count of 0. */
  lemma AsWrittenNeverGivesUp(m: QueuedMessage, now: int)
    requires m.retryCount == MaxRetries
    ensures FlushAsWritten([m], [false], now) == [Fresh(m, now)]
    ensures FlushIntended([m], [false]) == []
  {
    assert [m][..0] == [];
    assert [false][..0] == [];
  }

  predicate AllFailFresh(q: seq<QueuedMessage>, delivered: seq<bool>)
  {
    |delivered| == |q| && forall i :: 0 <= i < |q| ==> !delivered[i] && q[i].retryCount < MaxRetries
  }

  lemma {:induction false} AsWrittenDoubles(q: seq<QueuedMessage>, delivered: seq<bool>, now: int)
    requires AllFailFresh(q, delivered) && |q| <= 25
    ensures |FlushAsWritten(q, delivered, now)| == 2 * |q|
    decreases |q|
  {
    if q != [] {
      var n := |q| - 1;
      assert AllFailFresh(q[..n], delivered[..n]);
      AsWrittenDoubles(q[..n], delivered[..n], now);
    }
  }

  /** As written, 26 queued messages that all fail leave 51 entries, past the cap of 50. */
  lemma AsWrittenOverflowsCap(q: seq<QueuedMessage>, delivered: seq<bool>, now: int)
    requires AllFailFresh(q, delivered) && |q| == 26
    ensures |FlushAsWritten(q, delivered, now)| == MaxQueueSize + 1
  {
    assert AllFailFresh(q[..25], delivered[..25]);
    AsWrittenDoubles(q[..25], delivered[..25], now);
  }

  // ---------------------------------------------------------------- history

  datatype HistoryEntry =
    | Received(payload: string, at: int)
    | ErrorRecord(kind: string, detail: string, quality: Quality, at: int)

  /** processIncomingMessage on the history: newest first, at most 50 entries. */
  function PushHistory(h: seq<HistoryEntry>, e: HistoryEntry): (r: seq<HistoryEntry>)
    ensures 0 < |r| <= MaxHistory && r[0] == e
    ensures |r| == Min(MaxHistory, |h| + 1)
    ensures r[1..] == h[..|r| - 1]
  {
    var all := [e] + h;
    if |all| > MaxHistory then all[..MaxHistory] else all
  }

  // ---------------------------------------------------------------- state

  class OrderConnection {
    var connected: bool
    var reconnectAttempts: nat
    var recovering: bool
    var network: Network
    var stability: int
    var quality: Quality
    var errorCount: nat
    var messagesSent: nat
    /** Time of the last heartbeat; `None` before the first one. */
    var lastHeartbeat: Option<int>
    var queueEnabled: bool
    var queue: seq<QueuedMessage>
    var history: seq<HistoryEntry>
    var lastMessage: Option<string>

    predicate Valid()
      reads this
    {
      |queue| <= MaxQueueSize && RetriesBounded(queue) && 0 <= stability <= 100
    }

    constructor ()
      ensures Valid()
      ensures !connected && reconnectAttempts == 0 && !recovering
      ensures network == ONLINE && stability == 100 && quality == UNKNOWN
      ensures errorCount == 0 && messagesSent == 0 && lastHeartbeat == None
      ensures queueEnabled && queue == [] && history == [] && lastMessage == None
    {
      connected := false;
      reconnectAttempts := 0;
      recovering := false;
      network := ONLINE;
      stability := 100;
      quality := UNKNOWN;
      errorCount := 0;
      messagesSent := 0;
      lastHeartbeat := None;
      queueEnabled := true;
      queue := [];
      history := [];
      lastMessage := None;
    }

    /** shouldReconnect */
    function ShouldReconnect(): (r: bool)
      reads this
      ensures r ==> !Healthy()
      ensures network == OFFLINE || reconnectAttempts >= MaxReconnectAttempts ==> !r
    {
      !connected && reconnectAttempts < MaxReconnectAttempts && !recovering && network != OFFLINE
    }

    /** connectionHealthy */
    function Healthy(): (r: bool)
      reads this
      ensures !connected || network == OFFLINE ==> !r
      ensures quality == CRITICAL || errorCount >= 5 ==> !r
    {
      connected && quality != CRITICAL && errorCount < 5 && network != OFFLINE
    }

    /** Time since the last heartbeat at `now`. */
    function HeartbeatGap(now: int): Option<int>
      reads this
    {
      if lastHeartbeat.Some? then Some(now - lastHeartbeat.value) else None
    }

    /** updateNetworkStatus */
    method UpdateNetworkStatus(online: bool, agePenalty: Option<nat>)
      modifies this`network, this`stability
      ensures network == NetworkAfter(online, errorCount, old(stability))
      ensures stability == StabilityAfter(online, old(stability), agePenalty)
    {
      if !online {
        network := OFFLINE;
        stability := 0;
        return;
      }
      if errorCount >= 5 || stability < 30 {
        network := UNSTABLE;
      } else if errorCount >= 2 || stability < 70 {
        network := UNSTABLE;
      } else {
        network := ONLINE;
      }
      if agePenalty.Some? {
        stability := Max(0, 100 - agePenalty.value);
      }
    }

    /**
     * updateConnectionQuality: CRITICAL and 0 when disconnected; otherwise
     * score, clamp to a stability, band to a quality, then re-derive the
     * network status.
     */
    method UpdateConnectionQuality(now: int, online: bool, agePenalty: Option<nat>)
      modifies this`quality, this`stability, this`network
      ensures !connected ==> quality == CRITICAL && stability == 0 && network == old(network)
      ensures connected ==>
        var score := QualityScore(errorCount, HeartbeatGap(now), old(network));
        quality == Band(score)
        && network == NetworkAfter(online, errorCount, Clamp(score))
        && stability == StabilityAfter(online, Clamp(score), agePenalty)
      ensures 0 <= stability <= 100
    {
      if !connected {
        quality := CRITICAL;
        stability := 0;
        return;
      }
      var score := QualityScore(errorCount, HeartbeatGap(now), network);
      stability := Clamp(score);
      quality := Band(score);
      UpdateNetworkStatus(online, agePenalty);
    }

    /** recordError: prepend an error entry (no truncation), then re-rate the connection. */
    method RecordError(kind: string, detail: string, now: int, online: bool, agePenalty: Option<nat>)
      modifies this`history, this`quality, this`stability, this`network
      ensures history == [ErrorRecord(kind, detail, old(quality), now)] + old(history)
      ensures !connected ==> quality == CRITICAL && stability == 0 && network == old(network)
      ensures connected ==>
        var score := QualityScore(errorCount, HeartbeatGap(now), old(network));
        quality == Band(score)
        && network == NetworkAfter(online, errorCount, Clamp(score))
        && stability == StabilityAfter(online, Clamp(score), agePenalty)
      ensures 0 <= stability <= 100
    {
      history := [ErrorRecord(kind, detail, quality, now)] + history;
      UpdateConnectionQuality(now, online, agePenalty);
    }

    /** processIncomingMessage; a payload that does not parse changes nothing. */
    method ProcessIncomingMessage(payload: string, parses: bool, now: int)
      modifies this`history, this`lastMessage
      ensures !parses ==> history == old(history) && lastMessage == old(lastMessage)
      ensures parses ==> lastMessage == Some(payload) && history == PushHistory(old(history), Received(payload, now))
      ensures parses ==> |history| <= MaxHistory && history[0] == Received(payload, now)
    {
      if !parses {
        return;
      }
      lastMessage := Some(payload);
      var all := [Received(payload, now)] + history;
      if |all| > MaxHistory {
        all := all[..MaxHistory];
      }
      history := all;
    }

    /** queueMessage */
    method QueueMessage(message: string, destination: string, now: int)
      modifies this`queue
      ensures queue == Enqueue(old(queue), QueuedMessage(message, destination, now, 0))
      ensures old(Valid()) ==> Valid()
    {
      if |queue| >= MaxQueueSize {
        queue := queue[1..];
      }
      queue := queue + [QueuedMessage(message, destination, now, 0)];
    }

    /**
     * The connected half of sendMessage, without its re-queueing: publish;
     * on success count it and re-rate, on failure count an error and record it.
     */
    method Transmit(message: string, destination: string, delivered: bool, now: int, online: bool, agePenalty: Option<nat>)
      returns (success: bool)
      requires connected
      modifies this`messagesSent, this`errorCount, this`history, this`quality, this`stability, this`network
      ensures success == delivered
      ensures success ==> messagesSent == old(messagesSent) + 1 && errorCount == old(errorCount) && history == old(history)
      ensures !success ==> messagesSent == old(messagesSent) && errorCount == old(errorCount) + 1
      ensures !success ==>
        history == [ErrorRecord("MESSAGE_SEND_FAILED", "Failed to send message to " + destination, old(quality), now)] + old(history)
      ensures var score := QualityScore(errorCount, HeartbeatGap(now), old(network));
        quality == Band(score)
        && network == NetworkAfter(online, errorCount, Clamp(score))
        && stability == StabilityAfter(online, Clamp(score), agePenalty)
      ensures 0 <= stability <= 100
    {
      success := delivered;
      if success {
        messagesSent := messagesSent + 1;
        UpdateConnectionQuality(now, online, agePenalty);
      } else {
        errorCount := errorCount + 1;
        RecordError("MESSAGE_SEND_FAILED", "Failed to send message to " + destination, now, online, agePenalty);
      }
    }

    /**
     * sendMessage: while disconnected the message is queued (and reported as
     * sent) when queuing is on; while connected a failed publish is also queued.
     */
    method SendMessage(message: string, destination: string, delivered: bool, now: int, online: bool, agePenalty: Option<nat>)
      returns (success: bool)
      modifies this`messagesSent, this`errorCount, this`history, this`quality, this`stability, this`network, this`queue
      ensures !connected ==> success == queueEnabled && messagesSent == old(messagesSent) && errorCount == old(errorCount)
      ensures connected ==> success == delivered
      ensures success && connected ==> messagesSent == old(messagesSent) + 1 && queue == old(queue)
      ensures !success && connected ==> messagesSent == old(messagesSent) && errorCount == old(errorCount) + 1
      ensures connected ==>
        var score := QualityScore(errorCount, HeartbeatGap(now), old(network));
        quality == Band(score)
        && network == NetworkAfter(online, errorCount, Clamp(score))
        && stability == StabilityAfter(online, Clamp(score), agePenalty)
      ensures !(success && connected) ==>
        queue == if queueEnabled then Enqueue(old(queue), QueuedMessage(message, destination, now, 0)) else old(queue)
      ensures old(Valid()) ==> Valid()
    {
      if !connected {
        if queueEnabled {
          QueueMessage(message, destination, now);
          return true;
        }
        return false;
      }
      success := Transmit(message, destination, delivered, now, online, agePenalty);
      if !success && queueEnabled {
        QueueMessage(message, destination, now);
      }
    }

    /**
     * processQueuedMessages, in the intended form: take the whole queue and
     * resend it in order; a failed message is re-queued once with its retry
     * count raised while that count is below three. While disconnected every
     * message is queued again as a fresh entry; with queuing off or with
     * nothing queued it does nothing.
     */
    method ProcessQueuedMessages(delivered: seq<bool>, now: int, online: bool, agePenalty: Option<nat>)
      requires |delivered| == |queue|
      modifies this`messagesSent, this`errorCount, this`history, this`quality, this`stability, this`network, this`queue
      ensures !queueEnabled ==> queue == old(queue)
      ensures !connected && queueEnabled ==> queue == RequeueAll(old(queue), now)
      ensures connected && queueEnabled ==> queue == FlushIntended(old(queue), delivered)
      ensures |queue| <= |old(queue)|
      ensures old(Valid()) ==> Valid()
    {
      if !queueEnabled || |queue| == 0 {
        return;
      }
      var pending := queue;
      queue := [];
      if !connected {
        RequeuePending(pending, now, online, agePenalty);
      } else {
        ResendPending(pending, delivered, now, online, agePenalty);
      }
    }

    /** The disconnected half of processQueuedMessages: every message goes back through sendMessage. */
    method RequeuePending(pending: seq<QueuedMessage>, now: int, online: bool, agePenalty: Option<nat>)
      requires !connected && queueEnabled && queue == []
      modifies this`messagesSent, this`errorCount, this`history, this`quality, this`stability, this`network, this`queue
      ensures queue == RequeueAll(pending, now)
      ensures 0 <= old(stability) <= 100 ==> Valid()
    {
      ghost var wasValid := 0 <= stability <= 100;
      var i := 0;
      while i < |pending|
        invariant 0 <= i <= |pending|
        invariant !connected && queueEnabled
        invariant queue == RequeueAll(pending[..i], now)
        invariant wasValid ==> Valid()
      {
        assert pending[..i + 1][..i] == pending[..i];
        var m := pending[i];
        var sent := SendMessage(m.message, m.destination, true, now, online, agePenalty);
        i := i + 1;
      }
      assert pending[..i] == pending;
    }

    /** The connected half of processQueuedMessages: resend in order, keeping the failures that may retry. */
    method ResendPending(pending: seq<QueuedMessage>, delivered: seq<bool>, now: int, online: bool, agePenalty: Option<nat>)
      requires connected && queue == [] && |delivered| == |pending|
      modifies this`messagesSent, this`errorCount, this`history, this`quality, this`stability, this`network, this`queue
      ensures queue == FlushIntended(pending, delivered)
      ensures 0 <= old(stability) <= 100 && |pending| <= MaxQueueSize && RetriesBounded(pending) ==> Valid()
    {
      var i := 0;
      while i < |pending|
        invariant 0 <= i <= |pending| == |delivered|
        invariant connected
        invariant queue == FlushIntended(pending[..i], delivered[..i])
        invariant 0 <= stability <= 100 || stability == old(stability)
      {
        assert pending[..i + 1][..i] == pending[..i];
        assert delivered[..i + 1][..i] == delivered[..i];
        var m := pending[i];
        var ok := Transmit(m.message, m.destination, delivered[i], now, online, agePenalty);
        if !ok && m.retryCount < MaxRetries {
          queue := queue + [Retried(m)];
        }
        i := i + 1;
      }
      assert pending[..i] == pending;
      assert delivered[..i] == delivered;
    }
  }
}
