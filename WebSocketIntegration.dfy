/**
 * The publishing side of the real-time updates (WebSocketIntegrationService.java):
 * which Redis channel a destination goes to, the topics chosen for voucher
 * and order updates, the per-transaction queue that holds messages until the
 * database transaction commits (and drops them on rollback), and the
 * message sequence numbers.
 *
 * Redis itself is not modelled: a message "sent" is appended to `sent`.
 * Payload objects are reduced to the named string fields the model needs;
 * timestamps are left out.
 */
module WebSocketIntegration {
  import opened Common

  datatype Channel = GLOBAL | PRICE | VOUCHER | CHATBOX | DATA | SEARCH | CART | CATEGORY | CONFIG
                   | RATING | SHIPPING | SESSION | AI_CHAT

  /** The Redis channel names. */
  function ChannelName(c: Channel): string
  {
    match c
    case GLOBAL => "lapxpert:websocket:global"
    case PRICE => "lapxpert:websocket:price"
    case VOUCHER => "lapxpert:websocket:voucher"
    case CHATBOX => "lapxpert:websocket:chatbox"
    case DATA => "lapxpert:websocket:data"
    case SEARCH => "lapxpert:websocket:search"
    case CART => "lapxpert:websocket:cart"
    case CATEGORY => "lapxpert:websocket:category"
    case CONFIG => "lapxpert:websocket:config"
    case RATING => "lapxpert:websocket:rating"
    case SHIPPING => "lapxpert:websocket:shipping"
    case SESSION => "lapxpert:websocket:session"
    case AI_CHAT => "lapxpert:websocket:ai-chat"
  }

  /** The routing table: destination fragments in the order they are tried, with their channel. */
  const Rules: seq<(string, Channel)> := [
    ("/gia-san-pham/", PRICE), ("/san-pham/", PRICE),
    ("/phieu-giam-gia/", VOUCHER), ("/dot-giam-gia/", VOUCHER), ("/voucher/", VOUCHER),
    ("/chatbox/", CHATBOX), ("/tim-kiem/", SEARCH), ("/gio-hang/", CART), ("/danh-muc/", CATEGORY),
    ("/cau-hinh/", CONFIG), ("/danh-gia/", RATING), ("/phi-van-chuyen/", SHIPPING),
    ("/phien-nguoi-dung/", SESSION), ("/ai-chat/", AI_CHAT), ("/tro-ly-ai/", AI_CHAT),
    ("/list-updated", DATA), ("/san-pham-pho-bien/", DATA), ("/data/", DATA)]

  /** Every rule routes to a dedicated channel, never the global one. */
  predicate RoutesAway(rules: seq<(string, Channel)>)
  {
    forall j :: 0 <= j < |rules| ==> rules[j].1 != GLOBAL
  }

  lemma RulesRouteAway()
    ensures |Rules| == 18 && RoutesAway(Rules)
  {
  }

  /** The channel of the first rule from `k` on whose fragment occurs in the destination, else the global channel. */
  function FirstMatchFrom(rules: seq<(string, Channel)>, k: nat, destination: string): Channel
    requires k <= |rules|
    decreases |rules| - k
  {
    if k == |rules| then GLOBAL
    else if Contains(destination, rules[k].0) then rules[k].1
    else FirstMatchFrom(rules, k + 1, destination)
  }

  /** No fragment from `k` on occurs. */
  predicate NoneFrom(rules: seq<(string, Channel)>, k: nat, destination: string)
  {
    forall j :: k <= j < |rules| ==> !Contains(destination, rules[j].0)
  }

  /** Rule `j` is the first from `k` on whose fragment occurs. */
  predicate FirstHitFrom(rules: seq<(string, Channel)>, k: nat, j: nat, destination: string)
  {
    k <= j < |rules| && Contains(destination, rules[j].0) && forall i :: k <= i < j ==> !Contains(destination, rules[i].0)
  }

  lemma {:induction false} FirstMatchSpec(rules: seq<(string, Channel)>, k: nat, destination: string)
    requires k <= |rules| && RoutesAway(rules)
    ensures FirstMatchFrom(rules, k, destination) == GLOBAL <==> NoneFrom(rules, k, destination)
    ensures FirstMatchFrom(rules, k, destination) != GLOBAL ==>
      exists j: nat :: FirstHitFrom(rules, k, j, destination) && rules[j].1 == FirstMatchFrom(rules, k, destination)
    decreases |rules| - k
  {
    if k == |rules| {
    } else if Contains(destination, rules[k].0) {
      assert FirstHitFrom(rules, k, k, destination);
    } else {
      FirstMatchSpec(rules, k + 1, destination);
      var c := FirstMatchFrom(rules, k + 1, destination);
      assert NoneFrom(rules, k, destination) <==> NoneFrom(rules, k + 1, destination);
      if c != GLOBAL {
        var j: nat :| FirstHitFrom(rules, k + 1, j, destination) && rules[j].1 == c;
        assert FirstHitFrom(rules, k, j, destination);
      }
    }
  }

  /** determineChannelByDestination: the if-chain tries the table's fragments in order. */
  function DetermineChannelByDestination(destination: string): (c: Channel)
    ensures c == GLOBAL <==> NoneFrom(Rules, 0, destination)
    ensures c != GLOBAL ==> exists j: nat :: FirstHitFrom(Rules, 0, j, destination) && Rules[j].1 == c
  {
    RulesRouteAway();
    FirstMatchSpec(Rules, 0, destination);
    FirstMatchFrom(Rules, 0, destination)
  }

  /** Any destination naming "/san-pham/" goes to the price channel. */
  lemma ProductTopicsGoToPrice(destination: string)
    requires Contains(destination, "/san-pham/")
    ensures DetermineChannelByDestination(destination) == PRICE
  {
    assert Rules[0].1 == PRICE && Rules[1] == ("/san-pham/", PRICE);
    assert FirstMatchFrom(Rules, 1, destination) == PRICE;
  }

  /** The product list topic, "/topic/san-pham/list-updated". */
  const ProductListTopic := "/topic" + "/san-pham" + "/" + "list-updated"

  /** The sixteenth rule sends "/list-updated" to the data channel. */
  lemma ListUpdatedRule()
    ensures |Rules| == 18 && Rules[15] == ("/list-updated", DATA)
  {
  }

  /** So the product list topic never reaches the "/list-updated" rule of the data channel. */
  lemma ProductListGoesToPrice()
    ensures Contains(ProductListTopic, Rules[15].0) && Rules[15].1 == DATA
    ensures DetermineChannelByDestination(ProductListTopic) == PRICE
  {
    var a, b, c := "/topic", "/san-pham", "list-updated";
    ListUpdatedRule();
    ContainsInfix(a, b + "/", c);
    AppendAssoc(a, b, "/");
    ContainsInfix(a + b, "/" + c, "");
    AppendAssoc(a + b, "/", c);
    assert (a + b) + ("/" + c) + "" == (a + b) + ("/" + c);
    assert "/" + c == Rules[15].0;
    assert b + "/" == "/san-pham/";
    ProductTopicsGoToPrice(ProductListTopic);
  }

  /** sendVoucherUpdateNotification: expiry update types go to /expired, all others to /updated. */
  function VoucherUpdateRoute(updateType: Option<string>): (r: (string, string))
    ensures r.0 == "PHIEU_GIAM_GIA_EXPIRED" <==> r.1 == "/topic/phieu-giam-gia/expired"
    ensures r.0 == "PHIEU_GIAM_GIA_EXPIRED" <==>
      updateType in {Some("PHIEU_GIAM_GIA_EXPIRED_SCHEDULED"), Some("VOUCHER_EXPIRED_SCHEDULED"), Some("VOUCHER_EXPIRED")}
    ensures r.0 != "PHIEU_GIAM_GIA_EXPIRED" ==> r == ("PHIEU_GIAM_GIA_UPDATED", "/topic/phieu-giam-gia/updated")
  {
    if updateType == Some("PHIEU_GIAM_GIA_EXPIRED_SCHEDULED") || updateType == Some("VOUCHER_EXPIRED_SCHEDULED")
       || updateType == Some("VOUCHER_EXPIRED")
    then ("PHIEU_GIAM_GIA_EXPIRED", "/topic/phieu-giam-gia/expired")
    else ("PHIEU_GIAM_GIA_UPDATED", "/topic/phieu-giam-gia/updated")
  }

  /** sendOrderUpdate's second message: CREATED to /new, UPDATED to /updated, anything else to /status-changed. */
  function OrderStatusRoute(status: Option<string>): (r: (string, string))
    ensures status == Some("CREATED") <==> r.0 == "/topic/hoa-don/new"
    ensures status == Some("UPDATED") <==> r.0 == "/topic/hoa-don/updated"
    ensures status != Some("CREATED") && status != Some("UPDATED") <==> r == ("/topic/hoa-don/status-changed", "ORDER_STATUS_CHANGED")
  {
    if status == Some("CREATED") then ("/topic/hoa-don/new", "ORDER_CREATED")
    else if status == Some("UPDATED") then ("/topic/hoa-don/updated", "ORDER_UPDATED")
    else ("/topic/hoa-don/status-changed", "ORDER_STATUS_CHANGED")
  }

  /** `s.replace(a, b)` for single characters. */
  function ReplaceChar(s: string, a: char, b: char): (r: string)
    ensures |r| == |s|
    ensures forall i :: 0 <= i < |s| ==> r[i] == (if s[i] == a then b else s[i])
  {
    if s == [] then [] else [if s[0] == a then b else s[0]] + ReplaceChar(s[1..], a, b)
  }

  /** The message type of a list update: the data type upper-cased with '-' turned to '_'. */
  function ListUpdateType(dataType: string): (t: string)
    ensures EndsWith(t, "_LIST_UPDATE") && |t| == |dataType| + 12
    ensures forall i :: 0 <= i < |dataType| ==> t[i] == (if dataType[i] == '-' then '_' else UpperChar(dataType[i]))
    ensures forall i :: 0 <= i < |dataType| ==> t[i] != '-' && !('a' <= t[i] <= 'z')
    ensures t[|dataType|..] == "_LIST_UPDATE"
  {
    ReplaceChar(Upper(dataType), '-', '_') + "_LIST_UPDATE"
  }

  /** A message as handed to Redis, with the modelled payload fields. */
  datatype Published = Published(channel: Channel, destination: string, payload: map<string, string>, messageType: string)

  class IntegrationService {
    /** `websocket.integration.enabled` */
    var enabled: bool
    /** Whether a database transaction is active on this thread. */
    var inTransaction: bool
    /** The thread-local queue; None until the first message of a transaction. */
    var queue: Option<seq<Published>>
    /** Everything handed to Redis, in order. */
    var sent: seq<Published>
    var sequence: nat
    var totalMessagesSent: nat
    var queuedMessages: nat
    var transactionRollbacks: nat

    /** A queue exists only inside a transaction. */
    ghost predicate Valid()
      reads this
    {
      queue.Some? ==> inTransaction
    }

    constructor(enabled: bool)
      ensures Valid()
      ensures this.enabled == enabled && !inTransaction && queue == None && sent == []
      ensures sequence == 0 && totalMessagesSent == 0 && queuedMessages == 0 && transactionRollbacks == 0
    {
      this.enabled := enabled;
      inTransaction := false;
      queue := None;
      sent := [];
      sequence := 0;
      totalMessagesSent := 0;
      queuedMessages := 0;
      transactionRollbacks := 0;
    }

    /** The messages waiting for the current transaction to commit. */
    function Pending(): seq<Published>
      reads this
    {
      if queue.Some? then queue.value else []
    }

    /** getPendingMessageCount */
    function PendingMessageCount(): (n: nat)
      reads this
      ensures n == |Pending()|
      ensures n > 0 <==> HasPendingMessages()
    {
      if queue.Some? then |queue.value| else 0
    }

    /** hasPendingMessages */
    function HasPendingMessages(): (r: bool)
      reads this
      ensures r <==> queue.Some? && queue.value != []
    {
      queue.Some? && |queue.value| > 0
    }

    /** generateSequenceNumber: each number is one more than the last handed out. */
    method GenerateSequenceNumber() returns (n: nat)
      modifies this`sequence
      ensures n == old(sequence) + 1 && sequence == n
    {
      sequence := sequence + 1;
      n := sequence;
    }

    /** sendMessageImmediately */
    method SendImmediately(m: Published)
      modifies this`sent, this`totalMessagesSent
      ensures sent == old(sent) + [m] && totalMessagesSent == old(totalMessagesSent) + 1
    {
      sent := sent + [m];
      totalMessagesSent := totalMessagesSent + 1;
    }

    /** publishMessage: queued inside a transaction, sent at once outside. */
    method PublishMessage(m: Published)
      requires Valid()
      modifies this`sent, this`totalMessagesSent, this`queue, this`queuedMessages
      ensures Valid()
      ensures inTransaction ==> (queue == Some(old(Pending()) + [m]) && sent == old(sent)
                                 && queuedMessages == old(queuedMessages) + 1 && totalMessagesSent == old(totalMessagesSent))
      ensures !inTransaction ==> (sent == old(sent) + [m] && queue == old(queue)
                                  && totalMessagesSent == old(totalMessagesSent) + 1 && queuedMessages == old(queuedMessages))
    {
      if inTransaction {
        queue := Some(Pending() + [m]);
        queuedMessages := queuedMessages + 1;
      } else {
        SendImmediately(m);
      }
    }

    /** A database transaction starts on this thread. */
    method BeginTransaction()
      requires Valid()
      modifies this`inTransaction
      ensures Valid() && inTransaction
    {
      inTransaction := true;
    }

    /** deliverQueuedMessages: every queued message sent, in the order queued. */
    method DeliverQueuedMessages()
      modifies this`sent, this`totalMessagesSent
      ensures sent == old(sent) + Pending()
      ensures totalMessagesSent == old(totalMessagesSent) + |Pending()|
    {
      var pending := Pending();
      var i := 0;
      while i < |pending|
        invariant 0 <= i <= |pending|
        invariant sent == old(sent) + pending[..i]
        invariant totalMessagesSent == old(totalMessagesSent) + i
      {
        assert pending[..i + 1] == pending[..i] + [pending[i]];
        SendImmediately(pending[i]);
        i := i + 1;
      }
      assert pending[..i] == pending;
    }

    /** The transaction commits: afterCommit delivers the queue, afterCompletion removes it. */
    method Commit()
      requires Valid()
      modifies this`sent, this`totalMessagesSent, this`queue, this`inTransaction
      ensures Valid()
      ensures sent == old(sent) + old(Pending()) && totalMessagesSent == old(totalMessagesSent) + |old(Pending())|
      ensures queue == None && !inTransaction
    {
      DeliverQueuedMessages();
      queue := None;
      inTransaction := false;
    }

    /** The transaction rolls back: the queue is discarded unsent, and a non-empty one is counted. */
    method Rollback()
      requires Valid()
      modifies this`queue, this`inTransaction, this`transactionRollbacks
      ensures Valid()
      ensures queue == None && !inTransaction
      ensures transactionRollbacks == old(transactionRollbacks) + (if old(HasPendingMessages()) then 1 else 0)
    {
      if HasPendingMessages() {
        transactionRollbacks := transactionRollbacks + 1;
      }
      queue := None;
      inTransaction := false;
    }

    /** sendCustomMessage: routed by its destination; nothing at all when integration is off. */
    method SendCustomMessage(destination: string, payload: map<string, string>, messageType: string)
      requires Valid()
      modifies this`sent, this`totalMessagesSent, this`queue, this`queuedMessages
      ensures Valid()
      ensures !enabled ==> sent == old(sent) && queue == old(queue)
      ensures enabled && !inTransaction ==>
        sent == old(sent) + [Published(DetermineChannelByDestination(destination), destination, payload, messageType)]
      ensures enabled && inTransaction ==>
        sent == old(sent) && Pending() == old(Pending()) + [Published(DetermineChannelByDestination(destination), destination, payload, messageType)]
    {
      if !enabled {
        return;
      }
      PublishMessage(Published(DetermineChannelByDestination(destination), destination, payload, messageType));
    }

    /** The two messages sendOrderUpdate publishes, in order. */
    static function OrderMessages(orderId: string, status: Option<string>, payload: map<string, string>): seq<Published>
    {
      var update := payload["orderId" := orderId]["status" := if status.Some? then status.value else "null"];
      [Published(GLOBAL, "/topic/hoa-don/" + orderId, update, "ORDER_UPDATE"),
       Published(GLOBAL, OrderStatusRoute(status).0, update, OrderStatusRoute(status).1)]
    }

    /** sendOrderUpdate: the order's own topic, then the topic for its status; nothing when integration is off. */
    method SendOrderUpdate(orderId: string, status: Option<string>, payload: map<string, string>)
      requires Valid()
      modifies this`sent, this`totalMessagesSent, this`queue, this`queuedMessages
      ensures Valid()
      ensures !enabled ==> sent == old(sent) && queue == old(queue)
      ensures enabled && !inTransaction ==> sent == old(sent) + OrderMessages(orderId, status, payload)
      ensures enabled && inTransaction ==> sent == old(sent) && Pending() == old(Pending()) + OrderMessages(orderId, status, payload)
    {
      if !enabled {
        return;
      }
      var ms := OrderMessages(orderId, status, payload);
      PublishMessage(ms[0]);
      PublishMessage(ms[1]);
    }

    /** The two messages sendDataListUpdate publishes, carrying sequence number `n`. */
    static function DataListMessages(dataType: string, action: string, n: nat): seq<Published>
    {
      var payload := map["dataType" := dataType, "action" := action, "sequenceNumber" := IntToString(n)];
      [Published(DATA, "/topic/" + dataType + "/list-updated", payload, ListUpdateType(dataType)),
       Published(DATA, "/topic/data/list-updates", payload, "DATA_LIST_UPDATE")]
    }

    /** sendDataListUpdate: a fresh sequence number, then the type's list topic and the general one. */
    method SendDataListUpdate(dataType: string, action: string)
      requires Valid()
      modifies this`sent, this`totalMessagesSent, this`queue, this`queuedMessages, this`sequence
      ensures Valid()
      ensures !enabled ==> sent == old(sent) && queue == old(queue) && sequence == old(sequence)
      ensures enabled ==> sequence == old(sequence) + 1
      ensures enabled && !inTransaction ==> sent == old(sent) + DataListMessages(dataType, action, sequence)
      ensures enabled && inTransaction ==> sent == old(sent) && Pending() == old(Pending()) + DataListMessages(dataType, action, sequence)
    {
      if !enabled {
        return;
      }
      var n := GenerateSequenceNumber();
      var ms := DataListMessages(dataType, action, n);
      PublishMessage(ms[0]);
      PublishMessage(ms[1]);
    }
  }

  /** The custom messages sent to `destinations`, in order, as sendCustomMessage routes them. */
  function CustomMessages(destinations: seq<string>): (r: seq<Published>)
    ensures |r| == |destinations|
    ensures forall i :: 0 <= i < |destinations| ==>
      r[i] == Published(DetermineChannelByDestination(destinations[i]), destinations[i], map[], "CUSTOM")
  {
    seq(|destinations|, i requires 0 <= i < |destinations| =>
      Published(DetermineChannelByDestination(destinations[i]), destinations[i], map[], "CUSTOM"))
  }

  lemma CustomMessagesSnoc(destinations: seq<string>, i: nat)
    requires i < |destinations|
    ensures CustomMessages(destinations[..i + 1])
         == CustomMessages(destinations[..i]) + [Published(DetermineChannelByDestination(destinations[i]), destinations[i], map[], "CUSTOM")]
  {
    assert destinations[..i + 1][i] == destinations[i];
  }

  /**
   * A transaction's messages reach Redis on commit exactly as queued, and
   * never on rollback: the whole lifecycle on one fresh service.
   */
  method TransactionLifecycle(destinations: seq<string>, commit: bool) returns (svc: IntegrationService)
    ensures commit ==> svc.sent == CustomMessages(destinations)
    ensures !commit ==> svc.sent == [] && svc.transactionRollbacks == (if destinations == [] then 0 else 1)
  {
    svc := new IntegrationService(true);
    svc.BeginTransaction();
    var i := 0;
    while i < |destinations|
      invariant 0 <= i <= |destinations|
      invariant svc.Valid() && svc.enabled && svc.inTransaction && svc.sent == [] && svc.transactionRollbacks == 0
      invariant svc.Pending() == CustomMessages(destinations[..i])
      modifies svc
    {
      CustomMessagesSnoc(destinations, i);
      svc.SendCustomMessage(destinations[i], map[], "CUSTOM");
      i := i + 1;
    }
    assert destinations[..i] == destinations;
    if commit {
      svc.Commit();
    } else {
      svc.Rollback();
    }
  }
}
