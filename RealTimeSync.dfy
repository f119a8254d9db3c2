/**
 * The customer-side state synchronisation engine (useRealTimeSync.js): the
 * listener registry with its unsubscribe closures, the newest-first event
 * history, cross-tab message filtering and dispatch, the optional
 * validator and merge strategy, and the topic relevance and data-scope
 * tables.
 *
 * Callbacks are identified by numbers; the JavaScript `Set` of callbacks
 * becomes a set (its iteration order is not modelled). Event data is
 * opaque text, and clock readings are parameters.
 */
module RealTimeSync {
  import opened Common

  const MaxEventHistory := 100

  // ------------------------------------------------------------ listeners

  type Listeners = map<string, set<nat>>

  /** The registry never keeps an event type with no callbacks. */
  predicate NoEmptySets(ls: Listeners)
  {
    forall t :: t in ls ==> ls[t] != {}
  }

  /** addEventListener: create the type's set when missing, then add the callback. */
  function AddListener(ls: Listeners, eventType: string, callback: nat): (r: Listeners)
    ensures NoEmptySets(ls) ==> NoEmptySets(r)
    ensures r.Keys == ls.Keys + {eventType}
    ensures callback in r[eventType]
    ensures forall t :: t in ls && t != eventType ==> r[t] == ls[t]
  {
    ls[eventType := (if eventType in ls then ls[eventType] else {}) + {callback}]
  }

  /** The unsubscribe closure: drop the callback, and the type once its set is empty. */
  function RemoveListener(ls: Listeners, eventType: string, callback: nat): (r: Listeners)
    ensures NoEmptySets(ls) ==> NoEmptySets(r)
    ensures eventType in r ==> callback !in r[eventType]
    ensures forall t :: t in ls && t != eventType ==> t in r && r[t] == ls[t]
    ensures r.Keys <= ls.Keys
  {
    if eventType !in ls then ls
    else
      var rest := ls[eventType] - {callback};
      if rest == {} then ls - {eventType} else ls[eventType := rest]
  }

  /**
   * Unsubscribing right after subscribing a callback that was not yet
   * registered gives back the registry as it was.
   */
  lemma RemoveUndoesAdd(ls: Listeners, eventType: string, callback: nat)
    requires NoEmptySets(ls)
    requires eventType !in ls || callback !in ls[eventType]
    ensures RemoveListener(AddListener(ls, eventType, callback), eventType, callback) == ls
  {
    var added := AddListener(ls, eventType, callback);
    var r := RemoveListener(added, eventType, callback);
    if eventType in ls {
      assert added[eventType] - {callback} == ls[eventType];
      assert r == ls[eventType := ls[eventType]];
    } else {
      assert added[eventType] - {callback} == {};
      assert r.Keys == ls.Keys;
    }
  }

  // --------------------------------------------------------------- events

  datatype StateEvent = StateEvent(eventType: string, data: string, timestamp: string, tabId: string,
                                   entityName: string, storeKey: string)

  /** A message posted on the cross-tab channel. */
  datatype TabMessage = TabMessage(messageType: string, data: Option<string>, sourceTabId: string, timestamp: string)

  class SyncEngine {
    const tabId: string
    const entityName: string
    const storeKey: string
    /** Whether the broadcast channel was opened. */
    const hasChannel: bool
    var listeners: Listeners
    /** `stateChangeEvents`, newest first. */
    var events: seq<StateEvent>
    /** For each emitted event, the callbacks it was handed to. */
    var notifications: seq<(StateEvent, set<nat>)>
    /** Messages posted to other tabs. */
    var posted: seq<TabMessage>

    ghost predicate Valid()
      reads this
    {
      NoEmptySets(listeners) && |events| <= MaxEventHistory
    }

    constructor(tabId: string, entityName: string, storeKey: string, hasChannel: bool)
      ensures Valid()
      ensures this.tabId == tabId && this.entityName == entityName && this.storeKey == storeKey
      ensures this.hasChannel == hasChannel
      ensures listeners == map[] && events == [] && notifications == [] && posted == []
    {
      this.tabId := tabId;
      this.entityName := entityName;
      this.storeKey := storeKey;
      this.hasChannel := hasChannel;
      listeners := map[];
      events := [];
      notifications := [];
      posted := [];
    }

    method AddEventListener(eventType: string, callback: nat)
      requires Valid()
      modifies this`listeners
      ensures Valid()
      ensures listeners == AddListener(old(listeners), eventType, callback)
    {
      if eventType !in listeners {
        listeners := listeners[eventType := {}];
      }
      listeners := listeners[eventType := listeners[eventType] + {callback}];
    }

    /** The function `addEventListener` returns. */
    method Unsubscribe(eventType: string, callback: nat)
      requires Valid()
      modifies this`listeners
      ensures Valid()
      ensures listeners == RemoveListener(old(listeners), eventType, callback)
    {
      if eventType in listeners {
        var rest := listeners[eventType] - {callback};
        listeners := listeners[eventType := rest];
        if |rest| == 0 {
          listeners := listeners - {eventType};
        }
      }
    }

    /** broadcastToOtherTabs: posted only when the channel exists. */
    method BroadcastToOtherTabs(messageType: string, data: string, timestamp: string)
      modifies this`posted
      ensures posted == old(posted) + (if hasChannel then [TabMessage(messageType, Some(data), tabId, timestamp)] else [])
    {
      if !hasChannel {
        return;
      }
      posted := posted + [TabMessage(messageType, Some(data), tabId, timestamp)];
    }

    /**
     * emitStateChangeEvent: the event goes in front of the history (at most
     * 100 kept), is handed to the type's callbacks, and is broadcast as a
     * STATE_CHANGE message.
     */
    method EmitStateChangeEvent(eventType: string, data: string, timestamp: string, serialized: string)
      requires Valid()
      modifies this`events, this`notifications, this`posted
      ensures Valid()
      ensures var e := StateEvent(eventType, data, timestamp, tabId, entityName, storeKey);
        events == PrependCapped(e, old(events), MaxEventHistory)
        && notifications == old(notifications) + (if eventType in listeners then [(e, listeners[eventType])] else [])
        && posted == old(posted) + (if hasChannel then [TabMessage("STATE_CHANGE", Some(serialized), tabId, timestamp)] else [])
    {
      var e := StateEvent(eventType, data, timestamp, tabId, entityName, storeKey);
      events := [e] + events;
      if |events| > MaxEventHistory {
        events := events[..MaxEventHistory];
      }
      if eventType in listeners {
        notifications := notifications + [(e, listeners[eventType])];
      }
      BroadcastToOtherTabs("STATE_CHANGE", serialized, timestamp);
    }
  }

  /** The history keeps the newest 100 events: after 100 more emissions none of the old ones is left. */
  lemma {:induction false} HistoryForgetsOldEvents(h: seq<StateEvent>, emitted: seq<StateEvent>, e: StateEvent)
    requires |emitted| >= MaxEventHistory
    ensures e !in Fold(h, emitted) || e in emitted
    decreases |emitted|
  {
    var n := |emitted|;
    var prev := Fold(h, emitted[..n - 1]);
    assert Fold(h, emitted) == PrependCapped(emitted[n - 1], prev, MaxEventHistory);
    if n - 1 >= MaxEventHistory {
      HistoryForgetsOldEvents(h, emitted[..n - 1], e);
      if e in Fold(h, emitted) && e != emitted[n - 1] {
        var k :| 0 <= k < |Fold(h, emitted)| && Fold(h, emitted)[k] == e;
        assert prev[k - 1] == e;
        assert e in emitted[..n - 1];
      }
    } else {
      FoldPrefix(h, emitted[..n - 1]);
      if e in Fold(h, emitted) && e != emitted[n - 1] {
        var k :| 0 <= k < |Fold(h, emitted)| && Fold(h, emitted)[k] == e;
        assert prev[k - 1] == e;
        assert k - 1 < n - 1;
        assert e in emitted[..n - 1];
      }
    }
  }

  /** The history after emitting `emitted` in order, oldest first. */
  function Fold(h: seq<StateEvent>, emitted: seq<StateEvent>): (r: seq<StateEvent>)
    ensures |r| <= Max(|h|, MaxEventHistory)
    decreases |emitted|
  {
    if emitted == [] then h
    else PrependCapped(emitted[|emitted| - 1], Fold(h, emitted[..|emitted| - 1]), MaxEventHistory)
  }

  /** While fewer than 100 events have been emitted, the newest come first, in reverse emission order. */
  lemma {:induction false} FoldPrefix(h: seq<StateEvent>, emitted: seq<StateEvent>)
    requires |emitted| <= MaxEventHistory
    ensures |Fold(h, emitted)| >= |emitted|
    ensures forall i :: 0 <= i < |emitted| ==> Fold(h, emitted)[i] == emitted[|emitted| - 1 - i]
    decreases |emitted|
  {
    if emitted != [] {
      FoldPrefix(h, emitted[..|emitted| - 1]);
      FoldPrefixStep(h, emitted, emitted[..|emitted| - 1]);
    }
  }

  /** One step of FoldPrefix: the newest event goes in front of the earlier, already reversed, prefix. */
  lemma FoldPrefixStep(h: seq<StateEvent>, emitted: seq<StateEvent>, earlier: seq<StateEvent>)
    requires 0 < |emitted| <= MaxEventHistory && earlier == emitted[..|emitted| - 1]
    requires |Fold(h, earlier)| >= |earlier|
    requires forall i :: 0 <= i < |earlier| ==> Fold(h, earlier)[i] == earlier[|earlier| - 1 - i]
    ensures |Fold(h, emitted)| >= |emitted|
    ensures forall i :: 0 <= i < |emitted| ==> Fold(h, emitted)[i] == emitted[|emitted| - 1 - i]
  {
    var n := |emitted|;
    assert Fold(h, emitted) == PrependCapped(emitted[n - 1], Fold(h, earlier), MaxEventHistory);
    PrependCappedReversed(emitted[n - 1], emitted, Fold(h, earlier), earlier, MaxEventHistory);
  }

  // ------------------------------------------------------------ cross-tab

  datatype TabAction =
    | Ignore
    | RemoteStateSync(data: Option<string>, timestamp: string)
    | RemoteStateChange(data: Option<string>, timestamp: string)
    | RemoteConflictResolution(data: Option<string>, timestamp: string)
    | SyncRequest(requestingTabId: string)
    | RemoteWebSocketUpdate(data: Option<string>, timestamp: string)
    | UnknownType(messageType: string)

  /**
   * handleCrossTabMessage: a missing message or one from this tab is
   * ignored; the five known types go to their handlers; any other type is
   * reported as unknown.
   */
  function HandleCrossTabMessage(message: Option<TabMessage>, tabId: string): (a: TabAction)
    ensures message.None? ==> a == Ignore
    ensures message.Some? && message.value.sourceTabId == tabId ==> a == Ignore
    ensures a == Ignore ==> message.None? || message.value.sourceTabId == tabId
    ensures a.SyncRequest? ==> a.requestingTabId != tabId
  {
    if message.None? then Ignore
    else
      var m := message.value;
      if m.sourceTabId == tabId then Ignore
      else if m.messageType == "STATE_SYNC" then RemoteStateSync(m.data, m.timestamp)
      else if m.messageType == "STATE_CHANGE" then RemoteStateChange(m.data, m.timestamp)
      else if m.messageType == "CONFLICT_RESOLUTION" then RemoteConflictResolution(m.data, m.timestamp)
      else if m.messageType == "SYNC_REQUEST" then SyncRequest(m.sourceTabId)
      else if m.messageType == "WEBSOCKET_UPDATE" then RemoteWebSocketUpdate(m.data, m.timestamp)
      else UnknownType(m.messageType)
  }

  /** A tab never acts on what it broadcast itself. */
  lemma OwnBroadcastIgnored(e: SyncEngine, messageType: string, data: string, timestamp: string)
    ensures HandleCrossTabMessage(Some(TabMessage(messageType, Some(data), e.tabId, timestamp)), e.tabId) == Ignore
  {
  }

  // ----------------------------------------------- validation and merging

  datatype ValidationResult = ValidationResult(isValid: bool, errors: seq<string>)

  /** What the caller's `validateState` did with the state. */
  datatype ValidatorOutcome = ReturnedBoolean(b: bool) | ReturnedResult(result: ValidationResult) | Threw(message: string)

  /**
   * validateStateData: with no validator the state is valid; a boolean is
   * wrapped with no errors; a result object is passed through; a thrown
   * error makes the state invalid with one message.
   */
  function ValidateStateData(outcome: Option<ValidatorOutcome>): (r: ValidationResult)
    ensures outcome.None? ==> r.isValid && r.errors == []
    ensures outcome.Some? && outcome.value.ReturnedBoolean? ==> r == ValidationResult(outcome.value.b, [])
    ensures outcome.Some? && outcome.value.ReturnedResult? ==> r == outcome.value.result
    ensures outcome.Some? && outcome.value.Threw? ==>
      !r.isValid && r.errors == ["Validation error: " + outcome.value.message]
  {
    if outcome.None? then ValidationResult(true, [])
    else match outcome.value
      case ReturnedBoolean(b) => ValidationResult(b, [])
      case ReturnedResult(result) => result
      case Threw(message) => ValidationResult(false, ["Validation error: " + message])
  }

  /** What the caller's `mergeStrategy` did. */
  datatype MergeOutcome<S> = Merged(state: S) | MergeThrew

  /** mergeStates: last write wins unless a strategy returns a merged state. */
  function MergeStates<S>(strategy: Option<MergeOutcome<S>>, incoming: S): (r: S)
    ensures strategy.None? || strategy.value.MergeThrew? ==> r == incoming
    ensures strategy.Some? && strategy.value.Merged? ==> r == strategy.value.state
  {
    if strategy.None? then incoming
    else match strategy.value
      case Merged(s) => s
      case MergeThrew => incoming
  }

  // ------------------------------------------------------------ topics

  /** The topic words each entity listens to (`relevantTopics`). */
  function EntityTopics(entityName: string): seq<string>
  {
    if entityName == "hoaDon" then ["hoa-don", "order"]
    else if entityName == "sanPham" then ["gia-san-pham", "san-pham", "product"]
    else if entityName == "phieuGiamGia" then ["phieu-giam-gia", "voucher"]
    else if entityName == "dotGiamGia" then ["dot-giam-gia", "campaign"]
    else if entityName == "tonKho" then ["ton-kho", "inventory"]
    else if entityName == "gia" then ["gia-san-pham", "price"]
    else []
  }

  predicate Truthy(s: Option<string>) { s.Some? && s.value != "" }

  /**
   * isRelevantTopic: no topic is never relevant; a given type is a plain
   * substring test; otherwise some word of the entity must occur.
   */
  function IsRelevantTopic(topic: Option<string>, specificType: Option<string>, entityName: string): (r: bool)
    ensures !Truthy(topic) ==> !r
    ensures Truthy(topic) && Truthy(specificType) ==> (r <==> Contains(topic.value, specificType.value))
    ensures Truthy(topic) && !Truthy(specificType) ==>
      (r <==> exists w :: w in EntityTopics(entityName) && Contains(topic.value, w))
  {
    if !Truthy(topic) then false
    else if Truthy(specificType) then Contains(topic.value, specificType.value)
    else AnyOccurs(topic.value, EntityTopics(entityName))
  }

  function AnyOccurs(s: string, words: seq<string>): (r: bool)
    ensures r <==> exists w :: w in words && Contains(s, w)
  {
    if words == [] then false
    else Contains(s, words[0]) || AnyOccurs(s, words[1..])
  }

  /** An entity not in the table finds no topic relevant. */
  lemma UnknownEntityNeverRelevant(topic: Option<string>)
    ensures !IsRelevantTopic(topic, None, "khachHang")
  {
  }

  const ScopeKeys: seq<string> := ["gia-san-pham", "san-pham", "phieu-giam-gia", "dot-giam-gia", "hoa-don", "ton-kho"]
  const ScopeValues: seq<string> := ["PRICING_DATA", "PRODUCT_DATA", "VOUCHER_DATA", "VOUCHER_DATA", "ORDER_DATA", "INVENTORY_DATA"]

  /** The scope of the first key, from `k` on, that the topic contains. */
  function FirstScopeFrom(topic: string, k: nat): (r: string)
    requires k <= |ScopeKeys|
    ensures r == "GENERAL_DATA" <==> forall j :: k <= j < |ScopeKeys| ==> !Contains(topic, ScopeKeys[j])
    ensures r != "GENERAL_DATA" ==>
      exists j :: (k <= j < |ScopeKeys| && Contains(topic, ScopeKeys[j]) && r == ScopeValues[j]
                   && forall i :: k <= i < j ==> !Contains(topic, ScopeKeys[i]))
    decreases |ScopeKeys| - k
  {
    if k == |ScopeKeys| then "GENERAL_DATA"
    else if Contains(topic, ScopeKeys[k]) then ScopeValues[k]
    else FirstScopeFrom(topic, k + 1)
  }

  /**
   * getDataScopeFromTopic: null for no topic, else the scope of the first
   * key in table order that the topic contains, else GENERAL_DATA.
   */
  function GetDataScopeFromTopic(topic: Option<string>): (r: Option<string>)
    ensures r.None? <==> !Truthy(topic)
    ensures Truthy(topic) ==> r == Some(FirstScopeFrom(topic.value, 0))
  {
    if !Truthy(topic) then None else Some(FirstScopeFrom(topic.value, 0))
  }

  /** A price topic is PRICING_DATA although it also contains "san-pham". */
  lemma PriceTopicIsPricing(topic: string)
    requires Contains(topic, "gia-san-pham")
    ensures GetDataScopeFromTopic(Some(topic)) == Some("PRICING_DATA")
    ensures Contains(topic, "san-pham")
  {
    var i :| 0 <= i <= |topic| - |"gia-san-pham"| && OccursAt(topic, "gia-san-pham", i);
    var w := topic[i..i + |"gia-san-pham"|];
    assert |w| == 12 && w == "gia-san-pham";
    assert w[4..] == "san-pham";
    assert topic[i + 4..i + 12] == w[4..];
    assert OccursAt(topic, "san-pham", i + 4);
  }

  /** The entity each scope belongs to (`entityScopes`). */
  function EntityScope(entityName: string): Option<string>
  {
    if entityName == "hoaDon" then Some("ORDER_DATA")
    else if entityName == "sanPham" then Some("PRODUCT_DATA")
    else if entityName == "phieuGiamGia" || entityName == "dotGiamGia" then Some("VOUCHER_DATA")
    else if entityName == "tonKho" then Some("INVENTORY_DATA")
    else if entityName == "gia" then Some("PRICING_DATA")
    else None
  }

  /** shouldAutoRefresh: the entity's own scope, or the general scope. */
  function ShouldAutoRefresh(scope: string, entityName: string): (r: bool)
    ensures scope == "GENERAL_DATA" ==> r
    ensures r ==> scope == "GENERAL_DATA" || EntityScope(entityName) == Some(scope)
  {
    EntityScope(entityName) == Some(scope) || scope == "GENERAL_DATA"
  }

  /** A topic with no known key always triggers a refresh, whatever the entity. */
  lemma UnmatchedTopicRefreshes(topic: string, entityName: string)
    requires topic != ""
    requires forall j :: 0 <= j < |ScopeKeys| ==> !Contains(topic, ScopeKeys[j])
    ensures ShouldAutoRefresh(GetDataScopeFromTopic(Some(topic)).value, entityName)
  {
  }
}
