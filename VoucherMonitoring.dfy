/**
 * The customer-side voucher monitor (useVoucherMonitoring.js): which
 * messages of the connection history concern vouchers, the message type
 * read from the type field or the topic, the five capped newest-first
 * lists it keeps, the notification history, and the answer to a better
 * voucher suggestion.
 *
 * A voucher message keeps the fields the monitor reads; the rest of it is
 * opaque. Toasts and integration callbacks are not modelled; the clock is a
 * parameter.
 */
module VoucherMonitoring {
  import opened Common

  const MaxExpired := 50
  const MaxNew := 20
  const MaxAlternatives := 10
  const MaxSuggestions := 5
  const MaxNotifications := 50

  datatype VoucherMessage = VoucherMessage(
    messageType: Option<string>,
    topic: Option<string>,
    voucherType: Option<string>,
    voucherCode: Option<string>,
    maPhieuGiamGia: Option<string>,
    timestamp: Option<int>,
    currentVoucherCode: Option<string>,
    betterVoucher: Option<string>)

  predicate Truthy(s: Option<string>) { s.Some? && s.value != "" }

  /** The history filter: a voucher type, a voucher topic, or voucher data. */
  predicate IsVoucherMessage(m: VoucherMessage)
  {
    (m.messageType.Some? && (Contains(m.messageType.value, "VOUCHER") || Contains(m.messageType.value, "PHIEU_GIAM_GIA")))
    || (m.topic.Some? && (Contains(m.topic.value, "/topic/phieu-giam-gia/") || Contains(m.topic.value, "/topic/voucher/")))
    || m.voucherType == Some("PHIEU_GIAM_GIA") || Truthy(m.voucherCode) || Truthy(m.maPhieuGiamGia)
  }

  const TopicSuffixes: seq<string> := ["/expired", "/new", "/updated", "/alternatives", "/better-suggestion"]
  const TopicTypes: seq<string> := ["PHIEU_GIAM_GIA_EXPIRED", "PHIEU_GIAM_GIA_NEW", "PHIEU_GIAM_GIA_UPDATED",
                                    "PHIEU_GIAM_GIA_ALTERNATIVES", "PHIEU_GIAM_GIA_BETTER_SUGGESTION"]

  function FirstTypeFrom(topic: string, k: nat): (r: Option<string>)
    requires k <= |TopicSuffixes|
    ensures r.None? <==> forall j :: k <= j < |TopicSuffixes| ==> !Contains(topic, TopicSuffixes[j])
    ensures r.Some? ==>
      exists j :: (k <= j < |TopicSuffixes| && Contains(topic, TopicSuffixes[j]) && r.value == TopicTypes[j]
                   && forall i :: k <= i < j ==> !Contains(topic, TopicSuffixes[i]))
    decreases |TopicSuffixes| - k
  {
    if k == |TopicSuffixes| then None
    else if Contains(topic, TopicSuffixes[k]) then Some(TopicTypes[k])
    else FirstTypeFrom(topic, k + 1)
  }

  /**
   * extractTypeFromTopic: no topic gives null; otherwise the type of the
   * first of /expired, /new, /updated, /alternatives, /better-suggestion
   * the topic contains, else null.
   */
  function ExtractTypeFromTopic(topic: Option<string>): (r: Option<string>)
    ensures !Truthy(topic) ==> r.None?
    ensures Truthy(topic) ==> r == FirstTypeFrom(topic.value, 0)
  {
    if !Truthy(topic) then None else FirstTypeFrom(topic.value, 0)
  }

  /** The suffix test is a substring test: an expiry topic that also says "/new" is still an expiry. */
  lemma ExpiredCheckedFirst(topic: string)
    requires Contains(topic, "/expired")
    ensures ExtractTypeFromTopic(Some(topic)) == Some("PHIEU_GIAM_GIA_EXPIRED")
  {
    assert TopicSuffixes[0] == "/expired";
  }

  datatype Kind = Expired | New | Updated | Alternatives | BetterSuggestion | Unknown

  /** `message.type || extractTypeFromTopic(message.topic)` */
  function MessageType(m: VoucherMessage): Option<string>
  {
    if Truthy(m.messageType) then m.messageType else ExtractTypeFromTopic(m.topic)
  }

  /** The switch of `processVoucherMessage`, legacy VOUCHER_* names included. */
  function KindOf(messageType: Option<string>): (k: Kind)
    ensures messageType.None? ==> k == Unknown
  {
    if messageType.None? then Unknown
    else
      var t := messageType.value;
      if t == "PHIEU_GIAM_GIA_EXPIRED" || t == "VOUCHER_EXPIRED" then Expired
      else if t == "PHIEU_GIAM_GIA_NEW" || t == "VOUCHER_NEW" then New
      else if t == "PHIEU_GIAM_GIA_UPDATED" || t == "VOUCHER_UPDATED" then Updated
      else if t == "PHIEU_GIAM_GIA_ALTERNATIVES" || t == "VOUCHER_ALTERNATIVES" then Alternatives
      else if t == "PHIEU_GIAM_GIA_BETTER_SUGGESTION" || t == "VOUCHER_BETTER_SUGGESTION" then BetterSuggestion
      else Unknown
  }

  /** A type field that is set hides the topic: an unknown type on an expiry topic is ignored. */
  lemma TypeFieldHidesTopic(m: VoucherMessage)
    requires m.messageType == Some("PRICE_CHANGED") && m.topic == Some("/topic/phieu-giam-gia/expired")
    ensures KindOf(MessageType(m)) == Unknown
  {
  }

  /** A record kept in one of the lists. */
  datatype VoucherRecord = VoucherRecord(kind: Kind, message: VoucherMessage, at: int)

  /** An entry of the notification history, with its type tag. */
  datatype Notification = Notification(tag: string, data: VoucherRecord, at: int)

  /** Everything the monitor keeps, as a value. */
  datatype Lists = Lists(
    expired: seq<VoucherRecord>,
    newVouchers: seq<VoucherRecord>,
    alternatives: seq<VoucherRecord>,
    suggestions: seq<VoucherRecord>,
    notifications: seq<Notification>,
    currentSuggestion: Option<VoucherRecord>,
    dialogVisible: bool)

  predicate Bounded(l: Lists)
  {
    |l.expired| <= MaxExpired && |l.newVouchers| <= MaxNew && |l.alternatives| <= MaxAlternatives
    && |l.suggestions| <= MaxSuggestions && |l.notifications| <= MaxNotifications
  }

  /** `new Date(message.timestamp || Date.now())` */
  function RecordTime(m: VoucherMessage, now: int): int
  {
    if m.timestamp.Some? && m.timestamp.value != 0 then m.timestamp.value else now
  }

  function Notify(l: Lists, show: bool, tag: string, rec: VoucherRecord, now: int): seq<Notification>
  {
    if show then PrependCapped(Notification(tag, rec, now), l.notifications, MaxNotifications) else l.notifications
  }

  /**
   * processVoucherMessage: an expiry, a new voucher, an alternative or a
   * better suggestion goes in front of its own list (capped at 50, 20, 10
   * and 5) and, when notifications are shown, in front of the notification
   * history (capped at 50); a better suggestion shown also opens the
   * dialog. An update or an unknown type changes nothing kept.
   */
  function Process(l: Lists, show: bool, m: VoucherMessage, now: int): (r: Lists)
    ensures Bounded(l) ==> Bounded(r)
    ensures KindOf(MessageType(m)) in {Updated, Unknown} ==> r == l
    ensures !show ==> r.notifications == l.notifications && r.dialogVisible == l.dialogVisible
  {
    var rec := VoucherRecord(KindOf(MessageType(m)), m, RecordTime(m, now));
    match KindOf(MessageType(m))
    case Expired =>
      l.(expired := PrependCapped(rec, l.expired, MaxExpired), notifications := Notify(l, show, "EXPIRED", rec, now))
    case New =>
      l.(newVouchers := PrependCapped(rec, l.newVouchers, MaxNew), notifications := Notify(l, show, "NEW", rec, now))
    case Alternatives =>
      l.(alternatives := PrependCapped(rec, l.alternatives, MaxAlternatives),
         notifications := Notify(l, show, "ALTERNATIVES", rec, now))
    case BetterSuggestion =>
      l.(suggestions := PrependCapped(rec, l.suggestions, MaxSuggestions),
         notifications := Notify(l, show, "BETTER_SUGGESTION", rec, now),
         currentSuggestion := if show then Some(rec) else l.currentSuggestion,
         dialogVisible := show || l.dialogVisible)
    case Updated => l
    case Unknown => l
  }

  /** The voucher messages of a history, in history order. */
  function VoucherMessages(history: seq<VoucherMessage>): (r: seq<VoucherMessage>)
    ensures |r| <= |history|
    ensures forall m :: m in r <==> m in history && IsVoucherMessage(m)
  {
    if history == [] then []
    else
      var rest := VoucherMessages(history[1..]);
      assert history == [history[0]] + history[1..];
      if IsVoucherMessage(history[0]) then [history[0]] + rest else rest
  }

  /** Processing messages one after the other. */
  function ProcessAll(l: Lists, show: bool, ms: seq<VoucherMessage>, now: int): (r: Lists)
    ensures Bounded(l) ==> Bounded(r)
    decreases |ms|
  {
    if ms == [] then l else ProcessAll(Process(l, show, ms[0], now), show, ms[1..], now)
  }

  /** Processing two batches in turn is processing their concatenation. */
  lemma {:induction false} ProcessAllAppend(l: Lists, show: bool, a: seq<VoucherMessage>, b: seq<VoucherMessage>, now: int)
    ensures ProcessAll(ProcessAll(l, show, a, now), show, b, now) == ProcessAll(l, show, a + b, now)
    decreases |a|
  {
    if a == [] {
      assert a + b == b;
    } else {
      ProcessAllAppend(Process(l, show, a[0], now), show, a[1..], b, now);
      ConsAppend(a, b);
    }
  }

  /** Processing the suffix from `i` is processing message `i`, then the suffix after it. */
  lemma ProcessAllStep(l: Lists, show: bool, ms: seq<VoucherMessage>, i: nat, now: int)
    requires i < |ms|
    ensures ProcessAll(l, show, ms[i..], now) == ProcessAll(Process(l, show, ms[i], now), show, ms[i + 1..], now)
  {
    assert ms[i..][0] == ms[i] && ms[i..][1..] == ms[i + 1..];
  }

  /**
   * The history watcher as written: every change of the connection history
   * processes all voucher messages the history holds, old ones included.
   */
  function OnHistoryChangeAsWritten(l: Lists, show: bool, newHistory: seq<VoucherMessage>, now: int): Lists
  {
    ProcessAll(l, show, VoucherMessages(newHistory), now)
  }

  /**
   * A second message arriving after an expiry notice makes the watcher
   * record the same expiry twice.
   */
  lemma AsWrittenRecordsExpiryTwice(expiry: VoucherMessage, other: VoucherMessage, now: int)
    requires expiry.messageType == Some("PHIEU_GIAM_GIA_EXPIRED")
    requires other.messageType == Some("PHIEU_GIAM_GIA_UPDATED")
    ensures var empty := Lists([], [], [], [], [], None, false);
      var once := OnHistoryChangeAsWritten(empty, false, [expiry], now);
      var twice := OnHistoryChangeAsWritten(once, false, [other, expiry], now);
      |once.expired| == 1 && |twice.expired| == 2 && twice.expired[0].message == twice.expired[1].message == expiry
  {
    var empty := Lists([], [], [], [], [], None, false);
    StartsWithContains(expiry.messageType.value, "PHIEU_GIAM_GIA");
    StartsWithContains(other.messageType.value, "PHIEU_GIAM_GIA");
    assert KindOf(MessageType(expiry)) == Expired;
    assert KindOf(MessageType(other)) == Updated;
    assert VoucherMessages([expiry]) == [expiry] by {
      assert IsVoucherMessage(expiry);
      assert [expiry][1..] == [];
    }
    assert VoucherMessages([other, expiry]) == [other, expiry] by {
      assert IsVoucherMessage(other);
      assert [other, expiry][1..] == [expiry];
    }
    var once := Process(empty, false, expiry, now);
    assert |once.expired| == 1 && once.expired[0].message == expiry;
    assert OnHistoryChangeAsWritten(empty, false, [expiry], now) == once by {
      assert [expiry][1..] == [];
      assert ProcessAll(once, false, [], now) == once;
      assert ProcessAll(empty, false, [expiry], now) == ProcessAll(once, false, [], now);
    }
    var twice := Process(Process(once, false, other, now), false, expiry, now);
    assert Process(once, false, other, now) == once;
    assert |twice.expired| == 2 && twice.expired[0].message == expiry && twice.expired[1] == once.expired[0];
    assert OnHistoryChangeAsWritten(once, false, [other, expiry], now) == twice by {
      assert [other, expiry][1..] == [expiry];
      assert [other, expiry][1..][1..] == [];
      assert ProcessAll(twice, false, [], now) == twice;
      assert ProcessAll(once, false, [expiry], now) == ProcessAll(twice, false, [], now);
      assert ProcessAll(once, false, [other, expiry], now) == ProcessAll(once, false, [expiry], now);
    }
  }

  /**
   * The watcher as evidently intended: only the `arrived` newest history
   * entries, which the previous call has not seen, are processed, oldest
   * first.
   */
  function OnHistoryChange(l: Lists, show: bool, newHistory: seq<VoucherMessage>, arrived: nat, now: int): Lists
    requires arrived <= |newHistory|
  {
    ProcessAll(l, show, VoucherMessages(Reverse(newHistory[..arrived])), now)
  }

  /** The voucher messages of a concatenation are those of each part. */
  lemma {:induction false} VoucherMessagesAppend(a: seq<VoucherMessage>, b: seq<VoucherMessage>)
    ensures VoucherMessages(a + b) == VoucherMessages(a) + VoucherMessages(b)
    decreases |a|
  {
    if a == [] {
      assert a + b == b;
    } else {
      VoucherMessagesAppend(a[1..], b);
      ConsAppend(a, b);
    }
  }

  /**
   * With the intended watcher each voucher message is processed exactly
   * once: two deliveries of one and then another message leave the same
   * lists as processing the two messages in arrival order.
   */
  lemma IntendedProcessesEachOnce(l: Lists, show: bool, first: VoucherMessage, second: VoucherMessage, now: int)
    ensures OnHistoryChange(OnHistoryChange(l, show, [first], 1, now), show, [second, first], 1, now)
         == ProcessAll(l, show, VoucherMessages([first, second]), now)
  {
    assert [first][..1] == [first] && Reverse([first]) == [first];
    assert [second, first][..1] == [second] && Reverse([second]) == [second];
    VoucherMessagesAppend([first], [second]);
    ProcessAllAppend(l, show, VoucherMessages([first]), VoucherMessages([second]), now);
  }

  /**
   * One delivery to the intended watcher after `earlier` has been
   * processed: the history holds every arrival so far, newest first, and
   * `recent` has just arrived. The lists become those of processing all
   * arrivals once, in arrival order.
   */
  lemma DeliveryStep(l: Lists, show: bool, earlier: seq<VoucherMessage>, recent: seq<VoucherMessage>, now: int)
    ensures |recent| <= |Reverse(earlier + recent)|
    ensures OnHistoryChange(ProcessAll(l, show, VoucherMessages(earlier), now), show, Reverse(earlier + recent), |recent|, now)
         == ProcessAll(l, show, VoucherMessages(earlier + recent), now)
  {
    NewestEntries(earlier, recent);
    VoucherMessagesAppend(earlier, recent);
    ProcessAllAppend(l, show, VoucherMessages(earlier), VoucherMessages(recent), now);
  }

  /**
   * A run of deliveries to the intended watcher: before each one the
   * history gains a batch, and the watcher is told how many entries arrived.
   */
  function DeliverAll(l: Lists, show: bool, earlier: seq<VoucherMessage>, batches: seq<seq<VoucherMessage>>, now: int): Lists
    decreases |batches|
  {
    if batches == [] then l
    else
      var all := earlier + batches[0];
      assert |batches[0]| <= |Reverse(all)|;
      DeliverAll(OnHistoryChange(l, show, Reverse(all), |batches[0]|, now), show, all, batches[1..], now)
  }

  /**
   * However many deliveries there are, the intended watcher processes every
   * voucher message exactly once, in arrival order.
   */
  lemma {:induction false} IntendedProcessesAllOnce(l: Lists, show: bool, earlier: seq<VoucherMessage>,
                                                    batches: seq<seq<VoucherMessage>>, now: int)
    ensures DeliverAll(ProcessAll(l, show, VoucherMessages(earlier), now), show, earlier, batches, now)
         == ProcessAll(l, show, VoucherMessages(earlier + Concat(batches)), now)
    decreases |batches|
  {
    if batches == [] {
      assert earlier + Concat(batches) == earlier;
    } else {
      var all := earlier + batches[0];
      DeliveryStep(l, show, earlier, batches[0], now);
      IntendedProcessesAllOnce(l, show, all, batches[1..], now);
      var rest := Concat(batches[1..]);
      assert Concat(batches) == batches[0] + rest;
      AppendAssoc(earlier, batches[0], rest);
    }
  }

  datatype SuggestionAnswer =
    | AcceptBetterVoucher(suggestion: VoucherRecord, currentVoucherCode: Option<string>, betterVoucher: Option<string>)
    | RejectBetterVoucher(suggestion: VoucherRecord)

  /**
   * processBetterVoucherSuggestion: "accept" and "reject" give their typed
   * answers; any other action gives undefined.
   */
  function ProcessBetterVoucherSuggestion(suggestion: VoucherRecord, action: string): (r: Option<SuggestionAnswer>)
    ensures r.Some? <==> action == "accept" || action == "reject"
    ensures action == "accept" ==> r == Some(AcceptBetterVoucher(suggestion, suggestion.message.currentVoucherCode,
                                                                  suggestion.message.betterVoucher))
    ensures action == "reject" ==> r == Some(RejectBetterVoucher(suggestion))
  {
    if action == "accept" then
      Some(AcceptBetterVoucher(suggestion, suggestion.message.currentVoucherCode, suggestion.message.betterVoucher))
    else if action == "reject" then Some(RejectBetterVoucher(suggestion))
    else None
  }

  const OneHour := 60 * 60 * 1000

  /** The records of `records` newer than one hour before `now`, in order. */
  function RecentRecords(records: seq<VoucherRecord>, now: int): (r: seq<VoucherRecord>)
    ensures |r| <= |records|
    ensures forall v :: v in r <==> v in records && v.at > now - OneHour
  {
    if records == [] then []
    else
      var rest := RecentRecords(records[1..], now);
      assert records == [records[0]] + records[1..];
      if records[0].at > now - OneHour then [records[0]] + rest else rest
  }

  /** hasVoucherUpdates: one of the four record lists is non-empty (the notification history does not count). */
  function HasVoucherUpdates(l: Lists): (r: bool)
    ensures r <==> |l.expired| + |l.newVouchers| + |l.alternatives| + |l.suggestions| > 0
  {
    |l.expired| > 0 || |l.newVouchers| > 0 || |l.alternatives| > 0 || |l.suggestions| > 0
  }

  /**
   * Every expiry, new voucher, alternative or suggestion leaves the monitor
   * with updates to show, and, when notifications are on, heads the
   * notification history.
   */
  lemma RecordedKindsGiveUpdates(l: Lists, show: bool, m: VoucherMessage, now: int)
    requires KindOf(MessageType(m)) in {Expired, New, Alternatives, BetterSuggestion}
    ensures HasVoucherUpdates(Process(l, show, m, now))
    ensures show ==> Process(l, show, m, now).notifications[0].data.message == m
  {
  }

  class VoucherMonitor {
    var expired: seq<VoucherRecord>
    var newVouchers: seq<VoucherRecord>
    var alternatives: seq<VoucherRecord>
    var suggestions: seq<VoucherRecord>
    var notifications: seq<Notification>
    var currentSuggestion: Option<VoucherRecord>
    var dialogVisible: bool
    var showNotifications: bool

    function State(): Lists
      reads this
    {
      Lists(expired, newVouchers, alternatives, suggestions, notifications, currentSuggestion, dialogVisible)
    }

    ghost predicate Valid()
      reads this
    {
      Bounded(State())
    }

    constructor()
      ensures Valid() && State() == Lists([], [], [], [], [], None, false) && showNotifications
    {
      expired, newVouchers, alternatives, suggestions, notifications := [], [], [], [], [];
      currentSuggestion, dialogVisible := None, false;
      showNotifications := true;
    }

    method ProcessVoucherMessage(m: VoucherMessage, now: int)
      requires Valid()
      modifies this
      ensures Valid()
      ensures State() == Process(old(State()), old(showNotifications), m, now)
      ensures showNotifications == old(showNotifications)
    {
      ghost var before := State();
      var kind := KindOf(MessageType(m));
      var rec := VoucherRecord(kind, m, RecordTime(m, now));
      match kind {
        case Expired =>
          expired := PrependCapped(rec, expired, MaxExpired);
          if showNotifications {
            notifications := PrependCapped(Notification("EXPIRED", rec, now), notifications, MaxNotifications);
          }
        case New =>
          newVouchers := PrependCapped(rec, newVouchers, MaxNew);
          if showNotifications {
            notifications := PrependCapped(Notification("NEW", rec, now), notifications, MaxNotifications);
          }
        case Alternatives =>
          alternatives := PrependCapped(rec, alternatives, MaxAlternatives);
          if showNotifications {
            notifications := PrependCapped(Notification("ALTERNATIVES", rec, now), notifications, MaxNotifications);
          }
        case BetterSuggestion =>
          suggestions := PrependCapped(rec, suggestions, MaxSuggestions);
          if showNotifications {
            notifications := PrependCapped(Notification("BETTER_SUGGESTION", rec, now), notifications, MaxNotifications);
            currentSuggestion := Some(rec);
            dialogVisible := true;
          }
        case Updated =>
        case Unknown =>
      }
      assert State() == Process(before, showNotifications, m, now);
    }

    /** The history watcher, processing only the newly arrived entries (see OnHistoryChange). */
    method OnMessageHistoryChange(newHistory: seq<VoucherMessage>, arrived: nat, now: int)
      requires Valid() && arrived <= |newHistory|
      modifies this
      ensures Valid()
      ensures State() == OnHistoryChange(old(State()), old(showNotifications), newHistory, arrived, now)
    {
      ProcessBatch(VoucherMessages(Reverse(newHistory[..arrived])), now);
    }

    /** Processes the messages of `batch` one after the other. */
    method ProcessBatch(batch: seq<VoucherMessage>, now: int)
      requires Valid()
      modifies this
      ensures Valid() && showNotifications == old(showNotifications)
      ensures State() == ProcessAll(old(State()), old(showNotifications), batch, now)
    {
      ghost var target := ProcessAll(State(), showNotifications, batch, now);
      var i := 0;
      while i < |batch|
        invariant 0 <= i <= |batch|
        invariant Valid() && showNotifications == old(showNotifications)
        invariant ProcessAll(State(), showNotifications, batch[i..], now) == target
      {
        ProcessAllStep(State(), showNotifications, batch, i, now);
        ProcessVoucherMessage(batch[i], now);
        i := i + 1;
      }
    }

    method ToggleVoucherNotifications()
      modifies this`showNotifications
      ensures showNotifications == !old(showNotifications)
    {
      showNotifications := !showNotifications;
    }

    method CloseSuggestionDialog()
      modifies this`dialogVisible, this`currentSuggestion
      ensures !dialogVisible && currentSuggestion.None?
    {
      dialogVisible := false;
      currentSuggestion := None;
    }

    /** clearVoucherHistory: the four lists and the notification history are emptied. */
    method ClearVoucherHistory()
      modifies this
      ensures Valid()
      ensures expired == [] && newVouchers == [] && alternatives == [] && suggestions == [] && notifications == []
      ensures currentSuggestion == old(currentSuggestion) && dialogVisible == old(dialogVisible)
      ensures showNotifications == old(showNotifications)
    {
      expired, newVouchers, alternatives, suggestions, notifications := [], [], [], [], [];
    }
  }
}
