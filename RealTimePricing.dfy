/**
 * The admin-side price monitor (useRealTimePricing.js): which messages of
 * the connection history are price updates, the severity of a change, the
 * newest-first update list (at most 100) and notification list (at most
 * 20), the set of affected variants, and the per-variant queries.
 *
 * Prices are whole VND; change percentages are reals. Toasts, console
 * logging, the integration callbacks and the subscription requests are not
 * modelled; the clock is a parameter.
 */
module RealTimePricing {
  import opened Common

  const MaxUpdates := 100
  const MaxNotifications := 20

  /** The fields of an incoming message the monitor reads, English and Vietnamese names alike. */
  datatype PriceMessage = PriceMessage(
    messageType: Option<string>,
    topic: Option<string>,
    id: Option<int>,
    variantId: Option<int>,
    oldPrice: Option<int>, giaCu: Option<int>,
    newPrice: Option<int>, giaMoi: Option<int>,
    changePercent: Option<real>, phanTramThayDoi: Option<real>,
    timestamp: Option<int>)

  /** The history filter: type PRICE_UPDATE or a variant price topic. */
  predicate IsPriceMessage(m: PriceMessage)
  {
    m.messageType == Some("PRICE_UPDATE") || (m.topic.Some? && Contains(m.topic.value, "/topic/gia-san-pham/"))
  }

  /** JavaScript `a || b` on optional numbers: zero and absence are falsy. */
  function OrInt(a: Option<int>, b: Option<int>): (r: Option<int>)
    ensures r == a || r == b
    ensures (a.Some? && a.value != 0) ==> r == a
  {
    if a.Some? && a.value != 0 then a else b
  }

  function OrReal(a: Option<real>, b: Option<real>): (r: Option<real>)
    ensures r == a || r == b
    ensures (a.Some? && a.value != 0.0) ==> r == a
  {
    if a.Some? && a.value != 0.0 then a else b
  }

  function Abs(x: real): real { if x < 0.0 then -x else x }

  datatype Severity = Error | Warn | Info | Success

  /** The severity order, Success lowest. */
  function Rank(s: Severity): nat
  {
    match s
    case Success => 0
    case Info => 1
    case Warn => 2
    case Error => 3
  }

  /** The percentage `determinePriceSeverity` reads: changePercent, else phanTramThayDoi, else 0. */
  function PercentOf(m: PriceMessage): real
  {
    var p := OrReal(m.changePercent, m.phanTramThayDoi);
    if p.Some? then p.value else 0.0
  }

  /** The band of the absolute change: from 20% error, from 10% warn, from 5% info, below that success. */
  function SeverityOf(percent: real): (r: Severity)
    ensures r == Error <==> Abs(percent) >= 20.0
    ensures r == Warn <==> 10.0 <= Abs(percent) < 20.0
    ensures r == Info <==> 5.0 <= Abs(percent) < 10.0
    ensures r == Success <==> Abs(percent) < 5.0
  {
    var a := Abs(percent);
    if a >= 20.0 then Error else if a >= 10.0 then Warn else if a >= 5.0 then Info else Success
  }

  function DeterminePriceSeverity(m: PriceMessage): (r: Severity)
    ensures r == SeverityOf(PercentOf(m))
  {
    SeverityOf(PercentOf(m))
  }

  /** A larger change never gets a lower severity, and the sign of the change does not matter. */
  lemma SeverityMonotone(p: real, q: real)
    requires Abs(p) <= Abs(q)
    ensures Rank(SeverityOf(p)) <= Rank(SeverityOf(q))
    ensures SeverityOf(-p) == SeverityOf(p)
  {
  }

  /** An entry of `priceUpdates`. */
  datatype PriceUpdate = PriceUpdate(
    id: int,
    variantId: Option<int>,
    oldPrice: Option<int>,
    newPrice: Option<int>,
    changePercent: Option<real>,
    timestamp: int,
    severity: Severity)

  /** The record built for a message, with `Date.now()` as `now`. */
  function ToUpdate(m: PriceMessage, now: int): (u: PriceUpdate)
    ensures u.variantId == m.variantId && u.severity == DeterminePriceSeverity(m)
    ensures u.newPrice == OrInt(m.newPrice, m.giaMoi) && u.oldPrice == OrInt(m.oldPrice, m.giaCu)
  {
    PriceUpdate(
      if m.id.Some? && m.id.value != 0 then m.id.value else now,
      m.variantId,
      OrInt(m.oldPrice, m.giaCu),
      OrInt(m.newPrice, m.giaMoi),
      OrReal(m.changePercent, m.phanTramThayDoi),
      if m.timestamp.Some? && m.timestamp.value != 0 then m.timestamp.value else now,
      DeterminePriceSeverity(m))
  }

  /** An entry of `priceChangeNotifications`: the toast's severity and direction, and the update. */
  datatype PriceNotification = PriceNotification(severity: Severity, isIncrease: bool, update: PriceUpdate, at: int)

  /** `newPrice > oldPrice`, which is false when either is absent. */
  predicate IsIncrease(u: PriceUpdate)
  {
    u.newPrice.Some? && u.oldPrice.Some? && u.newPrice.value > u.oldPrice.value
  }

  /** Everything the monitor keeps, as a value. */
  datatype PricingState = PricingState(
    updates: seq<PriceUpdate>,
    last: Option<PriceUpdate>,
    affected: set<int>,
    notifications: seq<PriceNotification>)

  predicate Truthy(x: Option<int>) { x.Some? && x.value != 0 }

  /**
   * The state invariant: both lists within their caps, the last update is
   * the head of the list (and absent exactly when the list is empty), and
   * every variant named by a listed update is in the affected set.
   */
  predicate Consistent(st: PricingState)
  {
    |st.updates| <= MaxUpdates && |st.notifications| <= MaxNotifications
    && (st.updates == [] <==> st.last.None?)
    && (st.last.Some? ==> st.last.value == st.updates[0])
    && (forall i :: 0 <= i < |st.updates| && Truthy(st.updates[i].variantId) ==> st.updates[i].variantId.value in st.affected)
  }

  const Empty := PricingState([], None, {}, [])

  /**
   * processePriceUpdate: the new record heads the update list (capped at
   * 100) and becomes the last update; a truthy variant id joins the
   * affected set; with warnings shown a notification heads the
   * notification list (capped at 20).
   */
  function ProcessPrice(st: PricingState, show: bool, m: PriceMessage, now: int): (r: PricingState)
    ensures |r.updates| >= 1 && r.updates[0] == ToUpdate(m, now) && r.last == Some(ToUpdate(m, now))
    ensures r.affected == st.affected + (if Truthy(m.variantId) then {m.variantId.value} else {})
    ensures show ==> |r.notifications| >= 1 && r.notifications[0].update == ToUpdate(m, now) && r.notifications[0].severity == DeterminePriceSeverity(m)
    ensures !show ==> r.notifications == st.notifications
  {
    var u := ToUpdate(m, now);
    PricingState(
      PrependCapped(u, st.updates, MaxUpdates),
      Some(u),
      if Truthy(u.variantId) then st.affected + {u.variantId.value} else st.affected,
      if show then PrependCapped(PriceNotification(u.severity, IsIncrease(u), u, now), st.notifications, MaxNotifications)
      else st.notifications)
  }

  lemma ProcessPriceConsistent(st: PricingState, show: bool, m: PriceMessage, now: int)
    requires Consistent(st)
    ensures Consistent(ProcessPrice(st, show, m, now))
  {
    var r := ProcessPrice(st, show, m, now);
    forall i | 0 <= i < |r.updates| && Truthy(r.updates[i].variantId)
      ensures r.updates[i].variantId.value in r.affected
    {
      if i > 0 {
        assert r.updates[i] == st.updates[i - 1];
      }
    }
  }

  /** The updates about one variant, newest first (`getPriceUpdatesForVariant`). */
  function UpdatesForVariant(updates: seq<PriceUpdate>, variantId: int): (r: seq<PriceUpdate>)
    ensures |r| <= |updates|
    ensures forall u :: u in r <==> u in updates && u.variantId == Some(variantId)
  {
    if updates == [] then []
    else
      var rest := UpdatesForVariant(updates[1..], variantId);
      assert updates == [updates[0]] + updates[1..];
      if updates[0].variantId == Some(variantId) then [updates[0]] + rest else rest
  }

  /** `getLatestPriceForVariant`: null when there is no update, else the newest update's newPrice (itself possibly absent). */
  datatype LatestPrice = NoUpdates | Latest(newPrice: Option<int>)

  function GetLatestPriceForVariant(updates: seq<PriceUpdate>, variantId: int): (r: LatestPrice)
    ensures r.NoUpdates? <==> forall i :: 0 <= i < |updates| ==> updates[i].variantId != Some(variantId)
    ensures r.Latest? ==>
      exists i :: 0 <= i < |updates| && updates[i].variantId == Some(variantId)
                  && r.newPrice == updates[i].newPrice && forall j :: 0 <= j < i ==> updates[j].variantId != Some(variantId)
  {
    LatestIn(updates, variantId)
  }

  /** The first update in list order about the variant; the list is newest first. */
  function LatestIn(updates: seq<PriceUpdate>, variantId: int): (r: LatestPrice)
    ensures r.NoUpdates? <==> forall i :: 0 <= i < |updates| ==> updates[i].variantId != Some(variantId)
    ensures r.Latest? ==>
      exists i :: 0 <= i < |updates| && updates[i].variantId == Some(variantId)
                  && r.newPrice == updates[i].newPrice && forall j :: 0 <= j < i ==> updates[j].variantId != Some(variantId)
    ensures r == (var f := UpdatesForVariant(updates, variantId); if f == [] then NoUpdates else Latest(f[0].newPrice))
  {
    if updates == [] then NoUpdates
    else if updates[0].variantId == Some(variantId) then Latest(updates[0].newPrice)
    else
      var r := LatestIn(updates[1..], variantId);
      r
  }

  /** Right after an update about a variant, its latest price is that update's new price. */
  lemma LatestAfterUpdate(st: PricingState, show: bool, m: PriceMessage, now: int)
    requires m.variantId.Some?
    ensures GetLatestPriceForVariant(ProcessPrice(st, show, m, now).updates, m.variantId.value)
         == Latest(OrInt(m.newPrice, m.giaMoi))
  {
  }

  /** hasRecentPriceChange: some update about the variant is newer than `minutesAgo` minutes before `now`. */
  function HasRecentPriceChange(updates: seq<PriceUpdate>, variantId: int, minutesAgo: int, now: int): (r: bool)
    ensures r <==> exists i :: 0 <= i < |updates| && updates[i].variantId == Some(variantId)
                              && updates[i].timestamp > now - minutesAgo * 60 * 1000
  {
    if updates == [] then false
    else if updates[0].variantId == Some(variantId) && updates[0].timestamp > now - minutesAgo * 60 * 1000 then true
    else
      var r := HasRecentPriceChange(updates[1..], variantId, minutesAgo, now);
      assert r ==> exists i :: 1 <= i < |updates| && updates[i].variantId == Some(variantId)
                              && updates[i].timestamp > now - minutesAgo * 60 * 1000 by {
        if r {
          var k :| 0 <= k < |updates[1..]| && updates[1..][k].variantId == Some(variantId)
                   && updates[1..][k].timestamp > now - minutesAgo * 60 * 1000;
          assert updates[k + 1] == updates[1..][k];
        }
      }
      r
  }

  /** An update stamped now counts as a recent change for any positive window (default 30 minutes). */
  lemma FreshUpdateIsRecent(st: PricingState, show: bool, m: PriceMessage, now: int, minutesAgo: int)
    requires m.variantId.Some? && m.timestamp.None? && minutesAgo > 0
    ensures HasRecentPriceChange(ProcessPrice(st, show, m, now).updates, m.variantId.value, minutesAgo, now)
  {
    var r := ProcessPrice(st, show, m, now);
    assert r.updates[0].timestamp == now;
  }

  /** The price messages of a history, in history order. */
  function PriceMessages(history: seq<PriceMessage>): (r: seq<PriceMessage>)
    ensures |r| <= |history|
    ensures forall m :: m in r <==> m in history && IsPriceMessage(m)
  {
    if history == [] then []
    else
      var rest := PriceMessages(history[1..]);
      assert history == [history[0]] + history[1..];
      if IsPriceMessage(history[0]) then [history[0]] + rest else rest
  }

  function ProcessAll(st: PricingState, show: bool, ms: seq<PriceMessage>, now: int): (r: PricingState)
    decreases |ms|
  {
    if ms == [] then st else ProcessAll(ProcessPrice(st, show, ms[0], now), show, ms[1..], now)
  }

  lemma ProcessAllStep(st: PricingState, show: bool, ms: seq<PriceMessage>, i: nat, now: int)
    requires i < |ms|
    ensures ProcessAll(st, show, ms[i..], now) == ProcessAll(ProcessPrice(st, show, ms[i], now), show, ms[i + 1..], now)
  {
    assert ms[i..][0] == ms[i] && ms[i..][1..] == ms[i + 1..];
  }

  lemma {:induction false} ProcessAllConsistent(st: PricingState, show: bool, ms: seq<PriceMessage>, now: int)
    requires Consistent(st)
    ensures Consistent(ProcessAll(st, show, ms, now))
    decreases |ms|
  {
    if ms != [] {
      ProcessPriceConsistent(st, show, ms[0], now);
      ProcessAllConsistent(ProcessPrice(st, show, ms[0], now), show, ms[1..], now);
    }
  }

  /** The history watcher as written: every change reprocesses every price message the history holds. */
  function OnHistoryChangeAsWritten(st: PricingState, show: bool, newHistory: seq<PriceMessage>, now: int): PricingState
  {
    ProcessAll(st, show, PriceMessages(newHistory), now)
  }

  /** One price update followed by any other message is listed twice. */
  lemma AsWrittenListsUpdateTwice(price: PriceMessage, other: PriceMessage, now: int)
    requires price.messageType == Some("PRICE_UPDATE") && !IsPriceMessage(other)
    ensures var once := OnHistoryChangeAsWritten(Empty, false, [price], now);
      var twice := OnHistoryChangeAsWritten(once, false, [other, price], now);
      |twice.updates| == 2 && twice.updates[0] == twice.updates[1] == ToUpdate(price, now)
  {
    assert PriceMessages([price]) == [price] by {
      assert [price][1..] == [];
    }
    assert PriceMessages([other, price]) == [price] by {
      assert [other, price][1..] == [price];
    }
    var once := ProcessPrice(Empty, false, price, now);
    assert OnHistoryChangeAsWritten(Empty, false, [price], now) == once by {
      assert [price][1..] == [];
      assert ProcessAll(once, false, [], now) == once;
      assert ProcessAll(Empty, false, [price], now) == ProcessAll(once, false, [], now);
    }
    var twice := ProcessPrice(once, false, price, now);
    assert OnHistoryChangeAsWritten(once, false, [other, price], now) == twice by {
      assert ProcessAll(twice, false, [], now) == twice;
      assert ProcessAll(once, false, [price], now) == ProcessAll(twice, false, [], now);
    }
  }

  /**
   * The watcher as evidently intended: only the `arrived` newest history
   * entries are processed, oldest first, so each update is listed once.
   */
  function OnHistoryChange(st: PricingState, show: bool, newHistory: seq<PriceMessage>, arrived: nat, now: int): (r: PricingState)
    requires arrived <= |newHistory|
  {
    ProcessAll(st, show, PriceMessages(Reverse(newHistory[..arrived])), now)
  }

  /** With the intended watcher the second delivery adds only the new message's update. */
  lemma IntendedListsUpdateOnce(price: PriceMessage, other: PriceMessage, now: int)
    requires price.messageType == Some("PRICE_UPDATE") && !IsPriceMessage(other)
    ensures var once := OnHistoryChange(Empty, false, [price], 1, now);
      var twice := OnHistoryChange(once, false, [other, price], 1, now);
      twice == once && once.updates == [ToUpdate(price, now)]
  {
    assert [price][..1] == [price] && Reverse([price]) == [price];
    assert [other, price][..1] == [other] && Reverse([other]) == [other];
    assert PriceMessages([price]) == [price] by {
      assert [price][1..] == [];
    }
    assert PriceMessages([other]) == [] by {
      assert [other][1..] == [];
    }
    var once := ProcessPrice(Empty, false, price, now);
    assert ProcessAll(once, false, [], now) == once;
    assert ProcessAll(Empty, false, [price], now) == ProcessAll(once, false, [], now) by {
      assert [price][1..] == [];
    }
  }

  /** The price messages of a concatenation are those of each part. */
  lemma {:induction false} PriceMessagesAppend(a: seq<PriceMessage>, b: seq<PriceMessage>)
    ensures PriceMessages(a + b) == PriceMessages(a) + PriceMessages(b)
    decreases |a|
  {
    if a == [] {
      assert a + b == b;
    } else {
      PriceMessagesAppend(a[1..], b);
      ConsAppend(a, b);
    }
  }

  /** Processing two batches in turn is processing their concatenation. */
  lemma {:induction false} ProcessAllAppend(st: PricingState, show: bool, a: seq<PriceMessage>, b: seq<PriceMessage>, now: int)
    ensures ProcessAll(ProcessAll(st, show, a, now), show, b, now) == ProcessAll(st, show, a + b, now)
    decreases |a|
  {
    if a == [] {
      assert a + b == b;
    } else {
      ProcessAllAppend(ProcessPrice(st, show, a[0], now), show, a[1..], b, now);
      ConsAppend(a, b);
    }
  }

  /**
   * One delivery to the intended watcher after `earlier` has been
   * processed: the history holds every arrival so far, newest first, and
   * `recent` has just arrived. The state becomes that of processing all
   * arrivals once, in arrival order.
   */
  lemma DeliveryStep(st: PricingState, show: bool, earlier: seq<PriceMessage>, recent: seq<PriceMessage>, now: int)
    ensures |recent| <= |Reverse(earlier + recent)|
    ensures OnHistoryChange(ProcessAll(st, show, PriceMessages(earlier), now), show, Reverse(earlier + recent), |recent|, now)
         == ProcessAll(st, show, PriceMessages(earlier + recent), now)
  {
    NewestEntries(earlier, recent);
    PriceMessagesAppend(earlier, recent);
    ProcessAllAppend(st, show, PriceMessages(earlier), PriceMessages(recent), now);
  }

  /**
   * A run of deliveries to the intended watcher: before each one the
   * history gains a batch, and the watcher is told how many entries arrived.
   */
  function DeliverAll(st: PricingState, show: bool, earlier: seq<PriceMessage>, batches: seq<seq<PriceMessage>>, now: int): PricingState
    decreases |batches|
  {
    if batches == [] then st
    else
      var all := earlier + batches[0];
      assert |batches[0]| <= |Reverse(all)|;
      DeliverAll(OnHistoryChange(st, show, Reverse(all), |batches[0]|, now), show, all, batches[1..], now)
  }

  /**
   * However many deliveries there are, the intended watcher processes every
   * price update exactly once, in arrival order, so none is listed twice.
   */
  lemma {:induction false} IntendedListsAllOnce(st: PricingState, show: bool, earlier: seq<PriceMessage>,
                                                batches: seq<seq<PriceMessage>>, now: int)
    ensures DeliverAll(ProcessAll(st, show, PriceMessages(earlier), now), show, earlier, batches, now)
         == ProcessAll(st, show, PriceMessages(earlier + Concat(batches)), now)
    decreases |batches|
  {
    if batches == [] {
      assert earlier + Concat(batches) == earlier;
    } else {
      var all := earlier + batches[0];
      DeliveryStep(st, show, earlier, batches[0], now);
      IntendedListsAllOnce(st, show, all, batches[1..], now);
      var rest := Concat(batches[1..]);
      assert Concat(batches) == batches[0] + rest;
      AppendAssoc(earlier, batches[0], rest);
    }
  }

  /** recentPriceUpdates: the updates newer than one hour before `now`, in order. */
  function RecentPriceUpdates(updates: seq<PriceUpdate>, now: int): (r: seq<PriceUpdate>)
    ensures |r| <= |updates|
    ensures forall u :: u in r <==> u in updates && u.timestamp > now - 60 * 60 * 1000
  {
    if updates == [] then []
    else
      var rest := RecentPriceUpdates(updates[1..], now);
      assert updates == [updates[0]] + updates[1..];
      if updates[0].timestamp > now - 60 * 60 * 1000 then [updates[0]] + rest else rest
  }

  class PricingMonitor {
    var priceUpdates: seq<PriceUpdate>
    var lastPriceUpdate: Option<PriceUpdate>
    var affectedVariants: set<int>
    var priceChangeNotifications: seq<PriceNotification>
    var showPriceWarnings: bool

    function State(): PricingState
      reads this
    {
      PricingState(priceUpdates, lastPriceUpdate, affectedVariants, priceChangeNotifications)
    }

    ghost predicate Valid()
      reads this
    {
      Consistent(State())
    }

    constructor()
      ensures Valid() && State() == Empty && showPriceWarnings
    {
      priceUpdates, lastPriceUpdate, affectedVariants, priceChangeNotifications := [], None, {}, [];
      showPriceWarnings := true;
    }

    method ProcessePriceUpdate(m: PriceMessage, now: int)
      requires Valid()
      modifies this
      ensures Valid()
      ensures State() == ProcessPrice(old(State()), old(showPriceWarnings), m, now)
      ensures showPriceWarnings == old(showPriceWarnings)
    {
      ProcessPriceConsistent(State(), showPriceWarnings, m, now);
      var u := ToUpdate(m, now);
      priceUpdates := [u] + priceUpdates;
      lastPriceUpdate := Some(u);
      if Truthy(u.variantId) {
        affectedVariants := affectedVariants + {u.variantId.value};
      }
      if showPriceWarnings {
        var n := PriceNotification(u.severity, IsIncrease(u), u, now);
        priceChangeNotifications := [n] + priceChangeNotifications;
        if |priceChangeNotifications| > MaxNotifications {
          priceChangeNotifications := priceChangeNotifications[..MaxNotifications];
        }
      }
      if |priceUpdates| > MaxUpdates {
        priceUpdates := priceUpdates[..MaxUpdates];
      }
    }

    /** The history watcher, processing only the newly arrived entries (see OnHistoryChange). */
    method OnMessageHistoryChange(newHistory: seq<PriceMessage>, arrived: nat, now: int)
      requires Valid() && arrived <= |newHistory|
      modifies this
      ensures Valid()
      ensures State() == OnHistoryChange(old(State()), old(showPriceWarnings), newHistory, arrived, now)
    {
      ProcessBatch(PriceMessages(Reverse(newHistory[..arrived])), now);
    }

    /** Processes the messages of a batch one after the other. */
    method ProcessBatch(batch: seq<PriceMessage>, now: int)
      requires Valid()
      modifies this
      ensures Valid() && showPriceWarnings == old(showPriceWarnings)
      ensures State() == ProcessAll(old(State()), old(showPriceWarnings), batch, now)
    {
      ghost var target := ProcessAll(State(), showPriceWarnings, batch, now);
      var i := 0;
      while i < |batch|
        invariant 0 <= i <= |batch|
        invariant Valid() && showPriceWarnings == old(showPriceWarnings)
        invariant ProcessAll(State(), showPriceWarnings, batch[i..], now) == target
      {
        ProcessAllStep(State(), showPriceWarnings, batch, i, now);
        ProcessePriceUpdate(batch[i], now);
        i := i + 1;
      }
    }

    method TogglePriceWarnings()
      modifies this`showPriceWarnings
      ensures showPriceWarnings == !old(showPriceWarnings)
    {
      showPriceWarnings := !showPriceWarnings;
    }

    /** clearPriceHistory: both lists, the affected set and the last update are cleared. */
    method ClearPriceHistory()
      modifies this
      ensures Valid() && State() == Empty
      ensures showPriceWarnings == old(showPriceWarnings)
    {
      priceUpdates, priceChangeNotifications, affectedVariants, lastPriceUpdate := [], [], {}, None;
    }
  }
}
