/**
 * The serial-number inventory lifecycle of SerialNumberService: the status
 * transition table, deletion, reservation, sale confirmation, release,
 * re-keying a reservation to a new order, and the availability check.
 *
 * The repository is the map `serials` from serial-number id to record. The
 * service is transactional, so an operation that throws leaves the map as it
 * was; every operation below returns an error and leaves `serials` unchanged
 * in that case.
 */
module SerialNumbers {
  import opened Common

  datatype SerialStatus =
    | AVAILABLE | RESERVED | SOLD | RETURNED | DAMAGED | UNAVAILABLE
    | DISPLAY_UNIT | QUALITY_CONTROL | IN_TRANSIT | DISPOSED

  /** The transition table; `None` for a status the table has no row for. */
  function TransitionRow(from: SerialStatus): Option<set<SerialStatus>>
  {
    match from
    case AVAILABLE => Some({RESERVED, DAMAGED, UNAVAILABLE, DISPLAY_UNIT})
    case RESERVED => Some({AVAILABLE, SOLD, DAMAGED})
    case SOLD => Some({RETURNED, DAMAGED})
    case RETURNED => Some({AVAILABLE, DAMAGED, DISPOSED})
    case DAMAGED => Some({AVAILABLE, DISPOSED})
    case UNAVAILABLE => Some({AVAILABLE, DAMAGED})
    case DISPLAY_UNIT => Some({AVAILABLE, DAMAGED})
    case QUALITY_CONTROL => Some({AVAILABLE, DAMAGED})
    case IN_TRANSIT => Some({AVAILABLE, QUALITY_CONTROL})
    case DISPOSED => None
  }

  predicate CanTransition(from: SerialStatus, to: SerialStatus)
  {
    TransitionRow(from).Some? && to in TransitionRow(from).value
  }

  datatype TransitionError = InvalidTransition(from: SerialStatus, to: SerialStatus)

  /** validateStatusTransition: accept exactly the pairs in the table. */
  function ValidateStatusTransition(from: SerialStatus, to: SerialStatus): (r: Result<(), TransitionError>)
    ensures r.Ok? <==> CanTransition(from, to)
    ensures r.Err? ==> r.error == InvalidTransition(from, to)
    ensures from == DISPOSED ==> r.Err?
    ensures from == to ==> r.Err?
    ensures from == AVAILABLE && r.Ok? ==> to in {RESERVED, DAMAGED, UNAVAILABLE, DISPLAY_UNIT}
    ensures from == RESERVED && r.Ok? ==> to in {AVAILABLE, SOLD, DAMAGED}
    ensures from == SOLD && r.Ok? ==> to in {RETURNED, DAMAGED}
  {
    if TransitionRow(from).Some? && to in TransitionRow(from).value then Ok(()) else Err(InvalidTransition(from, to))
  }

  /** A chain of statuses each of which the table lets follow the one before. */
  predicate IsSerialPath(p: seq<SerialStatus>)
  {
    forall k :: 0 <= k < |p| - 1 ==> CanTransition(p[k], p[k + 1])
  }

  /** A sold unit never becomes AVAILABLE again without first being RETURNED or DAMAGED. */
  lemma {:induction false} SoldNeedsReturnOrDamage(p: seq<SerialStatus>)
    requires IsSerialPath(p) && |p| > 0 && p[0] == SOLD && p[|p| - 1] == AVAILABLE
    ensures exists k :: 0 < k < |p| && (p[k] == RETURNED || p[k] == DAMAGED)
  {
    assert |p| > 1;
    assert CanTransition(p[0], p[1]);
    assert p[1] == RETURNED || p[1] == DAMAGED;
  }

  /** Every status except DISPOSED reaches DISPOSED along the table. */
  lemma DisposedReachable(s: SerialStatus)
    requires s != DISPOSED
    ensures exists p :: IsSerialPath(p) && |p| > 0 && p[0] == s && p[|p| - 1] == DISPOSED
  {
    var p: seq<SerialStatus> := match s
      case DAMAGED => [DAMAGED, DISPOSED]
      case RETURNED => [RETURNED, DISPOSED]
      case IN_TRANSIT => [IN_TRANSIT, QUALITY_CONTROL, DAMAGED, DISPOSED]
      case _ => [s, DAMAGED, DISPOSED];
    assert IsSerialPath(p);
  }

  /**
   * deleteSerialNumber writes DISPOSED without consulting the table, which
   * has DAMAGED -> DISPOSED but not AVAILABLE -> DISPOSED.
   */
  lemma DeletionBypassesTable()
    ensures CanTransition(DAMAGED, DISPOSED)
    ensures !CanTransition(AVAILABLE, DISPOSED)
  {
  }

  /**
   * One serial number: its variant, status and reservation (the channel that
   * reserved it and the order it is held for).
   */
  datatype SerialRecord = SerialRecord(variantId: int, status: SerialStatus,
                                       channel: Option<string>, orderId: Option<string>)

  const CartChannel: string := "CART"

  predicate IsReserved(s: SerialRecord) { s.status == RESERVED }

  /** isCartReservation: reserved by the shopping cart. */
  function IsCartReservation(s: SerialRecord): (r: bool)
    ensures r ==> s.status == RESERVED && s.channel == Some(CartChannel)
  {
    IsReserved(s) && s.channel == Some(CartChannel)
  }

  /** A unit the availability count includes: free, or held by a cart. */
  predicate Usable(s: SerialRecord, variantId: int)
  {
    s.variantId == variantId && (s.status == AVAILABLE || IsCartReservation(s))
  }

  /** The entity's reserveWithTracking, markAsSold and releaseReservation. */
  function Reserved(s: SerialRecord, channel: string, orderId: string): SerialRecord
  {
    s.(status := RESERVED, channel := Some(channel), orderId := Some(orderId))
  }

  function Sold(s: SerialRecord): SerialRecord { s.(status := SOLD) }

  function Released(s: SerialRecord): SerialRecord { s.(status := AVAILABLE, channel := None, orderId := None) }

  predicate Distinct(ids: seq<int>)
  {
    forall i, j :: 0 <= i < j < |ids| ==> ids[i] != ids[j]
  }

  /**
   * findAllById returns one entity per distinct stored id, and the callers
   * compare its size with the number of ids requested: they go on only when
   * every id is stored and none is repeated.
   */
  predicate AllFound(m: map<int, SerialRecord>, ids: seq<int>)
  {
    Distinct(ids) && forall i :: 0 <= i < |ids| ==> ids[i] in m
  }

  /** getAvailableQuantityByVariant: free units plus cart-held units of the variant. */
  function AvailableQuantity(m: map<int, SerialRecord>, variantId: int): (r: nat)
    ensures r <= |m|
  {
    var ids := set id | id in m && Usable(m[id], variantId);
    assert ids <= m.Keys;
    SubsetCard(ids, m.Keys);
    |ids|
  }

  lemma SubsetCard<T>(a: set<T>, b: set<T>)
    requires a <= b
    ensures |a| <= |b|
  {
    if a != {} {
      var x :| x in a;
      SubsetCard(a - {x}, b - {x});
    }
  }

  /**
   * The repository page findAvailableByVariant(variantId, first `quantity`):
   * distinct AVAILABLE units of the variant, at most `quantity` of them, and
   * fewer only when there are no others.
   */
  predicate IsAvailablePage(m: map<int, SerialRecord>, variantId: int, quantity: int, page: seq<int>)
  {
    Distinct(page) && |page| <= quantity
    && (forall i :: 0 <= i < |page| ==> page[i] in m && m[page[i]].variantId == variantId && m[page[i]].status == AVAILABLE)
    && (|page| < quantity ==>
          forall id :: id in m && m[id].variantId == variantId && m[id].status == AVAILABLE ==> id in page)
  }

  /** Reserving `ids` in order for `channel` and `orderId`. */
  function ReserveAll(m: map<int, SerialRecord>, ids: seq<int>, channel: string, orderId: string): (r: map<int, SerialRecord>)
    ensures r.Keys == m.Keys
    ensures forall id :: id in m ==> r[id] == if id in ids then Reserved(m[id], channel, orderId) else m[id]
    decreases |ids|
  {
    if ids == [] then m
    else
      var m' := if ids[0] in m then m[ids[0] := Reserved(m[ids[0]], channel, orderId)] else m;
      ReserveAll(m', ids[1..], channel, orderId)
  }

  /** Marking `ids` as sold. */
  function SellAll(m: map<int, SerialRecord>, ids: seq<int>): (r: map<int, SerialRecord>)
    ensures r.Keys == m.Keys
    ensures forall id :: id in m ==> r[id] == if id in ids then Sold(m[id]) else m[id]
    decreases |ids|
  {
    if ids == [] then m
    else
      var m' := if ids[0] in m then m[ids[0] := Sold(m[ids[0]])] else m;
      SellAll(m', ids[1..])
  }

  /** releaseReservations: release the reserved units among `ids`, skip the others. */
  function ReleaseAll(m: map<int, SerialRecord>, ids: seq<int>): (r: map<int, SerialRecord>)
    ensures r.Keys == m.Keys
    ensures forall id :: id in m ==>
      r[id] == if id in ids && IsReserved(m[id]) then Released(m[id]) else m[id]
    decreases |ids|
  {
    if ids == [] then m
    else
      var m' := if ids[0] in m && IsReserved(m[ids[0]]) then m[ids[0] := Released(m[ids[0]])] else m;
      ReleaseAll(m', ids[1..])
  }

  predicate HeldFor(s: SerialRecord, orderId: string) { IsReserved(s) && s.orderId == Some(orderId) }

  /** updateReservationOrderId: move the units held for `oldOrderId` to `newOrderId`. */
  function RekeyAll(m: map<int, SerialRecord>, ids: seq<int>, oldOrderId: string, newOrderId: string): (r: map<int, SerialRecord>)
    ensures r.Keys == m.Keys
    ensures forall id :: id in m ==>
      r[id] == if id in ids && HeldFor(m[id], oldOrderId) then m[id].(orderId := Some(newOrderId)) else m[id]
    decreases |ids|
  {
    if ids == [] then m
    else
      var m' := if ids[0] in m && HeldFor(m[ids[0]], oldOrderId)
                then m[ids[0] := m[ids[0]].(orderId := Some(newOrderId))] else m;
      RekeyAll(m', ids[1..], oldOrderId, newOrderId)
  }

  /** The ids among `ids` that confirmSale refuses: not reserved, or held for another order. */
  function InvalidForSale(m: map<int, SerialRecord>, ids: seq<int>, orderId: string): (r: seq<int>)
    requires forall i :: 0 <= i < |ids| ==> ids[i] in m
    ensures |r| <= |ids|
  {
    if ids == [] then []
    else
      var rest := InvalidForSale(m, ids[..|ids| - 1], orderId);
      var last := ids[|ids| - 1];
      if HeldFor(m[last], orderId) then rest else rest + [last]
  }

  /** The refused ids are exactly the listed ids not held for the order. */
  lemma {:induction false} InvalidForSaleMembers(m: map<int, SerialRecord>, ids: seq<int>, orderId: string)
    requires forall i :: 0 <= i < |ids| ==> ids[i] in m
    ensures forall id :: id in InvalidForSale(m, ids, orderId) <==> id in ids && !HeldFor(m[id], orderId)
  {
    if ids != [] {
      var init := ids[..|ids| - 1];
      InvalidForSaleMembers(m, init, orderId);
      assert ids == init + [ids[|ids| - 1]];
    }
  }

  lemma InvalidForSaleStep(m: map<int, SerialRecord>, ids: seq<int>, i: nat, orderId: string)
    requires i < |ids| && forall k :: 0 <= k < |ids| ==> ids[k] in m
    ensures HeldFor(m[ids[i]], orderId) ==> InvalidForSale(m, ids[..i + 1], orderId) == InvalidForSale(m, ids[..i], orderId)
    ensures !HeldFor(m[ids[i]], orderId) ==> InvalidForSale(m, ids[..i + 1], orderId) == InvalidForSale(m, ids[..i], orderId) + [ids[i]]
  {
    assert ids[..i + 1][..i] == ids[..i];
  }

  lemma SellAllStep(m: map<int, SerialRecord>, ids: seq<int>, i: nat)
    requires i < |ids| && ids[i] in m
    ensures SellAll(m, ids[i..]) == SellAll(m[ids[i] := Sold(m[ids[i]])], ids[i + 1..])
  {
    assert ids[i..][0] == ids[i] && ids[i..][1..] == ids[i + 1..];
  }

  /** Nothing is refused exactly when every unit is held for the order. */
  lemma NoInvalidForSale(m: map<int, SerialRecord>, ids: seq<int>, orderId: string)
    requires forall k :: 0 <= k < |ids| ==> ids[k] in m
    ensures InvalidForSale(m, ids, orderId) == [] <==> forall k :: 0 <= k < |ids| ==> HeldFor(m[ids[k]], orderId)
  {
    var invalid := InvalidForSale(m, ids, orderId);
    InvalidForSaleMembers(m, ids, orderId);
    if invalid != [] {
      assert invalid[0] in invalid;
      var k :| 0 <= k < |ids| && ids[k] == invalid[0];
    } else {
      forall k | 0 <= k < |ids| ensures HeldFor(m[ids[k]], orderId) {
        assert ids[k] in ids && ids[k] !in InvalidForSale(m, ids, orderId);
      }
    }
  }

  /** One line of an order as the availability check sees it. */
  datatype OrderLine = OrderLine(variantId: Option<int>, quantity: Option<int>, serialId: Option<int>)

  /** One iteration of isInventoryAvailable's loop. */
  predicate LineAvailable(m: map<int, SerialRecord>, line: OrderLine)
  {
    line.variantId.Some? && line.quantity.Some? && line.quantity.value > 0
    && if line.serialId.Some? then
         line.serialId.value in m && m[line.serialId.value].variantId == line.variantId.value
         && (m[line.serialId.value].status == AVAILABLE || IsCartReservation(m[line.serialId.value]))
       else
         AvailableQuantity(m, line.variantId.value) >= line.quantity.value
  }

  datatype SerialError =
    | NotFound
    | CannotDelete(status: SerialStatus)
    | InvalidPageSize
    | InsufficientStock(requested: int, available: int)
    | NotAllFound
    | InvalidForSaleFound(ids: seq<int>)

  /** A freshly reserved unit is held for its order by a permitted transition. */
  lemma ReservationFollowsTable(s: SerialRecord, channel: string, orderId: string)
    requires s.status == AVAILABLE
    ensures CanTransition(s.status, Reserved(s, channel, orderId).status)
    ensures HeldFor(Reserved(s, channel, orderId), orderId)
    ensures IsCartReservation(Reserved(s, channel, orderId)) <==> channel == CartChannel
  {
  }

  /**
   * Reserving a page for a channel other than the cart removes exactly the
   * page from the availability count; reserving for the cart leaves it as it is.
   */
  lemma ReserveAvailableQuantity(m: map<int, SerialRecord>, variantId: int, quantity: int, page: seq<int>,
                                 channel: string, orderId: string)
    requires IsAvailablePage(m, variantId, quantity, page)
    ensures channel != CartChannel ==>
      AvailableQuantity(ReserveAll(m, page, channel, orderId), variantId) == AvailableQuantity(m, variantId) - |page|
    ensures channel == CartChannel ==>
      AvailableQuantity(ReserveAll(m, page, channel, orderId), variantId) == AvailableQuantity(m, variantId)
  {
    ReserveUsable(m, variantId, page, channel, orderId);
    if channel == CartChannel {
      ReserveForCart(m, variantId, page, orderId);
    } else {
      ReserveElsewhere(m, variantId, page, channel, orderId);
    }
  }

  lemma ReserveForCart(m: map<int, SerialRecord>, variantId: int, page: seq<int>, orderId: string)
    requires forall id :: id in m ==>
      (Usable(ReserveAll(m, page, CartChannel, orderId)[id], variantId) <==> Usable(m[id], variantId))
    ensures AvailableQuantity(ReserveAll(m, page, CartChannel, orderId), variantId) == AvailableQuantity(m, variantId)
  {
    var r := ReserveAll(m, page, CartChannel, orderId);
    assert r.Keys == m.Keys;
    forall id | id in r
      ensures Usable(r[id], variantId) <==> Usable(m[id], variantId)
    {
    }
    assert (set id | id in r && Usable(r[id], variantId)) == (set id | id in m && Usable(m[id], variantId));
  }

  lemma ReserveElsewhere(m: map<int, SerialRecord>, variantId: int, page: seq<int>, channel: string, orderId: string)
    requires Distinct(page)
    requires forall i :: 0 <= i < |page| ==> page[i] in m && m[page[i]].variantId == variantId && m[page[i]].status == AVAILABLE
    requires forall id :: id in m ==>
      (Usable(ReserveAll(m, page, channel, orderId)[id], variantId) <==> Usable(m[id], variantId) && id !in page)
    ensures AvailableQuantity(ReserveAll(m, page, channel, orderId), variantId) == AvailableQuantity(m, variantId) - |page|
  {
    var r := ReserveAll(m, page, channel, orderId);
    var before := set id | id in m && Usable(m[id], variantId);
    var pageSet := set x | x in page;
    PageUsable(m, variantId, page);
    assert (set id | id in r && Usable(r[id], variantId)) == before - pageSet by {
      assert r.Keys == m.Keys;
      forall id | id in r
        ensures Usable(r[id], variantId) <==> id in before && id !in pageSet
      {
      }
    }
    DistinctCard(page);
    DifferenceCard(before, pageSet);
  }

  /** Every unit of an available page counts towards the availability. */
  lemma PageUsable(m: map<int, SerialRecord>, variantId: int, page: seq<int>)
    requires forall i :: 0 <= i < |page| ==> page[i] in m && m[page[i]].variantId == variantId && m[page[i]].status == AVAILABLE
    ensures (set x | x in page) <= (set id | id in m && Usable(m[id], variantId))
  {
    forall x | x in page
      ensures x in m && Usable(m[x], variantId)
    {
      var i :| 0 <= i < |page| && page[i] == x;
    }
  }

  /** A reserved page unit stops counting unless it is held by a cart; the other units are untouched. */
  lemma ReserveUsable(m: map<int, SerialRecord>, variantId: int, page: seq<int>, channel: string, orderId: string)
    requires forall i :: 0 <= i < |page| ==> page[i] in m && m[page[i]].variantId == variantId && m[page[i]].status == AVAILABLE
    ensures forall id :: id in m ==>
      (Usable(ReserveAll(m, page, channel, orderId)[id], variantId) <==>
       Usable(m[id], variantId) && (id !in page || channel == CartChannel))
  {
    forall id | id in m
      ensures Usable(ReserveAll(m, page, channel, orderId)[id], variantId) <==>
              Usable(m[id], variantId) && (id !in page || channel == CartChannel)
    {
      if id in page {
        var i :| 0 <= i < |page| && page[i] == id;
      }
    }
  }

  lemma {:induction false} DistinctCard(ids: seq<int>)
    requires Distinct(ids)
    ensures |set x | x in ids| == |ids|
  {
    if ids != [] {
      var init := ids[..|ids| - 1];
      var last := ids[|ids| - 1];
      DistinctCard(init);
      assert (set x | x in ids) == (set x | x in init) + {last} by {
        assert ids == init + [last];
      }
      assert last !in init;
    }
  }

  lemma DifferenceCard<T>(a: set<T>, b: set<T>)
    requires b <= a
    ensures |a - b| == |a| - |b|
  {
    assert a == (a - b) + b;
  }

  class Inventory {
    var serials: map<int, SerialRecord>

    constructor (serials: map<int, SerialRecord>)
      ensures this.serials == serials
    {
      this.serials := serials;
    }

    /** deleteSerialNumber: a soft delete of a free or damaged unit. */
    method DeleteSerialNumber(id: int) returns (r: Result<(), SerialError>)
      modifies this`serials
      ensures id !in old(serials) ==> r == Err(NotFound)
      ensures id in old(serials) && old(serials)[id].status !in {AVAILABLE, DAMAGED} ==>
        r == Err(CannotDelete(old(serials)[id].status))
      ensures r.Ok? <==> id in old(serials) && old(serials)[id].status in {AVAILABLE, DAMAGED}
      ensures r.Ok? ==> serials == old(serials)[id := old(serials)[id].(status := DISPOSED)]
      ensures r.Err? ==> serials == old(serials)
    {
      if id !in serials {
        return Err(NotFound);
      }
      var s := serials[id];
      if s.status != AVAILABLE && s.status != DAMAGED {
        return Err(CannotDelete(s.status));
      }
      serials := serials[id := s.(status := DISPOSED)];
      r := Ok(());
    }

    /**
     * reserveSerialNumbers: `page` is what the repository returns for the
     * variant with page size `quantity`. A page size below one is refused by
     * the page request itself; a short page means too little stock.
     */
    method ReserveSerialNumbers(variantId: int, quantity: int, channel: string, orderId: string, page: seq<int>)
      returns (r: Result<seq<int>, SerialError>)
      requires quantity >= 1 ==> IsAvailablePage(serials, variantId, quantity, page)
      modifies this`serials
      ensures quantity < 1 ==> r == Err(InvalidPageSize)
      ensures 1 <= quantity && |page| < quantity ==> r == Err(InsufficientStock(quantity, |page|))
      ensures r.Ok? <==> 1 <= quantity && |page| == quantity
      ensures r.Ok? ==> r.value == page && serials == ReserveAll(old(serials), page, channel, orderId)
      ensures r.Err? ==> serials == old(serials)
    {
      if quantity < 1 {
        return Err(InvalidPageSize);
      }
      if |page| < quantity {
        return Err(InsufficientStock(quantity, |page|));
      }
      ghost var start := serials;
      var i := 0;
      while i < quantity
        invariant 0 <= i <= quantity == |page|
        invariant ReserveAll(start, page, channel, orderId) == ReserveAll(serials, page[i..], channel, orderId)
        invariant serials.Keys == start.Keys
      {
        assert page[i..][0] == page[i] && page[i..][1..] == page[i + 1..];
        var id := page[i];
        serials := serials[id := Reserved(serials[id], channel, orderId)];
        i := i + 1;
      }
      r := Ok(page);
    }

    /**
     * confirmSale: sell every listed unit held for `orderId`, or nothing at
     * all when some unit is missing, repeated, not reserved, or held for
     * another order.
     */
    method ConfirmSale(ids: seq<int>, orderId: string) returns (r: Result<(), SerialError>)
      modifies this`serials
      ensures ids == [] ==> r.Ok? && serials == old(serials)
      ensures ids != [] && !AllFound(old(serials), ids) ==> r == Err(NotAllFound)
      ensures r.Ok? <==> ids == [] || (AllFound(old(serials), ids) && forall i :: 0 <= i < |ids| ==> HeldFor(old(serials)[ids[i]], orderId))
      ensures r.Ok? ==> serials == SellAll(old(serials), ids)
      ensures r.Err? ==> serials == old(serials)
      ensures r.Err? && AllFound(old(serials), ids) ==> r == Err(InvalidForSaleFound(InvalidForSale(old(serials), ids, orderId)))
    {
      if ids == [] {
        return Ok(());
      }
      if !(Distinct(ids) && forall i :: 0 <= i < |ids| ==> ids[i] in serials) {
        return Err(NotAllFound);
      }
      var sold, invalid := PrepareSale(ids, orderId);
      if invalid != [] {
        return Err(InvalidForSaleFound(invalid));
      }
      serials := sold;
      r := Ok(());
    }

    /**
     * The loop of confirmSale: mark the units held for `orderId` as sold in a
     * working copy and collect the others.
     */
    method PrepareSale(ids: seq<int>, orderId: string) returns (sold: map<int, SerialRecord>, invalid: seq<int>)
      requires AllFound(serials, ids)
      ensures invalid == InvalidForSale(serials, ids, orderId)
      ensures invalid == [] <==> forall i :: 0 <= i < |ids| ==> HeldFor(serials[ids[i]], orderId)
      ensures invalid == [] ==> sold == SellAll(serials, ids)
    {
      sold := serials;
      invalid := [];
      var i := 0;
      while i < |ids|
        invariant 0 <= i <= |ids|
        invariant invalid == InvalidForSale(serials, ids[..i], orderId)
        invariant invalid == [] ==> SellAll(serials, ids) == SellAll(sold, ids[i..])
        invariant sold.Keys == serials.Keys
        invariant forall k :: i <= k < |ids| ==> sold[ids[k]] == serials[ids[k]]
      {
        InvalidForSaleStep(serials, ids, i, orderId);
        SellAllStep(sold, ids, i);
        var id := ids[i];
        assert sold[id] == serials[id];
        if HeldFor(sold[id], orderId) {
          sold := sold[id := Sold(sold[id])];
        } else {
          invalid := invalid + [id];
        }
        i := i + 1;
      }
      assert ids[..i] == ids;
      NoInvalidForSale(serials, ids, orderId);
    }

    /** releaseReservations: only reserved units change. */
    method ReleaseReservations(ids: seq<int>)
      modifies this`serials
      ensures serials == ReleaseAll(old(serials), ids)
    {
      if ids == [] {
        return;
      }
      ghost var start := serials;
      var i := 0;
      while i < |ids|
        invariant 0 <= i <= |ids|
        invariant ReleaseAll(start, ids) == ReleaseAll(serials, ids[i..])
      {
        assert ids[i..][0] == ids[i] && ids[i..][1..] == ids[i + 1..];
        var id := ids[i];
        if id in serials && IsReserved(serials[id]) {
          serials := serials[id := Released(serials[id])];
        }
        i := i + 1;
      }
    }

    /** updateReservationOrderId: missing or repeated ids are an error; other units are skipped. */
    method UpdateReservationOrderId(ids: seq<int>, oldOrderId: string, newOrderId: string)
      returns (r: Result<(), SerialError>)
      modifies this`serials
      ensures ids == [] ==> r.Ok?
      ensures r.Ok? <==> ids == [] || AllFound(old(serials), ids)
      ensures r.Err? ==> r == Err(NotAllFound) && serials == old(serials)
      ensures r.Ok? ==> serials == RekeyAll(old(serials), ids, oldOrderId, newOrderId)
    {
      if ids == [] {
        assert RekeyAll(serials, ids, oldOrderId, newOrderId) == serials;
        return Ok(());
      }
      if !(Distinct(ids) && forall i :: 0 <= i < |ids| ==> ids[i] in serials) {
        return Err(NotAllFound);
      }
      ghost var start := serials;
      var i := 0;
      while i < |ids|
        invariant 0 <= i <= |ids|
        invariant RekeyAll(start, ids, oldOrderId, newOrderId) == RekeyAll(serials, ids[i..], oldOrderId, newOrderId)
      {
        assert ids[i..][0] == ids[i] && ids[i..][1..] == ids[i + 1..];
        var id := ids[i];
        if id in serials && HeldFor(serials[id], oldOrderId) {
          serials := serials[id := serials[id].(orderId := Some(newOrderId))];
        }
        i := i + 1;
      }
      r := Ok(());
    }

    /** isInventoryAvailable: a non-empty order every line of which passes. */
    method IsInventoryAvailable(lines: seq<OrderLine>) returns (ok: bool)
      ensures ok <==> |lines| > 0 && forall i :: 0 <= i < |lines| ==> LineAvailable(serials, lines[i])
    {
      if |lines| == 0 {
        return false;
      }
      var i := 0;
      while i < |lines|
        invariant 0 <= i <= |lines|
        invariant forall k :: 0 <= k < i ==> LineAvailable(serials, lines[k])
      {
        var line := lines[i];
        if line.variantId.None? || line.quantity.None? || line.quantity.value <= 0 {
          return false;
        }
        if line.serialId.Some? {
          var sid := line.serialId.value;
          if sid !in serials {
            return false;
          }
          var sn := serials[sid];
          if sn.variantId != line.variantId.value {
            return false;
          }
          if sn.status != AVAILABLE && !IsCartReservation(sn) {
            return false;
          }
        } else {
          var available := AvailableQuantity(serials, line.variantId.value);
          if available < line.quantity.value {
            return false;
          }
        }
        i := i + 1;
      }
      return true;
    }
  }
}
