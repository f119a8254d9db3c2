/**
 * The point-of-sale WebSocket session (posView.js): the staff id read from
 * the stored user record, the single POS subscription, and dispatch of
 * incoming frames with the same STOMP codec as the chat client.
 */
module PosView {
  import opened Common
  import opened Stomp

  /** The `id` property of the stored user, by JavaScript type (integral numbers only). */
  datatype IdValue = IdNumber(n: int) | IdString(s: string) | IdBool(b: bool) | IdNull

  /**
   * What `JSON.parse(localStorage.getItem('nguoiDung'))` yields: nothing
   * stored (parses to null), text that fails to parse, a value without an
   * `id` property, or a record with one.
   */
  datatype StoredUser = NotStored | Unparsable | WithoutId | WithId(id: IdValue)

  /** JavaScript truthiness of the id. */
  predicate TruthyId(v: IdValue)
  {
    match v
    case IdNumber(n) => n != 0
    case IdString(s) => s != ""
    case IdBool(b) => b
    case IdNull => false
  }

  /** `String(id)` */
  function IdText(v: IdValue): string
  {
    match v
    case IdNumber(n) => IntToString(n)
    case IdString(s) => s
    case IdBool(b) => if b then "true" else "false"
    case IdNull => "null"
  }

  /** getStaffId: the id as text when it is truthy, otherwise null; a parse failure also gives null. */
  function GetStaffId(stored: StoredUser): (r: Option<string>)
    ensures r.Some? <==> stored.WithId? && TruthyId(stored.id)
    ensures r.Some? ==> r.value == IdText(stored.id)
    ensures stored.WithId? && stored.id.IdNumber? && stored.id.n > 0 ==>
      r.Some? && AllDigits(r.value) && DigitsValue(r.value) == stored.id.n
  {
    match stored
    case WithId(v) =>
      if TruthyId(v) then
        (if v.IdNumber? && v.n > 0 then NatToStringValue(v.n); Some(IdText(v)) else Some(IdText(v)))
      else None
    case _ => None
  }

  /** A staff id, when there is one, is never the empty string, so `!staffId` rejects exactly null. */
  lemma StaffIdNonEmpty(stored: StoredUser)
    ensures GetStaffId(stored).Some? ==> GetStaffId(stored).value != ""
  {
    if GetStaffId(stored).Some? && stored.id.IdNumber? {
      var n := stored.id.n;
      if n < 0 {
        assert IntToString(n)[0] == '-';
      }
    }
  }

  /** The one callback the POS session registers. */
  datatype PosCallback = PosUpdate

  const NoStaffError := "Không tìm thấy staffId trong localStorage"

  function PosSubId(staffId: string, now: int): string { "sub-pos-" + staffId + "-" + IntToString(now) }

  function PosSubscribeFrame(staffId: string, now: int): Frame
  {
    Frame("SUBSCRIBE", [("id", PosSubId(staffId, now)), ("destination", "/topic/pos-app/" + staffId)], "")
  }

  class PosSocket {
    var open: bool
    var subscriptions: map<string, PosCallback>
    var sent: seq<string>

    constructor()
      ensures !open && subscriptions == map[] && sent == []
    {
      open := false;
      subscriptions := map[];
      sent := [];
    }

    /**
     * connectPosWebSocket up to creating the socket: without a staff id the
     * error is reported and nothing changes; otherwise a new, not yet open,
     * socket is created (an open one is not closed first).
     */
    method Connect(stored: StoredUser) returns (r: Result<string, string>)
      modifies this`open
      ensures r.Err? <==> GetStaffId(stored).None?
      ensures r.Err? ==> r.error == NoStaffError && open == old(open)
      ensures r.Ok? ==> r.value == GetStaffId(stored).value && r.value != "" && !open
    {
      var staffId := GetStaffId(stored);
      StaffIdNonEmpty(stored);
      if staffId.None? || staffId.value == "" {
        return Err(NoStaffError);
      }
      open := false;
      return Ok(staffId.value);
    }

    /** `ws.onopen`: send CONNECT and the POS SUBSCRIBE, and register the callback. */
    method OnOpen(staffId: string, now: int)
      modifies this
      ensures open
      ensures subscriptions == old(subscriptions)[PosSubId(staffId, now) := PosUpdate]
      ensures sent == old(sent) + [Encode(Frame("CONNECT", [("accept-version", "1.1,1.0"), ("heart-beat", "10000,10000")], "")),
                                   Encode(PosSubscribeFrame(staffId, now))]
    {
      open := true;
      var connect := CreateStompFrame("CONNECT", [("accept-version", "1.1,1.0"), ("heart-beat", "10000,10000")], "");
      sent := sent + [connect];
      var posId := PosSubId(staffId, now);
      var posFrame := CreateStompFrame("SUBSCRIBE", [("id", posId), ("destination", "/topic/pos-app/" + staffId)], "");
      sent := sent + [posFrame];
      subscriptions := subscriptions[posId := PosUpdate];
    }

    /** `ws.onmessage` */
    method OnMessage(data: string, bodyParses: bool) returns (d: Delivery<PosCallback>)
      ensures d == Dispatch(subscriptions, Decode(data), bodyParses)
    {
      var frame := ParseStompFrame(data);
      if frame.command == "MESSAGE" {
        var subId := SubscriptionKey(frame);
        if subId in subscriptions {
          if bodyParses {
            return Deliver(subscriptions[subId], frame.body);
          } else {
            return BodyError(subscriptions[subId]);
          }
        }
      }
      return NoCallback;
    }
  }
}
