/**
 * The admin chat client's WebSocket session (chat.js): the guard before
 * connecting, the frames sent when the socket opens, the subscription table
 * it fills, the dispatch of incoming MESSAGE frames and disconnecting.
 *
 * The socket itself is reduced to an `open` flag and the list of frames
 * sent on it; `Date.now()` is passed in, one reading per subscription id.
 */
module Chat {
  import opened Common
  import opened Stomp

  /** The three callbacks a chat session registers. */
  datatype ChatCallback = PublicMessage | PrivateMessage | JoinMessage

  const GuardError := "Vui lòng cung cấp tên người dùng và ID phòng"

  /** The CONNECT frame sent first on every open socket. */
  function ConnectFrame(): Frame
  {
    Frame("CONNECT", [("accept-version", "1.1,1.0"), ("heart-beat", "10000,10000")], "")
  }

  function SubscribeFrame(id: string, destination: string): Frame
  {
    Frame("SUBSCRIBE", [("id", id), ("destination", destination)], "")
  }

  function PublicSubId(sessionId: string, now: int): string { "sub-public-" + sessionId + "-" + IntToString(now) }
  function PrivateSubId(username: string, now: int): string { "sub-private-" + username + "-" + IntToString(now) }
  function JoinSubId(sessionId: string, now: int): string { "sub-join-" + sessionId + "-" + IntToString(now) }

  /** A JavaScript string argument that may be missing; missing and "" are falsy. */
  predicate Truthy(s: Option<string>) { s.Some? && s.value != "" }

  /**
   * The three subscription ids differ whatever the user, room and clock
   * readings, so no callback overwrites another.
   */
  lemma SubIdsDistinct(username: string, sessionId: string, t1: int, t2: int, t3: int)
    ensures PublicSubId(sessionId, t1) != PrivateSubId(username, t2)
    ensures PublicSubId(sessionId, t1) != JoinSubId(sessionId, t3)
    ensures PrivateSubId(username, t2) != JoinSubId(sessionId, t3)
  {
    assert PublicSubId(sessionId, t1)[5] == 'u' && PrivateSubId(username, t2)[5] == 'r';
    assert PublicSubId(sessionId, t1)[4] == 'p' && JoinSubId(sessionId, t3)[4] == 'j';
    assert PrivateSubId(username, t2)[4] == 'p';
  }

  class ChatSocket {
    /** `ws && ws.readyState === WebSocket.OPEN` */
    var open: bool
    /** The module-level `subscriptions` object. */
    var subscriptions: map<string, ChatCallback>
    /** Frames sent on the socket, oldest first. */
    var sent: seq<string>

    constructor()
      ensures !open && subscriptions == map[] && sent == []
    {
      open := false;
      subscriptions := map[];
      sent := [];
    }

    /**
     * connectWebSocket up to creating the socket: a missing or empty user
     * name or room id is reported and nothing happens; otherwise an open
     * socket is closed and a new, not yet open, one takes its place.
     * Subscriptions are kept.
     */
    method Connect(username: Option<string>, sessionId: Option<string>) returns (r: Result<(), string>)
      modifies this`open
      ensures r.Err? <==> !Truthy(username) || !Truthy(sessionId)
      ensures r.Err? ==> r.error == GuardError && open == old(open)
      ensures r.Ok? ==> !open
    {
      if !Truthy(username) || !Truthy(sessionId) {
        return Err(GuardError);
      }
      open := false;
      return Ok(());
    }

    /**
     * `ws.onopen`: send CONNECT, then one SUBSCRIBE per destination,
     * registering each callback under its new id.
     */
    method OnOpen(username: string, sessionId: string, t1: int, t2: int, t3: int)
      modifies this
      ensures open
      ensures subscriptions == old(subscriptions)[PublicSubId(sessionId, t1) := PublicMessage]
                                                 [PrivateSubId(username, t2) := PrivateMessage]
                                                 [JoinSubId(sessionId, t3) := JoinMessage]
      ensures sent == old(sent) + [Encode(ConnectFrame()),
                                   Encode(SubscribeFrame(PublicSubId(sessionId, t1), "/topic/chatbox/" + sessionId)),
                                   Encode(SubscribeFrame(PrivateSubId(username, t2), "/user/" + username + "/queue/chat")),
                                   Encode(SubscribeFrame(JoinSubId(sessionId, t3), "/topic/join/" + sessionId))]
    {
      open := true;
      var connect := CreateStompFrame("CONNECT", ConnectFrame().headers, "");
      sent := sent + [connect];

      var publicId := PublicSubId(sessionId, t1);
      var publicFrame := CreateStompFrame("SUBSCRIBE", [("id", publicId), ("destination", "/topic/chatbox/" + sessionId)], "");
      sent := sent + [publicFrame];
      subscriptions := subscriptions[publicId := PublicMessage];

      var privateId := PrivateSubId(username, t2);
      var privateFrame := CreateStompFrame("SUBSCRIBE", [("id", privateId), ("destination", "/user/" + username + "/queue/chat")], "");
      sent := sent + [privateFrame];
      subscriptions := subscriptions[privateId := PrivateMessage];

      var joinId := JoinSubId(sessionId, t3);
      var joinFrame := CreateStompFrame("SUBSCRIBE", [("id", joinId), ("destination", "/topic/join/" + sessionId)], "");
      sent := sent + [joinFrame];
      subscriptions := subscriptions[joinId := JoinMessage];
    }

    /** `ws.onmessage`: which callback, if any, receives the frame. */
    method OnMessage(data: string, bodyParses: bool) returns (d: Delivery<ChatCallback>)
      ensures d == Dispatch(subscriptions, Decode(data), bodyParses)
    {
      var frame := ParseStompFrame(data);
      if frame.command == "MESSAGE" {
        var subId := SubscriptionKey(frame);
        if subId in subscriptions {
          var callback := subscriptions[subId];
          if bodyParses {
            return Deliver(callback, frame.body);
          } else {
            return BodyError(callback);
          }
        }
      }
      return NoCallback;
    }

    /** disconnectWebSocket: only an open socket is closed and forgets its subscriptions. */
    method Disconnect()
      modifies this`open, this`subscriptions
      ensures !open
      ensures old(open) ==> subscriptions == map[]
      ensures !old(open) ==> subscriptions == old(subscriptions)
    {
      if open {
        open := false;
        subscriptions := map[];
      }
    }
  }

  /**
   * After the socket opens, a well-formed MESSAGE frame addressed to the
   * private subscription reaches the private-message callback, whatever was
   * registered before.
   */
  lemma PrivateMessageDelivered(before: map<string, ChatCallback>, username: string, sessionId: string,
                                t1: int, t2: int, t3: int, f: Frame, k: int)
    requires WellFormed(f) && f.command == "MESSAGE"
    requires 0 <= k < |f.headers| && f.headers[k] == ("subscription", PrivateSubId(username, t2))
    ensures Dispatch(before[PublicSubId(sessionId, t1) := PublicMessage]
                           [PrivateSubId(username, t2) := PrivateMessage]
                           [JoinSubId(sessionId, t3) := JoinMessage],
                     Decode(Encode(f)), true)
            == Deliver(PrivateMessage, f.body)
  {
    SubIdsDistinct(username, sessionId, t1, t2, t3);
    var subs := before[PublicSubId(sessionId, t1) := PublicMessage]
                      [PrivateSubId(username, t2) := PrivateMessage]
                      [JoinSubId(sessionId, t3) := JoinMessage];
    assert subs[PrivateSubId(username, t2)] == PrivateMessage;
    DeliveredToSubscriber(subs, f, k);
  }
}
