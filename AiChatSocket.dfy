/**
 * The customer-side AI chat session (useAiChatWebSocket.js): the message
 * list with de-duplication by message id, the bounded set of ids already
 * seen, clearing the conversation, and the guards of sending a message.
 *
 * The JavaScript `Set` of processed ids keeps insertion order, so it is a
 * sequence of distinct ids here, oldest first. Clock readings and the random
 * suffixes of generated ids are parameters.
 */
module AiChatSocket {
  import opened Common

  const MaxProcessedIds := 1000

  datatype AiStatus = READY | PROCESSING | ERROR | STREAMING

  /** A message as it arrives (from the server or built locally). */
  datatype IncomingMessage = IncomingMessage(
    messageIdSnake: Option<string>,   // message_id
    messageIdCamel: Option<string>,   // messageId
    sender: string,
    content: string,
    messageType: string,
    timestamp: Option<int>)

  /** A message in the conversation list, with the id it was recorded under. */
  datatype ChatMessage = ChatMessage(messageId: string, sender: string, content: string, messageType: string, timestamp: int)

  /** A JavaScript string that may be missing; missing and "" are falsy. */
  predicate Truthy(s: Option<string>) { s.Some? && s.value != "" }

  /** `message.message_id || message.messageId || generated` */
  function MessageIdOf(m: IncomingMessage, generated: string): string
  {
    if Truthy(m.messageIdSnake) then m.messageIdSnake.value
    else if Truthy(m.messageIdCamel) then m.messageIdCamel.value
    else generated
  }

  /** The stored form: the chosen id, and the timestamp or the current time when it is missing or 0. */
  function Recorded(m: IncomingMessage, id: string, now: int): ChatMessage
  {
    ChatMessage(id, m.sender, m.content, m.messageType,
                if m.timestamp.Some? && m.timestamp.value != 0 then m.timestamp.value else now)
  }

  const CustomerSender := "Khách hàng"

  /** The id a sent message is recorded and sent under. */
  function UserMessageId(sessionId: string, now: int, suffix: string): (r: string)
    ensures r != ""
  {
    "user-msg-" + sessionId + "-" + IntToString(now) + "-" + suffix
  }

  function SendDestination(sessionId: string): string { "/app/ai-chat/" + sessionId + "/send" }

  predicate Distinct(s: seq<string>) { forall i, j :: 0 <= i < j < |s| ==> s[i] != s[j] }

  /** Drop the oldest ids beyond the cap. */
  function Evict(ids: seq<string>): (r: seq<string>)
    ensures |r| <= MaxProcessedIds
    ensures |ids| <= MaxProcessedIds ==> r == ids
    ensures |ids| > MaxProcessedIds ==> |r| == MaxProcessedIds
    ensures exists k :: 0 <= k <= |ids| && r == ids[k..]
    ensures |ids| > 0 ==> |r| > 0 && r[|r| - 1] == ids[|ids| - 1]
  {
    if |ids| > MaxProcessedIds then
      var r := ids[|ids| - MaxProcessedIds..];
      assert r == ids[|ids| - MaxProcessedIds..];
      r
    else
      assert ids == ids[0..];
      ids
  }

  lemma EvictDistinct(ids: seq<string>)
    requires Distinct(ids)
    ensures Distinct(Evict(ids))
  {
    if |ids| > MaxProcessedIds {
      var k := |ids| - MaxProcessedIds;
      forall i, j | 0 <= i < j < |Evict(ids)| ensures Evict(ids)[i] != Evict(ids)[j] {
        assert Evict(ids)[i] == ids[k + i] && Evict(ids)[j] == ids[k + j];
      }
    }
  }

  class AiChatSession {
    /** `messages.value` */
    var messages: seq<ChatMessage>
    /** `processedMessageIds`, oldest first. */
    var seen: seq<string>
    /** Whether `stompClient` is set. */
    var hasClient: bool
    var sessionId: Option<string>
    var aiStatus: AiStatus
    var aiTyping: bool
    /** Messages handed to the STOMP client, with their destination. */
    var outbox: seq<(string, ChatMessage)>

    ghost predicate Valid()
      reads this
    {
      |seen| <= MaxProcessedIds && Distinct(seen)
    }

    constructor()
      ensures Valid()
      ensures messages == [] && seen == [] && !hasClient && sessionId == None
      ensures aiStatus == READY && !aiTyping && outbox == []
    {
      messages := [];
      seen := [];
      hasClient := false;
      sessionId := None;
      aiStatus := READY;
      aiTyping := false;
      outbox := [];
    }

    /**
     * addMessageWithDeduplication: a message whose id was seen before is
     * refused and nothing changes; otherwise its id is recorded (evicting
     * the oldest when over the cap) and the message appended.
     */
    method AddMessageWithDeduplication(m: IncomingMessage, generated: string, now: int) returns (added: bool)
      requires Valid()
      modifies this`seen, this`messages
      ensures Valid()
      ensures added <==> MessageIdOf(m, generated) !in old(seen)
      ensures !added ==> seen == old(seen) && messages == old(messages)
      ensures added ==> seen == Evict(old(seen) + [MessageIdOf(m, generated)])
      ensures added ==> messages == old(messages) + [Recorded(m, MessageIdOf(m, generated), now)]
      ensures MessageIdOf(m, generated) in seen
    {
      var id := MessageIdOf(m, generated);
      if id in seen {
        return false;
      }
      var grown := seen + [id];
      assert Distinct(grown);
      EvictDistinct(grown);
      seen := grown;
      if |seen| > MaxProcessedIds {
        seen := seen[|seen| - MaxProcessedIds..];
      }
      messages := messages + [Recorded(m, id, now)];
      return true;
    }

    /** clearMessages: both the list and the seen ids are emptied. */
    method ClearMessages()
      modifies this`seen, this`messages
      ensures Valid()
      ensures messages == [] && seen == []
    {
      messages := [];
      seen := [];
    }

    /**
     * sendMessage: refused without a client, without a session or with
     * blank content; otherwise the trimmed message is recorded under a fresh
     * id and sent, and the assistant is marked as working.
     */
    method SendMessage(content: string, now: int, suffix: string) returns (ok: bool)
      requires Valid()
      modifies this`seen, this`messages, this`outbox, this`aiStatus, this`aiTyping
      ensures Valid()
      ensures ok <==> hasClient && Truthy(sessionId) && JsTrim(content) != ""
                      && UserMessageId(sessionId.value, now, suffix) !in old(seen)
      ensures ok ==> seen == Evict(old(seen) + [UserMessageId(sessionId.value, now, suffix)])
      ensures ok ==> |messages| == |old(messages)| + 1 && messages[|messages| - 1].content == JsTrim(content)
      ensures ok ==> outbox == old(outbox) + [(SendDestination(sessionId.value), messages[|messages| - 1])]
      ensures ok ==> aiStatus == PROCESSING && aiTyping
      ensures !ok ==> seen == old(seen) && messages == old(messages) && outbox == old(outbox)
                      && aiStatus == old(aiStatus) && aiTyping == old(aiTyping)
    {
      if !hasClient || !Truthy(sessionId) || JsTrim(content) == "" {
        return false;
      }
      ghost var id := UserMessageId(sessionId.value, now, suffix);
      ok := RecordAndSend(sessionId.value, JsTrim(content), now, suffix);
      assert ok <==> id !in old(seen);
    }

    /** The accepted half of sendMessage: record the trimmed text under a fresh id, then send it. */
    method RecordAndSend(session: string, text: string, now: int, suffix: string) returns (ok: bool)
      requires Valid()
      modifies this`seen, this`messages, this`outbox, this`aiStatus, this`aiTyping
      ensures Valid()
      ensures ok <==> UserMessageId(session, now, suffix) !in old(seen)
      ensures ok ==> seen == Evict(old(seen) + [UserMessageId(session, now, suffix)])
      ensures ok ==> |messages| == |old(messages)| + 1 && messages[|messages| - 1].content == text
      ensures ok ==> outbox == old(outbox) + [(SendDestination(session), messages[|messages| - 1])]
      ensures ok ==> aiStatus == PROCESSING && aiTyping
      ensures !ok ==> outbox == old(outbox) && aiStatus == old(aiStatus) && messages == old(messages)
      ensures !ok ==> seen == old(seen) && aiTyping == old(aiTyping)
    {
      var messageId := UserMessageId(session, now, suffix);
      var message := IncomingMessage(Some(messageId), None, CustomerSender, text, "USER_MESSAGE", Some(now));
      assert MessageIdOf(message, messageId) == messageId;
      var added := AddMessageWithDeduplication(message, messageId, now);
      if !added {
        return false;
      }
      outbox := outbox + [(SendDestination(session), Recorded(message, messageId, now))];
      aiStatus := PROCESSING;
      aiTyping := true;
      return true;
    }
  }
}
