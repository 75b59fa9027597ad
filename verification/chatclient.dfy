/**
 * The private chat hook of frontend/src/services/chatService.js.
 *
 * The React state (`messages`, a list per contact; `unreadCounts`, a count
 * per sender; `typingUsers`, a parsed timestamp per typist) are values and
 * each update the hook makes is a function from the previous value to the
 * next. The typing debounce keeps a table of timers that it mutates in
 * place, so it is a class. A fetch is its outcome; a thrown request is
 * `Err`; JavaScript's `parseInt` is an optional integer (`None` for NaN).
 */
module ChatClient {
  import opened Wrappers
  import GroupChat

  const PrivateMessageType := "private_message"
  const MessagesReadType := "messages_read"
  const UserTypingType := "user_typing"

  /** The debounce delay of the typing indicator, in milliseconds. */
  const TypingDebounce: nat := 500

  /** A private message as the hook keeps it. */
  datatype Msg = Msg(id: string, senderId: string, receiverId: string, content: string, createdAt: string,
                     isRead: bool, readAt: Option<string>, sender: Option<GroupChat.Sender>)

  /** The payload of a `private_message` event. */
  datatype MessagePayload = MessagePayload(messageId: string, senderId: string, receiverId: string, content: string,
                                           createdAt: string, isRead: bool, senderName: Option<string>,
                                           senderAvatar: string)

  /** A contact's messages, none when it has no entry (`prev[id] || []`). */
  function MessagesOf(messages: map<string, seq<Msg>>, contactId: string): seq<Msg>
  {
    if contactId in messages then messages[contactId] else []
  }

  /** A sender's unread count, zero when it has no entry (`prev[id] || 0`). */
  function UnreadOf(unread: map<string, nat>, senderId: string): nat
  {
    if senderId in unread then unread[senderId] else 0
  }

  /** `loadMessages`: the fetched list replaces the contact's list, whatever it held; a failed fetch changes nothing. */
  function LoadMessages(messages: map<string, seq<Msg>>, contactId: string, response: Result<seq<Msg>>)
    : (r: (map<string, seq<Msg>>, seq<Msg>))
    ensures response.Err? ==> r == (messages, [])
    ensures response.Ok? ==> r.1 == response.value && MessagesOf(r.0, contactId) == response.value
    ensures forall c :: c != contactId ==> MessagesOf(r.0, c) == MessagesOf(messages, c)
  {
    match response
    case Err(_) => (messages, [])
    case Ok(data) => (messages[contactId := data], data)
  }

  /** `sendMessage`: the server's copy of the message goes last in the receiver's list; a failure changes nothing. */
  function SendMessage(messages: map<string, seq<Msg>>, receiverId: string, response: Result<Msg>)
    : (r: map<string, seq<Msg>>)
    ensures response.Err? ==> r == messages
    ensures response.Ok? ==> MessagesOf(r, receiverId) == MessagesOf(messages, receiverId) + [response.value]
    ensures forall c :: c != receiverId ==> MessagesOf(r, c) == MessagesOf(messages, c)
  {
    if response.Err? then messages
    else messages[receiverId := MessagesOf(messages, receiverId) + [response.value]]
  }

  /** `markMessagesAsRead`: the sender's count is zero afterwards unless the request threw (an HTTP error status does not). */
  function MarkMessagesAsRead(unread: map<string, nat>, senderId: string, threw: bool): (r: map<string, nat>)
    ensures threw ==> r == unread
    ensures !threw ==> UnreadOf(r, senderId) == 0
    ensures forall s :: s != senderId ==> UnreadOf(r, s) == UnreadOf(unread, s)
  {
    if threw then unread else unread[senderId := 0]
  }

  /** The contact a message is filed under: the other party of the current user. */
  function ContactOf(me: string, senderId: string, receiverId: string): (c: string)
    ensures senderId != me ==> c == senderId
    ensures senderId == me ==> c == receiverId
  {
    if me == senderId then receiverId else senderId
  }

  /** The message an event describes; the sender's name split at its spaces. */
  function FromPayload(p: MessagePayload): (m: Msg)
    requires p.senderName.Some?
    ensures m.id == p.messageId && m.senderId == p.senderId && m.receiverId == p.receiverId
    ensures m.content == p.content && m.isRead == p.isRead
  {
    Msg(p.messageId, p.senderId, p.receiverId, p.content, p.createdAt, p.isRead, None,
        Some(GroupChat.Sender(p.senderId, GroupChat.NamePart(p.senderName, 0), GroupChat.NamePart(p.senderName, 1),
                              p.senderAvatar)))
  }

  /**
   * The `private_message` listener: the message goes last in the list of
   * the other party, and the sender's unread count grows by one when the
   * current user received it unread. A missing payload, or one without a
   * sender name (splitting it throws), changes nothing.
   */
  function OnPrivateMessage(messages: map<string, seq<Msg>>, unread: map<string, nat>, p: Option<MessagePayload>,
                            me: string): (r: (map<string, seq<Msg>>, map<string, nat>))
    ensures p.None? || p.value.senderName.None? ==> r == (messages, unread)
    ensures p.Some? && p.value.senderName.Some? ==>
              var c := ContactOf(me, p.value.senderId, p.value.receiverId);
              MessagesOf(r.0, c) == MessagesOf(messages, c) + [FromPayload(p.value)]
              && (forall o :: o != c ==> MessagesOf(r.0, o) == MessagesOf(messages, o))
              && UnreadOf(r.1, p.value.senderId)
                 == UnreadOf(unread, p.value.senderId) + (if p.value.receiverId == me && !p.value.isRead then 1 else 0)
              && (forall s :: s != p.value.senderId ==> UnreadOf(r.1, s) == UnreadOf(unread, s))
  {
    if p.None? || p.value.senderName.None? then (messages, unread)
    else
      var q := p.value;
      var c := ContactOf(me, q.senderId, q.receiverId);
      var msgs := messages[c := MessagesOf(messages, c) + [FromPayload(q)]];
      var counts := if q.receiverId == me && !q.isRead then unread[q.senderId := UnreadOf(unread, q.senderId) + 1] else unread;
      (msgs, counts)
  }

  /** A message to someone else is filed under its receiver and counts as unread for nobody. */
  lemma OwnMessageNotCounted(messages: map<string, seq<Msg>>, unread: map<string, nat>, p: MessagePayload, me: string)
    requires p.senderName.Some? && p.senderId == me && p.receiverId != me
    ensures var r := OnPrivateMessage(messages, unread, Some(p), me);
            FromPayload(p) in MessagesOf(r.0, p.receiverId) && r.1 == unread
  {
    var r := OnPrivateMessage(messages, unread, Some(p), me);
    var l := MessagesOf(r.0, p.receiverId);
    assert l[|l| - 1] == FromPayload(p);
  }

  /** A message to the current user is filed under its sender, whose count grows when it is unread. */
  lemma IncomingMessageCounted(messages: map<string, seq<Msg>>, unread: map<string, nat>, p: MessagePayload, me: string)
    requires p.senderName.Some? && p.senderId != me && p.receiverId == me && !p.isRead
    ensures var r := OnPrivateMessage(messages, unread, Some(p), me);
            FromPayload(p) in MessagesOf(r.0, p.senderId) && UnreadOf(r.1, p.senderId) == UnreadOf(unread, p.senderId) + 1
  {
    var r := OnPrivateMessage(messages, unread, Some(p), me);
    var l := MessagesOf(r.0, p.senderId);
    assert l[|l| - 1] == FromPayload(p);
  }

  /** The current user's unread messages in a list marked read at `readAt`; every other message as it was. */
  function MarkOwnRead(msgs: seq<Msg>, me: string, readAt: string): (r: seq<Msg>)
    ensures |r| == |msgs|
    ensures forall i :: 0 <= i < |msgs| ==>
              r[i] == if msgs[i].senderId == me && !msgs[i].isRead then msgs[i].(isRead := true, readAt := Some(readAt))
                      else msgs[i]
  {
    if msgs == [] then []
    else
      var m := msgs[|msgs| - 1];
      MarkOwnRead(msgs[..|msgs| - 1], me, readAt)
      + [if m.senderId == me && !m.isRead then m.(isRead := true, readAt := Some(readAt)) else m]
  }

  /** The payload of a `messages_read` event: who sent the messages, who read them, and when. */
  datatype ReadPayload = ReadPayload(senderId: string, receiverId: string, readAt: string)

  /**
   * The `messages_read` listener: when the current user is the sender, its
   * messages to the reader become read; nothing else changes.
   */
  function OnMessagesRead(messages: map<string, seq<Msg>>, p: Option<ReadPayload>, me: string)
    : (r: map<string, seq<Msg>>)
    ensures !(p.Some? && p.value.senderId == me) ==> r == messages
    ensures p.Some? && p.value.senderId == me ==>
              MessagesOf(r, p.value.receiverId) == MarkOwnRead(MessagesOf(messages, p.value.receiverId), me, p.value.readAt)
              && forall c :: c != p.value.receiverId ==> MessagesOf(r, c) == MessagesOf(messages, c)
  {
    if p.None? || p.value.senderId != me then messages
    else messages[p.value.receiverId := MarkOwnRead(MessagesOf(messages, p.value.receiverId), me, p.value.readAt)]
  }

  /** A read receipt touches only the current user's messages: the other party's keep their read state. */
  lemma ReceiptLeavesTheirMessages(messages: map<string, seq<Msg>>, p: ReadPayload, me: string, i: nat)
    requires p.senderId == me && i < |MessagesOf(messages, p.receiverId)|
    requires MessagesOf(messages, p.receiverId)[i].senderId != me
    ensures MessagesOf(OnMessagesRead(messages, Some(p), me), p.receiverId)[i] == MessagesOf(messages, p.receiverId)[i]
  {
  }

  /** The payload of a `user_typing` event, its timestamp already parsed. */
  datatype TypingPayload = TypingPayload(senderId: string, timestamp: Option<int>)

  /** The typing listener: the typist's entry is set to this event's timestamp. */
  function OnTyping(typing: map<string, Option<int>>, p: Option<TypingPayload>): (r: map<string, Option<int>>)
    ensures p.None? ==> r == typing
    ensures p.Some? ==> r == typing[p.value.senderId := p.value.timestamp]
  {
    if p.None? then typing else typing[p.value.senderId := p.value.timestamp]
  }

  /** The timer three seconds after a typing event: the entry goes only while it holds that event's timestamp (NaN equals nothing). */
  function ExpireTyping(typing: map<string, Option<int>>, senderId: string, timestamp: Option<int>)
    : (r: map<string, Option<int>>)
    ensures senderId in typing && timestamp.Some? && typing[senderId] == timestamp ==> r == typing - {senderId}
    ensures !(senderId in typing && timestamp.Some? && typing[senderId] == timestamp) ==> r == typing
  {
    if senderId in typing && typing[senderId].Some? && timestamp.Some? && typing[senderId].value == timestamp.value
    then typing - {senderId}
    else typing
  }

  /** An entry whose timestamp did not parse is never removed by its timer. */
  lemma UnparsedTimestampStays(typing: map<string, Option<int>>, senderId: string)
    ensures senderId in ExpireTyping(OnTyping(typing, Some(TypingPayload(senderId, None))), senderId, None)
  {
  }

  /**
   * The debounce of `sendTypingIndicator`: one timer per receiver, kept in
   * a table that the calls and the timers update in place. Timers are
   * numbered in the order they are set.
   */
  class TypingDebouncer {
    /** `typingTimeouts`: the timer pending for each receiver. */
    var timeouts: map<string, nat>
    /** The timers cleared so far, in order. */
    var cleared: seq<nat>
    /** The receivers a typing request was sent for, in order. */
    var requests: seq<string>
    var nextTimer: nat

    /** Every pending timer was set already. */
    predicate Valid()
      reads this
    {
      forall r :: r in timeouts ==> timeouts[r] < nextTimer
    }

    constructor ()
      ensures Valid() && timeouts == map[] && cleared == [] && requests == [] && nextTimer == 0
    {
      timeouts := map[];
      cleared := [];
      requests := [];
      nextTimer := 0;
    }

    /** A keystroke for `receiverId`: its pending timer, if any, is cleared and a new one set. */
    method Type(receiverId: string)
      requires Valid()
      modifies this
      ensures Valid()
      ensures timeouts == old(timeouts)[receiverId := old(nextTimer)] && nextTimer == old(nextTimer) + 1
      ensures cleared == old(cleared) + (if receiverId in old(timeouts) then [old(timeouts)[receiverId]] else [])
      ensures requests == old(requests)
    {
      if receiverId in timeouts {
        cleared := cleared + [timeouts[receiverId]];
      }
      timeouts := timeouts[receiverId := nextTimer];
      nextTimer := nextTimer + 1;
    }

    /**
     * The pending timer for `receiverId` fires after 500 ms without a
     * keystroke: one request is sent, and the entry is dropped unless the
     * request threw.
     */
    method Fire(receiverId: string, threw: bool)
      requires Valid() && receiverId in timeouts
      modifies this
      ensures Valid()
      ensures requests == old(requests) + [receiverId]
      ensures timeouts == if threw then old(timeouts) else old(timeouts) - {receiverId}
      ensures cleared == old(cleared) && nextTimer == old(nextTimer)
    {
      requests := requests + [receiverId];
      if !threw {
        timeouts := timeouts - {receiverId};
      }
    }
  }

  /**
   * A burst of keystrokes for one receiver followed by a quiet half second
   * sends one request: every timer of the burst but the last is cleared.
   */
  method Burst(d: TypingDebouncer, receiverId: string, keystrokes: nat) returns (sent: seq<string>)
    requires d.Valid() && keystrokes >= 1 && receiverId !in d.timeouts
    modifies d
    ensures d.Valid()
    ensures sent == [receiverId] && d.requests == old(d.requests) + [receiverId]
    ensures |d.cleared| == |old(d.cleared)| + keystrokes - 1
  {
    var before := |d.requests|;
    var k := 0;
    while k < keystrokes
      invariant d.Valid() && 0 <= k <= keystrokes
      invariant d.requests == old(d.requests)
      invariant k == 0 ==> receiverId !in d.timeouts && d.cleared == old(d.cleared)
      invariant k > 0 ==> receiverId in d.timeouts && |d.cleared| == |old(d.cleared)| + k - 1
    {
      d.Type(receiverId);
      k := k + 1;
    }
    d.Fire(receiverId, false);
    sent := d.requests[before..];
  }
}
