/**
 * The group chat hook of frontend/src/services/groupChatService.js.
 *
 * Each piece of React state (`messages`, `unreadCounts`, `typingUsers`,
 * `activeUsers`) is a value, and each state update the hook performs is a
 * function from the previous value to the next. A fetch is its outcome
 * (`Err` for a failed request or a non-OK response, `None` for a JSON null
 * body); the clock's `new Date().toISOString()` is a parameter; JavaScript's
 * `parseInt` is an optional integer, `None` standing for NaN. A missing
 * WebSocket payload is `None`.
 */
module GroupChat {
  import opened Wrappers
  import opened Text

  const GroupMessageType := "group_message"
  const GroupMessagesReadType := "group_messages_read"
  const GroupUserTypingType := "group_user_typing"
  const GroupUserJoinedType := "group_user_joined"
  const GroupUserLeftType := "group_user_left"

  /** How long a typing entry lives, in milliseconds. */
  const TypingTimeout: nat := 3000

  datatype Sender = Sender(id: string, firstName: string, lastName: string, avatar: string)

  /**
   * A message in the list: fetched, built from a WebSocket event, or an
   * optimistic temporary one the page adds while sending.
   */
  datatype Msg = Msg(id: string, senderId: string, groupId: string, content: string, createdAt: string,
                     isRead: bool, readAt: Option<string>, isTemp: bool, sender: Option<Sender>)

  /** The payload of a `group_message` event. */
  datatype MessagePayload = MessagePayload(messageId: string, senderId: string, groupId: string, content: string,
                                           createdAt: string, isRead: bool, senderName: Option<string>,
                                           senderAvatar: string)

  /** A member shown as active. */
  datatype ActiveUser = ActiveUser(id: string, name: string, avatar: string, isOnline: bool)

  /** A typing entry: the parsed timestamp of its event and the typist's name. */
  datatype Typing = Typing(timestamp: Option<int>, name: string)

  /** Some message of the list has this id. */
  predicate HasId(msgs: seq<Msg>, id: string)
  {
    exists m :: m in msgs && m.id == id
  }

  /** The fetched messages whose id is not in `prev`, in fetched order. */
  function NewOnes(prev: seq<Msg>, data: seq<Msg>): (r: seq<Msg>)
    ensures forall m :: m in r <==> m in data && !HasId(prev, m.id)
    ensures |r| <= |data|
  {
    if data == [] then []
    else
      var last := data[|data| - 1];
      NewOnes(prev, data[..|data| - 1]) + (if HasId(prev, last.id) then [] else [last])
  }

  /**
   * `loadMessages`' state update: a null body empties the list; otherwise
   * the fetched messages with a new id follow the messages already there.
   */
  function Loaded(prev: seq<Msg>, data: Option<seq<Msg>>): (r: seq<Msg>)
    ensures data.None? ==> r == []
    ensures data.Some? ==> |r| >= |prev| && r[..|prev|] == prev && r[|prev|..] == NewOnes(prev, data.value)
    ensures data.Some? ==> forall m :: m in data.value ==> HasId(r, m.id)
  {
    if data.None? then []
    else
      var r := prev + NewOnes(prev, data.value);
      assert r[..|prev|] == prev && r[|prev|..] == NewOnes(prev, data.value);
      assert forall m :: m in data.value && HasId(prev, m.id) ==> HasId(r, m.id);
      assert forall m :: m in data.value && !HasId(prev, m.id) ==> m in r && HasId(r, m.id);
      r
  }

  /** `loadMessages`: the new list and what the call returns; a failed fetch changes nothing and returns none. */
  function LoadMessages(prev: seq<Msg>, response: Result<Option<seq<Msg>>>): (r: (seq<Msg>, seq<Msg>))
    ensures response.Err? ==> r == (prev, [])
    ensures response.Ok? ==> r.0 == Loaded(prev, response.value)
    ensures response.Ok? ==> r.1 == (if response.value.Some? then response.value.value else [])
  {
    match response
    case Err(_) => (prev, [])
    case Ok(None) => ([], [])
    case Ok(Some(data)) => (Loaded(prev, Some(data)), data)
  }

  /** When every fetched id is already listed, nothing is new. */
  lemma {:induction false} NothingNew(prev: seq<Msg>, data: seq<Msg>)
    requires forall m :: m in data ==> HasId(prev, m.id)
    ensures NewOnes(prev, data) == []
  {
    if data != [] {
      assert forall m :: m in data[..|data| - 1] ==> m in data;
      NothingNew(prev, data[..|data| - 1]);
      assert data[|data| - 1] in data;
    }
  }

  /** Reloading the same page of messages adds nothing the first load did not. */
  lemma LoadTwice(prev: seq<Msg>, data: seq<Msg>)
    ensures Loaded(Loaded(prev, Some(data)), Some(data)) == Loaded(prev, Some(data))
  {
    var once := Loaded(prev, Some(data));
    var twice := Loaded(once, Some(data));
    NothingNew(once, data);
    assert twice == twice[..|once|] + twice[|once|..];
  }

  /** Every unread message becomes read at `readAt`; read ones are left as they are. */
  function MarkAllRead(msgs: seq<Msg>, readAt: string): (r: seq<Msg>)
    ensures |r| == |msgs|
    ensures forall i :: 0 <= i < |msgs| ==>
              r[i] == if msgs[i].isRead then msgs[i] else msgs[i].(isRead := true, readAt := Some(readAt))
    ensures forall i :: 0 <= i < |r| ==> r[i].isRead
  {
    if msgs == [] then []
    else
      var m := msgs[|msgs| - 1];
      MarkAllRead(msgs[..|msgs| - 1], readAt) + [if m.isRead then m else m.(isRead := true, readAt := Some(readAt))]
  }

  /** Marking twice is marking once: the second pass finds nothing unread. */
  lemma MarkAllReadIdempotent(msgs: seq<Msg>, t1: string, t2: string)
    ensures MarkAllRead(MarkAllRead(msgs, t1), t2) == MarkAllRead(msgs, t1)
  {
  }

  /** `markMessagesAsRead`: after a successful request, no unread count and every message read; otherwise nothing changes. */
  function MarkMessagesAsRead(msgs: seq<Msg>, unread: nat, requestOk: bool, now: string): (r: (seq<Msg>, nat, bool))
    ensures r.2 == requestOk
    ensures requestOk ==> r.0 == MarkAllRead(msgs, now) && r.1 == 0
    ensures !requestOk ==> r.0 == msgs && r.1 == unread
  {
    if requestOk then (MarkAllRead(msgs, now), 0, true) else (msgs, unread, false)
  }

  /** A part of `senderName?.split(" ")[i] || ""`: the empty string for a missing name or part. */
  function NamePart(name: Option<string>, i: nat): string
  {
    if name.None? then ""
    else
      var parts := Split(name.value, ' ');
      if i < |parts| then parts[i] else ""
  }

  /** A two-word name splits into the first and last name. */
  lemma NameOfTwoWords(first: string, last: string)
    requires ' ' !in first && ' ' !in last
    ensures NamePart(Some(first + " " + last), 0) == first && NamePart(Some(first + " " + last), 1) == last
  {
    SplitAppend(first, ' ', last);
    assert first + " " + last == first + [' '] + last;
  }

  /** The message a `group_message` payload describes; it is never a temporary one. */
  function FromPayload(p: MessagePayload): (m: Msg)
    ensures m.id == p.messageId && m.senderId == p.senderId && m.content == p.content && !m.isTemp
  {
    Msg(p.messageId, p.senderId, p.groupId, p.content, p.createdAt, p.isRead, None, false,
        Some(Sender(p.senderId, NamePart(p.senderName, 0), NamePart(p.senderName, 1), p.senderAvatar)))
  }

  /** A temporary message standing for the one being sent: same sender, same content. */
  predicate TempMatch(m: Msg, p: MessagePayload)
  {
    m.isTemp && m.senderId == p.senderId && m.content == p.content
  }

  /** `msg.id === messageId` or a temporary match. */
  predicate Known(m: Msg, p: MessagePayload)
  {
    m.id == p.messageId || TempMatch(m, p)
  }

  /** Each temporary match replaced by the message. */
  function ReplaceTemps(msgs: seq<Msg>, p: MessagePayload): (r: seq<Msg>)
    ensures |r| == |msgs|
    ensures forall i :: 0 <= i < |msgs| ==> r[i] == if TempMatch(msgs[i], p) then FromPayload(p) else msgs[i]
  {
    if msgs == [] then []
    else
      var m := msgs[|msgs| - 1];
      ReplaceTemps(msgs[..|msgs| - 1], p) + [if TempMatch(m, p) then FromPayload(p) else m]
  }

  /** The payload is there and belongs to the hook's group. */
  predicate ForGroup(groupId: string, payloadGroupId: Option<string>)
  {
    payloadGroupId.Some? && payloadGroupId.value == groupId
  }

  function GroupOf(p: Option<MessagePayload>): Option<string>
  {
    if p.Some? then Some(p.value.groupId) else None
  }

  /**
   * The `group_message` listener: the message list and the unread count
   * after it. A known message (same id, or a temporary match) is not
   * appended again; the temporary matches are replaced by it; the unread
   * count grows for a message from someone else that is not read.
   */
  function OnGroupMessage(msgs: seq<Msg>, unread: nat, p: Option<MessagePayload>, groupId: string, currentUser: string)
    : (r: (seq<Msg>, nat))
    ensures !ForGroup(groupId, GroupOf(p)) ==> r == (msgs, unread)
    ensures ForGroup(groupId, GroupOf(p)) ==>
              r.1 == unread + (if p.value.senderId != currentUser && !p.value.isRead then 1 else 0)
    ensures ForGroup(groupId, GroupOf(p)) && (exists m :: m in msgs && Known(m, p.value)) ==>
              r.0 == ReplaceTemps(msgs, p.value)
    ensures ForGroup(groupId, GroupOf(p)) && !(exists m :: m in msgs && Known(m, p.value)) ==>
              r.0 == msgs + [FromPayload(p.value)]
  {
    if !ForGroup(groupId, GroupOf(p)) then (msgs, unread)
    else
      var q := p.value;
      var next := if exists m :: m in msgs && Known(m, q) then ReplaceTemps(msgs, q) else msgs + [FromPayload(q)];
      (next, if q.senderId != currentUser && !q.isRead then unread + 1 else unread)
  }

  /**
   * After a message event for the group, the message is in the list
   * unless only its id was known, no temporary copy of it is left, and the
   * list grew by at most one.
   */
  lemma MessageEventOutcome(msgs: seq<Msg>, unread: nat, p: MessagePayload, currentUser: string)
    ensures var r := OnGroupMessage(msgs, unread, Some(p), p.groupId, currentUser).0;
            (forall m :: m in r ==> !TempMatch(m, p))
            && (|r| == |msgs| || r == msgs + [FromPayload(p)])
            && ((exists m :: m in msgs && TempMatch(m, p)) || !HasId(msgs, p.messageId) ==> FromPayload(p) in r)
  {
    var r := OnGroupMessage(msgs, unread, Some(p), p.groupId, currentUser).0;
    if exists m :: m in msgs && Known(m, p) {
      forall m | m in r ensures !TempMatch(m, p) {
        var i :| 0 <= i < |r| && r[i] == m;
      }
      if exists m :: m in msgs && TempMatch(m, p) {
        var m :| m in msgs && TempMatch(m, p);
        var i :| 0 <= i < |msgs| && msgs[i] == m;
        assert r[i] == FromPayload(p);
      }
    } else {
      assert r == msgs + [FromPayload(p)];
      assert r[|msgs|] == FromPayload(p);
    }
  }

  /** A message already in the list under its id, with no temporary copy, leaves the list as it was. */
  lemma DuplicateDeliveryIgnored(msgs: seq<Msg>, unread: nat, p: MessagePayload, currentUser: string)
    requires HasId(msgs, p.messageId) && forall m :: m in msgs ==> !TempMatch(m, p)
    ensures OnGroupMessage(msgs, unread, Some(p), p.groupId, currentUser).0 == msgs
  {
    var m :| m in msgs && m.id == p.messageId;
    assert Known(m, p);
    assert ReplaceTemps(msgs, p) == msgs;
  }

  /** The payload of a `group_messages_read` event. */
  datatype ReadPayload = ReadPayload(groupId: string, userId: string, readAt: string)

  /** The `group_messages_read` listener: when the reader is the current user, every message is read and the count is reset. */
  function OnMessagesRead(msgs: seq<Msg>, unread: nat, p: Option<ReadPayload>, groupId: string, currentUser: string)
    : (r: (seq<Msg>, nat))
    ensures !(p.Some? && p.value.groupId == groupId && p.value.userId == currentUser) ==> r == (msgs, unread)
    ensures p.Some? && p.value.groupId == groupId && p.value.userId == currentUser ==>
              r == (MarkAllRead(msgs, p.value.readAt), 0)
  {
    if p.None? || p.value.groupId != groupId || p.value.userId != currentUser then (msgs, unread)
    else (MarkAllRead(msgs, p.value.readAt), 0)
  }

  /** The payload of a `group_user_typing` event, its timestamp already parsed. */
  datatype TypingPayload = TypingPayload(groupId: string, senderId: string, timestamp: Option<int>, senderName: string)

  /** The typing listener: the sender's entry is (re)set to this event. */
  function OnTyping(typing: map<string, Typing>, p: Option<TypingPayload>, groupId: string): (r: map<string, Typing>)
    ensures !(p.Some? && p.value.groupId == groupId) ==> r == typing
    ensures p.Some? && p.value.groupId == groupId ==>
              r == typing[p.value.senderId := Typing(p.value.timestamp, p.value.senderName)]
  {
    if p.None? || p.value.groupId != groupId then typing
    else typing[p.value.senderId := Typing(p.value.timestamp, p.value.senderName)]
  }

  /**
   * The timer set by a typing event, three seconds later: the entry goes
   * only if it still carries that event's timestamp (NaN equals nothing).
   */
  function ExpireTyping(typing: map<string, Typing>, senderId: string, timestamp: Option<int>): (r: map<string, Typing>)
    ensures senderId in typing && timestamp.Some? && typing[senderId].timestamp == timestamp ==> r == typing - {senderId}
    ensures !(senderId in typing && timestamp.Some? && typing[senderId].timestamp == timestamp) ==> r == typing
  {
    if senderId in typing && typing[senderId].timestamp.Some? && timestamp.Some?
       && typing[senderId].timestamp.value == timestamp.value
    then typing - {senderId}
    else typing
  }

  /**
   * A newer typing event keeps the entry alive past the timer of the older
   * one; with no newer event the entry is gone when its timer fires.
   */
  lemma TypingLifetime(typing: map<string, Typing>, p: TypingPayload, later: TypingPayload)
    requires later.groupId == p.groupId && later.senderId == p.senderId && later.timestamp != p.timestamp
    ensures var once := OnTyping(typing, Some(p), p.groupId);
            p.timestamp.Some? ==> p.senderId !in ExpireTyping(once, p.senderId, p.timestamp)
    ensures var twice := OnTyping(OnTyping(typing, Some(p), p.groupId), Some(later), p.groupId);
            p.senderId in ExpireTyping(twice, p.senderId, p.timestamp)
  {
  }

  /** The payload of `group_user_joined` and `group_user_left` events. */
  datatype MemberPayload = MemberPayload(groupId: string, userId: string, userName: string, avatar: string)

  /** Some active user has this id. */
  predicate HasUser(users: seq<ActiveUser>, id: string)
  {
    exists u :: u in users && u.id == id
  }

  /** The join listener: the user is added, online, unless already present. */
  function OnUserJoined(users: seq<ActiveUser>, p: Option<MemberPayload>, groupId: string): (r: seq<ActiveUser>)
    ensures !(p.Some? && p.value.groupId == groupId) ==> r == users
    ensures p.Some? && p.value.groupId == groupId && HasUser(users, p.value.userId) ==> r == users
    ensures p.Some? && p.value.groupId == groupId && !HasUser(users, p.value.userId) ==>
              r == users + [ActiveUser(p.value.userId, p.value.userName, p.value.avatar, true)]
  {
    if p.None? || p.value.groupId != groupId then users
    else if HasUser(users, p.value.userId) then users
    else users + [ActiveUser(p.value.userId, p.value.userName, p.value.avatar, true)]
  }

  /** The users other than `id`, in order. */
  function WithoutUser(users: seq<ActiveUser>, id: string): (r: seq<ActiveUser>)
    ensures forall u :: u in r <==> u in users && u.id != id
  {
    if users == [] then []
    else WithoutUser(users[..|users| - 1], id) + (if users[|users| - 1].id == id then [] else [users[|users| - 1]])
  }

  /** The leave listener: every entry of the user goes. */
  function OnUserLeft(users: seq<ActiveUser>, p: Option<MemberPayload>, groupId: string): (r: seq<ActiveUser>)
    ensures !(p.Some? && p.value.groupId == groupId) ==> r == users
    ensures p.Some? && p.value.groupId == groupId ==> r == WithoutUser(users, p.value.userId)
  {
    if p.None? || p.value.groupId != groupId then users else WithoutUser(users, p.value.userId)
  }

  /** Joining twice is joining once; leaving after joining leaves no trace of the user. */
  lemma JoinLeave(users: seq<ActiveUser>, p: MemberPayload)
    ensures OnUserJoined(OnUserJoined(users, Some(p), p.groupId), Some(p), p.groupId) == OnUserJoined(users, Some(p), p.groupId)
    ensures !HasUser(OnUserLeft(OnUserJoined(users, Some(p), p.groupId), Some(p), p.groupId), p.userId)
  {
    var once := OnUserJoined(users, Some(p), p.groupId);
    if !HasUser(users, p.userId) {
      assert once[|users|].id == p.userId;
    }
    assert HasUser(once, p.userId);
  }

  /**
   * The connection polling effect: `checkConnection` runs at once and then
   * once a second until the subscriptions are set up or five checks were
   * made; `connected[k]` is the connection status at check `k`. It returns
   * the check at which the subscriptions were set up, if any.
   */
  method PollConnection(hasUser: bool, hasGroup: bool, connected: seq<bool>) returns (initializedAt: Option<nat>, checks: nat)
    requires |connected| >= 5
    ensures checks <= 5
    ensures initializedAt.Some? <==> hasUser && hasGroup && exists k :: 0 <= k < 5 && connected[k]
    ensures initializedAt.Some? ==> var k := initializedAt.value;
              k < 5 && connected[k] && (forall j :: 0 <= j < k ==> !connected[j]) && checks == k + 1
    ensures initializedAt.None? ==> checks == 5
  {
    var attempts := 0;
    initializedAt := None;
    while attempts < 5 && initializedAt.None?
      invariant 0 <= attempts <= 5
      invariant initializedAt.None? ==> !(hasUser && hasGroup && exists k :: 0 <= k < attempts && connected[k])
      invariant initializedAt.Some? ==>
                  (hasUser && hasGroup && initializedAt.value == attempts - 1
                   && connected[attempts - 1] && forall j :: 0 <= j < attempts - 1 ==> !connected[j])
    {
      if hasUser && connected[attempts] && hasGroup {
        initializedAt := Some(attempts);
      }
      attempts := attempts + 1;
    }
    checks := attempts;
  }
}
