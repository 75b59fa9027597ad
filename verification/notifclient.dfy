/**
 * The notification hook of frontend/src/services/notificationService.js:
 * how a server notification is shaped for display, how the displayed list
 * changes, and the hook's state (the list, the loading flag and the toasts
 * shown). `BASE_URL` is a parameter; a missing or null JSON string is "".
 */
module NotificationClient {
  import opened Wrappers
  import opened Text
  import opened ClientCommon

  /** A notification as the server sends it. */
  datatype RawNotification = RawNotification(id: int, kind: string, senderName: string, senderAvatar: string,
                                             createdAt: string, isRead: bool, message: string)

  /** A notification as the hook keeps it; `None` is JavaScript's `undefined`. */
  datatype Notification = Notification(id: int, kind: string, sender: string, avatar: string, timestamp: string,
                                       read: bool, action: Option<string>, contentType: Option<string>)

  /** The start of the first occurrence of `sub` in `s`, if any (the search JavaScript's `split` makes). */
  function FirstOccurrence(s: string, sub: string): (r: Option<nat>)
    requires sub != ""
    ensures r.Some? ==> OccursAt(s, sub, r.value) && forall k :: 0 <= k < r.value ==> !OccursAt(s, sub, k)
    ensures r.None? ==> forall k :: !OccursAt(s, sub, k)
    decreases |s|
  {
    if |s| < |sub| then None
    else if s[..|sub|] == sub then Some(0)
    else
      var rest := FirstOccurrence(s[1..], sub);
      OccursShift(s, sub);
      assert !OccursAt(s, sub, 0);
      assert forall k :: 1 <= k ==> (OccursAt(s, sub, k) <==> OccursAt(s[1..], sub, k - 1));
      if rest.None? then None else Some(rest.value + 1)
  }

  /** An occurrence in `s` past its first character is an occurrence in `s[1..]`, one place earlier. */
  lemma OccursShift(s: string, sub: string)
    requires s != []
    ensures forall k :: 0 <= k ==> (OccursAt(s[1..], sub, k) <==> OccursAt(s, sub, k + 1))
  {
    forall k | 0 <= k ensures OccursAt(s[1..], sub, k) <==> OccursAt(s, sub, k + 1) {
      if k <= |s| - 1 - |sub| {
        assert s[1..][k..k + |sub|] == s[k + 1..k + 1 + |sub|];
      }
    }
  }

  /** `message.split("to ")[1]`: the text between the first "to " and the next one (or the end); undefined without one. */
  function InvitationTarget(message: string): (r: Option<string>)
    ensures r.None? <==> forall k :: !OccursAt(message, "to ", k)
  {
    match FirstOccurrence(message, "to ")
    case None => None
    case Some(i) =>
      var rest := message[i + 3..];
      match FirstOccurrence(rest, "to ")
      case None => Some(rest)
      case Some(j) => Some(rest[..j])
  }

  /** `action`: the first space-separated word of the message, for reactions only. */
  function Action(kind: string, message: string): (r: Option<string>)
    ensures r.Some? <==> kind == "reaction"
  {
    if kind == "reaction" then Some(Split(message, ' ')[0]) else None
  }

  /** `contentType`: the last word for reactions and comments, the invitation's target for invitations. */
  function ContentType(kind: string, message: string): (r: Option<string>)
    ensures kind == "reaction" || kind == "comment" ==> r.Some?
    ensures kind != "reaction" && kind != "comment" && kind != "invitation" ==> r.None?
  {
    if kind == "reaction" || kind == "comment" then
      var words := Split(message, ' ');
      Some(words[|words| - 1])
    else if kind == "invitation" then InvitationTarget(message)
    else None
  }

  /** A server notification shaped for display, as both the fetch and the push listener shape it. */
  function Format(baseUrl: string, n: RawNotification): (f: Notification)
    ensures f.id == n.id && f.kind == n.kind && f.timestamp == n.createdAt && f.read == n.isRead
    ensures f.sender == if n.senderName == "" then "Unknown" else n.senderName
    ensures f.avatar == if n.senderAvatar == "" then DefaultAvatar else baseUrl + "/uploads/" + n.senderAvatar
    ensures f.action == Action(n.kind, n.message) && f.contentType == ContentType(n.kind, n.message)
  {
    Notification(n.id, n.kind, Or(n.senderName, "Unknown"), AvatarUrl(baseUrl, n.senderAvatar), n.createdAt,
                 n.isRead, Action(n.kind, n.message), ContentType(n.kind, n.message))
  }

  /** A reaction message's first word is its action and its last word its content type. */
  lemma {:induction false} ReactionWords(first: string, middle: string, last: string)
    requires ' ' !in first && ' ' !in last
    ensures Action("reaction", first + " " + middle + " " + last) == Some(first)
    ensures ContentType("reaction", first + " " + middle + " " + last) == Some(last)
  {
    var m := first + " " + middle + " " + last;
    assert m == (first + [' '] + middle) + [' '] + last;
    SplitAppend(first + [' '] + middle, ' ', last);
    assert m[|first|] == ' ' && m[..|first|] == first;
    assert IndexOf(m, ' ') == |first|;
  }

  /** An invitation's target is whatever follows its "to ", when neither part has another. */
  lemma {:induction false} InvitationTargetOf(prefix: string, target: string)
    requires forall k :: !OccursAt(prefix, "to ", k)
    requires forall k :: !OccursAt(target, "to ", k)
    ensures InvitationTarget(prefix + "to " + target) == Some(target)
  {
    var m := prefix + "to " + target;
    assert OccursAt(m, "to ", |prefix|);
    forall k | 0 <= k < |prefix| ensures !OccursAt(m, "to ", k) {
      if k + 3 <= |prefix| {
        assert m[k..k + 3] == prefix[k..k + 3];
        assert !OccursAt(prefix, "to ", k);
      } else {
        assert m[k + 2] == if k + 2 == |prefix| then 't' else 'o';
      }
    }
    var i := FirstOccurrence(m, "to ");
    assert i == Some(|prefix|);
    assert m[|prefix| + 3..] == target;
  }

  /** Every notification shaped for display, in the server's order. */
  function FormatAll(baseUrl: string, data: seq<RawNotification>): (r: seq<Notification>)
    ensures |r| == |data| && forall i :: 0 <= i < |data| ==> r[i] == Format(baseUrl, data[i])
  {
    seq(|data|, i requires 0 <= i < |data| => Format(baseUrl, data[i]))
  }

  /** `markNotificationAsRead`'s update: the notifications with that id become read. */
  function MarkRead(list: seq<Notification>, id: int): (r: seq<Notification>)
    ensures |r| == |list|
    ensures forall i :: 0 <= i < |list| && list[i].id == id ==> r[i] == list[i].(read := true)
    ensures forall i :: 0 <= i < |list| && list[i].id != id ==> r[i] == list[i]
  {
    seq(|list|, i requires 0 <= i < |list| => if list[i].id == id then list[i].(read := true) else list[i])
  }

  /** `markAllNotificationsAsRead`'s update: every notification becomes read, nothing else changes. */
  function MarkAllRead(list: seq<Notification>): (r: seq<Notification>)
    ensures |r| == |list| && forall i :: 0 <= i < |list| ==> r[i] == list[i].(read := true)
  {
    seq(|list|, i requires 0 <= i < |list| => list[i].(read := true))
  }

  /** Marking everything read after marking one read is marking everything read. */
  lemma MarkAllAbsorbs(list: seq<Notification>, id: int)
    ensures MarkAllRead(MarkRead(list, id)) == MarkAllRead(list)
  {
  }

  /** `handleFriendRequest`'s update: exactly the notifications with that id leave, the rest keep their order. */
  function Without(list: seq<Notification>, id: int): (r: seq<Notification>)
    ensures forall n :: n in r <==> n in list && n.id != id
    ensures |r| <= |list|
    ensures (forall n :: n in list ==> n.id != id) ==> r == list
    ensures list != [] && list[0].id != id ==> r == [list[0]] + Without(list[1..], id)
  {
    if list == [] then []
    else if list[0].id == id then Without(list[1..], id)
    else [list[0]] + Without(list[1..], id)
  }

  /** A pushed notification goes first, shaped like fetched ones; a missing payload changes nothing. */
  function OnNotificationUpdate(baseUrl: string, list: seq<Notification>, payload: Option<RawNotification>)
    : (r: seq<Notification>)
    ensures payload.None? ==> r == list
    ensures payload.Some? ==> |r| == |list| + 1 && r[0] == Format(baseUrl, payload.value) && r[1..] == list
  {
    if payload.None? then list else [Format(baseUrl, payload.value)] + list
  }

  /** The hook's state. */
  class NotificationService {
    const baseUrl: string
    var notifications: seq<Notification>
    var isLoading: bool
    var toasts: seq<Toast>

    constructor (baseUrl: string)
      ensures this.baseUrl == baseUrl && notifications == [] && !isLoading && toasts == []
    {
      this.baseUrl := baseUrl;
      notifications := [];
      isLoading := false;
      toasts := [];
    }

    /** `fetchNotifications` starts: the loading flag is raised until the response arrives. */
    method StartFetch()
      modifies this
      ensures isLoading && notifications == old(notifications) && toasts == old(toasts)
    {
      isLoading := true;
    }

    /**
     * `fetchNotifications` finishes: a non-null list replaces the displayed
     * one, shaped for display; a failure shows a toast and changes nothing
     * else. The loading flag falls in every case.
     */
    method CompleteFetch(response: Response<Option<seq<RawNotification>>>) returns (result: seq<Notification>)
      modifies this
      ensures !isLoading
      ensures response.Ok? && response.data.Some? ==>
                result == FormatAll(baseUrl, response.data.value) && notifications == result && toasts == old(toasts)
      ensures response.Ok? && response.data.None? ==>
                result == [] && notifications == old(notifications) && toasts == old(toasts)
      ensures !response.Ok? ==>
                result == [] && notifications == old(notifications)
                && toasts == old(toasts) + [FailureToast(response, "Failed to fetch notifications", "Error fetching notifications")]
    {
      if response.Ok? {
        if response.data.Some? {
          result := FormatAll(baseUrl, response.data.value);
          notifications := result;
        } else {
          result := [];
        }
      } else {
        result := [];
        toasts := toasts + [FailureToast(response, "Failed to fetch notifications", "Error fetching notifications")];
      }
      isLoading := false;
    }

    /** `markNotificationAsRead`: after an OK response that notification is read; otherwise only a toast. */
    method MarkNotificationAsRead(id: int, response: Response<()>) returns (ok: bool)
      modifies this
      ensures ok <==> response.Ok?
      ensures ok ==> notifications == MarkRead(old(notifications), id)
                     && toasts == old(toasts) + [Toast("Notification marked as read", Success)]
      ensures !ok ==> notifications == old(notifications)
                      && toasts == old(toasts) + [FailureToast(response, "Failed to mark notification as read",
                                                                "Error marking notification as read")]
      ensures isLoading == old(isLoading)
    {
      if response.Ok? {
        notifications := MarkRead(notifications, id);
        toasts := toasts + [Toast("Notification marked as read", Success)];
        ok := true;
      } else {
        toasts := toasts + [FailureToast(response, "Failed to mark notification as read", "Error marking notification as read")];
        ok := false;
      }
    }

    /** `markAllNotificationsAsRead`: after an OK response every notification is read. */
    method MarkAllNotificationsAsRead(response: Response<()>) returns (ok: bool)
      modifies this
      ensures ok <==> response.Ok?
      ensures ok ==> notifications == MarkAllRead(old(notifications))
                     && toasts == old(toasts) + [Toast("All notifications marked as read", Success)]
      ensures !ok ==> notifications == old(notifications)
                      && toasts == old(toasts) + [FailureToast(response, "Failed to mark all notifications as read",
                                                                "Error marking all notifications as read")]
      ensures isLoading == old(isLoading)
    {
      if response.Ok? {
        notifications := MarkAllRead(notifications);
        toasts := toasts + [Toast("All notifications marked as read", Success)];
        ok := true;
      } else {
        toasts := toasts + [FailureToast(response, "Failed to mark all notifications as read",
                                         "Error marking all notifications as read")];
        ok := false;
      }
    }

    /** `clearAllNotifications`: after an OK response the list is empty. */
    method ClearAllNotifications(response: Response<()>) returns (ok: bool)
      modifies this
      ensures ok <==> response.Ok?
      ensures ok ==> notifications == [] && toasts == old(toasts) + [Toast("All notifications cleared", Success)]
      ensures !ok ==> notifications == old(notifications)
                      && toasts == old(toasts) + [FailureToast(response, "Failed to clear notifications",
                                                                "Error clearing notifications")]
      ensures isLoading == old(isLoading)
    {
      if response.Ok? {
        notifications := [];
        toasts := toasts + [Toast("All notifications cleared", Success)];
        ok := true;
      } else {
        toasts := toasts + [FailureToast(response, "Failed to clear notifications", "Error clearing notifications")];
        ok := false;
      }
    }

    /** `handleFriendRequest(id, action)`: after an OK response the notification with that id leaves the list. */
    method HandleFriendRequest(id: int, action: string, response: Response<()>) returns (ok: bool)
      modifies this
      ensures ok <==> response.Ok?
      ensures ok ==> notifications == Without(old(notifications), id)
                     && toasts == old(toasts) + [Toast("Friend request " + action + "ed", Success)]
      ensures !ok ==> notifications == old(notifications)
                      && toasts == old(toasts) + [FailureToast(response, "Failed to " + action + " friend request",
                                                                "Error " + action + "ing friend request")]
      ensures isLoading == old(isLoading)
    {
      if response.Ok? {
        notifications := Without(notifications, id);
        toasts := toasts + [Toast("Friend request " + action + "ed", Success)];
        ok := true;
      } else {
        toasts := toasts + [FailureToast(response, "Failed to " + action + " friend request",
                                         "Error " + action + "ing friend request")];
        ok := false;
      }
    }

    /** The `notification_update` listener: a pushed notification goes first, with an info toast. */
    method OnPush(payload: Option<RawNotification>)
      modifies this
      ensures notifications == OnNotificationUpdate(baseUrl, old(notifications), payload)
      ensures toasts == old(toasts) + if payload.Some? then [Toast("New notification received", Info)] else []
      ensures isLoading == old(isLoading)
    {
      notifications := OnNotificationUpdate(baseUrl, notifications, payload);
      if payload.Some? {
        toasts := toasts + [Toast("New notification received", Info)];
      }
    }
  }
}
