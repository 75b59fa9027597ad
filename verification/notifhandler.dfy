/**
 * The notification endpoints (backend/internal/notifcations/hanlder.go):
 * the user check, the pagination of the list, the id of the notification
 * to mark as read, the mapping of stored notifications to the JSON reply,
 * and the dispatch on method and path. A user id that is absent or empty
 * is refused alike.
 */
module NotificationHandler {
  import opened Wrappers
  import opened Text
  import opened HttpParams
  import opened Utils

  /** A stored notification, with its nullable columns as scanned. */
  datatype Notification = Notification(id: int, userId: string, senderId: NullString, kind: string,
                                       message: string, isRead: bool, createdAt: string,
                                       targetGroupId: NullInt64, targetEventId: NullInt64,
                                       senderName: string, senderAvatar: string)

  /**
   * `NotificationResponse`. The optional fields hold Go's zero value ("" or
   * 0) when not copied, which the JSON encoder then omits.
   */
  datatype NotificationResponse = NotificationResponse(id: int, userId: string, senderId: string, kind: string,
                                                       message: string, isRead: bool, createdAt: string,
                                                       targetGroupId: int, targetEventId: int,
                                                       senderName: string, senderAvatar: string)

  /** The user check of every endpoint: 401 unless a non-empty user id is present. */
  function Authenticated(userId: Option<string>): (o: Outcome<string>)
    ensures o.Proceed? <==> userId.Some? && userId.value != ""
    ensures o.Proceed? ==> o.value == userId.value
    ensures o.Stop? ==> o.reply.status == StatusUnauthorized && !o.reply.warning
  {
    if userId.None? || userId.value == "" then Stop(SendError(StatusUnauthorized, "Unauthorized"))
    else Proceed(userId.value)
  }

  /** The pagination of `GetNotifications`: limit 10 unless a value in 1..100 is given, offset 0 unless a non-negative one is. */
  function ListParams(limitStr: string, offsetStr: string): (p: (int, int))
    ensures 1 <= p.0 <= 100 && p.1 >= 0
    ensures (Atoi(limitStr).Some? && 1 <= Atoi(limitStr).value <= 100) ==> p.0 == Atoi(limitStr).value
    ensures !(Atoi(limitStr).Some? && 1 <= Atoi(limitStr).value <= 100) ==> p.0 == 10
    ensures (Atoi(offsetStr).Some? && Atoi(offsetStr).value >= 0) ==> p.1 == Atoi(offsetStr).value
    ensures !(Atoi(offsetStr).Some? && Atoi(offsetStr).value >= 0) ==> p.1 == 0
  {
    IntParamSpec(limitStr, 10, 1, 100);
    IntParamSpec(offsetStr, 0, 0, MaxInt64);
    (IntParam(limitStr, 10, 1, 100), IntParam(offsetStr, 0, 0, MaxInt64))
  }

  /** The id of `MarkNotificationAsRead`: the last of at least three path segments, a positive integer. */
  function NotificationIdOf(path: string): (o: Outcome<int>)
    ensures o.Proceed? <==> SegmentId(path, 3, 1).Ok? && SegmentId(path, 3, 1).value > 0
    ensures o.Proceed? ==> o.value == SegmentId(path, 3, 1).value
    ensures o.Stop? ==> o.reply.status == StatusBadRequest
    ensures |Split(path, '/')| < 3 ==> o == Stop(SendError(StatusBadRequest, "Invalid URL"))
  {
    var parts := Split(path, '/');
    if |parts| < 3 then Stop(SendError(StatusBadRequest, "Invalid URL"))
    else
      match Atoi(parts[|parts| - 1])
      case None => Stop(SendError(StatusBadRequest, "Invalid notification ID"))
      case Some(id) =>
        if id <= 0 then Stop(SendError(StatusBadRequest, "Invalid notification ID")) else Proceed(id)
  }

  /** A path `base/<n>` names notification `n` for every positive `n`. */
  lemma NotificationIdFromPath(base: string, n: nat)
    requires |Split(base, '/')| >= 2 && 0 < n <= MaxInt64
    ensures NotificationIdOf(base + "/" + NatToString(n)) == Proceed(n)
  {
    SegmentIdLast(base, n);
  }

  /**
   * One reply entry: the sender only when valid and non-empty, each target
   * only when valid. The creation time is never copied, so it stays empty.
   */
  function ToResponse(n: Notification): (r: NotificationResponse)
    ensures r.id == n.id && r.userId == n.userId && r.kind == n.kind && r.message == n.message && r.isRead == n.isRead
    ensures NullableString(n.senderId).Some? && n.senderId.str != "" ==> r.senderId == n.senderId.str
    ensures !(NullableString(n.senderId).Some? && n.senderId.str != "") ==> r.senderId == ""
    ensures r.createdAt == ""
    ensures NullableInt64(n.targetGroupId).Some? ==> r.targetGroupId == NullableInt64(n.targetGroupId).value
    ensures NullableInt64(n.targetGroupId).None? ==> r.targetGroupId == 0
    ensures NullableInt64(n.targetEventId).Some? ==> r.targetEventId == NullableInt64(n.targetEventId).value
    ensures NullableInt64(n.targetEventId).None? ==> r.targetEventId == 0
  {
    NotificationResponse(n.id, n.userId,
                         if n.senderId.valid && n.senderId.str != "" then n.senderId.str else "",
                         n.kind, n.message, n.isRead, "",
                         if n.targetGroupId.valid then n.targetGroupId.int64 else 0,
                         if n.targetEventId.valid then n.targetEventId.int64 else 0,
                         n.senderName, n.senderAvatar)
  }

  /** The reply list: one entry per notification, in the service's order. */
  function Responses(ns: seq<Notification>): (rs: seq<NotificationResponse>)
    ensures |rs| == |ns|
    ensures forall i :: 0 <= i < |ns| ==> rs[i] == ToResponse(ns[i]) && rs[i].id == ns[i].id
  {
    if ns == [] then [] else Responses(ns[..|ns| - 1]) + [ToResponse(ns[|ns| - 1])]
  }

  /** The loop of `GetNotifications` that appends one entry per notification. */
  method BuildResponses(ns: seq<Notification>) returns (rs: seq<NotificationResponse>)
    ensures rs == Responses(ns)
  {
    rs := [];
    var i := 0;
    while i < |ns|
      invariant 0 <= i <= |ns|
      invariant rs == Responses(ns[..i])
    {
      assert ns[..i + 1][..i] == ns[..i];
      rs := rs + [ToResponse(ns[i])];
      i := i + 1;
    }
    assert ns[..i] == ns;
  }

  /** The handlers `HandleNotifications` dispatches to. */
  datatype NotificationRoute = ListNotifications | MarkAllRead | MarkOneRead | ClearAll | NotificationMethodNotAllowed

  /** `HandleNotifications`: GET lists, PUT marks all when the path ends in "read" and one otherwise, DELETE clears. */
  function HandleNotifications(verb: string, path: string): (r: NotificationRoute)
    ensures r == ListNotifications <==> verb == "GET"
    ensures r == MarkAllRead <==> verb == "PUT" && HasSuffix(path, "read")
    ensures r == MarkOneRead <==> verb == "PUT" && !HasSuffix(path, "read")
    ensures r == ClearAll <==> verb == "DELETE"
    ensures r == NotificationMethodNotAllowed <==> verb !in {"GET", "PUT", "DELETE"}
  {
    if verb == "GET" then ListNotifications
    else if verb == "PUT" then (if HasSuffix(path, "read") then MarkAllRead else MarkOneRead)
    else if verb == "DELETE" then ClearAll
    else NotificationMethodNotAllowed
  }
}
