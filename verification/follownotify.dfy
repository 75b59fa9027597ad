/**
 * The follow package's notifications (backend/internal/follow/notification.go).
 * `hub` says whether a hub was supplied (Go's non-nil `*Hub`); `users` is
 * the user table the sender's name and avatar come from, a missing entry
 * standing for a failed lookup; `now` is the Unix time of the call. Each
 * function returns the `BroadcastToUser` calls it makes, in order.
 */
module FollowNotify {
  import opened Wrappers
  import opened Text
  import opened Notify

  /** `SendFollowRequestAcceptedNotification`: the followed user's details, to the follower only. */
  function SendFollowRequestAccepted(hub: bool, users: map<string, UserInfo>, followerId: string,
                                     followingId: string, now: nat): (ds: seq<Delivery>)
    ensures ds == [] <==> !hub || followingId !in users
    ensures ds != [] ==> |ds| == 1 && ds[0].recipient == followerId && ds[0].event.kind == FollowRequestAccepted
                         && Has(ds[0].event, "followingID", Str(followingId))
                         && Has(ds[0].event, "followingName", Str(FullName(users[followingId])))
  {
    if !hub || followingId !in users then []
    else
      var u := users[followingId];
      [Delivery(followerId, Event(FollowRequestAccepted,
                                  map["followingID" := Str(followingId), "followingName" := Str(FullName(u)),
                                      "avatar" := Str(u.avatar), "timestamp" := Str(NatToString(now))]))]
  }

  /** `SendFollowNotification`: the follower's details and the action, to the followed user only. */
  function SendFollowNotification(hub: bool, users: map<string, UserInfo>, followerId: string,
                                  followingId: string, isFollow: bool, now: nat): (ds: seq<Delivery>)
    ensures ds == [] <==> !hub || followerId !in users
    ensures ds != [] ==> |ds| == 1 && ds[0].recipient == followingId && ds[0].event.kind == FollowUpdate
                         && Has(ds[0].event, "followerID", Str(followerId))
                         && Has(ds[0].event, "action", Str(if isFollow then "followed" else "unfollowed"))
  {
    if !hub || followerId !in users then []
    else
      var u := users[followerId];
      var action := if isFollow then "followed" else "unfollowed";
      [Delivery(followingId, Event(FollowUpdate,
                                   map["followerID" := Str(followerId), "followerName" := Str(FullName(u)),
                                       "avatar" := Str(u.avatar), "action" := Str(action),
                                       "timestamp" := Str(NatToString(now))]))]
  }

  /** The payload of a stats event. */
  function StatsEvent(userId: string, statsType: string, count: int): Event
  {
    Event(UserStatsUpdated, map["userId" := Str(userId), "statsType" := Str(statsType), "count" := Int(count)])
  }

  /**
   * `UpdateFollowerCounts`, given the results of the two count queries:
   * the followed user hears its followers count and the follower its
   * following count, each only when its query succeeded.
   */
  function UpdateFollowerCounts(hub: bool, followerId: string, followingId: string,
                                followersCount: Result<int>, followingCount: Result<int>): (ds: seq<Delivery>)
    ensures !hub ==> ds == []
    ensures hub ==> Recipients(ds) == (if followersCount.Ok? then [followingId] else [])
                                      + (if followingCount.Ok? then [followerId] else [])
    ensures forall d :: d in ds ==> d.event.kind == UserStatsUpdated
    ensures forall d :: d in ds && Has(d.event, "statsType", Str("followers_count")) ==>
              followersCount.Ok? && d == Delivery(followingId, StatsEvent(followingId, "followers_count", followersCount.value))
    ensures forall d :: d in ds && Has(d.event, "statsType", Str("following_count")) ==>
              followingCount.Ok? && d == Delivery(followerId, StatsEvent(followerId, "following_count", followingCount.value))
  {
    var first := if hub && followersCount.Ok?
                 then [Delivery(followingId, StatsEvent(followingId, "followers_count", followersCount.value))] else [];
    var second := if hub && followingCount.Ok?
                  then [Delivery(followerId, StatsEvent(followerId, "following_count", followingCount.value))] else [];
    RecipientsAppend(first, second);
    first + second
  }

  /** Following and unfollowing send the same event but for its action. */
  lemma FollowAndUnfollowDifferOnlyInAction(hub: bool, users: map<string, UserInfo>, a: string, b: string, now: nat)
    requires hub && a in users
    ensures var f := SendFollowNotification(hub, users, a, b, true, now);
            var u := SendFollowNotification(hub, users, a, b, false, now);
            Has(f[0].event, "action", Str("followed")) && Has(u[0].event, "action", Str("unfollowed"))
            && f[0].event.payload - {"action"} == u[0].event.payload - {"action"}
            && f[0].recipient == u[0].recipient
  {
    var f := SendFollowNotification(hub, users, a, b, true, now);
    var u := SendFollowNotification(hub, users, a, b, false, now);
    assert f[0].event.payload - {"action"} == u[0].event.payload - {"action"};
  }
}
