/**
 * The user status service (backend/internal/user/status_service.go) over
 * its SQLite repository (backend/internal/user/status_repository.go): the
 * `user_status` table as a map from user id to `is_online`, the
 * `followers` table it reads, and the events sent to the hub. A failed
 * status write or follower query is a flag of the call.
 */
module UserStatus {
  import opened Wrappers
  import opened Notify
  import opened Follow

  /** `GetFollowersForStatusUpdate`: the followers of `user`, in row order. */
  function FollowerIds(rows: seq<FollowRow>, user: string): (ids: seq<string>)
    ensures |ids| == FollowersCount(rows, user)
    ensures forall u :: u in ids <==> FollowRow(u, user) in rows
  {
    if rows == [] then []
    else
      var init := rows[..|rows| - 1];
      var last := rows[|rows| - 1];
      assert rows == init + [last];
      FollowerIds(init, user) + (if last.following == user then [last.follower] else [])
  }

  /** The `user_status_update` event. */
  function StatusEvent(user: string, isOnline: bool): (e: Event)
    ensures e.kind == UserStatusUpdate && Has(e, "userId", Str(user)) && Has(e, "isOnline", Bool(isOnline))
  {
    Event(UserStatusUpdate, map["userId" := Str(user), "isOnline" := Bool(isOnline)])
  }

  class StatusService {
    /** `user_status`: whether each user with a row is online. */
    var online: map<string, bool>
    /** The `followers` table. */
    const followers: seq<FollowRow>
    /** The events sent so far. */
    var sent: seq<Delivery>

    constructor (followers: seq<FollowRow>)
      ensures online == map[] && this.followers == followers && sent == []
    {
      online := map[];
      this.followers := followers;
      sent := [];
    }

    /** `GetUserStatus`: the stored flag, and offline for a user without a row. */
    function GetUserStatus(user: string): (r: Result<bool>)
      reads this
      ensures r.Ok?
      ensures r.value <==> user in online && online[user]
    {
      Ok(user in online && online[user])
    }

    /**
     * The body shared by `SetUserOnline` and `SetUserOffline`: upsert the
     * flag, read the followers, then send each of them the new status. A
     * failed write or follower query returns its error and sends nothing.
     */
    method SetStatus(user: string, isOnline: bool, writeFails: bool, lookupFails: bool) returns (err: Option<string>)
      modifies this
      ensures err.None? <==> !writeFails && !lookupFails
      ensures online == if writeFails then old(online) else old(online)[user := isOnline]
      ensures err.Some? ==> sent == old(sent)
      ensures err.None? ==> sent == old(sent) + ToEach(FollowerIds(followers, user), StatusEvent(user, isOnline))
    {
      if writeFails {
        return Some("failed to set user status");
      }
      online := online[user := isOnline];
      if lookupFails {
        return Some("failed to get followers");
      }
      var ids := FollowerIds(followers, user);
      var e := StatusEvent(user, isOnline);
      var i := 0;
      while i < |ids|
        invariant 0 <= i <= |ids|
        invariant online == old(online)[user := isOnline]
        invariant sent == old(sent) + ToEach(ids[..i], e)
      {
        assert ids[..i + 1] == ids[..i] + [ids[i]];
        ToEachSnoc(ids[..i], ids[i], e);
        sent := sent + [Delivery(ids[i], e)];
        i := i + 1;
      }
      assert ids[..i] == ids;
      err := None;
    }

    /** `SetUserOnline`: afterwards the user reads as online, and each follower hears so. */
    method SetUserOnline(user: string, writeFails: bool, lookupFails: bool) returns (err: Option<string>)
      modifies this
      ensures err.None? <==> !writeFails && !lookupFails
      ensures !writeFails ==> GetUserStatus(user) == Ok(true)
      ensures writeFails ==> online == old(online)
      ensures forall u :: u != user ==> GetUserStatus(u) == old(GetUserStatus(u))
      ensures err.Some? ==> sent == old(sent)
      ensures err.None? ==> sent == old(sent) + ToEach(FollowerIds(followers, user), StatusEvent(user, true))
    {
      err := SetStatus(user, true, writeFails, lookupFails);
    }

    /** `SetUserOffline`: afterwards the user reads as offline, and each follower hears so. */
    method SetUserOffline(user: string, writeFails: bool, lookupFails: bool) returns (err: Option<string>)
      modifies this
      ensures err.None? <==> !writeFails && !lookupFails
      ensures !writeFails ==> GetUserStatus(user) == Ok(false)
      ensures writeFails ==> online == old(online)
      ensures forall u :: u != user ==> GetUserStatus(u) == old(GetUserStatus(u))
      ensures err.Some? ==> sent == old(sent)
      ensures err.None? ==> sent == old(sent) + ToEach(FollowerIds(followers, user), StatusEvent(user, false))
    {
      err := SetStatus(user, false, writeFails, lookupFails);
    }
  }
}
