/**
 * The follow service (backend/internal/follow/service.go) over the tables
 * its repository reads and writes: `followers` (one row per follow),
 * `follow_requests`, the `users.is_public` flag and `user_stats`, together
 * with the notifications it sends. A `FollowService` object holds those
 * tables as fields; a `Faults` value says which database calls fail.
 */
module Follow {
  import opened Wrappers
  import opened Notify
  import opened FollowNotify

  const StatusPending := "pending"
  const StatusAccepted := "accepted"
  const StatusDeclined := "declined"

  /** A row of `followers`: `follower` follows `following`. */
  datatype FollowRow = FollowRow(follower: string, following: string)

  /** A row of `follow_requests`. */
  datatype Request = Request(follower: string, following: string, status: string)

  /**
   * Which database calls of one operation fail: the first lookup, the
   * first write, the second write (`AcceptFollowRequest` only), the stats
   * updates, and the count queries behind the stats events.
   */
  datatype Faults = Faults(lookup: bool, write: bool, secondWrite: bool, stats: bool, counts: bool)

  /** A row matches `<column> = user`. */
  predicate Matches(r: FollowRow, column: string, user: string)
  {
    (column == "follower_id" && r.follower == user) || (column == "following_id" && r.following == user)
  }

  /** `SELECT COUNT(*) FROM followers WHERE <column> = user`. */
  function CountBy(rows: seq<FollowRow>, column: string, user: string): (n: nat)
    ensures n <= |rows|
  {
    if rows == [] then 0
    else CountBy(rows[..|rows| - 1], column, user) + (if Matches(rows[|rows| - 1], column, user) then 1 else 0)
  }

  /** `GetFollowersCount`: the rows whose following_id is the user. */
  function FollowersCount(rows: seq<FollowRow>, user: string): nat
  {
    CountBy(rows, "following_id", user)
  }

  /** `GetFollowingCount`: the rows whose follower_id is the user. */
  function FollowingCount(rows: seq<FollowRow>, user: string): nat
  {
    CountBy(rows, "follower_id", user)
  }

  /** `IsFollowing`: the count of (a, b) rows is positive. */
  predicate IsFollowing(rows: seq<FollowRow>, a: string, b: string)
  {
    FollowRow(a, b) in rows
  }

  /** `DeleteFollower`: every (a, b) row goes. */
  function RemovePair(rows: seq<FollowRow>, a: string, b: string): (r: seq<FollowRow>)
    ensures forall x :: x in r <==> x in rows && x != FollowRow(a, b)
  {
    if rows == [] then []
    else
      var last := rows[|rows| - 1];
      assert forall x :: x in rows <==> x in rows[..|rows| - 1] || x == last by {
        assert rows == rows[..|rows| - 1] + [last];
      }
      RemovePair(rows[..|rows| - 1], a, b) + (if last == FollowRow(a, b) then [] else [last])
  }

  /** `GetFollowRequest`: the first (a, b) request, if any. */
  function FindRequest(rs: seq<Request>, a: string, b: string): (r: Option<Request>)
    ensures r.Some? ==> r.value in rs && r.value.follower == a && r.value.following == b
    ensures r.None? <==> forall q :: q in rs ==> !(q.follower == a && q.following == b)
  {
    if rs == [] then None
    else if rs[0].follower == a && rs[0].following == b then Some(rs[0])
    else
      assert forall q :: q in rs <==> q == rs[0] || q in rs[1..] by {
        assert rs == [rs[0]] + rs[1..];
      }
      FindRequest(rs[1..], a, b)
  }

  /** `UpdateFollowRequestStatus`: every (a, b) request takes the status. */
  function SetStatus(rs: seq<Request>, a: string, b: string, status: string): (r: seq<Request>)
    ensures |r| == |rs|
    ensures forall i :: 0 <= i < |rs| ==>
      r[i] == (if rs[i].follower == a && rs[i].following == b then rs[i].(status := status) else rs[i])
  {
    seq(|rs|, i requires 0 <= i < |rs| => if rs[i].follower == a && rs[i].following == b then rs[i].(status := status) else rs[i])
  }

  /** After a status update the (a, b) lookup finds the new status, and nothing else moved. */
  lemma {:induction false} FindAfterSetStatus(rs: seq<Request>, a: string, b: string, status: string)
    requires FindRequest(rs, a, b).Some?
    ensures FindRequest(SetStatus(rs, a, b, status), a, b) == Some(Request(a, b, status))
    decreases |rs|
  {
    var r := SetStatus(rs, a, b, status);
    if !(rs[0].follower == a && rs[0].following == b) {
      assert r[1..] == SetStatus(rs[1..], a, b, status);
      FindAfterSetStatus(rs[1..], a, b, status);
    }
  }

  /** A new request is found when none was there before. */
  lemma {:induction false} FindAfterAppend(rs: seq<Request>, q: Request)
    requires FindRequest(rs, q.follower, q.following).None?
    ensures FindRequest(rs + [q], q.follower, q.following) == Some(q)
    decreases |rs|
  {
    if rs != [] {
      assert (rs + [q])[1..] == rs[1..] + [q];
      FindAfterAppend(rs[1..], q);
    }
  }

  lemma CountAppend(rows: seq<FollowRow>, r: FollowRow, column: string, user: string)
    ensures CountBy(rows + [r], column, user) == CountBy(rows, column, user) + (if Matches(r, column, user) then 1 else 0)
  {
    assert (rows + [r])[..|rows|] == rows;
  }

  /** Deleting (a, b) rows leaves every count that such a row does not match. */
  lemma {:induction false} CountRemove(rows: seq<FollowRow>, a: string, b: string, column: string, user: string)
    requires !Matches(FollowRow(a, b), column, user)
    ensures CountBy(RemovePair(rows, a, b), column, user) == CountBy(rows, column, user)
    decreases |rows|
  {
    if rows != [] {
      var init := rows[..|rows| - 1];
      var last := rows[|rows| - 1];
      CountRemove(init, a, b, column, user);
      assert CountBy(rows, column, user) == CountBy(init, column, user) + (if Matches(last, column, user) then 1 else 0);
      if last != FollowRow(a, b) {
        assert RemovePair(rows, a, b) == RemovePair(init, a, b) + [last];
        CountAppend(RemovePair(init, a, b), last, column, user);
      } else {
        assert !Matches(last, column, user);
        assert RemovePair(rows, a, b) == RemovePair(init, a, b);
      }
    }
  }

  /** The follower table has no (a, b) row left once they are deleted; a count of them is zero. */
  lemma CountRemovedPair(rows: seq<FollowRow>, a: string, b: string)
    ensures !IsFollowing(RemovePair(rows, a, b), a, b)
  {
  }

  /**
   * The column `UpdateUserStats` counts for each recounted stat, as
   * written: followers_count counts follower_id rows and following_count
   * following_id rows. Any other stat is not recounted.
   */
  function RecountColumnAsWritten(statsType: string): Option<string>
  {
    if statsType == "followers_count" then Some("follower_id")
    else if statsType == "following_count" then Some("following_id")
    else None
  }

  /** The column each recounted stat should count: the one `GetFollowersCount` and `GetFollowingCount` count. */
  function RecountColumn(statsType: string): (c: Option<string>)
    ensures statsType == "followers_count" ==> c.Some? && forall rows, u :: CountBy(rows, c.value, u) == FollowersCount(rows, u)
    ensures statsType == "following_count" ==> c.Some? && forall rows, u :: CountBy(rows, c.value, u) == FollowingCount(rows, u)
    ensures statsType !in {"followers_count", "following_count"} ==> c.None?
  {
    if statsType == "followers_count" then Some("following_id")
    else if statsType == "following_count" then Some("follower_id")
    else None
  }

  /**
   * `updateUserStatsNormal`: with a record, +1 or a decrement floored at 0;
   * without one, a new record holding 1 or 0.
   */
  function NormalUpdate(exists_: bool, current: int, increment: bool): (v: int)
    ensures !increment ==> v >= 0
    ensures exists_ && increment ==> v == current + 1
    ensures exists_ && !increment && current > 0 ==> v == current - 1
    ensures !exists_ ==> v == if increment then 1 else 0
  {
    if exists_ then (if increment then current + 1 else if current > 0 then current - 1 else 0)
    else if increment then 1 else 0
  }

  /** The counter never goes below zero, a decrement at zero stays there, and a missing record acts as a zero one. */
  lemma NormalUpdateFloor(e: bool, current: int, increment: bool)
    ensures current >= 0 ==> NormalUpdate(e, current, increment) >= 0
    ensures !increment ==> NormalUpdate(e, current, increment) >= 0
    ensures NormalUpdate(e, 0, false) == 0
    ensures NormalUpdate(false, 0, increment) == NormalUpdate(true, 0, increment)
  {
  }

  /** An increment followed by a decrement restores a non-negative counter. */
  lemma IncrementThenDecrement(e: bool, current: int)
    requires current >= 0 && (e || current == 0)
    ensures NormalUpdate(true, NormalUpdate(e, current, true), false) == current
  {
  }

  /** A stats record holds, for each stat it has, the value; absent stats read as the column default 0. */
  function StatValue(stats: map<(string, string), int>, user: string, statsType: string): int
  {
    if (user, statsType) in stats then stats[(user, statsType)] else 0
  }

  /** Every stored follow stat equals the count the repository's own queries give. */
  predicate StatsAccurate(stats: map<(string, string), int>, rows: seq<FollowRow>)
  {
    forall k :: k in stats ==>
      (k.1 == "followers_count" ==> stats[k] == FollowersCount(rows, k.0))
      && (k.1 == "following_count" ==> stats[k] == FollowingCount(rows, k.0))
  }

  /**
   * The two recounts that follow a change between a and b, as written:
   * b's followers_count is stored as the number of users b follows, and
   * a's following_count as the number of a's followers.
   */
  function RecountedAsWritten(stats: map<(string, string), int>, rows: seq<FollowRow>, a: string, b: string)
    : (r: map<(string, string), int>)
    ensures r.Keys == stats.Keys + {(b, "followers_count"), (a, "following_count")}
    ensures (b, "followers_count") != (a, "following_count")
    ensures r[(a, "following_count")] == CountBy(rows, RecountColumnAsWritten("following_count").value, a)
    ensures r[(b, "followers_count")] == CountBy(rows, RecountColumnAsWritten("followers_count").value, b)
    ensures forall k :: k in stats && k != (b, "followers_count") && k != (a, "following_count") ==> r[k] == stats[k]
  {
    stats[(b, "followers_count") := FollowingCount(rows, b)][(a, "following_count") := FollowersCount(rows, a)]
  }

  /** The two recounts that follow a change between a and b, each from its own column: the intended update. */
  function Recounted(stats: map<(string, string), int>, rows: seq<FollowRow>, a: string, b: string): map<(string, string), int>
  {
    stats[(b, "followers_count") := FollowersCount(rows, b)][(a, "following_count") := FollowingCount(rows, a)]
  }

  /** Recounting both parties after a new follow keeps every stored stat accurate. */
  lemma FollowKeepsStatsAccurate(stats: map<(string, string), int>, rows: seq<FollowRow>, a: string, b: string)
    requires StatsAccurate(stats, rows)
    ensures StatsAccurate(Recounted(stats, rows + [FollowRow(a, b)], a, b), rows + [FollowRow(a, b)])
  {
    var rows' := rows + [FollowRow(a, b)];
    forall u | u != b
      ensures FollowersCount(rows', u) == FollowersCount(rows, u)
    {
      CountAppend(rows, FollowRow(a, b), "following_id", u);
    }
    forall u | u != a
      ensures FollowingCount(rows', u) == FollowingCount(rows, u)
    {
      CountAppend(rows, FollowRow(a, b), "follower_id", u);
    }
  }

  /** Recounting both parties after an unfollow keeps every stored stat accurate. */
  lemma UnfollowKeepsStatsAccurate(stats: map<(string, string), int>, rows: seq<FollowRow>, a: string, b: string)
    requires StatsAccurate(stats, rows)
    ensures StatsAccurate(Recounted(stats, RemovePair(rows, a, b), a, b), RemovePair(rows, a, b))
  {
    forall u | u != b
      ensures FollowersCount(RemovePair(rows, a, b), u) == FollowersCount(rows, u)
    {
      CountRemove(rows, a, b, "following_id", u);
    }
    forall u | u != a
      ensures FollowingCount(RemovePair(rows, a, b), u) == FollowingCount(rows, u)
    {
      CountRemove(rows, a, b, "follower_id", u);
    }
  }

  /**
   * As written, the recount after a first follow of b by a stores 0 as b's
   * followers_count, where the repository's own count is 1.
   */
  lemma RecountAsWrittenMiscounts(a: string, b: string)
    requires a != b
    ensures CountBy([FollowRow(a, b)], RecountColumnAsWritten("followers_count").value, b) == 0
    ensures FollowersCount([FollowRow(a, b)], b) == 1
    ensures !StatsAccurate(map[(b, "followers_count") := 0], [FollowRow(a, b)])
    ensures !StatsAccurate(RecountedAsWritten(map[], [FollowRow(a, b)], a, b), [FollowRow(a, b)])
  {
    assert [FollowRow(a, b)][..0] == [];
    assert (b, "followers_count") in map[(b, "followers_count") := 0];
  }

  /** A count query's result. */
  function CountResult(n: int, fails: bool): Result<int>
  {
    if fails then Err("database error") else Ok(n)
  }

  class FollowService {
    var followers: seq<FollowRow>
    var requests: seq<Request>
    /** `user_stats`: the value of each stat, keyed by user and column; a missing key reads 0. */
    var stats: map<(string, string), int>
    /** The users that have a `user_stats` record. */
    var statsRows: set<string>
    /** `users.is_public`, per existing user. */
    const profiles: map<string, bool>
    /** The user details the notifications look up. */
    const users: map<string, UserInfo>
    /** Whether the notification service has a hub. */
    const hub: bool
    /** The `BroadcastToUser` calls made so far. */
    var sent: seq<Delivery>

    constructor (profiles: map<string, bool>, users: map<string, UserInfo>, hub: bool)
      ensures followers == [] && requests == [] && stats == map[] && statsRows == {} && sent == []
      ensures this.profiles == profiles && this.users == users && this.hub == hub
    {
      followers, requests, stats, statsRows, sent := [], [], map[], {}, [];
      this.profiles, this.users, this.hub := profiles, users, hub;
    }

    /** One stats update: a recount from `column` when given, else `updateUserStatsNormal`. */
    method StoreStat(user: string, statsType: string, column: Option<string>, increment: bool, fails: bool)
      returns (r: Result<int>)
      modifies this
      ensures fails ==> r.Err? && stats == old(stats) && statsRows == old(statsRows)
      ensures !fails ==> r.Ok? && stats == old(stats)[(user, statsType) := r.value] && statsRows == old(statsRows) + {user}
      ensures !fails && column.Some? ==> r.value == CountBy(followers, column.value, user)
      ensures !fails && column.None? ==>
        r.value == NormalUpdate(user in old(statsRows), StatValue(old(stats), user, statsType), increment)
      ensures followers == old(followers) && requests == old(requests) && sent == old(sent)
    {
      if fails {
        return Err("database error");
      }
      var v := if column.Some? then CountBy(followers, column.value, user)
               else NormalUpdate(user in statsRows, StatValue(stats, user, statsType), increment);
      stats := stats[(user, statsType) := v];
      statsRows := statsRows + {user};
      r := Ok(v);
    }

    /** `UpdateUserStats` as written: each follow stat is recounted from the other column. */
    method UpdateUserStatsAsWritten(user: string, statsType: string, increment: bool, fails: bool)
      returns (r: Result<int>)
      modifies this
      ensures !fails && statsType == "followers_count" ==>
        r == Ok(FollowingCount(followers, user)) && stats == old(stats)[(user, statsType) := r.value]
      ensures !fails && statsType == "following_count" ==>
        r == Ok(FollowersCount(followers, user)) && stats == old(stats)[(user, statsType) := r.value]
      ensures !fails && statsType !in {"followers_count", "following_count"} ==>
        r == Ok(NormalUpdate(user in old(statsRows), StatValue(old(stats), user, statsType), increment))
        && stats == old(stats)[(user, statsType) := r.value]
      ensures fails ==> r.Err? && stats == old(stats) && statsRows == old(statsRows)
      ensures !fails ==> statsRows == old(statsRows) + {user}
      ensures followers == old(followers) && requests == old(requests) && sent == old(sent)
    {
      r := StoreStat(user, statsType, RecountColumnAsWritten(statsType), increment, fails);
    }

    /** `UpdateUserStats` with each follow stat recounted from its own column. */
    method UpdateUserStats(user: string, statsType: string, increment: bool, fails: bool)
      returns (r: Result<int>)
      modifies this
      ensures !fails && statsType == "followers_count" ==>
        r == Ok(FollowersCount(followers, user)) && stats == old(stats)[(user, statsType) := r.value]
      ensures !fails && statsType == "following_count" ==>
        r == Ok(FollowingCount(followers, user)) && stats == old(stats)[(user, statsType) := r.value]
      ensures !fails && statsType !in {"followers_count", "following_count"} ==>
        r == Ok(NormalUpdate(user in old(statsRows), StatValue(old(stats), user, statsType), increment))
        && stats == old(stats)[(user, statsType) := r.value]
      ensures fails ==> r.Err? && stats == old(stats) && statsRows == old(statsRows)
      ensures !fails ==> statsRows == old(statsRows) + {user}
      ensures followers == old(followers) && requests == old(requests) && sent == old(sent)
    {
      r := StoreStat(user, statsType, RecountColumn(statsType), increment, fails);
    }

    /** The stats updates and stats events that follow a change between a and b, with the recount as written. */
    method AfterChange(a: string, b: string, increment: bool, f: Faults)
      modifies this
      ensures f.stats ==> stats == old(stats) && statsRows == old(statsRows)
      ensures !f.stats ==> stats == RecountedAsWritten(old(stats), followers, a, b) && statsRows == old(statsRows) + {a, b}
      ensures sent == old(sent) + UpdateFollowerCounts(hub, a, b, CountResult(FollowersCount(followers, b), f.counts),
                                                       CountResult(FollowingCount(followers, a), f.counts))
      ensures followers == old(followers) && requests == old(requests)
    {
      var _ := UpdateUserStatsAsWritten(b, "followers_count", increment, f.stats);
      var _ := UpdateUserStatsAsWritten(a, "following_count", increment, f.stats);
      sent := sent + UpdateFollowerCounts(hub, a, b, CountResult(FollowersCount(followers, b), f.counts),
                                          CountResult(FollowingCount(followers, a), f.counts));
    }

    /**
     * The intended stats updates after a change between a and b, each stat
     * recounted from its own column: they keep an accurate table accurate
     * (`FollowKeepsStatsAccurate`, `UnfollowKeepsStatsAccurate`).
     */
    method AfterChangeCorrected(a: string, b: string, increment: bool, f: Faults)
      modifies this
      ensures f.stats ==> stats == old(stats) && statsRows == old(statsRows)
      ensures !f.stats ==> stats == Recounted(old(stats), followers, a, b) && statsRows == old(statsRows) + {a, b}
      ensures !f.stats ==> stats[(b, "followers_count")] == FollowersCount(followers, b)
                           && stats[(a, "following_count")] == FollowingCount(followers, a)
      ensures sent == old(sent) + UpdateFollowerCounts(hub, a, b, CountResult(FollowersCount(followers, b), f.counts),
                                                       CountResult(FollowingCount(followers, a), f.counts))
      ensures followers == old(followers) && requests == old(requests)
    {
      var _ := UpdateUserStats(b, "followers_count", increment, f.stats);
      var _ := UpdateUserStats(a, "following_count", increment, f.stats);
      sent := sent + UpdateFollowerCounts(hub, a, b, CountResult(FollowersCount(followers, b), f.counts),
                                          CountResult(FollowingCount(followers, a), f.counts));
    }

    /**
     * `FollowUser`: a public profile is followed at once (true); a private
     * one gets a pending request (false).
     */
    method FollowUser(a: string, b: string, f: Faults, now: nat) returns (r: Result<bool>)
      modifies this
      ensures a == b ==> r == Err("you cannot follow yourself")
      ensures r == Ok(true) <==>
        a != b && !f.lookup && !IsFollowing(old(followers), a, b) && b in profiles && profiles[b] && !f.write
      ensures r == Ok(false) <==>
        a != b && !f.lookup && !IsFollowing(old(followers), a, b) && b in profiles && !profiles[b] && !f.write
        && !(FindRequest(old(requests), a, b).Some? && FindRequest(old(requests), a, b).value.status == StatusPending)
      ensures r == Ok(true) ==> followers == old(followers) + [FollowRow(a, b)] && requests == old(requests)
      ensures r == Ok(true) ==>
        sent == old(sent) + UpdateFollowerCounts(hub, a, b, CountResult(FollowersCount(followers, b), f.counts),
                                                 CountResult(FollowingCount(followers, a), f.counts))
                          + SendFollowNotification(hub, users, a, b, true, now)
      ensures r == Ok(true) && !f.stats ==> stats == RecountedAsWritten(old(stats), followers, a, b)
                                            && statsRows == old(statsRows) + {a, b}
      ensures r == Ok(true) && !f.stats ==> stats[(b, "followers_count")] == FollowingCount(followers, b)
      ensures r == Ok(true) && f.stats ==> stats == old(stats) && statsRows == old(statsRows)
      ensures r == Ok(false) ==>
        followers == old(followers) && FindRequest(requests, a, b) == Some(Request(a, b, StatusPending))
        && stats == old(stats) && statsRows == old(statsRows) && sent == old(sent)
      ensures r == Ok(false) ==>
        requests == if FindRequest(old(requests), a, b).Some? then SetStatus(old(requests), a, b, StatusPending)
                    else old(requests) + [Request(a, b, StatusPending)]
      ensures r.Err? ==> followers == old(followers) && requests == old(requests) && stats == old(stats)
                         && statsRows == old(statsRows) && sent == old(sent)
    {
      if a == b {
        return Err("you cannot follow yourself");
      }
      if f.lookup {
        return Err("database error");
      }
      if IsFollowing(followers, a, b) {
        return Err("already following this user");
      }
      if b !in profiles {
        return Err("user not found");
      }
      if profiles[b] {
        if f.write {
          return Err("database error");
        }
        followers := followers + [FollowRow(a, b)];
        AfterChange(a, b, true, f);
        sent := sent + SendFollowNotification(hub, users, a, b, true, now);
        return Ok(true);
      }
      var existing := FindRequest(requests, a, b);
      if existing.Some? {
        if existing.value.status == StatusPending {
          return Err("follow request already pending");
        }
        if f.write {
          return Err("database error");
        }
        FindAfterSetStatus(requests, a, b, StatusPending);
        requests := SetStatus(requests, a, b, StatusPending);
      } else {
        if f.write {
          return Err("database error");
        }
        FindAfterAppend(requests, Request(a, b, StatusPending));
        requests := requests + [Request(a, b, StatusPending)];
      }
      return Ok(false);
    }

    /** `UnfollowUser`: deletes an existing follow and recounts both parties. */
    method UnfollowUser(a: string, b: string, f: Faults) returns (r: Result<()>)
      modifies this
      ensures a == b ==> r == Err("you cannot unfollow yourself")
      ensures r.Ok? <==> a != b && !f.lookup && IsFollowing(old(followers), a, b) && !f.write
      ensures r.Ok? ==> followers == RemovePair(old(followers), a, b) && !IsFollowing(followers, a, b)
      ensures r.Ok? ==>
        sent == old(sent) + UpdateFollowerCounts(hub, a, b, CountResult(FollowersCount(followers, b), f.counts),
                                                 CountResult(FollowingCount(followers, a), f.counts))
      ensures r.Ok? && !f.stats ==> stats == RecountedAsWritten(old(stats), followers, a, b)
                                    && statsRows == old(statsRows) + {a, b}
      ensures r.Ok? && !f.stats ==> stats[(a, "following_count")] == FollowersCount(followers, a)
      ensures r.Ok? && f.stats ==> stats == old(stats) && statsRows == old(statsRows)
      ensures r.Err? ==> followers == old(followers) && stats == old(stats) && statsRows == old(statsRows) && sent == old(sent)
      ensures requests == old(requests)
    {
      if a == b {
        return Err("you cannot unfollow yourself");
      }
      if f.lookup {
        return Err("database error");
      }
      if !IsFollowing(followers, a, b) {
        return Err("not following this user");
      }
      if f.write {
        return Err("database error");
      }
      followers := RemovePair(followers, a, b);
      AfterChange(a, b, false, f);
      return Ok(());
    }

    /**
     * `AcceptFollowRequest`: a pending request becomes accepted and the
     * follow is created. The two writes are separate statements: when the
     * second fails the request stays accepted without a follow.
     */
    method AcceptFollowRequest(a: string, b: string, f: Faults) returns (r: Result<()>)
      modifies this
      ensures r.Ok? <==> !f.lookup && FindRequest(old(requests), a, b).Some?
                         && FindRequest(old(requests), a, b).value.status == StatusPending && !f.write && !f.secondWrite
      ensures r.Ok? ==> followers == old(followers) + [FollowRow(a, b)]
                        && requests == SetStatus(old(requests), a, b, StatusAccepted)
                        && FindRequest(requests, a, b) == Some(Request(a, b, StatusAccepted))
      ensures r.Ok? ==>
        sent == old(sent) + UpdateFollowerCounts(hub, a, b, CountResult(FollowersCount(followers, b), f.counts),
                                                 CountResult(FollowingCount(followers, a), f.counts))
      ensures r.Ok? && !f.stats ==> stats == RecountedAsWritten(old(stats), followers, a, b)
                                    && statsRows == old(statsRows) + {a, b}
      ensures r.Ok? && f.stats ==> stats == old(stats) && statsRows == old(statsRows)
      ensures r.Err? && f.secondWrite && !f.lookup && !f.write && FindRequest(old(requests), a, b).Some?
              && FindRequest(old(requests), a, b).value.status == StatusPending ==>
        requests == SetStatus(old(requests), a, b, StatusAccepted) && followers == old(followers)
      ensures r.Err? && !(f.secondWrite && !f.lookup && !f.write && FindRequest(old(requests), a, b).Some?
              && FindRequest(old(requests), a, b).value.status == StatusPending) ==>
        requests == old(requests) && followers == old(followers)
      ensures r.Err? ==> stats == old(stats) && statsRows == old(statsRows) && sent == old(sent)
    {
      if f.lookup {
        return Err("database error");
      }
      var request := FindRequest(requests, a, b);
      if request.None? {
        return Err("follow request not found");
      }
      if request.value.status != StatusPending {
        return Err("follow request is not pending");
      }
      if f.write {
        return Err("database error");
      }
      FindAfterSetStatus(requests, a, b, StatusAccepted);
      requests := SetStatus(requests, a, b, StatusAccepted);
      if f.secondWrite {
        return Err("database error");
      }
      followers := followers + [FollowRow(a, b)];
      AfterChange(a, b, true, f);
      return Ok(());
    }

    /** `DeclineFollowRequest`: a pending request becomes declined; no follow is created. */
    method DeclineFollowRequest(a: string, b: string, f: Faults) returns (r: Result<()>)
      modifies this
      ensures r.Ok? <==> !f.lookup && FindRequest(old(requests), a, b).Some?
                         && FindRequest(old(requests), a, b).value.status == StatusPending && !f.write
      ensures r.Ok? ==> requests == SetStatus(old(requests), a, b, StatusDeclined)
                        && FindRequest(requests, a, b) == Some(Request(a, b, StatusDeclined))
      ensures r.Err? ==> requests == old(requests)
      ensures followers == old(followers) && stats == old(stats) && statsRows == old(statsRows) && sent == old(sent)
    {
      if f.lookup {
        return Err("database error");
      }
      var request := FindRequest(requests, a, b);
      if request.None? {
        return Err("follow request not found");
      }
      if request.value.status != StatusPending {
        return Err("follow request is not pending");
      }
      if f.write {
        return Err("database error");
      }
      FindAfterSetStatus(requests, a, b, StatusDeclined);
      requests := SetStatus(requests, a, b, StatusDeclined);
      return Ok(());
    }
  }
}
