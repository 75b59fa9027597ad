/**
 * Group membership as the notification code sees it: the rows that
 * `GetGroupMembers(groupID, "accepted")` returns, in the repository's
 * order, and the loops that send one event to some of them. The loops are
 * the ones of backend/internal/group/notifications.go and of the event
 * service's notify helpers.
 */
module Groups {
  import opened Wrappers
  import opened Notify

  const Admin := "admin"

  /** A row of an accepted member: who, and with which role. */
  datatype Member = Member(userId: string, role: string)

  /** `members, _ := GetGroupMembers(...)`: an ignored lookup error leaves a nil slice. */
  function MembersOrNone(lookup: Result<seq<Member>>): seq<Member>
  {
    if lookup.Ok? then lookup.value else []
  }

  /** The members' user ids, in order. */
  function MemberIds(ms: seq<Member>): (ids: seq<string>)
    ensures |ids| == |ms|
    ensures forall i :: 0 <= i < |ms| ==> ids[i] == ms[i].userId
  {
    if ms == [] then [] else MemberIds(ms[..|ms| - 1]) + [ms[|ms| - 1].userId]
  }

  /** The ids of the members whose role is admin, in order. */
  function AdminIds(ms: seq<Member>): (ids: seq<string>)
    ensures |ids| <= |ms|
    ensures forall u :: u in ids <==> exists m :: m in ms && m.userId == u && m.role == Admin
  {
    if ms == [] then []
    else
      var init := ms[..|ms| - 1];
      var last := ms[|ms| - 1];
      assert ms == init + [last];
      AdminIds(init) + (if last.role == Admin then [last.userId] else [])
  }

  /** The ids of the members other than `skip`, in order. */
  function IdsExcept(ms: seq<Member>, skip: string): (ids: seq<string>)
    ensures |ids| <= |ms|
    ensures skip !in ids
    ensures forall u :: u in ids <==> u != skip && exists m :: m in ms && m.userId == u
  {
    if ms == [] then []
    else
      var init := ms[..|ms| - 1];
      var last := ms[|ms| - 1];
      assert ms == init + [last];
      IdsExcept(init, skip) + (if last.userId != skip then [last.userId] else [])
  }

  /** With nobody to skip, `IdsExcept` sends to every member. */
  lemma {:induction false} IdsExceptAbsent(ms: seq<Member>, skip: string)
    requires forall m :: m in ms ==> m.userId != skip
    ensures IdsExcept(ms, skip) == MemberIds(ms)
  {
    if ms != [] {
      assert ms[|ms| - 1] in ms;
      forall m | m in ms[..|ms| - 1] ensures m.userId != skip {
        assert m in ms;
      }
      IdsExceptAbsent(ms[..|ms| - 1], skip);
    }
  }

  /** The ids one more member adds when skipping `skip`. */
  lemma IdsExceptSnoc(ms: seq<Member>, i: nat, skip: string)
    requires i < |ms|
    ensures ms[i].userId != skip ==> IdsExcept(ms[..i + 1], skip) == IdsExcept(ms[..i], skip) + [ms[i].userId]
    ensures ms[i].userId == skip ==> IdsExcept(ms[..i + 1], skip) == IdsExcept(ms[..i], skip)
  {
    assert ms[..i + 1][..i] == ms[..i];
  }

  /** The ids one more member adds when only admins count. */
  lemma AdminIdsSnoc(ms: seq<Member>, i: nat)
    requires i < |ms|
    ensures ms[i].role == Admin ==> AdminIds(ms[..i + 1]) == AdminIds(ms[..i]) + [ms[i].userId]
    ensures ms[i].role != Admin ==> AdminIds(ms[..i + 1]) == AdminIds(ms[..i])
  {
    assert ms[..i + 1][..i] == ms[..i];
  }

  /** `for _, member := range members { BroadcastToUser(member.UserID, e) }`. */
  method SendToAll(ms: seq<Member>, e: Event) returns (ds: seq<Delivery>)
    ensures ds == ToEach(MemberIds(ms), e)
  {
    ds := [];
    var i := 0;
    while i < |ms|
      invariant 0 <= i <= |ms|
      invariant ds == ToEach(MemberIds(ms[..i]), e)
    {
      assert ms[..i + 1][..i] == ms[..i];
      ToEachSnoc(MemberIds(ms[..i]), ms[i].userId, e);
      ds := ds + [Delivery(ms[i].userId, e)];
      i := i + 1;
    }
    assert ms[..i] == ms;
  }

  /** The same loop, sending only to members whose role is admin. */
  method SendToAdmins(ms: seq<Member>, e: Event) returns (ds: seq<Delivery>)
    ensures ds == ToEach(AdminIds(ms), e)
  {
    ds := [];
    var i := 0;
    while i < |ms|
      invariant 0 <= i <= |ms|
      invariant ds == ToEach(AdminIds(ms[..i]), e)
    {
      AdminIdsSnoc(ms, i);
      if ms[i].role == Admin {
        ToEachSnoc(AdminIds(ms[..i]), ms[i].userId, e);
        ds := ds + [Delivery(ms[i].userId, e)];
      }
      i := i + 1;
    }
    assert ms[..i] == ms;
  }

  /** The same loop, skipping the member whose id is `skip`. */
  method SendToAllExcept(ms: seq<Member>, skip: string, e: Event) returns (ds: seq<Delivery>)
    ensures ds == ToEach(IdsExcept(ms, skip), e)
  {
    ds := [];
    var i := 0;
    while i < |ms|
      invariant 0 <= i <= |ms|
      invariant ds == ToEach(IdsExcept(ms[..i], skip), e)
    {
      IdsExceptSnoc(ms, i, skip);
      if ms[i].userId != skip {
        ToEachSnoc(IdsExcept(ms[..i], skip), ms[i].userId, e);
        ds := ds + [Delivery(ms[i].userId, e)];
      }
      i := i + 1;
    }
    assert ms[..i] == ms;
  }
}
