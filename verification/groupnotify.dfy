/**
 * The group package's notifications (backend/internal/group/notifications.go):
 * who receives which event. A group or post in a payload is named by its
 * id; a user row read by `GetUserBasicByID`, whose error is ignored, is
 * the user's id when the lookup finds it and null otherwise. `members` is
 * the result of `GetGroupMembers(groupID, "accepted")`, whose error is
 * ignored too. Each method returns the `BroadcastToUser` calls it makes, in
 * order.
 */
module GroupNotify {
  import opened Wrappers
  import opened Notify
  import opened Groups

  /** A user row as the payloads carry it: present, or nil after a failed lookup. */
  function UserValue(users: map<string, UserInfo>, id: string): (v: Value)
    ensures v == Null <==> id !in users
  {
    if id in users then Obj(id) else Null
  }

  /** The payload shared by group creation, update and deletion. */
  function GroupChange(kind: string, groupId: string, userId: string): Event
  {
    Event(kind, map["group" := Obj(groupId), "userID" := Str(userId)])
  }

  /** `NotifyGroupCreated`: only the creating user hears of it. */
  method NotifyGroupCreated(groupId: string, userId: string) returns (ds: seq<Delivery>)
    ensures |ds| == 1 && ds[0].recipient == userId && ds[0].event.kind == "group_created"
    ensures Has(ds[0].event, "group", Obj(groupId))
  {
    ds := [Delivery(userId, GroupChange("group_created", groupId, userId))];
  }

  /** `NotifyGroupUpdated`: every accepted member, the updater included. */
  method NotifyGroupUpdated(groupId: string, userId: string, members: Result<seq<Member>>) returns (ds: seq<Delivery>)
    ensures ds == ToEach(MemberIds(MembersOrNone(members)), GroupChange("group_updated", groupId, userId))
  {
    ds := SendToAll(MembersOrNone(members), GroupChange("group_updated", groupId, userId));
  }

  /** `NotifyGroupDeleted`: every accepted member. */
  method NotifyGroupDeleted(groupId: string, userId: string, members: Result<seq<Member>>) returns (ds: seq<Delivery>)
    ensures ds == ToEach(MemberIds(MembersOrNone(members)), GroupChange("group_deleted", groupId, userId))
  {
    ds := SendToAll(MembersOrNone(members), GroupChange("group_deleted", groupId, userId));
  }

  /** `NotifyGroupInvitation`: the invitee only, with the inviter's row. */
  method NotifyGroupInvitation(groupId: string, inviterId: string, inviteeId: string, users: map<string, UserInfo>)
    returns (ds: seq<Delivery>)
    ensures |ds| == 1 && ds[0].recipient == inviteeId && ds[0].event.kind == "group_invitation"
    ensures Has(ds[0].event, "inviter", UserValue(users, inviterId))
  {
    ds := [Delivery(inviteeId, Event("group_invitation",
                                     map["group" := Obj(groupId), "inviter" := UserValue(users, inviterId)]))];
  }

  /** The payload naming a group and a user. */
  function GroupAndUser(kind: string, groupId: string, users: map<string, UserInfo>, userId: string): Event
  {
    Event(kind, map["group" := Obj(groupId), "user" := UserValue(users, userId)])
  }

  /** The payload naming a group and the admin who acted. */
  function GroupAndAdmin(kind: string, groupId: string, users: map<string, UserInfo>, adminId: string): Event
  {
    Event(kind, map["group" := Obj(groupId), "admin" := UserValue(users, adminId)])
  }

  /** `NotifyGroupInvitationAccepted`: every accepted member. */
  method NotifyGroupInvitationAccepted(groupId: string, userId: string, users: map<string, UserInfo>,
                                       members: Result<seq<Member>>) returns (ds: seq<Delivery>)
    ensures ds == ToEach(MemberIds(MembersOrNone(members)), GroupAndUser("group_invitation_accepted", groupId, users, userId))
  {
    ds := SendToAll(MembersOrNone(members), GroupAndUser("group_invitation_accepted", groupId, users, userId));
  }

  /** `NotifyGroupJoinRequest`: the accepted members whose role is admin, and nobody else. */
  method NotifyGroupJoinRequest(groupId: string, userId: string, users: map<string, UserInfo>,
                                members: Result<seq<Member>>) returns (ds: seq<Delivery>)
    ensures ds == ToEach(AdminIds(MembersOrNone(members)), GroupAndUser("group_join_request", groupId, users, userId))
    ensures forall d :: d in ds ==> exists m :: m in MembersOrNone(members) && m.userId == d.recipient && m.role == Admin
  {
    ds := SendToAdmins(MembersOrNone(members), GroupAndUser("group_join_request", groupId, users, userId));
    forall d | d in ds
      ensures exists m :: m in MembersOrNone(members) && m.userId == d.recipient && m.role == Admin
    {
      var i :| 0 <= i < |ds| && ds[i] == d;
      assert d.recipient in AdminIds(MembersOrNone(members));
    }
  }

  /**
   * `NotifyGroupJoinRequestAccepted`: the new member hears
   * `group_join_request_accepted` first; then every other accepted member
   * hears `new_group_member`, which the new member never receives.
   */
  method NotifyGroupJoinRequestAccepted(groupId: string, userId: string, adminId: string, users: map<string, UserInfo>,
                                        members: Result<seq<Member>>) returns (ds: seq<Delivery>)
    ensures |ds| >= 1 && ds[0] == Delivery(userId, GroupAndAdmin("group_join_request_accepted", groupId, users, adminId))
    ensures ds[1..] == ToEach(IdsExcept(MembersOrNone(members), userId), GroupAndUser("new_group_member", groupId, users, userId))
    ensures forall i :: 1 <= i < |ds| ==> ds[i].recipient != userId
  {
    var rest := SendToAllExcept(MembersOrNone(members), userId, GroupAndUser("new_group_member", groupId, users, userId));
    ds := [Delivery(userId, GroupAndAdmin("group_join_request_accepted", groupId, users, adminId))] + rest;
    assert ds[1..] == rest;
  }

  /** `NotifyGroupMemberLeft`: every accepted member. */
  method NotifyGroupMemberLeft(groupId: string, userId: string, users: map<string, UserInfo>,
                               members: Result<seq<Member>>) returns (ds: seq<Delivery>)
    ensures ds == ToEach(MemberIds(MembersOrNone(members)), GroupAndUser("group_member_left", groupId, users, userId))
  {
    ds := SendToAll(MembersOrNone(members), GroupAndUser("group_member_left", groupId, users, userId));
  }

  /** The payload of a role change. */
  function RoleUpdated(groupId: string, users: map<string, UserInfo>, userId: string, role: string, adminId: string): Event
  {
    Event("group_member_role_updated", map["group" := Obj(groupId), "user" := UserValue(users, userId),
                                           "role" := Str(role), "admin" := UserValue(users, adminId)])
  }

  /** `NotifyGroupMemberRoleUpdated`: every accepted member, with the new role. */
  method NotifyGroupMemberRoleUpdated(groupId: string, userId: string, role: string, adminId: string,
                                      users: map<string, UserInfo>, members: Result<seq<Member>>)
    returns (ds: seq<Delivery>)
    ensures ds == ToEach(MemberIds(MembersOrNone(members)), RoleUpdated(groupId, users, userId, role, adminId))
    ensures forall d :: d in ds ==> Has(d.event, "role", Str(role))
  {
    ds := SendToAll(MembersOrNone(members), RoleUpdated(groupId, users, userId, role, adminId));
  }

  /** The payload the members get about a removal. */
  function MemberRemoved(groupId: string, users: map<string, UserInfo>, userId: string, adminId: string): Event
  {
    Event("group_member_removed", map["group" := Obj(groupId), "user" := UserValue(users, userId),
                                      "admin" := UserValue(users, adminId)])
  }

  /**
   * `NotifyGroupMemberRemoved`: the removed user hears `removed_from_group`
   * first; then every accepted member hears `group_member_removed`.
   */
  method NotifyGroupMemberRemoved(groupId: string, userId: string, adminId: string, users: map<string, UserInfo>,
                                  members: Result<seq<Member>>) returns (ds: seq<Delivery>)
    ensures |ds| == 1 + |MembersOrNone(members)|
    ensures ds[0] == Delivery(userId, GroupAndAdmin("removed_from_group", groupId, users, adminId))
    ensures ds[1..] == ToEach(MemberIds(MembersOrNone(members)), MemberRemoved(groupId, users, userId, adminId))
  {
    var rest := SendToAll(MembersOrNone(members), MemberRemoved(groupId, users, userId, adminId));
    ds := [Delivery(userId, GroupAndAdmin("removed_from_group", groupId, users, adminId))] + rest;
    assert ds[1..] == rest;
  }

  /** `NotifyGroupPostCreated`: every accepted member of the post's group. */
  method NotifyGroupPostCreated(postId: string, groupId: string, members: Result<seq<Member>>) returns (ds: seq<Delivery>)
    ensures ds == ToEach(MemberIds(MembersOrNone(members)), Event("group_post_created", map["post" := Obj(postId)]))
  {
    ds := SendToAll(MembersOrNone(members), Event("group_post_created", map["post" := Obj(postId)]));
  }

  /**
   * A group chat message. `userId` is the message's own column and
   * `senderId` the id of its loaded `User`; the payload shows the first and
   * the loop skips the second.
   */
  datatype ChatMessage = ChatMessage(id: int, content: string, userId: string, senderId: string,
                                     createdAt: string, groupId: string)

  /** The group message event (type "group_message", the value the frontend subscribes to). */
  function GroupMessageEvent(m: ChatMessage): Event
  {
    Event("group_message", map["id" := Int(m.id), "Content" := Str(m.content), "User" := Obj(m.userId),
                               "CreatedAt" := Str(m.createdAt), "GroupID" := Str(m.groupId)])
  }

  /** `NotifyGroupChatMessage`: every accepted member but the sender. */
  method NotifyGroupChatMessage(m: ChatMessage, members: Result<seq<Member>>) returns (ds: seq<Delivery>)
    ensures ds == ToEach(IdsExcept(MembersOrNone(members), m.senderId), GroupMessageEvent(m))
    ensures forall d :: d in ds ==> d.recipient != m.senderId
  {
    ds := SendToAllExcept(MembersOrNone(members), m.senderId, GroupMessageEvent(m));
  }

  /** `NotifyGroupJoinRequestRejected`: the rejected user only. */
  method NotifyGroupJoinRequestRejected(groupId: string, userId: string, adminId: string, users: map<string, UserInfo>)
    returns (ds: seq<Delivery>)
    ensures |ds| == 1 && ds[0].recipient == userId && ds[0].event.kind == "group_join_request_rejected"
    ensures Has(ds[0].event, "admin", UserValue(users, adminId))
  {
    ds := [Delivery(userId, GroupAndAdmin("group_join_request_rejected", groupId, users, adminId))];
  }

  /** `NotifyGroupInvitationRejected`: the inviter only, with the invitee's row. */
  method NotifyGroupInvitationRejected(groupId: string, userId: string, inviterId: string, users: map<string, UserInfo>)
    returns (ds: seq<Delivery>)
    ensures |ds| == 1 && ds[0].recipient == inviterId && ds[0].event.kind == "group_invitation_rejected"
    ensures Has(ds[0].event, "user", UserValue(users, userId))
  {
    ds := [Delivery(inviterId, GroupAndUser("group_invitation_rejected", groupId, users, userId))];
  }

  /** Among the members, a chat message reaches exactly those who did not send it. */
  lemma ChatReachesEveryoneButTheSender(ms: seq<Member>, m: ChatMessage, u: string)
    ensures u in Recipients(ToEach(IdsExcept(ms, m.senderId), GroupMessageEvent(m)))
            <==> u != m.senderId && exists x :: x in ms && x.userId == u
  {
    var ids := IdsExcept(ms, m.senderId);
    var rs := Recipients(ToEach(ids, GroupMessageEvent(m)));
    assert rs == ids;
  }
}
