/**
 * The friend-request hook of frontend/src/services/friendService.js: how
 * pending requests and contacts are shaped for display, how accepting or
 * declining changes the request list, and the hook's state (both lists,
 * both loading flags, the toasts shown and the contact refreshes it
 * starts). `BASE_URL` and `Date.now()` are parameters; a missing or null
 * JSON string is "", a missing number 0.
 */
module FriendClient {
  import opened Wrappers
  import opened ClientCommon

  /** A pending request as `follow/pending-requests` returns it. */
  datatype RawRequest = RawRequest(id: int, userName: string, followerAvatar: string, mutualFriendsCount: int,
                                   followerId: int)

  /** A request as the hook keeps it. */
  datatype FriendRequest = FriendRequest(id: int, name: string, image: string, mutualFriends: int, followerId: int)

  /** A followed user as `follow/following` returns it; `isOnline` may be absent. */
  datatype RawContact = RawContact(id: int, userName: string, userAvatar: string, isOnline: Option<bool>,
                                   followerId: int)

  /** A contact as the hook keeps it. */
  datatype Contact = Contact(id: int, name: string, image: string, isOnline: bool, userId: int)

  /** A pending request shaped for display: the avatar under the uploads path, no count meaning zero. */
  function FormatRequest(baseUrl: string, r: RawRequest): (f: FriendRequest)
    ensures f.id == r.id && f.name == r.userName && f.followerId == r.followerId
    ensures f.image == AvatarUrl(baseUrl, r.followerAvatar)
    ensures f.mutualFriends == r.mutualFriendsCount
  {
    // `MutualFriendsCount || 0` is the count itself, 0 included.
    FriendRequest(r.id, r.userName, AvatarUrl(baseUrl, r.followerAvatar), r.mutualFriendsCount, r.followerId)
  }

  /** A contact shaped for display: offline unless the server says it is online. */
  function FormatContact(baseUrl: string, c: RawContact): (f: Contact)
    ensures f.id == c.id && f.name == c.userName && f.userId == c.followerId
    ensures f.image == AvatarUrl(baseUrl, c.userAvatar)
    ensures f.isOnline <==> c.isOnline == Some(true)
  {
    Contact(c.id, c.userName, AvatarUrl(baseUrl, c.userAvatar), c.isOnline.Some? && c.isOnline.value, c.followerId)
  }

  /** Every request shaped for display, in the server's order. */
  function FormatRequests(baseUrl: string, data: seq<RawRequest>): (r: seq<FriendRequest>)
    ensures |r| == |data| && forall i :: 0 <= i < |data| ==> r[i] == FormatRequest(baseUrl, data[i])
  {
    seq(|data|, i requires 0 <= i < |data| => FormatRequest(baseUrl, data[i]))
  }

  /** Every contact shaped for display, in the server's order. */
  function FormatContacts(baseUrl: string, data: seq<RawContact>): (r: seq<Contact>)
    ensures |r| == |data| && forall i :: 0 <= i < |data| ==> r[i] == FormatContact(baseUrl, data[i])
  {
    seq(|data|, i requires 0 <= i < |data| => FormatContact(baseUrl, data[i]))
  }

  /** The request list once `userId` is accepted or declined: every request from that follower leaves. */
  function WithoutFollower(list: seq<FriendRequest>, userId: int): (r: seq<FriendRequest>)
    ensures forall q :: q in r <==> q in list && q.followerId != userId
    ensures |r| <= |list|
    ensures (forall q :: q in list ==> q.followerId != userId) ==> r == list
  {
    if list == [] then []
    else if list[0].followerId == userId then WithoutFollower(list[1..], userId)
    else [list[0]] + WithoutFollower(list[1..], userId)
  }

  /** Removing a follower's requests keeps the others in their order: removal distributes over concatenation. */
  lemma {:induction false} WithoutFollowerAppend(a: seq<FriendRequest>, b: seq<FriendRequest>, userId: int)
    ensures WithoutFollower(a + b, userId) == WithoutFollower(a, userId) + WithoutFollower(b, userId)
  {
    if a == [] {
      assert a + b == b;
    } else {
      assert (a + b)[0] == a[0] && (a + b)[1..] == a[1..] + b;
      WithoutFollowerAppend(a[1..], b, userId);
    }
  }

  /** Removing a follower twice is removing it once. */
  lemma WithoutFollowerIdempotent(list: seq<FriendRequest>, userId: int)
    ensures WithoutFollower(WithoutFollower(list, userId), userId) == WithoutFollower(list, userId)
  {
  }

  /** The payload of a `follow_request` event. */
  datatype FollowPayload = FollowPayload(followerName: string, avatar: string, followerId: int)

  /**
   * The `follow_request` listener: a request goes first, with the current
   * time as a temporary id, no mutual friends, and the event's avatar value
   * itself as its image (the default picture when it is empty).
   */
  function OnFollowRequest(list: seq<FriendRequest>, payload: Option<FollowPayload>, now: int)
    : (r: seq<FriendRequest>)
    ensures payload.None? ==> r == list
    ensures payload.Some? ==> |r| == |list| + 1 && r[1..] == list
    ensures payload.Some? ==> r[0].id == now && r[0].name == payload.value.followerName
                              && r[0].followerId == payload.value.followerId && r[0].mutualFriends == 0
                              && r[0].image == Or(payload.value.avatar, DefaultAvatar)
  {
    if payload.None? then list
    else
      var p := payload.value;
      [FriendRequest(now, p.followerName, Or(p.avatar, DefaultAvatar), 0, p.followerId)] + list
  }

  /** Accepting or declining the sender of a pushed request takes that request off the list again. */
  lemma PushedRequestRemovable(list: seq<FriendRequest>, p: FollowPayload, now: int)
    requires forall q :: q in list ==> q.followerId != p.followerId
    ensures WithoutFollower(OnFollowRequest(list, Some(p), now), p.followerId) == list
  {
    var pushed := OnFollowRequest(list, Some(p), now);
    assert pushed == [pushed[0]] + list;
    WithoutFollowerAppend([pushed[0]], list, p.followerId);
  }

  /** The body of an accept or decline response. */
  datatype Outcome = Outcome(success: bool)

  /** The hook's state. */
  class FriendService {
    const baseUrl: string
    var friendRequests: seq<FriendRequest>
    var contacts: seq<Contact>
    var isLoadingRequests: bool
    var isLoadingContacts: bool
    var toasts: seq<Toast>
    /** How many times the hook has started `fetchContacts` on its own. */
    var contactRefreshes: nat

    constructor (baseUrl: string)
      ensures this.baseUrl == baseUrl && friendRequests == [] && contacts == []
      ensures !isLoadingRequests && !isLoadingContacts && toasts == [] && contactRefreshes == 0
    {
      this.baseUrl := baseUrl;
      friendRequests := [];
      contacts := [];
      isLoadingRequests := false;
      isLoadingContacts := false;
      toasts := [];
      contactRefreshes := 0;
    }

    /** `fetchFriendRequests` starts: its loading flag is raised until the response arrives. */
    method StartFetchRequests()
      modifies this
      ensures isLoadingRequests && friendRequests == old(friendRequests) && contacts == old(contacts)
      ensures isLoadingContacts == old(isLoadingContacts) && toasts == old(toasts)
      ensures contactRefreshes == old(contactRefreshes)
    {
      isLoadingRequests := true;
    }

    /** `fetchFriendRequests` finishes: a non-null list replaces the requests; a failure changes nothing and shows nothing. */
    method CompleteFetchRequests(response: Response<Option<seq<RawRequest>>>) returns (result: seq<FriendRequest>)
      modifies this
      ensures !isLoadingRequests
      ensures response.Ok? && response.data.Some? ==>
                result == FormatRequests(baseUrl, response.data.value) && friendRequests == result
      ensures !(response.Ok? && response.data.Some?) ==> result == [] && friendRequests == old(friendRequests)
      ensures contacts == old(contacts) && isLoadingContacts == old(isLoadingContacts) && toasts == old(toasts)
      ensures contactRefreshes == old(contactRefreshes)
    {
      result := [];
      if response.Ok? && response.data.Some? {
        result := FormatRequests(baseUrl, response.data.value);
        friendRequests := result;
      }
      isLoadingRequests := false;
    }

    /** `fetchContacts` starts: its loading flag is raised until the response arrives. */
    method StartFetchContacts()
      modifies this
      ensures isLoadingContacts && friendRequests == old(friendRequests) && contacts == old(contacts)
      ensures isLoadingRequests == old(isLoadingRequests) && toasts == old(toasts)
      ensures contactRefreshes == old(contactRefreshes)
    {
      isLoadingContacts := true;
    }

    /** `fetchContacts` finishes: a non-null list replaces the contacts; a failure changes nothing and shows nothing. */
    method CompleteFetchContacts(response: Response<Option<seq<RawContact>>>) returns (result: seq<Contact>)
      modifies this
      ensures !isLoadingContacts
      ensures response.Ok? && response.data.Some? ==>
                result == FormatContacts(baseUrl, response.data.value) && contacts == result
      ensures !(response.Ok? && response.data.Some?) ==> result == [] && contacts == old(contacts)
      ensures friendRequests == old(friendRequests) && isLoadingRequests == old(isLoadingRequests)
      ensures toasts == old(toasts) && contactRefreshes == old(contactRefreshes)
    {
      result := [];
      if response.Ok? && response.data.Some? {
        result := FormatContacts(baseUrl, response.data.value);
        contacts := result;
      }
      isLoadingContacts := false;
    }

    /**
     * `acceptFriendRequest(userId)`: a body with `success` removes that
     * follower's requests, shows a toast and refreshes the contacts; an OK
     * body without it changes nothing but still reports true; a failure
     * shows an error toast and reports false.
     */
    method AcceptFriendRequest(userId: int, response: Response<Outcome>) returns (ok: bool)
      modifies this
      ensures ok <==> response.Ok?
      ensures ok && response.data.success ==>
                friendRequests == WithoutFollower(old(friendRequests), userId)
                && toasts == old(toasts) + [Toast("Friend request accepted", Success)]
                && contactRefreshes == old(contactRefreshes) + 1
      ensures ok && !response.data.success ==>
                friendRequests == old(friendRequests) && toasts == old(toasts) && contactRefreshes == old(contactRefreshes)
      ensures !ok ==>
                friendRequests == old(friendRequests) && contactRefreshes == old(contactRefreshes)
                && toasts == old(toasts) + [FailureToast(response, "Failed to accept friend request",
                                                          "Error accepting friend request")]
      ensures contacts == old(contacts)
      ensures isLoadingRequests == old(isLoadingRequests) && isLoadingContacts == old(isLoadingContacts)
    {
      if response.Ok? {
        if response.data.success {
          toasts := toasts + [Toast("Friend request accepted", Success)];
          friendRequests := WithoutFollower(friendRequests, userId);
          contactRefreshes := contactRefreshes + 1;
        }
        ok := true;
      } else {
        toasts := toasts + [FailureToast(response, "Failed to accept friend request", "Error accepting friend request")];
        ok := false;
      }
    }

    /** `declineFriendRequest(userId)`: as accepting, without the contact refresh. */
    method DeclineFriendRequest(userId: int, response: Response<Outcome>) returns (ok: bool)
      modifies this
      ensures ok <==> response.Ok?
      ensures ok && response.data.success ==>
                friendRequests == WithoutFollower(old(friendRequests), userId)
                && toasts == old(toasts) + [Toast("Friend request declined", Success)]
      ensures ok && !response.data.success ==> friendRequests == old(friendRequests) && toasts == old(toasts)
      ensures !ok ==>
                friendRequests == old(friendRequests)
                && toasts == old(toasts) + [FailureToast(response, "Failed to decline friend request",
                                                          "Error declining friend request")]
      ensures contacts == old(contacts) && contactRefreshes == old(contactRefreshes)
      ensures isLoadingRequests == old(isLoadingRequests) && isLoadingContacts == old(isLoadingContacts)
    {
      if response.Ok? {
        if response.data.success {
          toasts := toasts + [Toast("Friend request declined", Success)];
          friendRequests := WithoutFollower(friendRequests, userId);
        }
        ok := true;
      } else {
        toasts := toasts + [FailureToast(response, "Failed to decline friend request", "Error declining friend request")];
        ok := false;
      }
    }

    /** The `follow_request` listener. */
    method OnFollowRequestEvent(payload: Option<FollowPayload>, now: int)
      modifies this
      ensures friendRequests == OnFollowRequest(old(friendRequests), payload, now)
      ensures contacts == old(contacts) && toasts == old(toasts) && contactRefreshes == old(contactRefreshes)
      ensures isLoadingRequests == old(isLoadingRequests) && isLoadingContacts == old(isLoadingContacts)
    {
      friendRequests := OnFollowRequest(friendRequests, payload, now);
    }

    /** The `follow_request_accepted` listener: any payload starts a contact refresh. */
    method OnFollowAccepted(hasPayload: bool)
      modifies this
      ensures contactRefreshes == old(contactRefreshes) + (if hasPayload then 1 else 0)
      ensures friendRequests == old(friendRequests) && contacts == old(contacts) && toasts == old(toasts)
      ensures isLoadingRequests == old(isLoadingRequests) && isLoadingContacts == old(isLoadingContacts)
    {
      if hasPayload {
        contactRefreshes := contactRefreshes + 1;
      }
    }
  }
}
