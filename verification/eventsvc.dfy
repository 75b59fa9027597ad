/**
 * The group event service (backend/internal/event/service.go). The
 * repository it calls is not part of this model; its tables are the
 * fields of `EventService`: the events in row order, each user's response
 * per event (one per user and event), the accepted group members with
 * their roles, and the user rows. A lookup that finds no row is the
 * repository's error; other database failures are not modelled. A banner
 * upload is passed in as its outcome: absent, saved under a path, or
 * failed. The `notify*` helpers send to the hub, recorded in `sent`.
 */
module EventService {
  import opened Wrappers
  import opened Utils
  import opened Notify
  import opened Groups

  const Going := "going"
  const NotGoing := "not_going"

  /** `models.GroupEvent`; `userResponse` is filled in for the caller, never stored. */
  datatype GroupEvent = GroupEvent(id: string, groupId: string, creatorId: string, title: string,
                                   description: string, eventDate: string, banner: NullString,
                                   userResponse: string)

  /** A row of the group members table, of an accepted member. */
  datatype GroupMember = GroupMember(groupId: string, userId: string, role: string)

  /** The responses `RespondToEvent` accepts. */
  predicate ValidResponse(t: string)
  {
    t == Going || t == NotGoing
  }

  /** `GetEventByID`: the index of the first event with this id. */
  function FindEvent(es: seq<GroupEvent>, id: string): (r: Option<nat>)
    ensures r.None? <==> forall e :: e in es ==> e.id != id
    ensures r.Some? ==> r.value < |es| && es[r.value].id == id && forall j :: 0 <= j < r.value ==> es[j].id != id
  {
    if es == [] then None
    else if es[0].id == id then Some(0)
    else
      var r := FindEvent(es[1..], id);
      assert forall e :: e in es[1..] ==> e in es;
      if r.None? then None else Some(r.value + 1)
  }

  /** Rewriting the found event, id kept, leaves it the one found. */
  lemma FindAfterReplace(es: seq<GroupEvent>, id: string, i: nat, u: GroupEvent)
    requires FindEvent(es, id) == Some(i) && u.id == id
    ensures FindEvent(es[i := u], id) == Some(i)
  {
    var es' := es[i := u];
    assert es'[i] in es';
    assert forall j :: 0 <= j < i ==> es'[j] == es[j];
  }

  /**
   * `GetGroupEvents`: the events of one group, in row order, each as often
   * as its rows appear (the order is `EventsOfAppend`).
   */
  function EventsOf(es: seq<GroupEvent>, groupId: string): (r: seq<GroupEvent>)
    ensures |r| <= |es|
    ensures forall e :: e in r <==> e in es && e.groupId == groupId
    ensures forall e :: multiset(r)[e] == if e.groupId == groupId then multiset(es)[e] else 0
  {
    if es == [] then []
    else
      var init := es[..|es| - 1];
      var last := es[|es| - 1];
      assert es == init + [last];
      EventsOf(init, groupId) + (if last.groupId == groupId then [last] else [])
  }

  /** Selecting a group's events keeps row order: the rows of `a` come before those of `b`. */
  lemma {:induction false} EventsOfAppend(a: seq<GroupEvent>, b: seq<GroupEvent>, groupId: string)
    ensures EventsOf(a + b, groupId) == EventsOf(a, groupId) + EventsOf(b, groupId)
  {
    if b != [] {
      var init := b[..|b| - 1];
      var last := b[|b| - 1];
      assert (a + b)[..|a + b| - 1] == a + init;
      assert (a + b)[|a + b| - 1] == last;
      EventsOfAppend(a, init, groupId);
    } else {
      assert a + b == a;
    }
  }

  /** `DeleteEvent` in the repository: every row with this id goes. */
  function RemoveEvent(es: seq<GroupEvent>, id: string): (r: seq<GroupEvent>)
    ensures |r| <= |es|
    ensures forall e :: e in r <==> e in es && e.id != id
  {
    if es == [] then []
    else
      var init := es[..|es| - 1];
      var last := es[|es| - 1];
      assert es == init + [last];
      RemoveEvent(init, id) + (if last.id != id then [last] else [])
  }

  /** `IsGroupMember`. */
  predicate IsMember(ms: seq<GroupMember>, groupId: string, userId: string)
  {
    exists m :: m in ms && m.groupId == groupId && m.userId == userId
  }

  /** `GetMemberRole`: the role of the member, none for a non-member. */
  function RoleOf(ms: seq<GroupMember>, groupId: string, userId: string): (r: Option<string>)
    ensures r.Some? <==> IsMember(ms, groupId, userId)
    ensures r.Some? ==> GroupMember(groupId, userId, r.value) in ms
  {
    if ms == [] then None
    else if ms[0].groupId == groupId && ms[0].userId == userId then Some(ms[0].role)
    else
      var r := RoleOf(ms[1..], groupId, userId);
      assert forall m :: m in ms[1..] ==> m in ms;
      assert r.None? ==> forall m :: m in ms && m.groupId == groupId && m.userId == userId ==> m == ms[0];
      r
  }

  /**
   * `GetGroupMembers(groupID, "accepted")`: the members of one group with
   * their roles, in row order, one entry per row (the order is
   * `MembersOfAppend`).
   */
  function MembersOf(ms: seq<GroupMember>, groupId: string): (r: seq<Member>)
    ensures |r| <= |ms|
    ensures forall u :: (exists x :: x in r && x.userId == u) <==> IsMember(ms, groupId, u)
    ensures forall x :: x in r <==> GroupMember(groupId, x.userId, x.role) in ms
    ensures forall u, role :: multiset(r)[Member(u, role)] == multiset(ms)[GroupMember(groupId, u, role)]
  {
    if ms == [] then []
    else
      var init := ms[..|ms| - 1];
      var last := ms[|ms| - 1];
      assert ms == init + [last];
      var r := MembersOf(init, groupId) + (if last.groupId == groupId then [Member(last.userId, last.role)] else []);
      assert forall u :: IsMember(ms, groupId, u) <==> IsMember(init, groupId, u) || (last.groupId == groupId && last.userId == u);
      assert multiset(ms) == multiset(init) + multiset{last};
      r
  }

  /** Listing a group's members keeps row order: the rows of `a` come before those of `b`. */
  lemma {:induction false} MembersOfAppend(a: seq<GroupMember>, b: seq<GroupMember>, groupId: string)
    ensures MembersOf(a + b, groupId) == MembersOf(a, groupId) + MembersOf(b, groupId)
  {
    if b != [] {
      var init := b[..|b| - 1];
      var last := b[|b| - 1];
      assert (a + b)[..|a + b| - 1] == a + init;
      assert (a + b)[|a + b| - 1] == last;
      MembersOfAppend(a, init, groupId);
    } else {
      assert a + b == a;
    }
  }

  /**
   * The permission check of `UpdateEvent` and `DeleteEvent`: the creator
   * passes without a role lookup; anyone else needs a role, and that role
   * must be admin.
   */
  function MayModify(e: GroupEvent, userId: string, role: Option<string>): (r: Result<()>)
    ensures r.Ok? <==> e.creatorId == userId || role == Some(Admin)
  {
    if e.creatorId == userId then Ok(())
    else if role.None? then Err("member not found")
    else if role.value != Admin then Err("only the event creator or group admins can modify this event")
    else Ok(())
  }

  /** The banner a call stores: a saved upload, or nothing. */
  function SavedBanner(banner: Option<Result<string>>): (r: Option<string>)
    ensures r.Some? <==> banner.Some? && banner.value.Ok?
  {
    if banner.Some? && banner.value.Ok? then Some(banner.value.value) else None
  }

  /** The field updates of `UpdateEvent`: title, description and date always; the banner only when a new one was saved. */
  function ApplyUpdate(e: GroupEvent, title: string, description: string, date: string, banner: Option<string>): (r: GroupEvent)
    ensures r.id == e.id && r.groupId == e.groupId && r.creatorId == e.creatorId && r.userResponse == e.userResponse
    ensures r.title == title && r.description == description && r.eventDate == date
    ensures banner.None? ==> r.banner == e.banner
    ensures banner.Some? ==> r.banner == NullString(banner.value, true)
  {
    var u := e.(title := title, description := description, eventDate := date);
    if banner.Some? then u.(banner := NullString(banner.value, true)) else u
  }

  /** The user's response, when there is one, is copied onto the event. */
  function WithResponse(e: GroupEvent, answer: Option<string>): (r: GroupEvent)
    ensures answer.Some? ==> r.userResponse == answer.value
    ensures answer.None? ==> r.userResponse == e.userResponse
    ensures r.(userResponse := e.userResponse) == e
  {
    if answer.Some? then e.(userResponse := answer.value) else e
  }

  /** `group_event_created` and `group_event_updated`: the whole event. */
  function EventChanged(kind: string, e: GroupEvent): Event
  {
    Event(kind, map["event" := Obj(e.id)])
  }

  /** `group_event_deleted`: the ids only. */
  function EventDeleted(e: GroupEvent): Event
  {
    Event(GroupEventDeleted, map["eventId" := Str(e.id), "groupId" := Str(e.groupId)])
  }

  /** `event_response_updated` of this service, with both tallies. */
  function ResponseUpdated(e: GroupEvent, userId: string, user: UserInfo, t: string, going: int, notGoing: int): Event
  {
    Event(EventResponseUpdated, map["eventId" := Str(e.id), "groupId" := Str(e.groupId), "userId" := Str(userId),
                                    "userName" := Str(FullName(user)), "userAvatar" := Str(user.avatar),
                                    "responseType" := Str(t), "goingCount" := Int(going), "notGoingCount" := Int(notGoing)])
  }

  /** `GetEventResponseCounts`: how many users answered the event with `t`. */
  function Tally(responses: map<(string, string), string>, eventId: string, t: string): nat
  {
    |set k | k in responses && k.0 == eventId && responses[k] == t|
  }

  class EventService {
    /** The events table, in row order. */
    var events: seq<GroupEvent>
    /** The responses table: (event id, user id) to the response. */
    var responses: map<(string, string), string>
    /** The accepted members of every group. */
    const members: seq<GroupMember>
    /** The user rows. */
    const users: map<string, UserInfo>
    /** The events sent so far. */
    var sent: seq<Delivery>

    constructor (members: seq<GroupMember>, users: map<string, UserInfo>)
      ensures events == [] && responses == map[] && this.members == members && this.users == users && sent == []
    {
      events := [];
      responses := map[];
      this.members := members;
      this.users := users;
      sent := [];
    }

    /** `GetUserEventResponse`: the user's response, if any. */
    function Answer(eventId: string, userId: string): Option<string>
      reads this
    {
      if (eventId, userId) in responses then Some(responses[(eventId, userId)]) else None
    }

    /** The loop of the notify helpers: one event to every accepted member of the group. */
    method NotifyMembers(groupId: string, e: Event)
      modifies this
      ensures sent == old(sent) + ToEach(MemberIds(MembersOf(members, groupId)), e)
      ensures events == old(events) && responses == old(responses)
    {
      var ds := SendToAll(MembersOf(members, groupId), e);
      sent := sent + ds;
    }

    /**
     * `CreateEvent`: a member of the group stores a new event under a fresh
     * id, with the banner when one was saved, and every member hears of it.
     * A non-member or a failed banner upload changes nothing.
     */
    method CreateEvent(groupId: string, userId: string, title: string, description: string, date: string,
                       banner: Option<Result<string>>, newId: string) returns (r: Result<GroupEvent>)
      requires FindEvent(events, newId).None?
      modifies this
      ensures r.Ok? <==> IsMember(members, groupId, userId) && !(banner.Some? && banner.value.Err?)
      ensures r.Ok? ==> r.value.id == newId && r.value.groupId == groupId && r.value.creatorId == userId
                        && r.value.title == title && r.value.description == description && r.value.eventDate == date
                        && (SavedBanner(banner).Some? ==> r.value.banner == NullString(SavedBanner(banner).value, true))
                        && (SavedBanner(banner).None? ==> !r.value.banner.valid)
      ensures r.Ok? ==> events == old(events) + [r.value]
                        && sent == old(sent) + ToEach(MemberIds(MembersOf(members, groupId)), EventChanged(GroupEventCreated, r.value))
      ensures r.Err? ==> events == old(events) && sent == old(sent)
      ensures responses == old(responses)
    {
      if !IsMember(members, groupId, userId) {
        return Err("you must be a member of the group to create an event");
      }
      var e := GroupEvent(newId, groupId, userId, title, description, date, NullString("", false), "");
      if banner.Some? {
        if banner.value.Err? {
          return Err("failed to save banner");
        }
        e := e.(banner := NullString(banner.value.value, true));
      }
      events := events + [e];
      var i := FindEvent(events, newId);
      assert events[|events| - 1] == e;
      assert i == Some(|events| - 1);
      NotifyMembers(groupId, EventChanged(GroupEventCreated, events[i.value]));
      r := Ok(events[i.value]);
    }

    /**
     * `GetEvent`: the event, to a member of its group, carrying the
     * caller's response when there is one.
     */
    function GetEvent(eventId: string, userId: string): (r: Result<GroupEvent>)
      reads this
      ensures r.Ok? <==> FindEvent(events, eventId).Some?
                         && IsMember(members, events[FindEvent(events, eventId).value].groupId, userId)
      ensures r.Ok? ==> r.value == WithResponse(events[FindEvent(events, eventId).value], Answer(eventId, userId))
    {
      match FindEvent(events, eventId)
      case None => Err("event not found")
      case Some(i) =>
        if !IsMember(members, events[i].groupId, userId) then Err("you must be a member of the group to view this event")
        else Ok(WithResponse(events[i], Answer(eventId, userId)))
    }

    /**
     * `GetGroupEvents`: to a member, the group's events in order, each
     * carrying the caller's response exactly when the caller answered it.
     */
    method GetGroupEvents(groupId: string, userId: string) returns (r: Result<seq<GroupEvent>>)
      ensures r.Ok? <==> IsMember(members, groupId, userId)
      ensures r.Ok? ==> |r.value| == |EventsOf(events, groupId)|
      ensures r.Ok? ==> forall i :: 0 <= i < |r.value| ==>
                          r.value[i] == WithResponse(EventsOf(events, groupId)[i], Answer(EventsOf(events, groupId)[i].id, userId))
    {
      if !IsMember(members, groupId, userId) {
        return Err("you must be a member of the group to view events");
      }
      var es := EventsOf(events, groupId);
      var out := es;
      var i := 0;
      while i < |es|
        invariant 0 <= i <= |es| && |out| == |es|
        invariant forall k :: 0 <= k < i ==> out[k] == WithResponse(es[k], Answer(es[k].id, userId))
        invariant forall k :: i <= k < |es| ==> out[k] == es[k]
      {
        var answer := Answer(es[i].id, userId);
        if answer.Some? {
          out := out[i := out[i].(userResponse := answer.value)];
        }
        i := i + 1;
      }
      r := Ok(out);
    }

    /**
     * `UpdateEvent`: the creator or a group admin overwrites title,
     * description and date, and the banner when a new one was saved; every
     * member then hears of it. Any refusal or failure changes nothing.
     */
    method UpdateEvent(eventId: string, userId: string, title: string, description: string, date: string,
                       banner: Option<Result<string>>) returns (r: Result<GroupEvent>)
      modifies this
      ensures r.Ok? <==> FindEvent(old(events), eventId).Some?
                         && MayModify(old(events)[FindEvent(old(events), eventId).value], userId,
                                      RoleOf(members, old(events)[FindEvent(old(events), eventId).value].groupId, userId)).Ok?
                         && !(banner.Some? && banner.value.Err?)
      ensures r.Ok? ==> var i := FindEvent(old(events), eventId).value;
                        r.value == ApplyUpdate(old(events)[i], title, description, date, SavedBanner(banner))
                        && events == old(events)[i := r.value]
                        && sent == old(sent) + ToEach(MemberIds(MembersOf(members, r.value.groupId)), EventChanged(GroupEventUpdated, r.value))
      ensures r.Err? ==> events == old(events) && sent == old(sent)
      ensures responses == old(responses)
    {
      var found := FindEvent(events, eventId);
      if found.None? {
        return Err("event not found");
      }
      var i := found.value;
      var e := events[i];
      var allowed := MayModify(e, userId, RoleOf(members, e.groupId, userId));
      if allowed.Err? {
        return Err(allowed.msg);
      }
      if banner.Some? && banner.value.Err? {
        return Err("failed to save banner");
      }
      var u := ApplyUpdate(e, title, description, date, SavedBanner(banner));
      events := events[i := u];
      FindAfterReplace(old(events), eventId, i, u);
      NotifyMembers(u.groupId, EventChanged(GroupEventUpdated, u));
      r := Ok(u);
    }

    /**
     * `DeleteEvent`: the creator or a group admin removes the event, and
     * every member of its group hears of it. A refusal changes nothing.
     */
    method DeleteEvent(eventId: string, userId: string) returns (r: Result<()>)
      modifies this
      ensures r.Ok? <==> FindEvent(old(events), eventId).Some?
                         && MayModify(old(events)[FindEvent(old(events), eventId).value], userId,
                                      RoleOf(members, old(events)[FindEvent(old(events), eventId).value].groupId, userId)).Ok?
      ensures r.Ok? ==> var e := old(events)[FindEvent(old(events), eventId).value];
                        events == RemoveEvent(old(events), eventId) && FindEvent(events, eventId).None?
                        && sent == old(sent) + ToEach(MemberIds(MembersOf(members, e.groupId)), EventDeleted(e))
      ensures r.Err? ==> events == old(events) && sent == old(sent)
      ensures responses == old(responses)
    {
      var found := FindEvent(events, eventId);
      if found.None? {
        return Err("event not found");
      }
      var e := events[found.value];
      var allowed := MayModify(e, userId, RoleOf(members, e.groupId, userId));
      if allowed.Err? {
        return Err(allowed.msg);
      }
      events := RemoveEvent(events, eventId);
      NotifyMembers(e.groupId, EventDeleted(e));
      r := Ok(());
    }

    /**
     * `notifyEventResponseUpdated`: every member hears the response and the
     * new tallies, unless the user row or the tallies cannot be read, in
     * which case nobody does.
     */
    method NotifyResponse(e: GroupEvent, userId: string, t: string, countsFail: bool)
      modifies this
      ensures userId !in users || countsFail ==> sent == old(sent)
      ensures userId in users && !countsFail ==>
                sent == old(sent) + ToEach(MemberIds(MembersOf(members, e.groupId)),
                                           ResponseUpdated(e, userId, users[userId], t,
                                                           Tally(responses, e.id, Going), Tally(responses, e.id, NotGoing)))
      ensures events == old(events) && responses == old(responses)
    {
      if userId !in users || countsFail {
        return;
      }
      NotifyMembers(e.groupId, ResponseUpdated(e, userId, users[userId], t,
                                               Tally(responses, e.id, Going), Tally(responses, e.id, NotGoing)));
    }

    /**
     * `RespondToEvent`: a response other than going or not going is
     * refused before any lookup; otherwise a member of the event's group
     * records the response, replacing an earlier one.
     */
    method RespondToEvent(eventId: string, userId: string, t: string, countsFail: bool) returns (r: Result<()>)
      modifies this
      ensures !ValidResponse(t) ==> r == Err("invalid response type")
      ensures r.Ok? <==> ValidResponse(t) && FindEvent(events, eventId).Some?
                         && IsMember(members, events[FindEvent(events, eventId).value].groupId, userId)
      ensures r.Ok? ==> responses == old(responses)[(eventId, userId) := t] && Answer(eventId, userId) == Some(t)
      ensures r.Ok? ==>
        var e := events[FindEvent(events, eventId).value];
        sent == old(sent) + if userId in users && !countsFail then
                              ToEach(MemberIds(MembersOf(members, e.groupId)),
                                     ResponseUpdated(e, userId, users[userId], t,
                                                     Tally(responses, e.id, Going), Tally(responses, e.id, NotGoing)))
                            else []
      ensures r.Err? ==> responses == old(responses) && sent == old(sent)
      ensures events == old(events)
    {
      if !ValidResponse(t) {
        return Err("invalid response type");
      }
      var found := FindEvent(events, eventId);
      if found.None? {
        return Err("event not found");
      }
      var e := events[found.value];
      if !IsMember(members, e.groupId, userId) {
        return Err("you must be a member of the group to respond to this event");
      }
      responses := responses[(eventId, userId) := t];
      NotifyResponse(e, userId, t, countsFail);
      r := Ok(());
    }

    /** `GetEventResponses`: to a member of the event's group, the users who answered `t`. */
    function GetEventResponses(eventId: string, userId: string, t: string): (r: Result<set<string>>)
      reads this
      ensures r.Ok? <==> FindEvent(events, eventId).Some?
                         && IsMember(members, events[FindEvent(events, eventId).value].groupId, userId)
      ensures r.Ok? ==> forall u :: u in r.value <==> Answer(eventId, u) == Some(t)
    {
      match FindEvent(events, eventId)
      case None => Err("event not found")
      case Some(i) =>
        if !IsMember(members, events[i].groupId, userId) then Err("you must be a member of the group to view event responses")
        else Ok(set k | k in responses && k.0 == eventId && responses[k] == t :: k.1)
    }
  }
}
