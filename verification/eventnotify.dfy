/**
 * The event package's notification service
 * (backend/internal/event/notification.go). `hub` says whether a hub was
 * supplied; each repository lookup is passed in as its result; dates come
 * already formatted and `now` is the Unix time of the call. Each method
 * returns the `BroadcastToUser` calls it makes, in order.
 */
module EventNotify {
  import opened Wrappers
  import opened Text
  import opened Notify
  import opened Groups

  /** The event columns these notifications read. */
  datatype EventInfo = EventInfo(id: string, groupId: string, creatorId: string, title: string, eventDate: string)

  /** The `group_event_created` event. */
  function CreatedEvent(e: EventInfo, creator: UserInfo, now: nat): Event
  {
    Event(GroupEventCreated, map["eventId" := Str(e.id), "groupId" := Str(e.groupId), "title" := Str(e.title),
                                 "creatorId" := Str(e.creatorId), "creatorName" := Str(FullName(creator)),
                                 "eventDate" := Str(e.eventDate), "timestamp" := Str(NatToString(now))])
  }

  /**
   * `SendEventCreatedNotification`: every accepted member, unless there is
   * no hub or the creator or member lookup fails, in which case nobody.
   */
  method SendEventCreated(hub: bool, e: EventInfo, creator: Option<UserInfo>, members: Result<seq<Member>>, now: nat)
    returns (ds: seq<Delivery>)
    ensures !hub || creator.None? || members.Err? ==> ds == []
    ensures hub && creator.Some? && members.Ok? ==> ds == ToEach(MemberIds(members.value), CreatedEvent(e, creator.value, now))
  {
    if !hub || creator.None? || members.Err? {
      return [];
    }
    ds := SendToAll(members.value, CreatedEvent(e, creator.value, now));
  }

  /** The `group_event_updated` event. */
  function UpdatedEvent(e: EventInfo, now: nat): Event
  {
    Event(GroupEventUpdated, map["eventId" := Str(e.id), "groupId" := Str(e.groupId), "title" := Str(e.title),
                                 "eventDate" := Str(e.eventDate), "timestamp" := Str(NatToString(now))])
  }

  /** `SendEventUpdatedNotification`: every accepted member, unless there is no hub or the member lookup fails. */
  method SendEventUpdated(hub: bool, e: EventInfo, members: Result<seq<Member>>, now: nat) returns (ds: seq<Delivery>)
    ensures !hub || members.Err? ==> ds == []
    ensures hub && members.Ok? ==> ds == ToEach(MemberIds(members.value), UpdatedEvent(e, now))
  {
    if !hub || members.Err? {
      return [];
    }
    ds := SendToAll(members.value, UpdatedEvent(e, now));
  }

  /** The `event_response_updated` event of this service. */
  function ResponseEvent(eventId: string, e: EventInfo, userId: string, user: UserInfo, response: string, now: nat): Event
  {
    Event(EventResponseUpdated, map["eventId" := Str(eventId), "groupId" := Str(e.groupId), "title" := Str(e.title),
                                    "userId" := Str(userId), "userName" := Str(FullName(user)),
                                    "response" := Str(response), "timestamp" := Str(NatToString(now))])
  }

  /**
   * `SendEventResponseNotification`: the event's creator alone, unless there
   * is no hub or the event or user lookup fails.
   */
  method SendEventResponse(hub: bool, eventId: string, userId: string, response: string,
                           event: Option<EventInfo>, user: Option<UserInfo>, now: nat) returns (ds: seq<Delivery>)
    ensures ds == [] <==> !hub || event.None? || user.None?
    ensures ds != [] ==> |ds| == 1 && ds[0].recipient == event.value.creatorId
                         && ds[0].event.kind == EventResponseUpdated && Has(ds[0].event, "response", Str(response))
  {
    if !hub || event.None? || user.None? {
      return [];
    }
    ds := [Delivery(event.value.creatorId, ResponseEvent(eventId, event.value, userId, user.value, response, now))];
  }
}
