/**
 * What the notification code of every package hands to the hub's
 * `BroadcastToUser`: an event (its type and a JSON-like payload) for one
 * recipient. A sequence of deliveries records the calls in order; what the
 * hub then does with each call is modelled by the `Websocket` module.
 */
module Notify {
  /**
   * A payload value: strings, numbers and booleans, a nested record (a
   * group, a post, a user row), named by its id, or JSON null (a user
   * pointer left nil by a lookup whose error was ignored).
   */
  datatype Value = Str(s: string) | Int(i: int) | Bool(b: bool) | Obj(id: string) | Null

  /** `events.Event`. */
  datatype Event = Event(kind: string, payload: map<string, Value>)

  /** One `BroadcastToUser(recipient, event)` call. */
  datatype Delivery = Delivery(recipient: string, event: Event)

  /** The payload of `e` holds `v` under `key`. */
  predicate Has(e: Event, key: string, v: Value)
  {
    key in e.payload && e.payload[key] == v
  }

  /** The user columns the notifications read: names and avatar. */
  datatype UserInfo = UserInfo(firstName: string, lastName: string, avatar: string)

  const UserStatsUpdated := "user_stats_updated"
  const FollowUpdate := "follow_update"
  const FollowRequestAccepted := "follow_request_accepted"
  const UserStatusUpdate := "user_status_update"
  const GroupEventCreated := "group_event_created"
  const GroupEventUpdated := "group_event_updated"
  const GroupEventDeleted := "group_event_deleted"
  const EventResponseUpdated := "event_response_updated"

  /** `fmt.Sprintf("%s %s", FirstName, LastName)`. */
  function FullName(u: UserInfo): string
  {
    u.firstName + " " + u.lastName
  }

  /** The recipients of a run of deliveries, in call order. */
  function Recipients(ds: seq<Delivery>): (rs: seq<string>)
    ensures |rs| == |ds|
    ensures forall i :: 0 <= i < |ds| ==> rs[i] == ds[i].recipient
  {
    if ds == [] then [] else Recipients(ds[..|ds| - 1]) + [ds[|ds| - 1].recipient]
  }

  /** The same event for each user, in order. */
  function ToEach(users: seq<string>, e: Event): (ds: seq<Delivery>)
    ensures |ds| == |users|
    ensures forall i :: 0 <= i < |users| ==> ds[i] == Delivery(users[i], e)
  {
    if users == [] then [] else ToEach(users[..|users| - 1], e) + [Delivery(users[|users| - 1], e)]
  }

  /** Sending to one more user appends one delivery. */
  lemma ToEachSnoc(users: seq<string>, u: string, e: Event)
    ensures ToEach(users + [u], e) == ToEach(users, e) + [Delivery(u, e)]
  {
    assert (users + [u])[..|users|] == users;
  }

  lemma RecipientsAppend(a: seq<Delivery>, b: seq<Delivery>)
    ensures Recipients(a + b) == Recipients(a) + Recipients(b)
  {
    assert forall i :: 0 <= i < |a + b| ==> Recipients(a + b)[i] == (Recipients(a) + Recipients(b))[i];
  }
}
