/**
 * The chat package's notifications (backend/internal/chat/notification.go).
 * `hub` says whether a hub was supplied; each method returns the error it
 * reports and the `BroadcastToUser` calls it makes, in order. Times are
 * given already formatted.
 */
module ChatNotify {
  import opened Wrappers
  import opened Text
  import opened Notify

  /** A private message with its loaded sender. */
  datatype PrivateMessage = PrivateMessage(id: int, senderId: string, receiverId: string, content: string,
                                           createdAt: string, isRead: bool, sender: UserInfo)

  /** The `private_message` event. */
  function PrivateMessageEvent(m: PrivateMessage): Event
  {
    Event("private_message", map["messageId" := Int(m.id), "senderId" := Str(m.senderId),
                                 "receiverId" := Str(m.receiverId), "content" := Str(m.content),
                                 "createdAt" := Str(m.createdAt), "isRead" := Bool(m.isRead),
                                 "senderName" := Str(FullName(m.sender)), "senderAvatar" := Str(m.sender.avatar)])
  }

  /** `NotifyNewMessage`: the same event to the receiver, then to the sender; never an error. */
  method NotifyNewMessage(hub: bool, m: PrivateMessage) returns (err: Option<string>, ds: seq<Delivery>)
    ensures err.None?
    ensures !hub ==> ds == []
    ensures hub ==> Recipients(ds) == [m.receiverId, m.senderId]
    ensures forall d :: d in ds ==> d.event == PrivateMessageEvent(m)
  {
    if !hub {
      return None, [];
    }
    var e := PrivateMessageEvent(m);
    ds := [Delivery(m.receiverId, e)];
    ds := ds + [Delivery(m.senderId, e)];
    err := None;
  }

  /** `NotifyMessageRead`: the same event to the sender, then to the reader; never an error. */
  method NotifyMessageRead(hub: bool, senderId: string, receiverId: string, readAt: string)
    returns (err: Option<string>, ds: seq<Delivery>)
    ensures err.None?
    ensures !hub ==> ds == []
    ensures hub ==> Recipients(ds) == [senderId, receiverId]
    ensures forall d :: d in ds ==> d.event.kind == "messages_read" && Has(d.event, "readAt", Str(readAt))
  {
    if !hub {
      return None, [];
    }
    var e := Event("messages_read", map["senderId" := Str(senderId), "receiverId" := Str(receiverId),
                                        "readAt" := Str(readAt)]);
    ds := [Delivery(senderId, e)];
    ds := ds + [Delivery(receiverId, e)];
    err := None;
  }

  /** `NotifyTyping`: the receiver only; never an error. */
  method NotifyTyping(hub: bool, senderId: string, receiverId: string, now: nat)
    returns (err: Option<string>, ds: seq<Delivery>)
    ensures err.None?
    ensures !hub ==> ds == []
    ensures hub ==> Recipients(ds) == [receiverId]
    ensures forall d :: d in ds ==> d.event.kind == "user_typing" && Has(d.event, "senderId", Str(senderId))
  {
    if !hub {
      return None, [];
    }
    ds := [Delivery(receiverId, Event("user_typing", map["senderId" := Str(senderId), "receiverId" := Str(receiverId),
                                                           "timestamp" := Str(NatToString(now))]))];
    err := None;
  }
}
