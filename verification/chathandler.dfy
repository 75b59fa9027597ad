/**
 * The request checks of the chat endpoints (backend/internal/chat/handler.go).
 * Each endpoint accepts one method, then needs an authenticated user,
 * then a decodable JSON body and its required fields; what survives the
 * checks is the argument list handed to the chat service. `userId` is
 * `None` when the request context holds no user; `bodyOk` says whether
 * the body decoded.
 */
module ChatHandler {
  import opened Wrappers
  import opened Text
  import opened HttpParams

  /** The method check, then the user check, shared by all five endpoints. */
  function Gate(verb: string, allowed: string, userId: Option<string>): (o: Outcome<string>)
    ensures o.Proceed? <==> verb == allowed && userId.Some?
    ensures o.Proceed? ==> o.value == userId.value
    ensures verb != allowed ==> o.Stop? && o.reply.status == StatusMethodNotAllowed
    ensures verb == allowed && userId.None? ==> o.Stop? && o.reply.status == StatusUnauthorized
  {
    if verb != allowed then Stop(SendError(StatusMethodNotAllowed, "Method not allowed"))
    else if userId.None? then Stop(SendError(StatusUnauthorized, "Unauthorized"))
    else Proceed(userId.value)
  }

  /** `SendMessage`: POST with a receiver and content; the service gets (sender, receiver, content). */
  function SendMessage(verb: string, userId: Option<string>, bodyOk: bool, receiverId: string, content: string)
    : (o: Outcome<(string, string, string)>)
    ensures o.Proceed? <==> verb == "POST" && userId.Some? && bodyOk && receiverId != "" && content != ""
    ensures o.Proceed? ==> o.value == (userId.value, receiverId, content)
    ensures Gate(verb, "POST", userId).Stop? ==> o == Stop(Gate(verb, "POST", userId).reply)
    ensures Gate(verb, "POST", userId).Proceed? && o.Stop? ==> o.reply.status == StatusBadRequest
  {
    match Gate(verb, "POST", userId)
    case Stop(e) => Stop(e)
    case Proceed(user) =>
      if !bodyOk then Stop(SendError(StatusBadRequest, "Invalid request body"))
      else if receiverId == "" || content == "" then Stop(SendError(StatusBadRequest, "Receiver ID and content are required"))
      else Proceed((user, receiverId, content))
  }

  /**
   * `GetMessages`: GET with the other user's id; limit 50 unless a
   * positive integer is given, offset 0 unless a non-negative one is.
   */
  function GetMessages(verb: string, userId: Option<string>, otherUserId: string, limitStr: string, offsetStr: string)
    : (o: Outcome<(string, string, int, int)>)
    ensures o.Proceed? <==> verb == "GET" && userId.Some? && otherUserId != ""
    ensures o.Proceed? ==> o.value.0 == userId.value && o.value.1 == otherUserId
    ensures o.Proceed? ==> o.value.2 >= 1 && o.value.3 >= 0
    ensures o.Proceed? && Atoi(limitStr).Some? && Atoi(limitStr).value > 0 ==> o.value.2 == Atoi(limitStr).value
    ensures o.Proceed? && !(Atoi(limitStr).Some? && Atoi(limitStr).value > 0) ==> o.value.2 == 50
    ensures o.Proceed? && Atoi(offsetStr).Some? && Atoi(offsetStr).value >= 0 ==> o.value.3 == Atoi(offsetStr).value
    ensures o.Proceed? && !(Atoi(offsetStr).Some? && Atoi(offsetStr).value >= 0) ==> o.value.3 == 0
  {
    match Gate(verb, "GET", userId)
    case Stop(e) => Stop(e)
    case Proceed(user) =>
      if otherUserId == "" then Stop(SendError(StatusBadRequest, "User ID is required"))
      else
        IntParamSpec(limitStr, 50, 1, MaxInt64);
        IntParamSpec(offsetStr, 0, 0, MaxInt64);
        Proceed((user, otherUserId, IntParam(limitStr, 50, 1, MaxInt64), IntParam(offsetStr, 0, 0, MaxInt64)))
  }

  /**
   * `MarkAsRead`: POST with the sender whose messages the caller has read;
   * the service gets (sender, caller) in that order.
   */
  function MarkAsRead(verb: string, userId: Option<string>, bodyOk: bool, senderId: string)
    : (o: Outcome<(string, string)>)
    ensures o.Proceed? <==> verb == "POST" && userId.Some? && bodyOk && senderId != ""
    ensures o.Proceed? ==> o.value == (senderId, userId.value)
    ensures Gate(verb, "POST", userId).Proceed? && o.Stop? ==> o.reply.status == StatusBadRequest
  {
    match Gate(verb, "POST", userId)
    case Stop(e) => Stop(e)
    case Proceed(user) =>
      if !bodyOk then Stop(SendError(StatusBadRequest, "Invalid request body"))
      else if senderId == "" then Stop(SendError(StatusBadRequest, "Sender ID is required"))
      else Proceed((senderId, user))
  }

  /** `GetContacts`: GET by an authenticated user. */
  function GetContacts(verb: string, userId: Option<string>): (o: Outcome<string>)
    ensures o.Proceed? <==> verb == "GET" && userId.Some?
  {
    Gate(verb, "GET", userId)
  }

  /** `SendTypingIndicator`: POST with a receiver; the service gets (sender, receiver). */
  function SendTypingIndicator(verb: string, userId: Option<string>, bodyOk: bool, receiverId: string)
    : (o: Outcome<(string, string)>)
    ensures o.Proceed? <==> verb == "POST" && userId.Some? && bodyOk && receiverId != ""
    ensures o.Proceed? ==> o.value == (userId.value, receiverId)
    ensures Gate(verb, "POST", userId).Proceed? && o.Stop? ==> o.reply.status == StatusBadRequest
  {
    match Gate(verb, "POST", userId)
    case Stop(e) => Stop(e)
    case Proceed(user) =>
      if !bodyOk then Stop(SendError(StatusBadRequest, "Invalid request body"))
      else if receiverId == "" then Stop(SendError(StatusBadRequest, "Receiver ID is required"))
      else Proceed((user, receiverId))
  }

  /** What a checked request finally answers: the service error as 500, else the success status. */
  function Finish<T, U>(o: Outcome<T>, service: Result<U>, okStatus: int): (r: Reply<U>)
    ensures r.Success? <==> o.Proceed? && service.Ok?
    ensures r.Success? ==> r.status == okStatus && r.body == service.value
    ensures o.Stop? ==> r == Failure(o.reply)
    ensures o.Proceed? && service.Err? ==> r.error.status == StatusInternalServerError && r.error.warning
  {
    match o
    case Stop(e) => Failure(e)
    case Proceed(_) =>
      match service
      case Err(msg) => Failure(SendError(StatusInternalServerError, msg))
      case Ok(v) => Success(okStatus, v)
  }

  /** Only a failed service call is logged as a warning; every refused request is a client error. */
  lemma ChatRefusalsAreClientErrors(verb: string, userId: Option<string>, bodyOk: bool, a: string, b: string)
    ensures SendMessage(verb, userId, bodyOk, a, b).Stop? ==>
      400 <= SendMessage(verb, userId, bodyOk, a, b).reply.status < 500
      && !SendMessage(verb, userId, bodyOk, a, b).reply.warning
    ensures MarkAsRead(verb, userId, bodyOk, a).Stop? ==> !MarkAsRead(verb, userId, bodyOk, a).reply.warning
    ensures SendTypingIndicator(verb, userId, bodyOk, a).Stop? ==> !SendTypingIndicator(verb, userId, bodyOk, a).reply.warning
  {
  }
}
