/**
 * The HTTP layer of the post package (backend/internal/post/handler.go):
 * who is asking, which id the path names, which form fields are required,
 * the pagination defaults, the shape of the JSON replies and the method
 * dispatch of the comment routes. The authenticated user is `None` when
 * the request context holds none; `formOk` says whether the multipart
 * form parsed.
 */
module PostHandler {
  import opened Wrappers
  import opened Text
  import opened HttpParams
  import opened Posts

  datatype PostResponse = PostResponse(id: int, userId: string, content: string, imageUrl: Option<string>,
                                       privacy: string, createdAt: int, updatedAt: int)
  datatype CommentResponse = CommentResponse(id: int, postId: int, userId: string, content: string,
                                             imageUrl: Option<string>, createdAt: int, updatedAt: int)

  /** The public URL of an uploaded image, present only when the stored path is not empty. */
  function ImageUrl(dir: string, path: string): (u: Option<string>)
    ensures u.Some? <==> path != ""
    ensures u.Some? ==> HasPrefix(u.value, "/uploads/" + dir + "/") && u.value[|dir| + 10..] == path
  {
    if path == "" then None else Some("/uploads/" + dir + "/" + path)
  }

  /** A post's reply entry: its columns, with the image as a URL under /uploads/posts/. */
  function ToPostResponse(p: Post): (r: PostResponse)
    ensures r.id == p.id && r.userId == p.userId && r.content == p.content && r.privacy == p.privacy
    ensures r.createdAt == p.createdAt && r.updatedAt == p.updatedAt
    ensures r.imageUrl == ImageUrl("posts", p.imagePath)
  {
    PostResponse(p.id, p.userId, p.content, ImageUrl("posts", p.imagePath), p.privacy, p.createdAt, p.updatedAt)
  }

  /** A comment's reply entry: its columns, with the image as a URL under /uploads/comments/. */
  function ToCommentResponse(c: Comment): (r: CommentResponse)
    ensures r.id == c.id && r.postId == c.postId && r.userId == c.userId && r.content == c.content
    ensures r.createdAt == c.createdAt && r.updatedAt == c.updatedAt
    ensures r.imageUrl == ImageUrl("comments", c.imagePath)
  {
    CommentResponse(c.id, c.postId, c.userId, c.content, ImageUrl("comments", c.imagePath), c.createdAt, c.updatedAt)
  }

  /** The reply list of a list of posts: one entry per post, in order. */
  function PostResponses(posts: seq<Post>): (rs: seq<PostResponse>)
    ensures |rs| == |posts|
    ensures forall i :: 0 <= i < |posts| ==> rs[i] == ToPostResponse(posts[i])
    ensures forall i :: 0 <= i < |posts| ==>
      (rs[i].id == posts[i].id && rs[i].content == posts[i].content
       && (rs[i].imageUrl.Some? <==> posts[i].imagePath != ""))
  {
    seq(|posts|, i requires 0 <= i < |posts| => ToPostResponse(posts[i]))
  }

  /** The loop that builds the reply list by appending, one post at a time. */
  method BuildPostResponses(posts: seq<Post>) returns (rs: seq<PostResponse>)
    ensures rs == PostResponses(posts)
  {
    rs := [];
    for i := 0 to |posts|
      invariant rs == PostResponses(posts[..i])
    {
      rs := rs + [ToPostResponse(posts[i])];
    }
    assert posts[..|posts|] == posts;
  }

  /** The reply list of a list of comments: one entry per comment, in order. */
  function CommentResponses(comments: seq<Comment>): (rs: seq<CommentResponse>)
    ensures |rs| == |comments|
    ensures forall i :: 0 <= i < |comments| ==> rs[i] == ToCommentResponse(comments[i])
    ensures forall i :: 0 <= i < |comments| ==>
      (rs[i].id == comments[i].id && rs[i].postId == comments[i].postId && rs[i].content == comments[i].content
       && rs[i].updatedAt == comments[i].updatedAt && (rs[i].imageUrl.Some? <==> comments[i].imagePath != ""))
  {
    seq(|comments|, i requires 0 <= i < |comments| => ToCommentResponse(comments[i]))
  }

  /** The authenticated user, or a 401 reply. */
  function Authenticated(userId: Option<string>): (o: Outcome<string>)
    ensures o.Proceed? <==> userId.Some?
    ensures o.Stop? ==> o.reply.status == StatusUnauthorized
  {
    if userId.None? then Stop(SendError(StatusUnauthorized, "Unauthorized attempt"))
    else Proceed(userId.value)
  }

  /** The post id of `GET`, `PUT` and `DELETE` on a post: the last of at least three path segments. */
  function PostIdOf(path: string): (o: Outcome<int>)
    ensures o.Proceed? <==> SegmentId(path, 3, 1).Ok?
    ensures o.Proceed? ==> o.value == SegmentId(path, 3, 1).value
    ensures o.Stop? ==> o.reply.status == StatusBadRequest
  {
    match SegmentId(path, 3, 1)
    case Err(e) => Stop(SendError(StatusBadRequest, e))
    case Ok(id) => Proceed(id)
  }

  /** The post id of the comment routes: the second-to-last of at least four path segments. */
  function CommentPostIdOf(path: string): (o: Outcome<int>)
    ensures o.Proceed? <==> SegmentId(path, 4, 2).Ok?
    ensures o.Proceed? ==> o.value == SegmentId(path, 4, 2).value
    ensures o.Stop? ==> o.reply.status == StatusBadRequest
  {
    match SegmentId(path, 4, 2)
    case Err(e) => Stop(SendError(StatusBadRequest, e))
    case Ok(id) => Proceed(id)
  }

  /** A post URL `base/<n>` names post `n`; a path of fewer than three segments is refused. */
  lemma PostIdFromPath(base: string, n: nat, path: string)
    requires |Split(base, '/')| >= 2 && n <= MaxInt64
    ensures PostIdOf(base + "/" + NatToString(n)) == Proceed(n)
    ensures |Split(path, '/')| < 3 ==> PostIdOf(path).Stop? && PostIdOf(path).reply.status == StatusBadRequest
  {
    SegmentIdLast(base, n);
  }

  /** A comment URL `base/<n>/<tail>` names post `n`. */
  lemma CommentPostIdFromPath(base: string, n: nat, tail: string)
    requires |Split(base, '/')| >= 2 && n <= MaxInt64 && '/' !in tail
    ensures CommentPostIdOf(base + "/" + NatToString(n) + "/" + tail) == Proceed(n)
  {
    SegmentIdSecondLast(base, n, tail);
  }

  /** `CreatePost`'s checks: a user, a parsed form, then non-empty content and privacy. */
  function CreatePostRequest(userId: Option<string>, formOk: bool, content: string, privacy: string): (o: Outcome<string>)
    ensures o.Proceed? <==> userId.Some? && formOk && content != "" && privacy != ""
    ensures o.Stop? && userId.Some? ==> o.reply.status == StatusBadRequest
  {
    if userId.None? then Stop(SendError(StatusUnauthorized, "Unauthorized attempt"))
    else if !formOk then Stop(SendError(StatusBadRequest, "Failed to parse form data"))
    else if content == "" then Stop(SendError(StatusBadRequest, "Content field is missing"))
    else if privacy == "" then Stop(SendError(StatusBadRequest, "Privacy field is missing"))
    else Proceed(userId.value)
  }

  /** `UpdatePost`'s checks: a user, a post id, a parsed form and non-empty content; privacy may be empty. */
  function UpdatePostRequest(userId: Option<string>, path: string, formOk: bool, content: string): (o: Outcome<(string, int)>)
    ensures o.Proceed? <==> userId.Some? && PostIdOf(path).Proceed? && formOk && content != ""
    ensures o.Proceed? ==> o.value == (userId.value, PostIdOf(path).value)
  {
    if userId.None? then Stop(SendError(StatusUnauthorized, "Unauthorized attempt"))
    else
      match PostIdOf(path)
      case Stop(e) => Stop(e)
      case Proceed(id) =>
        if !formOk then Stop(SendError(StatusBadRequest, "Failed to parse form data"))
        else if content == "" then Stop(SendError(StatusBadRequest, "Content field is missing"))
        else Proceed((userId.value, id))
  }

  /** `CreateComment`'s checks: a user, a post id from the comment path, a parsed form and content. */
  function CreateCommentRequest(userId: Option<string>, path: string, formOk: bool, content: string): (o: Outcome<(string, int)>)
    ensures o.Proceed? <==> userId.Some? && CommentPostIdOf(path).Proceed? && formOk && content != ""
  {
    if userId.None? then Stop(SendError(StatusUnauthorized, "Unauthorized attempt"))
    else
      match CommentPostIdOf(path)
      case Stop(e) => Stop(e)
      case Proceed(id) =>
        if !formOk then Stop(SendError(StatusBadRequest, "Failed to parse form data"))
        else if content == "" then Stop(SendError(StatusBadRequest, "Content field is missing"))
        else Proceed((userId.value, id))
  }

  /** The pagination of `GetPublicPosts`: limit 10 unless a positive integer is given, offset 0 unless a non-negative one is. */
  function PublicPostsParams(limitStr: string, offsetStr: string): (p: (int, int))
    ensures p.0 >= 1 && p.1 >= 0
    ensures (Atoi(limitStr).Some? && Atoi(limitStr).value > 0) ==> p.0 == Atoi(limitStr).value
    ensures !(Atoi(limitStr).Some? && Atoi(limitStr).value > 0) ==> p.0 == 10
    ensures (Atoi(offsetStr).Some? && Atoi(offsetStr).value >= 0) ==> p.1 == Atoi(offsetStr).value
    ensures !(Atoi(offsetStr).Some? && Atoi(offsetStr).value >= 0) ==> p.1 == 0
  {
    IntParamSpec(limitStr, 10, 1, MaxInt64);
    IntParamSpec(offsetStr, 0, 0, MaxInt64);
    (IntParam(limitStr, 10, 1, MaxInt64), IntParam(offsetStr, 0, 0, MaxInt64))
  }

  /**
   * `GetPost`: 401, 400 for a bad path, 500 when the service refuses, else
   * the post. As written, an almost-private post reaches only its author.
   */
  function GetPost(svc: Service, userId: Option<string>, path: string): (r: Reply<PostResponse>)
    reads svc.repo
    ensures r.Success? <==> userId.Some? && PostIdOf(path).Proceed?
                            && svc.repo.CanViewPostAsWritten(PostIdOf(path).value, userId.value) == Ok(true)
    ensures r.Success? ==>
      (r.status == StatusOK && FindPost(svc.repo.posts, PostIdOf(path).value).Some?
       && r.body == ToPostResponse(FindPost(svc.repo.posts, PostIdOf(path).value).value))
    ensures r.Success? ==> r.body.userId == userId.value || r.body.privacy != PrivacyAlmostPrivate
    ensures r.Failure? ==> (r.error.warning <==> r.error.status == StatusInternalServerError)
  {
    match Authenticated(userId)
    case Stop(e) => Failure(e)
    case Proceed(user) =>
      match PostIdOf(path)
      case Stop(e) => Failure(e)
      case Proceed(id) =>
        match svc.GetPost(id, user)
        case Err(msg) => Failure(SendError(StatusInternalServerError, "Failed to get post: " + msg))
        case Ok(p) => Success(StatusOK, ToPostResponse(p))
  }

  /** `GetPublicPosts`: the service's page for the parsed parameters, one reply entry per post. */
  function GetPublicPosts(svc: Service, userId: Option<string>, limitStr: string, offsetStr: string)
    : (r: Reply<seq<PostResponse>>)
    reads svc.repo
    ensures r.Success? <==> userId.Some?
    ensures r.Success? ==>
      var p := PublicPostsParams(limitStr, offsetStr);
      r.status == StatusOK && r.body == PostResponses(svc.GetPublicPosts(p.0, p.1)) && |r.body| <= p.0
    ensures r.Success? ==> forall i :: 0 <= i < |r.body| ==> r.body[i].imageUrl.None?
  {
    match Authenticated(userId)
    case Stop(e) => Failure(e)
    case Proceed(_) =>
      var p := PublicPostsParams(limitStr, offsetStr);
      Success(StatusOK, PostResponses(svc.GetPublicPosts(p.0, p.1)))
  }

  /** The handlers `HandleComments` dispatches to. */
  datatype CommentRoute = CreateComment | GetPostComments | DeleteComment | CommentMethodNotAllowed

  /** `HandleComments`: POST creates, GET lists, DELETE deletes; any other method is refused with 405. */
  function HandleComments(verb: string): (r: CommentRoute)
    ensures r == CreateComment <==> verb == "POST"
    ensures r == GetPostComments <==> verb == "GET"
    ensures r == DeleteComment <==> verb == "DELETE"
  {
    if verb == "POST" then CreateComment
    else if verb == "GET" then GetPostComments
    else if verb == "DELETE" then DeleteComment
    else CommentMethodNotAllowed
  }

  /** The reply of the 405 branch. */
  function CommentMethodReply(verb: string): ErrorReply
  {
    SendError(StatusMethodNotAllowed, "Method not allowed: " + verb)
  }
}
