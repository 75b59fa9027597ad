/**
 * Posts, their comments, likes and viewer lists
 * (backend/internal/post/repository.go and backend/internal/post/service.go).
 * The repository's SQLite tables are sequences of rows in insertion order;
 * the queries become functions over them and the statements methods that
 * reassign them. The service owns a repository and records the image files
 * it asks the file store to delete. The clock, the file store's save
 * outcome and the failure of a transaction's statements are parameters.
 */
module Posts {
  import opened Wrappers

  const PrivacyPublic := "public"
  const PrivacyAlmostPrivate := "almost_private"
  const PrivacyPrivate := "private"

  /** The columns of the followers table: id, follower_id, following_id, created_at. */
  const FollowerColumns: set<string> := {"id", "follower_id", "following_id", "created_at"}

  datatype Post = Post(id: int, userId: string, content: string, imagePath: string, privacy: string,
                       likesCount: int, createdAt: int, updatedAt: int)
  datatype Comment = Comment(id: int, postId: int, userId: string, content: string, imagePath: string,
                             createdAt: int, updatedAt: int)
  /** A row of post_viewers: `userId` may see the private post `postId`. */
  datatype Viewer = Viewer(postId: int, userId: string)
  /** A row of post_likes. */
  datatype Like = Like(postId: int, userId: string)
  /** A row of followers: `followerId` follows `followingId`. */
  datatype Follow = Follow(followerId: string, followingId: string)

  /** Which statements of a transaction fail: Begin, the first statement, RowsAffected, the second statement, Commit. */
  datatype TxFaults = TxFaults(begin: bool, first: bool, affected: bool, second: bool, commit: bool)

  /** The three privacy settings the service accepts. */
  predicate ValidPrivacy(privacy: string)
  {
    privacy == PrivacyPublic || privacy == PrivacyAlmostPrivate || privacy == PrivacyPrivate
  }

  /** The rows of `s` that satisfy `keep`, in order. */
  function Select<T(!new)>(s: seq<T>, keep: T -> bool): (r: seq<T>)
    ensures |r| <= |s|
    ensures forall x :: x in r <==> x in s && keep(x)
  {
    if s == [] then []
    else
      var r := Select(s[..|s| - 1], keep);
      if keep(s[|s| - 1]) then r + [s[|s| - 1]] else r
  }

  predicate Ascending<T>(s: seq<T>, key: T -> int)
  {
    forall i, j :: 0 <= i < j < |s| ==> key(s[i]) <= key(s[j])
  }

  function InsertBy<T>(x: T, s: seq<T>, key: T -> int): (r: seq<T>)
    ensures multiset(r) == multiset(s) + multiset{x}
  {
    if s == [] then [x]
    else if key(x) <= key(s[0]) then [x] + s
    else
      assert s == [s[0]] + s[1..];
      [s[0]] + InsertBy(x, s[1..], key)
  }

  /** Inserting adds exactly the new element. */
  lemma InsertByMember<T>(x: T, s: seq<T>, key: T -> int, y: T)
    ensures y in InsertBy(x, s, key) <==> y == x || y in s
  {
    var r := InsertBy(x, s, key);
    assert y in r <==> y in multiset(r);
    assert y in s <==> y in multiset(s);
  }

  lemma {:induction false} InsertByAscending<T>(x: T, s: seq<T>, key: T -> int)
    requires Ascending(s, key)
    ensures Ascending(InsertBy(x, s, key), key)
  {
    if s != [] && key(x) > key(s[0]) {
      var tail := s[1..];
      assert Ascending(tail, key) by {
        forall i, j | 0 <= i < j < |tail| ensures key(tail[i]) <= key(tail[j]) {
          assert tail[i] == s[i + 1] && tail[j] == s[j + 1];
        }
      }
      var t := InsertBy(x, tail, key);
      InsertByAscending(x, tail, key);
      forall y | y in t ensures key(s[0]) <= key(y) {
        InsertByMember(x, tail, key, y);
        if y != x {
          var k :| 0 <= k < |tail| && tail[k] == y;
          assert s[k + 1] == y;
        }
      }
      var r := [s[0]] + t;
      assert InsertBy(x, s, key) == r;
      forall i, j | 0 <= i < j < |r| ensures key(r[i]) <= key(r[j]) {
        if i == 0 { assert r[j] in t; }
        else { assert r[i] == t[i - 1] && r[j] == t[j - 1]; }
      }
    }
  }

  /** `ORDER BY key ASC`: the rows, rearranged into ascending order of `key`. */
  function SortBy<T>(s: seq<T>, key: T -> int): (r: seq<T>)
    ensures Ascending(r, key) && multiset(r) == multiset(s)
  {
    if s == [] then []
    else
      assert s == [s[0]] + s[1..];
      var t := SortBy(s[1..], key);
      InsertByAscending(s[0], t, key);
      InsertBy(s[0], t, key)
  }

  /** Sorting keeps exactly the elements it was given. */
  lemma SortByMembers<T>(s: seq<T>, key: T -> int)
    ensures forall x :: x in SortBy(s, key) <==> x in s
  {
    var r := SortBy(s, key);
    forall x ensures x in r <==> x in s {
      assert x in r <==> x in multiset(r);
      assert x in s <==> x in multiset(s);
    }
  }

  /** `LIMIT limit OFFSET offset` as SQLite reads them: a negative limit is no limit, a negative offset is zero. */
  function Window<T>(s: seq<T>, limit: int, offset: int): (r: seq<T>)
    ensures limit >= 0 ==> |r| <= limit
    ensures var lo := if offset < 0 then 0 else if offset > |s| then |s| else offset;
      lo + |r| <= |s| && r == s[lo..lo + |r|]
    ensures 0 <= offset && 0 <= limit && offset + limit <= |s| ==> |r| == limit
  {
    var lo := if offset < 0 then 0 else if offset > |s| then |s| else offset;
    var hi := if limit < 0 || lo + limit > |s| then |s| else lo + limit;
    s[lo..hi]
  }

  /** A window of an ascending sequence is ascending and holds only its elements. */
  lemma WindowWithin<T>(s: seq<T>, limit: int, offset: int, key: T -> int)
    ensures forall x :: x in Window(s, limit, offset) ==> x in s
    ensures Ascending(s, key) ==> Ascending(Window(s, limit, offset), key)
  {
    var lo := if offset < 0 then 0 else if offset > |s| then |s| else offset;
    var r := Window(s, limit, offset);
    assert forall i :: 0 <= i < |r| ==> r[i] == s[lo + i];
  }

  /** `GetPostByID`: the row with that id, or nothing (a nil post and a nil error). */
  function FindPost(posts: seq<Post>, id: int): (r: Option<Post>)
    ensures r.Some? ==> r.value in posts && r.value.id == id
    ensures r.None? <==> forall p :: p in posts ==> p.id != id
  {
    if posts == [] then None
    else if posts[0].id == id then Some(posts[0])
    else FindPost(posts[1..], id)
  }

  /**
   * `SELECT COUNT(*) FROM followers WHERE <column> = author AND follower_id = viewer`:
   * SQLite refuses a column the table does not have.
   */
  function CountFollowRows(follows: seq<Follow>, column: string, author: string, viewer: string): (r: Result<nat>)
    ensures r.Err? <==> column !in FollowerColumns
  {
    if column !in FollowerColumns then Err("no such column: " + column)
    else if column == "following_id" then Ok(|Select(follows, (f: Follow) => f.followingId == author && f.followerId == viewer)|)
    else if column == "follower_id" then Ok(|Select(follows, (f: Follow) => f.followerId == author && f.followerId == viewer)|)
    else Ok(0)
  }

  /** The number of post_viewers rows for that post and user. */
  function CountViewerRows(viewers: seq<Viewer>, postId: int, viewer: string): nat
  {
    |Select(viewers, (v: Viewer) => v == Viewer(postId, viewer))|
  }

  lemma SelectNonEmpty<T(!new)>(s: seq<T>, keep: T -> bool)
    ensures |Select(s, keep)| > 0 <==> exists x :: x in s && keep(x)
  {
    if |Select(s, keep)| > 0 {
      assert Select(s, keep)[0] in Select(s, keep);
    }
  }

  /**
   * The decision of `CanViewPost` once the post has been looked up, with
   * the follower query naming `column` as the post's author.
   */
  function ViewDecision(post: Option<Post>, viewer: string, follows: seq<Follow>, viewers: seq<Viewer>,
                        column: string): (r: Result<bool>)
    ensures post.None? ==> r == Err("post not found")
    ensures post.Some? && (post.value.userId == viewer || post.value.privacy == PrivacyPublic) ==> r == Ok(true)
    ensures post.Some? && post.value.userId != viewer ==>
      (r.Err? <==> !ValidPrivacy(post.value.privacy)
                   || (post.value.privacy == PrivacyAlmostPrivate && column !in FollowerColumns))
    ensures post.Some? && post.value.userId != viewer && post.value.privacy == PrivacyPrivate ==>
      (r == Ok(true) <==> Viewer(post.value.id, viewer) in viewers)
  {
    if post.None? then Err("post not found")
    else
      var p := post.value;
      if p.userId == viewer then Ok(true)
      else if p.privacy == PrivacyPublic then Ok(true)
      else if p.privacy == PrivacyAlmostPrivate then
        match CountFollowRows(follows, column, p.userId, viewer)
        case Err(e) => Err(e)
        case Ok(n) => Ok(n > 0)
      else if p.privacy == PrivacyPrivate then
        SelectNonEmpty(viewers, (v: Viewer) => v == Viewer(p.id, viewer));
        Ok(CountViewerRows(viewers, p.id, viewer) > 0)
      else Err("invalid privacy setting")
  }

  /** Amounts added to the likes counter of post `id`. */
  function IncrementLikes(posts: seq<Post>, id: int): (r: seq<Post>)
  {
    seq(|posts|, i requires 0 <= i < |posts| =>
      if posts[i].id == id then posts[i].(likesCount := posts[i].likesCount + 1) else posts[i])
  }

  /** `likes_count = likes_count - 1 WHERE id = ? AND likes_count > 0`. */
  function DecrementLikes(posts: seq<Post>, id: int): (r: seq<Post>)
  {
    seq(|posts|, i requires 0 <= i < |posts| =>
      if posts[i].id == id && posts[i].likesCount > 0 then posts[i].(likesCount := posts[i].likesCount - 1) else posts[i])
  }

  /** The number of like rows of a post. */
  function LikeRows(likes: seq<Like>, postId: int): nat
  {
    if likes == [] then 0
    else LikeRows(likes[..|likes| - 1], postId) + (if likes[|likes| - 1].postId == postId then 1 else 0)
  }

  /** The number of like rows of one user on one post: the rows the unlike statement deletes. */
  function PairRows(likes: seq<Like>, postId: int, userId: string): nat
  {
    if likes == [] then 0
    else PairRows(likes[..|likes| - 1], postId, userId) + (if likes[|likes| - 1] == Like(postId, userId) then 1 else 0)
  }

  /** `DELETE FROM post_likes WHERE post_id = ? AND user_id = ?`. */
  function RemoveLikes(likes: seq<Like>, postId: int, userId: string): seq<Like>
  {
    if likes == [] then []
    else
      var r := RemoveLikes(likes[..|likes| - 1], postId, userId);
      if likes[|likes| - 1] == Like(postId, userId) then r else r + [likes[|likes| - 1]]
  }

  /** Every post's counter equals the number of its like rows, and no counter is negative. */
  predicate LikesConsistent(posts: seq<Post>, likes: seq<Like>)
  {
    forall i :: 0 <= i < |posts| ==> posts[i].likesCount == LikeRows(likes, posts[i].id)
  }

  /** One more row adds one to its post's count. */
  lemma LikeRowsSnoc(likes: seq<Like>, l: Like, postId: int)
    ensures LikeRows(likes + [l], postId) == LikeRows(likes, postId) + (if l.postId == postId then 1 else 0)
  {
    assert (likes + [l])[..|likes|] == likes;
  }

  lemma {:induction false} LikeRowsRemoved(likes: seq<Like>, postId: int, userId: string, other: int)
    ensures LikeRows(RemoveLikes(likes, postId, userId), other)
         == LikeRows(likes, other) - (if other == postId then PairRows(likes, postId, userId) else 0)
    ensures PairRows(likes, postId, userId) <= LikeRows(likes, postId)
  {
    if likes != [] {
      var init := likes[..|likes| - 1];
      var l := likes[|likes| - 1];
      LikeRowsRemoved(init, postId, userId, other);
      if l != Like(postId, userId) {
        LikeRowsSnoc(RemoveLikes(init, postId, userId), l, other);
      }
    }
  }

  /** A like keeps the counters consistent with the like rows. */
  lemma LikeKeepsConsistent(posts: seq<Post>, likes: seq<Like>, postId: int, userId: string)
    requires LikesConsistent(posts, likes)
    ensures LikesConsistent(IncrementLikes(posts, postId), likes + [Like(postId, userId)])
  {
    var ls := likes + [Like(postId, userId)];
    assert ls[..|ls| - 1] == likes;
  }

  /**
   * An unlike keeps the counters consistent when the user had liked the
   * post at most once: it deletes that row and decrements once.
   */
  lemma UnlikeKeepsConsistent(posts: seq<Post>, likes: seq<Like>, postId: int, userId: string)
    requires LikesConsistent(posts, likes) && PairRows(likes, postId, userId) <= 1
    ensures var removed := PairRows(likes, postId, userId);
      LikesConsistent(if removed > 0 then DecrementLikes(posts, postId) else posts, RemoveLikes(likes, postId, userId))
  {
    var removed := PairRows(likes, postId, userId);
    var after := if removed > 0 then DecrementLikes(posts, postId) else posts;
    forall i | 0 <= i < |after|
      ensures after[i].likesCount == LikeRows(RemoveLikes(likes, postId, userId), after[i].id)
    {
      LikeRowsRemoved(likes, postId, userId, posts[i].id);
    }
  }

  /**
   * A second like of the same post by the same user leaves two rows; one
   * unlike then deletes both but decrements the counter once.
   */
  lemma DoubleLikeThenUnlike(postId: int, userId: string)
    ensures var likes := [Like(postId, userId), Like(postId, userId)];
      PairRows(likes, postId, userId) == 2 && RemoveLikes(likes, postId, userId) == []
  {
    var l := Like(postId, userId);
    var likes := [l, l];
    assert likes[..1] == [l];
    assert [l][..0] == [];
    assert PairRows([], postId, userId) == 0 && RemoveLikes([], postId, userId) == [];
    assert PairRows([l], postId, userId) == 1 && RemoveLikes([l], postId, userId) == [];
  }

  /** The user ids of a post's viewer rows, in row order. */
  function UsersOf(viewers: seq<Viewer>, postId: int): (r: seq<string>)
    ensures forall u :: u in r <==> Viewer(postId, u) in viewers
  {
    if viewers == [] then []
    else
      var r := UsersOf(viewers[..|viewers| - 1], postId);
      var v := viewers[|viewers| - 1];
      if v.postId == postId then r + [v.userId] else r
  }

  /** The rows the adding loop of `SetPostViewers` inserts: each listed id that is not a current viewer, once per mention. */
  function Additions(postId: int, ids: seq<string>, current: seq<string>): (r: seq<Viewer>)
    ensures forall v :: v in r <==> v.postId == postId && v.userId in ids && v.userId !in current
  {
    if ids == [] then []
    else
      var r := Additions(postId, ids[..|ids| - 1], current);
      var id := ids[|ids| - 1];
      assert forall u :: u in ids <==> u in ids[..|ids| - 1] || u == id by {
        assert ids == ids[..|ids| - 1] + [id];
      }
      if id !in current then r + [Viewer(postId, id)] else r
  }

  /** The rows left by the removing loop: each current viewer missing from `keep` loses all its rows. */
  function Removals(rows: seq<Viewer>, postId: int, ids: seq<string>, keep: seq<string>): (r: seq<Viewer>)
    ensures forall v :: v in r <==> v in rows && !(v.postId == postId && v.userId in ids && v.userId !in keep)
  {
    if ids == [] then rows
    else
      var r := Removals(rows, postId, ids[..|ids| - 1], keep);
      var id := ids[|ids| - 1];
      assert forall u :: u in ids <==> u in ids[..|ids| - 1] || u == id by {
        assert ids == ids[..|ids| - 1] + [id];
      }
      if id !in keep then Select(r, (v: Viewer) => v != Viewer(postId, id)) else r
  }

  /**
   * Reconciling the viewer rows: after adding the missing ids and removing
   * the stale ones, a user has a row for the post iff the user was listed,
   * and the rows of other posts are untouched.
   */
  lemma ReconcileViewers(rows: seq<Viewer>, postId: int, ids: seq<string>)
    ensures var current := UsersOf(rows, postId);
      var after := Removals(rows + Additions(postId, ids, current), postId, current, ids);
      (forall u :: Viewer(postId, u) in after <==> u in ids)
      && (forall v: Viewer :: v.postId != postId ==> (v in after <==> v in rows))
  {
  }

  /** The adding loop's rows after one more listed id. */
  lemma AdditionsSnoc(postId: int, ids: seq<string>, i: nat, current: seq<string>)
    requires i < |ids|
    ensures ids[i] !in current ==>
              Additions(postId, ids[..i + 1], current) == Additions(postId, ids[..i], current) + [Viewer(postId, ids[i])]
    ensures ids[i] in current ==> Additions(postId, ids[..i + 1], current) == Additions(postId, ids[..i], current)
  {
    assert ids[..i + 1][..i] == ids[..i];
  }

  /** The removing loop's rows after one more current viewer. */
  lemma RemovalsSnoc(rows: seq<Viewer>, postId: int, ids: seq<string>, j: nat, keep: seq<string>)
    requires j < |ids|
    ensures Removals(rows, postId, ids[..j + 1], keep)
            == if ids[j] !in keep then Select(Removals(rows, postId, ids[..j], keep), (v: Viewer) => v != Viewer(postId, ids[j]))
               else Removals(rows, postId, ids[..j], keep)
  {
    assert ids[..j + 1][..j] == ids[..j];
  }

  /** The tables behind the post repository. */
  class Repository {
    var posts: seq<Post>
    var viewers: seq<Viewer>
    var comments: seq<Comment>
    var likes: seq<Like>
    var follows: seq<Follow>
    var nextPostId: int
    var nextCommentId: int

    /** Row ids are positive and below the next id to be handed out. */
    predicate Valid()
      reads this
    {
      0 < nextPostId && 0 < nextCommentId
      && (forall i :: 0 <= i < |posts| ==> 0 < posts[i].id < nextPostId)
      && (forall i :: 0 <= i < |comments| ==> 0 < comments[i].id < nextCommentId)
    }

    constructor ()
      ensures Valid() && posts == [] && viewers == [] && comments == [] && likes == [] && follows == []
    {
      posts, viewers, comments, likes, follows := [], [], [], [], [];
      nextPostId, nextCommentId := 1, 1;
    }

    function GetPostByID(id: int): Option<Post>
      reads this
    {
      FindPost(posts, id)
    }

    /**
     * `CanViewPost`, with the follower query on the column that holds the
     * followed user, following_id.
     */
    function CanViewPost(postId: int, viewer: string): (r: Result<bool>)
      reads this
      ensures var post := FindPost(posts, postId);
        r.Err? <==> post.None? || (post.value.userId != viewer && !ValidPrivacy(post.value.privacy))
    {
      ViewDecision(FindPost(posts, postId), viewer, follows, viewers, "following_id")
    }

    /**
     * `CanViewPost` as written: its follower query names followed_id, so an
     * almost-private post is an error for everyone but its author.
     */
    function CanViewPostAsWritten(postId: int, viewer: string): (r: Result<bool>)
      reads this
      ensures var post := FindPost(posts, postId);
        (post.None? ==> r == Err("post not found"))
        && (post.Some? && post.value.userId == viewer ==> r == Ok(true))
        && (post.Some? && post.value.userId != viewer && post.value.privacy == PrivacyAlmostPrivate ==>
              r == Err("no such column: followed_id"))
        && (post.Some? && post.value.userId != viewer ==>
              (r == Ok(true) <==> post.value.privacy == PrivacyPublic
                                  || (post.value.privacy == PrivacyPrivate && Viewer(postId, viewer) in viewers)))
    {
      ViewDecision(FindPost(posts, postId), viewer, follows, viewers, "followed_id")
    }

    /** `GetPostsByUserID`: the user's posts, newest first. */
    function GetPostsByUserID(userId: string): (r: seq<Post>)
      reads this
      ensures forall p :: p in r <==> p in posts && p.userId == userId
      ensures Ascending(r, (p: Post) => -p.createdAt)
    {
      var mine := Select(posts, (p: Post) => p.userId == userId);
      SortByMembers(mine, (p: Post) => -p.createdAt);
      SortBy(mine, (p: Post) => -p.createdAt)
    }

    /** `WHERE privacy = 'public' ORDER BY created_at DESC`: every public post, newest first. */
    function PublicNewestFirst(): (r: seq<Post>)
      reads this
      ensures multiset(r) == multiset(Select(posts, (p: Post) => p.privacy == PrivacyPublic))
      ensures forall p :: p in r <==> p in posts && p.privacy == PrivacyPublic
      ensures Ascending(r, (p: Post) => -p.createdAt)
    {
      var pub := Select(posts, (p: Post) => p.privacy == PrivacyPublic);
      SortByMembers(pub, (p: Post) => -p.createdAt);
      SortBy(pub, (p: Post) => -p.createdAt)
    }

    /** The page `GetPublicPosts` selects, with each row's columns as stored: the intended result. */
    function GetPublicPostsCorrected(limit: int, offset: int): (r: seq<Post>)
      reads this
      ensures r == Window(PublicNewestFirst(), limit, offset)
      ensures forall p :: p in r ==> p in posts && p.privacy == PrivacyPublic
      ensures Ascending(r, (p: Post) => -p.createdAt)
      ensures limit >= 0 ==> |r| <= limit
      ensures 0 <= offset && 0 <= limit && offset + limit <= |PublicNewestFirst()| ==> |r| == limit
    {
      var sorted := PublicNewestFirst();
      WindowWithin(sorted, limit, offset, (p: Post) => -p.createdAt);
      Window(sorted, limit, offset)
    }

    /**
     * `GetPublicPosts` as written: the same page, but the image path is
     * scanned into a local that is never copied into the post, so every
     * post comes back without an image.
     */
    function GetPublicPosts(limit: int, offset: int): (r: seq<Post>)
      reads this
      ensures |r| == |GetPublicPostsCorrected(limit, offset)|
      ensures forall i :: 0 <= i < |r| ==> r[i] == GetPublicPostsCorrected(limit, offset)[i].(imagePath := "")
      ensures forall i :: 0 <= i < |r| ==> r[i].imagePath == "" && r[i].privacy == PrivacyPublic
    {
      var page := GetPublicPostsCorrected(limit, offset);
      seq(|page|, i requires 0 <= i < |page| => page[i].(imagePath := ""))
    }

    /** `GetCommentsByPostID`: the post's comments, oldest first. */
    function GetCommentsByPostID(postId: int): (r: seq<Comment>)
      reads this
      ensures forall c :: c in r <==> c in comments && c.postId == postId
      ensures Ascending(r, (c: Comment) => c.createdAt)
    {
      var mine := Select(comments, (c: Comment) => c.postId == postId);
      SortByMembers(mine, (c: Comment) => c.createdAt);
      SortBy(mine, (c: Comment) => c.createdAt)
    }

    function GetPostViewers(postId: int): seq<string>
      reads this
    {
      UsersOf(viewers, postId)
    }

    /** The posts of `ps` that `viewer` may see, in order; a post whose check fails is dropped. */
    function Viewable(ps: seq<Post>, viewer: string): (r: seq<Post>)
      reads this
      ensures forall p :: p in r <==> p in ps && CanViewPostAsWritten(p.id, viewer) == Ok(true)
    {
      if ps == [] then []
      else
        var r := Viewable(ps[..|ps| - 1], viewer);
        var p := ps[|ps| - 1];
        assert forall q :: q in ps <==> q in ps[..|ps| - 1] || q == p by {
          assert ps == ps[..|ps| - 1] + [p];
        }
        if CanViewPostAsWritten(p.id, viewer) == Ok(true) then r + [p] else r
    }

    /** One more post is kept at the end exactly when the viewer is granted it. */
    lemma ViewableSnoc(ps: seq<Post>, p: Post, viewer: string)
      ensures Viewable(ps + [p], viewer)
        == if CanViewPostAsWritten(p.id, viewer) == Ok(true) then Viewable(ps, viewer) + [p] else Viewable(ps, viewer)
    {
      assert (ps + [p])[..|ps|] == ps;
    }

    /** `CreatePost`: inserts the post with the next row id and a zero like count. */
    method CreatePost(userId: string, content: string, imagePath: string, privacy: string, now: int)
      returns (p: Post)
      requires Valid()
      modifies this
      ensures p == Post(old(nextPostId), userId, content, imagePath, privacy, 0, now, now)
      ensures posts == old(posts) + [p] && nextPostId == old(nextPostId) + 1
      ensures viewers == old(viewers) && comments == old(comments) && likes == old(likes)
      ensures follows == old(follows) && nextCommentId == old(nextCommentId)
      ensures Valid() && FindPost(posts, p.id) == Some(p)
    {
      p := Post(nextPostId, userId, content, imagePath, privacy, 0, now, now);
      assert forall q :: q in posts ==> q.id != p.id;
      posts := posts + [p];
      nextPostId := nextPostId + 1;
      assert FindPost(old(posts), p.id) == None;
      FindPostAppend(old(posts), p);
    }

    /**
     * `UpdatePost`: stamps the post with the update time and overwrites
     * content, image, privacy and update time of the rows with its id.
     */
    method UpdatePost(p: Post, now: int) returns (q: Post)
      modifies this
      ensures q == p.(updatedAt := now)
      ensures posts == UpdatedRows(old(posts), p, now)
      ensures |posts| == |old(posts)|
      ensures forall i :: 0 <= i < |posts| ==>
        posts[i] == (if old(posts)[i].id == p.id
                     then old(posts)[i].(content := p.content, imagePath := p.imagePath, privacy := p.privacy, updatedAt := now)
                     else old(posts)[i])
      ensures viewers == old(viewers) && comments == old(comments) && likes == old(likes)
      ensures follows == old(follows) && nextPostId == old(nextPostId) && nextCommentId == old(nextCommentId)
    {
      q := p.(updatedAt := now);
      posts := UpdatedRows(posts, q, now);
    }

    method DeletePost(id: int)
      modifies this
      ensures posts == Select(old(posts), (q: Post) => q.id != id)
      ensures viewers == old(viewers) && comments == old(comments) && likes == old(likes)
      ensures follows == old(follows) && nextPostId == old(nextPostId) && nextCommentId == old(nextCommentId)
    {
      posts := Select(posts, (q: Post) => q.id != id);
    }

    method AddPostViewer(postId: int, userId: string)
      modifies this
      ensures viewers == old(viewers) + [Viewer(postId, userId)]
      ensures posts == old(posts) && comments == old(comments) && likes == old(likes)
      ensures follows == old(follows) && nextPostId == old(nextPostId) && nextCommentId == old(nextCommentId)
    {
      viewers := viewers + [Viewer(postId, userId)];
    }

    method RemovePostViewer(postId: int, userId: string)
      modifies this
      ensures viewers == Select(old(viewers), (v: Viewer) => v != Viewer(postId, userId))
      ensures posts == old(posts) && comments == old(comments) && likes == old(likes)
      ensures follows == old(follows) && nextPostId == old(nextPostId) && nextCommentId == old(nextCommentId)
    {
      viewers := Select(viewers, (v: Viewer) => v != Viewer(postId, userId));
    }

    /** `CreateComment`: inserts the comment and returns it with its new row id. */
    method CreateComment(postId: int, userId: string, content: string, imagePath: string, now: int)
      returns (c: Comment)
      requires Valid()
      modifies this
      ensures c == Comment(old(nextCommentId), postId, userId, content, imagePath, now, now)
      ensures comments == old(comments) + [c] && nextCommentId == old(nextCommentId) + 1
      ensures posts == old(posts) && viewers == old(viewers) && likes == old(likes)
      ensures follows == old(follows) && nextPostId == old(nextPostId)
      ensures Valid()
    {
      c := Comment(nextCommentId, postId, userId, content, imagePath, now, now);
      comments := comments + [c];
      nextCommentId := nextCommentId + 1;
    }

    method DeleteComment(id: int)
      modifies this
      ensures comments == Select(old(comments), (c: Comment) => c.id != id)
      ensures posts == old(posts) && viewers == old(viewers) && likes == old(likes)
      ensures follows == old(follows) && nextPostId == old(nextPostId) && nextCommentId == old(nextCommentId)
    {
      comments := Select(comments, (c: Comment) => c.id != id);
    }

    /**
     * `LikePost`: inserts the like and increments the counter in one
     * transaction; if any step fails nothing is kept.
     */
    method LikePost(postId: int, userId: string, f: TxFaults) returns (r: Result<()>)
      modifies this
      ensures r.Ok? <==> !f.begin && !f.first && !f.second && !f.commit
      ensures r.Ok? ==> likes == old(likes) + [Like(postId, userId)] && posts == IncrementLikes(old(posts), postId)
      ensures r.Err? ==> likes == old(likes) && posts == old(posts)
      ensures viewers == old(viewers) && comments == old(comments)
      ensures follows == old(follows) && nextPostId == old(nextPostId) && nextCommentId == old(nextCommentId)
    {
      if f.begin { return Err("begin failed"); }
      if f.first { return Err("insert like failed"); }
      var txLikes := likes + [Like(postId, userId)];
      if f.second { return Err("increment failed"); }
      var txPosts := IncrementLikes(posts, postId);
      if f.commit { return Err("commit failed"); }
      likes, posts := txLikes, txPosts;
      r := Ok(());
    }

    /**
     * `UnlikePost`: deletes the user's likes of the post and, only when a
     * row was deleted, decrements the counter if it is positive; if any
     * step fails nothing is kept.
     */
    method UnlikePost(postId: int, userId: string, f: TxFaults) returns (r: Result<()>)
      modifies this
      ensures var removed := PairRows(old(likes), postId, userId);
        r.Ok? <==> !f.begin && !f.first && !f.affected && (removed == 0 || !f.second) && !f.commit
      ensures r.Ok? ==> likes == RemoveLikes(old(likes), postId, userId)
      ensures r.Ok? && PairRows(old(likes), postId, userId) > 0 ==> posts == DecrementLikes(old(posts), postId)
      ensures r.Ok? && PairRows(old(likes), postId, userId) == 0 ==> posts == old(posts)
      ensures r.Err? ==> likes == old(likes) && posts == old(posts)
      ensures viewers == old(viewers) && comments == old(comments)
      ensures follows == old(follows) && nextPostId == old(nextPostId) && nextCommentId == old(nextCommentId)
    {
      if f.begin { return Err("begin failed"); }
      if f.first { return Err("delete like failed"); }
      var txLikes := RemoveLikes(likes, postId, userId);
      var removed := PairRows(likes, postId, userId);
      if f.affected { return Err("rows affected failed"); }
      var txPosts := posts;
      if removed > 0 {
        if f.second { return Err("decrement failed"); }
        txPosts := DecrementLikes(posts, postId);
      }
      if f.commit { return Err("commit failed"); }
      likes, posts := txLikes, txPosts;
      r := Ok(());
    }
  }

  /** `UPDATE posts SET content, image_path, privacy, updated_at WHERE id = p.id`. */
  function UpdatedRows(posts: seq<Post>, p: Post, now: int): (r: seq<Post>)
    ensures |r| == |posts|
    ensures forall i :: 0 <= i < |posts| ==>
      r[i] == (if posts[i].id == p.id
               then posts[i].(content := p.content, imagePath := p.imagePath, privacy := p.privacy, updatedAt := now)
               else posts[i])
  {
    seq(|posts|, i requires 0 <= i < |posts| =>
      if posts[i].id == p.id
      then posts[i].(content := p.content, imagePath := p.imagePath, privacy := p.privacy, updatedAt := now)
      else posts[i])
  }

  /** After the update, looking the post up finds the stored row with the new columns. */
  lemma {:induction false} FindPostUpdated(posts: seq<Post>, p: Post, now: int)
    requires FindPost(posts, p.id).Some?
    ensures FindPost(UpdatedRows(posts, p, now), p.id)
         == Some(FindPost(posts, p.id).value.(content := p.content, imagePath := p.imagePath,
                                              privacy := p.privacy, updatedAt := now))
  {
    if posts[0].id != p.id {
      assert UpdatedRows(posts, p, now)[1..] == UpdatedRows(posts[1..], p, now);
      FindPostUpdated(posts[1..], p, now);
    }
  }

  lemma FindPostAppend(posts: seq<Post>, p: Post)
    requires FindPost(posts, p.id) == None
    ensures FindPost(posts + [p], p.id) == Some(p)
  {
    if posts != [] {
      assert (posts + [p])[1..] == posts[1..] + [p];
      FindPostAppend(posts[1..], p);
    }
  }

  /**
   * The decision table of `CanViewPost` (with the follower query on
   * following_id): a missing post is an error; the author always sees the
   * post; others see a public post, an almost-private post iff they follow
   * the author, a private post iff they are listed as a viewer; any other
   * privacy value is an error.
   */
  lemma CanViewDecision(repo: Repository, postId: int, viewer: string)
    ensures var post := FindPost(repo.posts, postId);
      var r := repo.CanViewPost(postId, viewer);
      (post.None? ==> r == Err("post not found"))
      && (post.Some? && post.value.userId == viewer ==> r == Ok(true))
      && (post.Some? && post.value.userId != viewer ==>
            (r == Ok(true) <==>
              post.value.privacy == PrivacyPublic
              || (post.value.privacy == PrivacyAlmostPrivate
                  && Follow(viewer, post.value.userId) in repo.follows)
              || (post.value.privacy == PrivacyPrivate && Viewer(postId, viewer) in repo.viewers))
            && (r.Err? <==> !ValidPrivacy(post.value.privacy)))
  {
    var post := FindPost(repo.posts, postId);
    if post.Some? {
      var p := post.value;
      SelectNonEmpty(repo.follows, (f: Follow) => f.followingId == p.userId && f.followerId == viewer);
      SelectNonEmpty(repo.viewers, (v: Viewer) => v == Viewer(p.id, viewer));
    }
  }

  /** As written, an almost-private post is an error for everyone but its author. */
  lemma AlmostPrivateAsWrittenFails(repo: Repository, postId: int, viewer: string)
    requires FindPost(repo.posts, postId).Some?
    requires FindPost(repo.posts, postId).value.privacy == PrivacyAlmostPrivate
    requires FindPost(repo.posts, postId).value.userId != viewer
    ensures repo.CanViewPostAsWritten(postId, viewer) == Err("no such column: followed_id")
  {
  }

  /** The corrected check agrees with the written one on every other post. */
  lemma CorrectedAgreesElsewhere(repo: Repository, postId: int, viewer: string)
    requires FindPost(repo.posts, postId).None?
      || FindPost(repo.posts, postId).value.privacy != PrivacyAlmostPrivate
      || FindPost(repo.posts, postId).value.userId == viewer
    ensures repo.CanViewPost(postId, viewer) == repo.CanViewPostAsWritten(postId, viewer)
  {
  }

  /** The image name a request carries: none, a stored name, or the store's failure. */
  function ImageName(image: Option<Result<string>>): string
  {
    if image.Some? && image.value.Ok? then image.value.value else ""
  }

  /** The post service over one repository; `deleted` lists the image files it asked the file store to remove. */
  class Service {
    const repo: Repository
    var deleted: seq<string>

    constructor (repo: Repository)
      ensures this.repo == repo && deleted == []
    {
      this.repo := repo;
      deleted := [];
    }

    /**
     * `CreatePost`: an unknown privacy value and a failed image save are
     * refused before anything is written; otherwise the post is inserted.
     */
    method CreatePost(userId: string, content: string, privacy: string, image: Option<Result<string>>, now: int)
      returns (r: Result<Post>)
      requires repo.Valid()
      modifies repo
      ensures repo.Valid()
      ensures !ValidPrivacy(privacy) ==> r == Err("invalid privacy setting") && repo.posts == old(repo.posts)
      ensures ValidPrivacy(privacy) && image.Some? && image.value.Err? ==> r.Err? && repo.posts == old(repo.posts)
      ensures ValidPrivacy(privacy) && (image.None? || image.value.Ok?) ==>
        r == Ok(Post(old(repo.nextPostId), userId, content, ImageName(image), privacy, 0, now, now))
        && repo.posts == old(repo.posts) + [r.value]
      ensures repo.viewers == old(repo.viewers) && repo.comments == old(repo.comments) && repo.likes == old(repo.likes)
    {
      if !ValidPrivacy(privacy) {
        return Err("invalid privacy setting");
      }
      var imagePath := "";
      if image.Some? {
        if image.value.Err? {
          return Err(image.value.msg);
        }
        imagePath := image.value.value;
      }
      var p := repo.CreatePost(userId, content, imagePath, privacy, now);
      r := Ok(p);
    }

    /**
     * `GetPost`: the permission check comes first; a refusal or a failed
     * check is an error. A permitted post exists, so the later "post not
     * found" answer needs the post to vanish between the two queries. As
     * written, nobody but its author ever gets an almost-private post.
     */
    function GetPost(postId: int, userId: string): (r: Result<Post>)
      reads repo
      ensures r.Ok? <==> repo.CanViewPostAsWritten(postId, userId) == Ok(true)
      ensures r.Ok? ==> Some(r.value) == FindPost(repo.posts, postId)
      ensures r.Ok? ==> r.value.userId == userId || r.value.privacy != PrivacyAlmostPrivate
    {
      var can := repo.CanViewPostAsWritten(postId, userId);
      var found := FindPost(repo.posts, postId);
      if can.Err? then Err(can.msg)
      else if !can.value then Err("you don't have permission to view this post")
      else Ok(found.value)
    }

    /** `GetUserPosts`: the user's posts, filtered one by one through the permission check. */
    method GetUserPosts(userId: string, viewerId: string) returns (r: seq<Post>)
      ensures r == repo.Viewable(repo.GetPostsByUserID(userId), viewerId)
    {
      var ps := repo.GetPostsByUserID(userId);
      r := [];
      var i := 0;
      while i < |ps|
        invariant 0 <= i <= |ps|
        invariant r == repo.Viewable(ps[..i], viewerId)
      {
        assert ps[..i + 1] == ps[..i] + [ps[i]];
        repo.ViewableSnoc(ps[..i], ps[i], viewerId);
        if repo.CanViewPostAsWritten(ps[i].id, viewerId) == Ok(true) {
          r := r + [ps[i]];
        }
        i := i + 1;
      }
      assert ps[..i] == ps;
    }

    /** `GetPublicPosts`: a non-positive limit becomes 10 and a negative offset 0. */
    function GetPublicPosts(limit: int, offset: int): (r: seq<Post>)
      reads repo
      ensures |r| <= if limit <= 0 then 10 else limit
      ensures var l := if limit <= 0 then 10 else limit;
        var o := if offset < 0 then 0 else offset;
        o + l <= |repo.PublicNewestFirst()| ==> |r| == l
      ensures forall i :: 0 <= i < |r| ==> r[i].privacy == PrivacyPublic && r[i].imagePath == ""
    {
      repo.GetPublicPosts(if limit <= 0 then 10 else limit, if offset < 0 then 0 else offset)
    }

    /**
     * `UpdatePost`: refuses a missing post, a caller who is not the author
     * and an unknown privacy value, in that order. A new image first
     * deletes the old file (whose failure is only logged), so a failed save
     * after that leaves the row pointing at a deleted file.
     */
    method UpdatePost(postId: int, userId: string, content: string, privacy: string,
                      image: Option<Result<string>>, now: int) returns (r: Result<Post>)
      modifies this, repo
      ensures var old_ := FindPost(old(repo.posts), postId);
        (old_.None? ==> r == Err("post not found"))
        && (old_.Some? && old_.value.userId != userId ==> r == Err("you don't have permission to update this post"))
        && (old_.Some? && old_.value.userId == userId && !ValidPrivacy(privacy) ==> r == Err("invalid privacy setting"))
      ensures r.Err? ==> repo.posts == old(repo.posts)
      ensures var old_ := FindPost(old(repo.posts), postId);
        r.Ok? ==> (old_.Some? && old_.value.userId == userId && ValidPrivacy(privacy)
                   && (image.None? || image.value.Ok?)
                   && r.value == old_.value.(content := content, privacy := privacy, updatedAt := now,
                                             imagePath := if image.Some? then image.value.value else old_.value.imagePath))
      ensures r.Ok? ==> repo.posts == UpdatedRows(old(repo.posts), r.value, now)
      ensures r.Ok? ==> FindPost(repo.posts, postId) == Some(r.value)
      ensures var old_ := FindPost(old(repo.posts), postId);
        deleted == if old_.Some? && old_.value.userId == userId && ValidPrivacy(privacy)
                      && image.Some? && old_.value.imagePath != ""
                   then old(deleted) + [old_.value.imagePath] else old(deleted)
      ensures repo.viewers == old(repo.viewers) && repo.comments == old(repo.comments) && repo.likes == old(repo.likes)
    {
      var found := repo.GetPostByID(postId);
      if found.None? {
        return Err("post not found");
      }
      var post := found.value;
      if post.userId != userId {
        return Err("you don't have permission to update this post");
      }
      if !ValidPrivacy(privacy) {
        return Err("invalid privacy setting");
      }
      post := post.(content := content, privacy := privacy);
      if image.Some? {
        if post.imagePath != "" {
          deleted := deleted + [post.imagePath];
        }
        if image.value.Err? {
          return Err(image.value.msg);
        }
        post := post.(imagePath := image.value.value);
      }
      post := repo.UpdatePost(post, now);
      FindPostUpdated(old(repo.posts), post, now);
      r := Ok(post);
    }

    /** `DeletePost`: only the author may delete; the image file goes first. */
    method DeletePost(postId: int, userId: string) returns (r: Result<()>)
      modifies this, repo
      ensures var old_ := FindPost(old(repo.posts), postId);
        (old_.None? ==> r == Err("post not found") && repo.posts == old(repo.posts))
        && (old_.Some? && old_.value.userId != userId ==>
              r == Err("you don't have permission to delete this post") && repo.posts == old(repo.posts))
        && (old_.Some? && old_.value.userId == userId ==>
              r == Ok(()) && repo.posts == Select(old(repo.posts), (q: Post) => q.id != postId))
      ensures var old_ := FindPost(old(repo.posts), postId);
        deleted == if old_.Some? && old_.value.userId == userId && old_.value.imagePath != ""
                   then old(deleted) + [old_.value.imagePath] else old(deleted)
      ensures repo.viewers == old(repo.viewers) && repo.comments == old(repo.comments) && repo.likes == old(repo.likes)
    {
      var found := repo.GetPostByID(postId);
      if found.None? {
        return Err("post not found");
      }
      if found.value.userId != userId {
        return Err("you don't have permission to delete this post");
      }
      if found.value.imagePath != "" {
        deleted := deleted + [found.value.imagePath];
      }
      repo.DeletePost(postId);
      r := Ok(());
    }

    /** The adding loop of `SetPostViewers`: a row for each listed id that is not a current viewer. */
    method AddMissingViewers(postId: int, ids: seq<string>, current: seq<string>)
      modifies repo
      ensures repo.viewers == old(repo.viewers) + Additions(postId, ids, current)
      ensures repo.posts == old(repo.posts) && repo.comments == old(repo.comments) && repo.likes == old(repo.likes)
    {
      var i := 0;
      while i < |ids|
        invariant 0 <= i <= |ids|
        invariant repo.viewers == old(repo.viewers) + Additions(postId, ids[..i], current)
        invariant repo.posts == old(repo.posts) && repo.comments == old(repo.comments) && repo.likes == old(repo.likes)
      {
        AdditionsSnoc(postId, ids, i, current);
        if ids[i] !in current {
          repo.AddPostViewer(postId, ids[i]);
          assert repo.viewers == old(repo.viewers) + (Additions(postId, ids[..i], current) + [Viewer(postId, ids[i])]);
        }
        i := i + 1;
      }
      assert ids[..i] == ids;
    }

    /** The removing loop of `SetPostViewers`: every row of each current viewer not in `keep` goes. */
    method RemoveStaleViewers(postId: int, current: seq<string>, keep: seq<string>)
      modifies repo
      ensures repo.viewers == Removals(old(repo.viewers), postId, current, keep)
      ensures repo.posts == old(repo.posts) && repo.comments == old(repo.comments) && repo.likes == old(repo.likes)
    {
      var j := 0;
      while j < |current|
        invariant 0 <= j <= |current|
        invariant repo.viewers == Removals(old(repo.viewers), postId, current[..j], keep)
        invariant repo.posts == old(repo.posts) && repo.comments == old(repo.comments) && repo.likes == old(repo.likes)
      {
        RemovalsSnoc(old(repo.viewers), postId, current, j, keep);
        if current[j] !in keep {
          repo.RemovePostViewer(postId, current[j]);
        }
        j := j + 1;
      }
      assert current[..j] == current;
    }

    /**
     * `SetPostViewers`: only the author of a private post may set its
     * viewers. The listed ids that are not viewers yet are added, then the
     * current viewers that are not listed are removed.
     */
    method SetPostViewers(postId: int, userId: string, viewerIds: seq<string>) returns (r: Result<()>)
      modifies repo
      ensures var old_ := FindPost(old(repo.posts), postId);
        (old_.None? ==> r == Err("post not found"))
        && (old_.Some? && old_.value.userId != userId ==> r == Err("you don't have permission to set viewers for this post"))
        && (old_.Some? && old_.value.userId == userId && old_.value.privacy != PrivacyPrivate ==>
              r == Err("viewers can only be set for private posts"))
        && (old_.Some? && old_.value.userId == userId && old_.value.privacy == PrivacyPrivate ==> r == Ok(()))
      ensures r.Err? ==> repo.viewers == old(repo.viewers)
      ensures r.Ok? ==> repo.viewers == Removals(old(repo.viewers) + Additions(postId, viewerIds, UsersOf(old(repo.viewers), postId)),
                                                postId, UsersOf(old(repo.viewers), postId), viewerIds)
      ensures r.Ok? ==> forall u :: Viewer(postId, u) in repo.viewers <==> u in viewerIds
      ensures forall v: Viewer :: v.postId != postId ==> (v in repo.viewers <==> v in old(repo.viewers))
      ensures repo.posts == old(repo.posts) && repo.comments == old(repo.comments) && repo.likes == old(repo.likes)
    {
      var found := repo.GetPostByID(postId);
      if found.None? {
        return Err("post not found");
      }
      if found.value.userId != userId {
        return Err("you don't have permission to set viewers for this post");
      }
      if found.value.privacy != PrivacyPrivate {
        return Err("viewers can only be set for private posts");
      }
      var current := repo.GetPostViewers(postId);
      ghost var base := repo.viewers;
      AddMissingViewers(postId, viewerIds, current);
      RemoveStaleViewers(postId, current, viewerIds);
      ReconcileViewers(base, postId, viewerIds);
      r := Ok(());
    }

    /**
     * `CreateComment`: only someone who may view the post may comment on it;
     * as written, nobody but its author may comment on an almost-private post.
     */
    method CreateComment(postId: int, userId: string, content: string, image: Option<Result<string>>, now: int)
      returns (r: Result<Comment>)
      requires repo.Valid()
      modifies repo
      ensures repo.Valid()
      ensures repo.CanViewPostAsWritten(postId, userId) != Ok(true) ==> r.Err? && repo.comments == old(repo.comments)
      ensures image.Some? && image.value.Err? ==> r.Err? && repo.comments == old(repo.comments)
      ensures old(repo.CanViewPostAsWritten(postId, userId)) == Ok(true) && (image.None? || image.value.Ok?) ==>
        r == Ok(Comment(old(repo.nextCommentId), postId, userId, content, ImageName(image), now, now))
        && repo.comments == old(repo.comments) + [r.value]
      ensures repo.posts == old(repo.posts) && repo.viewers == old(repo.viewers)
      ensures repo.likes == old(repo.likes) && repo.follows == old(repo.follows)
    {
      var can := repo.CanViewPostAsWritten(postId, userId);
      if can.Err? {
        return Err(can.msg);
      }
      if !can.value {
        return Err("you don't have permission to comment on this post");
      }
      var imagePath := "";
      if image.Some? {
        if image.value.Err? {
          return Err(image.value.msg);
        }
        imagePath := image.value.value;
      }
      var c := repo.CreateComment(postId, userId, content, imagePath, now);
      r := Ok(c);
    }

    /** `GetPostComments`: the comments, oldest first, to someone who may view the post. */
    function GetPostComments(postId: int, userId: string): (r: Result<seq<Comment>>)
      reads repo
      ensures r.Ok? <==> repo.CanViewPostAsWritten(postId, userId) == Ok(true)
      ensures r.Ok? ==> r.value == repo.GetCommentsByPostID(postId)
    {
      match repo.CanViewPostAsWritten(postId, userId)
      case Err(e) => Err(e)
      case Ok(can) =>
        if !can then Err("you don't have permission to view this post's comments")
        else Ok(repo.GetCommentsByPostID(postId))
    }

    /** `DeleteComment`: deletes the comment whoever asks; the caller is not checked. */
    method DeleteComment(commentId: int, userId: string) returns (r: Result<()>)
      modifies repo
      ensures r == Ok(())
      ensures repo.comments == Select(old(repo.comments), (c: Comment) => c.id != commentId)
      ensures repo.posts == old(repo.posts) && repo.viewers == old(repo.viewers) && repo.likes == old(repo.likes)
    {
      repo.DeleteComment(commentId);
      r := Ok(());
    }
  }

  /** Whoever asks, the comment is gone afterwards. */
  lemma DeleteCommentIgnoresCaller(comments: seq<Comment>, commentId: int)
    ensures forall c :: c in Select(comments, (c: Comment) => c.id != commentId) ==> c.id != commentId
    ensures forall c :: c in comments && c.id != commentId ==> c in Select(comments, (c: Comment) => c.id != commentId)
  {
  }

  /**
   * The public-post defaults: without a positive limit at most ten posts,
   * all public, as if 10 were asked; a negative offset reads from the start.
   */
  lemma PublicPostsDefaults(s: Service, limit: int, offset: int)
    ensures limit <= 0 ==> |s.GetPublicPosts(limit, offset)| <= 10
    ensures limit <= 0 ==> s.GetPublicPosts(limit, offset) == s.GetPublicPosts(10, offset)
    ensures offset < 0 ==> s.GetPublicPosts(limit, offset) == s.GetPublicPosts(limit, 0)
    ensures forall p :: p in s.GetPublicPosts(limit, offset) ==> p.privacy == PrivacyPublic
  {
  }

  /**
   * As written, the public feed drops every image: a public post stored
   * with an image comes back from the intended query with it, and from the
   * written one without.
   */
  lemma PublicFeedDropsImages(repo: Repository, p: Post)
    requires repo.posts == [p] && p.privacy == PrivacyPublic && p.imagePath != ""
    ensures repo.GetPublicPostsCorrected(10, 0) == [p]
    ensures repo.GetPublicPosts(10, 0) == [p.(imagePath := "")]
  {
    var keep := (q: Post) => q.privacy == PrivacyPublic;
    assert Select([p], keep) == Select([], keep) + [p];
    var sorted := repo.PublicNewestFirst();
    assert multiset(sorted) == multiset{p};
    assert |sorted| == 1 && sorted[0] in multiset(sorted);
    assert sorted == [p];
  }
}
