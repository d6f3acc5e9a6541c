/** The HEAD side of the merge conflict in backend/routes/posts.js: its own
    session gate, the public and personal feeds, post creation with an
    uploaded image, the like toggle, comments, deletion and its own
    "time ago" helper. This side reads posts in its own shape: `comments`
    are `{user, text}` records and `shares` is a number. */
module HeadPostRoutes {
  import opened Common
  import opened Text
  import opened AuthMiddleware
  import opened PostModel
  import opened UserModel

  const HEAD_AUTH_REQUIRED := "Authentication required"
  const POST_NOT_FOUND := "Post not found"
  const CONTENT_REQUIRED := "Post content is required"
  const COMMENT_TEXT_REQUIRED := "Comment text is required"
  const NOT_OWN_POST := "You can only delete your own posts"
  const CREATE_ERROR := "Error creating post"
  const PUBLIC_FEED_ERROR := "Error fetching public posts"
  const FEED_ERROR := "Error fetching feed"
  const FEED_LIMIT := 50

  /** `requireAuth`: the same decision as `isAuthenticated`, with a shorter
      message and no `authenticated` field. */
  function RequireAuth(s: Session?): (g: Gate)
    reads s
    ensures g.Next? <==> IsAuthenticated(s).Next?
    ensures g.Reject? ==> g == Reject(UNAUTHORIZED, HEAD_AUTH_REQUIRED, None)
  {
    if s == null || !Truthy(s.userId) then Reject(UNAUTHORIZED, HEAD_AUTH_REQUIRED, None)
    else Next
  }

  datatype HeadComment = HeadComment(user: UserId, text: string)
  datatype Location = Location(name: string)

  datatype HeadPost = HeadPost(
    id: PostId,
    author: UserId,
    content: string,
    image: Option<string>,
    feeling: Option<string>,
    activity: Option<string>,
    location: Option<Location>,
    likes: seq<UserId>,
    comments: seq<HeadComment>,
    shares: int,
    createdAt: int)

  // ---------------------------------------------------------------------
  // The like toggle, as a function on the likes list

  /** `likes.indexOf(u)`: the first position holding `u`, or -1. */
  function IndexOf(s: seq<UserId>, u: UserId): (i: int)
    ensures -1 <= i < |s|
    ensures i == -1 <==> u !in s
    ensures i >= 0 ==> s[i] == u && u !in s[..i]
  {
    if s == [] then -1
    else if s[0] == u then 0
    else
      var j := IndexOf(s[1..], u);
      assert s[1..][..if j < 0 then 0 else j] == s[1..if j < 0 then 1 else j + 1];
      if j == -1 then -1 else j + 1
  }

  /** The likes list after the toggle: the first `u` spliced out, or `u` pushed. */
  function Toggled(likes: seq<UserId>, u: UserId): (r: seq<UserId>)
    ensures forall v | v != u :: multiset(r)[v] == multiset(likes)[v]
    ensures u !in likes ==> |r| == |likes| + 1 && r[..|likes|] == likes
  {
    var i := IndexOf(likes, u);
    if i > -1 then
      assert likes == likes[..i] + [u] + likes[i + 1..];
      likes[..i] + likes[i + 1..]
    else likes + [u]
  }

  /** One entry leaves or one enters: the length moves by exactly one and
      the multiset of entries loses or gains exactly one `u`. */
  lemma ToggledChangesOne(likes: seq<UserId>, u: UserId)
    ensures u in likes ==> |Toggled(likes, u)| == |likes| - 1
    ensures u !in likes ==> |Toggled(likes, u)| == |likes| + 1
    ensures u in likes ==> multiset(Toggled(likes, u)) == multiset(likes) - multiset{u}
    ensures u !in likes ==> multiset(Toggled(likes, u)) == multiset(likes) + multiset{u}
  {
    var i := IndexOf(likes, u);
    if i > -1 {
      assert likes == likes[..i] + [u] + likes[i + 1..];
    }
  }

  /** Liking a post that was not liked puts the user in; unliking a post the
      user liked once takes the user out. */
  lemma ToggledMembership(likes: seq<UserId>, u: UserId)
    ensures u !in likes ==> u in Toggled(likes, u)
    ensures multiset(likes)[u] == 1 ==> u !in Toggled(likes, u)
  {
    ToggledChangesOne(likes, u);
    if multiset(likes)[u] == 1 {
      assert multiset(Toggled(likes, u))[u] == 0;
    }
  }

  /** Toggling twice gives back the same list when the user had not liked the post. */
  lemma ToggledTwiceRestores(likes: seq<UserId>, u: UserId)
    requires u !in likes
    ensures Toggled(Toggled(likes, u), u) == likes
  {
    var once := likes + [u];
    assert once[..|likes|] == likes;
  }

  /** When the user had liked the post once, toggling twice keeps the same
      entries, the user's like moving to the end. */
  lemma ToggledTwiceSameEntries(likes: seq<UserId>, u: UserId)
    requires multiset(likes)[u] == 1
    ensures multiset(Toggled(Toggled(likes, u), u)) == multiset(likes)
  {
    ToggledChangesOne(likes, u);
    ToggledMembership(likes, u);
    ToggledChangesOne(Toggled(likes, u), u);
  }

  /** The body of the like reply. */
  datatype LikeToggled = LikeToggled(message: string, likes: nat, liked: bool)

  // ---------------------------------------------------------------------
  // "time ago" of this side

  /** `getTimeAgo(date)`: the largest of year, month (30 days), day, hour and
      minute of which at least one whole one has elapsed, and its count. */
  function HeadGetTimeAgo(createdMs: int, nowMs: int): (r: TimeAgo)
    ensures var d := ElapsedSeconds(nowMs, createdMs);
      && (r == JustNow <==> d < 60)
      && (r.Ago? ==> r.unit in {Minute, Hour, Day, Month, Year} && r.count == d / UnitSeconds(r.unit) && r.count >= 1)
      && (r.Ago? && r.unit == Year <==> 31536000 <= d)
      && (r.Ago? && r.unit == Month <==> 2592000 <= d < 31536000)
      && (r.Ago? && r.unit == Day <==> 86400 <= d < 2592000)
      && (r.Ago? && r.unit == Hour <==> 3600 <= d < 86400)
      && (r.Ago? && r.unit == Minute <==> 60 <= d < 3600)
    ensures !r.OnDate?
    ensures r.Ago? && r.unit == Month ==> r.count <= 12
    ensures r.Ago? && r.unit == Day ==> r.count <= 29
    ensures r.Ago? && r.unit == Hour ==> r.count <= 23
    ensures r.Ago? && r.unit == Minute ==> r.count <= 59
  {
    var seconds := ElapsedSeconds(nowMs, createdMs);
    if seconds / 31536000 >= 1 then Ago(seconds / 31536000, Year)
    else if seconds / 2592000 >= 1 then Ago(seconds / 2592000, Month)
    else if seconds / 86400 >= 1 then Ago(seconds / 86400, Day)
    else if seconds / 3600 >= 1 then Ago(seconds / 3600, Hour)
    else if seconds / 60 >= 1 then Ago(seconds / 60, Minute)
    else JustNow
  }

  /** Under a week the two "time ago" helpers of the code base give the same answer. */
  lemma TimeAgoHelpersAgree(p: Post, nowMs: int)
    requires ElapsedSeconds(nowMs, p.createdAt) < 604800
    ensures HeadGetTimeAgo(p.createdAt, nowMs) == GetTimeAgo(p, nowMs)
  {
  }

  // ---------------------------------------------------------------------
  // Feeds

  /** One post of a feed as this side formats it. A field the reply does not
      carry, or carries as `undefined` (which JSON leaves out), is `None`: the
      public feed sends `feeling`, `activity` and `location` but no `liked`,
      the personal feed sends `liked` but not the other three. */
  datatype FeedItem = FeedItem(
    id: PostId, author: string, username: string, avatar: string, time: TimeAgo,
    content: string, image: Option<string>,
    feeling: Option<string>, activity: Option<string>, location: Option<Location>,
    likes: nat, comments: nat, shares: int, liked: Option<bool>)

  predicate AuthorsKnown(posts: seq<HeadPost>, users: map<UserId, User>)
  {
    forall i | 0 <= i < |posts| :: posts[i].author in users
  }

  /** `posts.map(...)` of the feeds: author name and username, the avatar
      initials read from the name, the relative time, the counts, and either
      the public feed's extra fields (`viewer` is `None`) or the personal
      feed's `liked` flag for the viewer. */
  function FormatFeed(posts: seq<HeadPost>, users: map<UserId, User>, viewer: Option<UserId>, nowMs: int): (items: seq<FeedItem>)
    requires AuthorsKnown(posts, users)
    ensures |items| == |posts|
    ensures forall i | 0 <= i < |posts| ::
      var p := posts[i];
      var a := users[p.author];
      && items[i].id == p.id && items[i].author == a.name && items[i].username == a.username
      && items[i].avatar == ToUpper(WordStarts(a.name, true))
      && items[i].time == HeadGetTimeAgo(p.createdAt, nowMs)
      && items[i].content == p.content && items[i].image == p.image
      && items[i].likes == |p.likes| && items[i].comments == |p.comments| && items[i].shares == p.shares
      && items[i].feeling == (if viewer.None? then p.feeling else None)
      && items[i].activity == (if viewer.None? then p.activity else None)
      && items[i].location == (if viewer.None? then p.location else None)
      && items[i].liked == (if viewer.Some? then Some(viewer.value in p.likes) else None)
  {
    if posts == [] then []
    else
      var p := posts[0];
      var a := users[p.author];
      InitialsAreWordStarts(a.name);
      var public := viewer.None?;
      [FeedItem(p.id, a.name, a.username, Initials(a.name), HeadGetTimeAgo(p.createdAt, nowMs),
                p.content, p.image,
                if public then p.feeling else None,
                if public then p.activity else None,
                if public then p.location else None,
                |p.likes|, |p.comments|, p.shares,
                if public then None else Some(viewer.value in p.likes))]
      + FormatFeed(posts[1..], users, viewer, nowMs)
  }

  function Take<T>(s: seq<T>, n: nat): (r: seq<T>)
    ensures |r| == if |s| < n then |s| else n
    ensures r <= s
  {
    if |s| < n then s else s[..n]
  }

  /** `GET /public`: the 50 newest posts (`newest` is the collection sorted by
      `createdAt` descending); a post whose author no longer exists makes the
      formatting throw, which is answered with 500. */
  function PublicFeed(newest: seq<HeadPost>, users: map<UserId, User>, nowMs: int): (r: Reply<seq<FeedItem>>)
    ensures r.Ok? <==> AuthorsKnown(Take(newest, FEED_LIMIT), users)
    ensures r.Fail? ==> r == Fail(SERVER_ERROR, PUBLIC_FEED_ERROR)
    ensures r.Ok? ==> r.status == OK && |r.body| == |Take(newest, FEED_LIMIT)| <= FEED_LIMIT
    ensures r.Ok? ==> r.body == FormatFeed(Take(newest, FEED_LIMIT), users, None, nowMs)
    ensures r.Ok? ==> forall i | 0 <= i < |r.body| ::
      r.body[i].liked.None? && r.body[i].id == newest[i].id && r.body[i].feeling == newest[i].feeling
      && r.body[i].activity == newest[i].activity && r.body[i].location == newest[i].location
  {
    var page := Take(newest, FEED_LIMIT);
    if AuthorsKnown(page, users) then Ok(OK, FormatFeed(page, users, None, nowMs))
    else Fail(SERVER_ERROR, PUBLIC_FEED_ERROR)
  }

  /** Posts written by someone `user` follows or by `user` themself, in the order of `newest`. */
  function ByFollowed(newest: seq<HeadPost>, user: UserId, following: seq<UserId>): (r: seq<HeadPost>)
    ensures forall i | 0 <= i < |r| :: r[i] in newest && (r[i].author in following || r[i].author == user)
    ensures forall p | p in newest && (p.author in following || p.author == user) :: p in r
  {
    if newest == [] then []
    else
      var p := newest[0];
      (if p.author in following || p.author == user then [p] else []) + ByFollowed(newest[1..], user, following)
  }

  /** Selecting from a list read in two parts is selecting from each part, so
      the feed keeps the order of `newest`. */
  lemma {:induction false} ByFollowedAppend(a: seq<HeadPost>, b: seq<HeadPost>, user: UserId, following: seq<UserId>)
    ensures ByFollowed(a + b, user, following) == ByFollowed(a, user, following) + ByFollowed(b, user, following)
  {
    if a == [] {
      assert a + b == b;
    } else {
      assert (a + b)[0] == a[0];
      assert (a + b)[1..] == a[1..] + b;
      ByFollowedAppend(a[1..], b, user, following);
    }
  }

  /** The posts `GET /feed` formats for `u`: the first 50 of the selection. */
  function FeedPage(newest: seq<HeadPost>, users: map<UserId, User>, u: UserId): seq<HeadPost>
    requires u in users
  {
    Take(ByFollowed(newest, u, users[u].following), FEED_LIMIT)
  }

  /** `GET /feed`: behind `requireAuth`; the 50 newest posts of the followed
      users and of the user, each marked liked when the user is in its likes.
      A session naming a deleted user makes `user.following` throw, and a post
      whose author is gone makes the formatting throw: both 500. */
  function PersonalFeed(session: Session?, newest: seq<HeadPost>, users: map<UserId, User>, nowMs: int): (r: Reply<seq<FeedItem>>)
    reads session
    ensures RequireAuth(session).Reject? ==> r == Fail(UNAUTHORIZED, HEAD_AUTH_REQUIRED)
    ensures r.Ok? <==>
      RequireAuth(session).Next? && session.userId.value in users
      && AuthorsKnown(FeedPage(newest, users, session.userId.value), users)
    ensures RequireAuth(session).Next? && r.Fail? ==> r == Fail(SERVER_ERROR, FEED_ERROR)
    ensures r.Ok? ==> var u := session.userId.value;
      && r.status == OK && |r.body| <= FEED_LIMIT
      && r.body == FormatFeed(FeedPage(newest, users, u), users, Some(u), nowMs)
      && forall i | 0 <= i < |r.body| :: r.body[i].liked == Some(u in FeedPage(newest, users, u)[i].likes)
  {
    var gate := RequireAuth(session);
    if gate.Reject? then Fail(gate.status, gate.message)
    else
      var u := session.userId.value;
      if u !in users then Fail(SERVER_ERROR, FEED_ERROR)
      else
        var page := FeedPage(newest, users, u);
        if AuthorsKnown(page, users) then Ok(OK, FormatFeed(page, users, Some(u), nowMs))
        else Fail(SERVER_ERROR, FEED_ERROR)
  }

  /** Every item of the personal feed is a post by someone the user follows, or by the user. */
  lemma PersonalFeedFromFollowed(session: Session?, newest: seq<HeadPost>, users: map<UserId, User>, nowMs: int, i: int)
    requires var r := PersonalFeed(session, newest, users, nowMs); r.Ok? && 0 <= i < |r.body|
    ensures var u := session.userId.value;
      var p := FeedPage(newest, users, u)[i];
      p in newest && p.id == PersonalFeed(session, newest, users, nowMs).body[i].id
      && (p.author in users[u].following || p.author == u)
  {
  }

  /** The post object the create reply carries. */
  datatype CreatedPost = CreatedPost(
    id: PostId, author: string, username: string, content: string,
    image: Option<string>, feeling: Option<string>, activity: Option<string>,
    location: Option<Location>, createdAt: int)

  /** `postData` of `POST /create`: trimmed content, the uploaded file's path,
      and each of feeling, activity and location only when given non-empty. */
  function NewHeadPost(id: PostId, author: UserId, content: string, upload: Option<string>,
                       feeling: Option<string>, activity: Option<string>, locationName: Option<string>,
                       now: int): (p: HeadPost)
    ensures p.content == Trim(content) && p.author == author && p.id == id
    ensures p.image.Some? <==> upload.Some?
    ensures upload.Some? ==> p.image.value == "/uploads/posts/" + upload.value
    ensures p.feeling.Some? <==> Truthy(feeling)
    ensures p.activity.Some? <==> Truthy(activity)
    ensures p.location.Some? <==> Truthy(locationName)
    ensures p.location.Some? ==> p.location.value.name == locationName.value
    ensures p.likes == [] && p.comments == [] && p.shares == 0
  {
    HeadPost(id, author, Trim(content),
             if upload.Some? then Some("/uploads/posts/" + upload.value) else None,
             if Truthy(feeling) then feeling else None,
             if Truthy(activity) then activity else None,
             if Truthy(locationName) then Some(Location(locationName.value)) else None,
             [], [], 0, now)
  }

  /** The posts collection as this side of the conflict uses it. */
  class HeadPostStore {
    var posts: map<PostId, HeadPost>

    constructor ()
      ensures posts == map[]
    {
      posts := map[];
    }

    /** `POST /:postId/like`: unlike when the user is in `likes` (one entry
        removed), like otherwise (one entry pushed). */
    method ToggleLike(session: Session?, postId: PostId) returns (r: Reply<LikeToggled>)
      modifies this
      ensures RequireAuth(session).Reject? ==> r == Fail(UNAUTHORIZED, HEAD_AUTH_REQUIRED) && posts == old(posts)
      ensures RequireAuth(session).Next? && postId !in old(posts) ==> r == Fail(NOT_FOUND, POST_NOT_FOUND) && posts == old(posts)
      ensures RequireAuth(session).Next? && postId in old(posts) ==>
        var u := session.userId.value;
        var p := old(posts)[postId];
        var was := u in p.likes;
        && posts == old(posts)[postId := p.(likes := Toggled(p.likes, u))]
        && r == Ok(OK, LikeToggled(if was then "Post unliked" else "Post liked", |Toggled(p.likes, u)|, !was))
    {
      var gate := RequireAuth(session);
      if gate.Reject? {
        return Fail(gate.status, gate.message);
      }
      var u := session.userId.value;
      if postId !in posts {
        return Fail(NOT_FOUND, POST_NOT_FOUND);
      }
      var post := posts[postId];
      var likes := post.likes;
      var likeIndex := IndexOf(likes, u);
      if likeIndex > -1 {
        likes := likes[..likeIndex] + likes[likeIndex + 1..];
      } else {
        likes := likes + [u];
      }
      posts := posts[postId := post.(likes := likes)];
      r := Ok(OK, LikeToggled(if likeIndex > -1 then "Post unliked" else "Post liked", |likes|, likeIndex == -1));
    }

    /** `POST /:postId/comment`: blank text is refused before the post is
        looked up; otherwise one `{user, text}` comment with the trimmed text
        is pushed and the reply carries the new number of comments. */
    method AddComment(session: Session?, postId: PostId, text: Option<string>) returns (r: Reply<nat>)
      modifies this
      ensures RequireAuth(session).Reject? ==> r == Fail(UNAUTHORIZED, HEAD_AUTH_REQUIRED) && posts == old(posts)
      ensures RequireAuth(session).Next? && MissingOrBlank(text) ==> r == Fail(BAD_REQUEST, COMMENT_TEXT_REQUIRED) && posts == old(posts)
      ensures RequireAuth(session).Next? && !MissingOrBlank(text) && postId !in old(posts) ==>
        r == Fail(NOT_FOUND, POST_NOT_FOUND) && posts == old(posts)
      ensures RequireAuth(session).Next? && !MissingOrBlank(text) && postId in old(posts) ==>
        var p := old(posts)[postId];
        var c := HeadComment(session.userId.value, Trim(text.value));
        && posts == old(posts)[postId := p.(comments := p.comments + [c])]
        && r == Ok(OK, |p.comments| + 1)
        && c.text != "" && c.text[0] != ' '
    {
      var gate := RequireAuth(session);
      if gate.Reject? {
        return Fail(gate.status, gate.message);
      }
      if MissingOrBlank(text) {
        return Fail(BAD_REQUEST, COMMENT_TEXT_REQUIRED);
      }
      if postId !in posts {
        return Fail(NOT_FOUND, POST_NOT_FOUND);
      }
      var post := posts[postId];
      var comments := post.comments + [HeadComment(session.userId.value, Trim(text.value))];
      posts := posts[postId := post.(comments := comments)];
      r := Ok(OK, |comments|);
    }

    /** `DELETE /:postId`: only the author may delete; the `$inc` on the
        author's `postsCount` names no schema path and changes nothing. */
    method Delete(session: Session?, postId: PostId) returns (r: Reply<string>)
      modifies this
      ensures RequireAuth(session).Reject? ==> r == Fail(UNAUTHORIZED, HEAD_AUTH_REQUIRED) && posts == old(posts)
      ensures RequireAuth(session).Next? && postId !in old(posts) ==> r == Fail(NOT_FOUND, POST_NOT_FOUND) && posts == old(posts)
      ensures RequireAuth(session).Next? && postId in old(posts) && old(posts)[postId].author != session.userId.value ==>
        r == Fail(FORBIDDEN, NOT_OWN_POST) && posts == old(posts)
      ensures RequireAuth(session).Next? && postId in old(posts) && old(posts)[postId].author == session.userId.value ==>
        r == Ok(OK, "Post deleted successfully") && posts == old(posts) - {postId}
    {
      var gate := RequireAuth(session);
      if gate.Reject? {
        return Fail(gate.status, gate.message);
      }
      if postId !in posts {
        return Fail(NOT_FOUND, POST_NOT_FOUND);
      }
      if posts[postId].author != session.userId.value {
        return Fail(FORBIDDEN, NOT_OWN_POST);
      }
      posts := posts - {postId};
      r := Ok(OK, "Post deleted successfully");
    }

    /** `POST /create`: blank content is refused; the post is saved under the
        fresh id `newId` (a taken id is a duplicate key: 500). Populating the
        author happens after the save, so a session naming a deleted user
        gets 500 with the post already stored. */
    method Create(session: Session?, users: map<UserId, User>, content: Option<string>,
                  upload: Option<string>, feeling: Option<string>, activity: Option<string>,
                  locationName: Option<string>, newId: PostId, now: int) returns (r: Reply<CreatedPost>)
      modifies this
      ensures RequireAuth(session).Reject? ==> r == Fail(UNAUTHORIZED, HEAD_AUTH_REQUIRED) && posts == old(posts)
      ensures RequireAuth(session).Next? && MissingOrBlank(content) ==> r == Fail(BAD_REQUEST, CONTENT_REQUIRED) && posts == old(posts)
      ensures RequireAuth(session).Next? && !MissingOrBlank(content) && newId in old(posts) ==>
        r == Fail(SERVER_ERROR, CREATE_ERROR) && posts == old(posts)
      ensures RequireAuth(session).Next? && !MissingOrBlank(content) && newId !in old(posts) ==>
        var u := session.userId.value;
        var p := NewHeadPost(newId, u, content.value, upload, feeling, activity, locationName, now);
        && posts == old(posts)[newId := p]
        && p.content != ""
        && (u !in users ==> r == Fail(SERVER_ERROR, CREATE_ERROR))
        && (u in users ==> r == Ok(CREATED, CreatedPost(newId, users[u].name, users[u].username, p.content,
                                                      p.image, p.feeling, p.activity, p.location, now)))
    {
      var gate := RequireAuth(session);
      if gate.Reject? {
        return Fail(gate.status, gate.message);
      }
      if MissingOrBlank(content) {
        return Fail(BAD_REQUEST, CONTENT_REQUIRED);
      }
      var u := session.userId.value;
      var post := NewHeadPost(newId, u, content.value, upload, feeling, activity, locationName, now);
      if newId in posts {
        return Fail(SERVER_ERROR, CREATE_ERROR);
      }
      posts := posts[newId := post];
      if u !in users {
        return Fail(SERVER_ERROR, CREATE_ERROR);
      }
      r := Ok(CREATED, CreatedPost(newId, users[u].name, users[u].username, post.content,
                                   post.image, post.feeling, post.activity, post.location, now));
    }
  }
}
