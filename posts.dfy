/** The other side of the merge conflict in backend/routes/posts.js: the
    paginated listings, and create, update, delete, like, unlike and comment
    behind `isAuthenticated`, all on the Post schema. */
module PostRoutes {
  import opened Common
  import opened Text
  import opened Lists
  import opened AuthMiddleware
  import opened PostModel
  import opened UserModel
  import opened Store

  const SERVER_ERROR_MESSAGE := "Server error"
  const POST_NOT_FOUND := "Post not found"
  const CONTENT_REQUIRED := "Post content is required"
  const COMMENT_REQUIRED := "Comment content is required"
  const NOT_AUTHOR_UPDATE := "Not authorized to update this post"
  const NOT_AUTHOR_DELETE := "Not authorized to delete this post"
  const ALREADY_LIKED := "Post already liked"
  const NOT_LIKED := "Post not liked yet"
  const DEFAULT_PAGE := 1
  const DEFAULT_LIMIT := 10

  // ---------------------------------------------------------------------
  // Pagination arithmetic

  /** `parseInt(q) || d`: `None` stands for a missing or non-numeric query
      value (NaN); NaN and 0 are falsy and give the default. */
  function PageParam(q: Option<int>, d: int): (v: int)
    ensures v != 0 || d == 0
    ensures q.Some? && q.value != 0 ==> v == q.value
  {
    if q.Some? && q.value != 0 then q.value else d
  }

  /** `(page - 1) * limit`. */
  function Skip(page: int, limit: int): int
  {
    (page - 1) * limit
  }

  /** `Math.ceil(total / limit)` for a non-zero limit. */
  function PageCount(total: nat, limit: int): int
    requires limit != 0
  {
    var t: int := total;
    if limit > 0 then -((-t) / limit) else -(t / (-limit))
  }

  /** For a positive limit, the page count is the least number of pages of
      `limit` items that hold `total` items. */
  lemma PageCountBounds(total: nat, limit: int)
    requires limit > 0
    ensures PageCount(total, limit) >= 0
    ensures total == 0 ==> PageCount(total, limit) == 0
    ensures total > 0 ==> (PageCount(total, limit) - 1) * limit < total <= PageCount(total, limit) * limit
  {
    var t: int := total;
    var q := (-t) / limit;
    var rem := (-t) % limit;
    assert -t == q * limit + rem && 0 <= rem < limit;
    var pages := -q;
    assert pages * limit == total + rem;
    assert (pages - 1) * limit == total + rem - limit;
  }

  function Min(a: int, b: int): int
  {
    if a < b then a else b
  }

  /** `.skip(skip).limit(limit)` on the sorted query result; MongoDB treats a
      negative limit as its absolute value. */
  function PageSlice<T>(items: seq<T>, skip: nat, limit: int): (r: seq<T>)
    ensures |r| <= if limit < 0 then -limit else limit
    ensures skip + |r| <= |items| || r == []
    ensures skip < |items| ==> |r| == Min(if limit < 0 then -limit else limit, |items| - skip)
    ensures forall i | 0 <= i < |r| :: skip + i < |items| && r[i] == items[skip + i]
    ensures forall x | x in r :: x in items
  {
    var lo := Min(skip, |items|);
    var hi := Min(skip + (if limit < 0 then -limit else limit), |items|);
    items[lo..hi]
  }

  /** Pages 1 to `n` read one after the other. */
  function Pages<T>(items: seq<T>, limit: int, n: nat): seq<T>
    requires limit > 0
  {
    if n == 0 then [] else Pages(items, limit, n - 1) + PageSlice(items, Skip(n, limit), limit)
  }

  lemma {:induction false} PagesArePrefix<T>(items: seq<T>, limit: int, n: nat)
    requires limit > 0
    ensures Pages(items, limit, n) == items[..Min(n * limit, |items|)]
  {
    if n > 0 {
      PagesArePrefix(items, limit, n - 1);
      assert Skip(n, limit) == (n - 1) * limit;
      assert (n - 1) * limit + limit == n * limit;
      var a := Min((n - 1) * limit, |items|);
      var b := Min(n * limit, |items|);
      assert items[..a] + items[a..b] == items[..b];
    }
  }

  /** Reading the pages 1 to `pages` in turn returns every item exactly once, in order. */
  lemma PagesCoverAll<T>(items: seq<T>, limit: int)
    requires limit > 0
    ensures PageCount(|items|, limit) >= 0
    ensures Pages(items, limit, PageCount(|items|, limit)) == items
  {
    PageCountBounds(|items|, limit);
    PagesArePrefix(items, limit, PageCount(|items|, limit));
  }

  // ---------------------------------------------------------------------
  // Listings

  datatype AuthorView = AuthorView(id: UserId, name: string, username: string, avatar: string)

  /** The post object the routes send back. */
  datatype PostView = PostView(
    id: PostId, author: AuthorView, content: string, images: seq<Image>,
    likes: nat, comments: nat, shares: nat, liked: bool,
    timestamp: TimeAgo, createdAt: int)

  datatype Pagination = Pagination(page: int, limit: int, total: nat, pages: int)
  datatype Listing = Listing(posts: seq<PostView>, pagination: Pagination)

  function AuthorOf(u: User): AuthorView
  {
    AuthorView(u.id, u.name, u.username, u.avatar)
  }

  /** The reply object for one post, with its author populated. */
  function ViewOfPost(p: Post, author: User, liked: bool, nowMs: int): (v: PostView)
    ensures v.id == p.id && v.content == p.content && v.images == p.images && v.liked == liked
    ensures v.likes == LikesCount(p) && v.comments == CommentsCount(p) && v.shares == SharesCount(p)
    ensures v.author.id == author.id && v.author.name == author.name
    ensures v.author.username == author.username && v.author.avatar == author.avatar
    ensures v.timestamp == GetTimeAgo(p, nowMs) && v.createdAt == p.createdAt
  {
    PostView(p.id, AuthorOf(author), p.content, p.images, LikesCount(p), CommentsCount(p), SharesCount(p),
             liked, GetTimeAgo(p, nowMs), p.createdAt)
  }

  predicate AuthorsKnown(posts: seq<Post>, users: map<UserId, User>)
  {
    forall i | 0 <= i < |posts| :: posts[i].author in users
  }

  /** `liked` of a listed post: the fixed value `true` on the likes listing,
      otherwise whether the session user (if any) is among its likes. */
  function LikedFlag(p: Post, viewer: Option<UserId>, likedAll: bool): bool
  {
    if likedAll then true else viewer.Some? && IsLikedBy(p, viewer.value)
  }

  /** One page of a listing. `matching` is the query result in the order of
      `.sort({ createdAt: -1 })`. A negative skip makes MongoDB refuse the
      query and a missing author makes `post.author._id` throw: both 500. */
  function ListPage(matching: seq<Post>, users: map<UserId, User>, pageQ: Option<int>, limitQ: Option<int>,
                    viewer: Option<UserId>, likedAll: bool, nowMs: int): (r: Reply<Listing>)
    ensures var page := PageParam(pageQ, DEFAULT_PAGE);
      var limit := PageParam(limitQ, DEFAULT_LIMIT);
      var skip := Skip(page, limit);
      && (r.Ok? <==> skip >= 0 && AuthorsKnown(PageSlice(matching, skip, limit), users))
      && (r.Ok? ==>
        && r.status == OK
        && r.body.pagination == Pagination(page, limit, |matching|, PageCount(|matching|, limit))
        && var slice := PageSlice(matching, skip, limit);
           && |r.body.posts| == |slice|
           && forall i | 0 <= i < |slice| ::
                && slice[i] == matching[skip + i]
                && r.body.posts[i] == ViewOfPost(slice[i], users[slice[i].author], LikedFlag(slice[i], viewer, likedAll), nowMs))
    ensures r.Fail? ==> r == Fail(SERVER_ERROR, SERVER_ERROR_MESSAGE)
  {
    var page := PageParam(pageQ, DEFAULT_PAGE);
    var limit := PageParam(limitQ, DEFAULT_LIMIT);
    var skip := Skip(page, limit);
    if skip < 0 then Fail(SERVER_ERROR, SERVER_ERROR_MESSAGE)
    else
      var slice := PageSlice(matching, skip, limit);
      if !AuthorsKnown(slice, users) then Fail(SERVER_ERROR, SERVER_ERROR_MESSAGE)
      else
        var views := seq(|slice|, i requires 0 <= i < |slice| =>
          ViewOfPost(slice[i], users[slice[i].author], LikedFlag(slice[i], viewer, likedAll), nowMs));
        Ok(OK, Listing(views, Pagination(page, limit, |matching|, PageCount(|matching|, limit))))
  }

  /** The posts of `newest` the query filter keeps, in the same order. */
  function Where(newest: seq<Post>, keep: Post -> bool): (r: seq<Post>)
    ensures forall p | p in r :: p in newest && keep(p)
    ensures forall p | p in newest && keep(p) :: p in r
  {
    if newest == [] then []
    else (if keep(newest[0]) then [newest[0]] else []) + Where(newest[1..], keep)
  }

  /** Filtering a list read in two parts is filtering each part, so the
      query keeps the posts in the order of `newest`. */
  lemma {:induction false} WhereAppend(a: seq<Post>, b: seq<Post>, keep: Post -> bool)
    ensures Where(a + b, keep) == Where(a, keep) + Where(b, keep)
  {
    if a == [] {
      assert a + b == b;
    } else {
      assert (a + b)[0] == a[0];
      assert (a + b)[1..] == a[1..] + b;
      WhereAppend(a[1..], b, keep);
    }
  }

  /** A listed post, found in the query's input with what the filter asks of it. */
  predicate ListedFrom(v: PostView, newest: seq<Post>, keep: Post -> bool)
  {
    exists p | p in newest :: p.id == v.id && keep(p)
  }

  /** Every post a successful page lists comes from `newest` and passes `keep`. */
  lemma ListPageFromWhere(newest: seq<Post>, keep: Post -> bool, r: Reply<Listing>, users: map<UserId, User>,
                          pageQ: Option<int>, limitQ: Option<int>, viewer: Option<UserId>, likedAll: bool, nowMs: int)
    requires r == ListPage(Where(newest, keep), users, pageQ, limitQ, viewer, likedAll, nowMs)
    ensures r.Ok? ==> forall i | 0 <= i < |r.body.posts| :: ListedFrom(r.body.posts[i], newest, keep)
  {
    var matching := Where(newest, keep);
    if r.Ok? {
      var limit := PageParam(limitQ, DEFAULT_LIMIT);
      var slice := PageSlice(matching, Skip(PageParam(pageQ, DEFAULT_PAGE), limit), limit);
      forall i | 0 <= i < |r.body.posts| ensures ListedFrom(r.body.posts[i], newest, keep) {
        assert slice[i] in matching;
        assert slice[i] in newest && keep(slice[i]);
      }
    }
  }

  /** The query filters of the three listings. */
  function PublicPosts(): Post -> bool
  {
    (p: Post) => p.visibility == Public
  }

  function PublicPostsBy(author: UserId): Post -> bool
  {
    (p: Post) => p.author == author && p.visibility == Public
  }

  function PublicPostsLikedBy(liker: UserId): Post -> bool
  {
    (p: Post) => liker in p.likes && p.visibility == Public
  }

  /** `GET /`: public posts. Every post listed is a public post of `newest`. */
  function ListPublic(newest: seq<Post>, users: map<UserId, User>, pageQ: Option<int>, limitQ: Option<int>,
                      viewer: Option<UserId>, nowMs: int): (r: Reply<Listing>)
    ensures r.Ok? ==> forall i | 0 <= i < |r.body.posts| :: ListedFrom(r.body.posts[i], newest, PublicPosts())
  {
    var r := ListPage(Where(newest, PublicPosts()), users, pageQ, limitQ, viewer, false, nowMs);
    ListPageFromWhere(newest, PublicPosts(), r, users, pageQ, limitQ, viewer, false, nowMs);
    r
  }

  /** `GET /user/:userId`: the public posts one user wrote. Every post listed
      is a public post of `newest` by that author. */
  function ListByAuthor(newest: seq<Post>, users: map<UserId, User>, author: UserId, pageQ: Option<int>,
                        limitQ: Option<int>, viewer: Option<UserId>, nowMs: int): (r: Reply<Listing>)
    ensures r.Ok? ==> forall i | 0 <= i < |r.body.posts| :: ListedFrom(r.body.posts[i], newest, PublicPostsBy(author))
  {
    var r := ListPage(Where(newest, PublicPostsBy(author)), users, pageQ, limitQ, viewer, false, nowMs);
    ListPageFromWhere(newest, PublicPostsBy(author), r, users, pageQ, limitQ, viewer, false, nowMs);
    r
  }

  /** `GET /user/:userId/likes`: the public posts one user liked. */
  function ListLikedBy(newest: seq<Post>, users: map<UserId, User>, liker: UserId, pageQ: Option<int>,
                       limitQ: Option<int>, nowMs: int): (r: Reply<Listing>)
    ensures r.Ok? ==> forall i | 0 <= i < |r.body.posts| :: r.body.posts[i].liked
  {
    ListPage(Where(newest, PublicPostsLikedBy(liker)), users, pageQ, limitQ, None, true, nowMs)
  }

  /** Nobody logged in: no listed post is marked liked. */
  lemma AnonymousListingsUnliked(newest: seq<Post>, users: map<UserId, User>, author: UserId,
                                 pageQ: Option<int>, limitQ: Option<int>, nowMs: int)
    ensures var r := ListPublic(newest, users, pageQ, limitQ, None, nowMs);
      r.Ok? ==> forall i | 0 <= i < |r.body.posts| :: !r.body.posts[i].liked
    ensures var r := ListByAuthor(newest, users, author, pageQ, limitQ, None, nowMs);
      r.Ok? ==> forall i | 0 <= i < |r.body.posts| :: !r.body.posts[i].liked
  {
  }

  /** `v` lists a public post of `newest` whose likes hold `liker`. */
  predicate LikedPublicPost(v: PostView, newest: seq<Post>, liker: UserId)
  {
    exists p | p in newest :: p.id == v.id && p.visibility == Public && IsLikedBy(p, liker)
  }

  /** The fixed `liked: true` of the likes listing is true: each listed post
      is a public post whose likes hold the user. */
  lemma LikedListingTruthful(newest: seq<Post>, users: map<UserId, User>, liker: UserId,
                             pageQ: Option<int>, limitQ: Option<int>, nowMs: int)
    ensures var r := ListLikedBy(newest, users, liker, pageQ, limitQ, nowMs);
      r.Ok? ==> forall i | 0 <= i < |r.body.posts| :: LikedPublicPost(r.body.posts[i], newest, liker)
  {
    var keep := PublicPostsLikedBy(liker);
    var r := ListLikedBy(newest, users, liker, pageQ, limitQ, nowMs);
    ListPageFromWhere(newest, keep, r, users, pageQ, limitQ, None, true, nowMs);
    if r.Ok? {
      forall i | 0 <= i < |r.body.posts| ensures LikedPublicPost(r.body.posts[i], newest, liker) {
        assert ListedFrom(r.body.posts[i], newest, keep);
        var p :| p in newest && p.id == r.body.posts[i].id && keep(p);
        IsLikedByMeansMember(p, liker);
      }
    }
  }

  // ---------------------------------------------------------------------
  // Writes

  /** Every stored post passes the schema's validators: what `save()` enforces. */
  ghost predicate ValidPosts(posts: map<PostId, Post>)
  {
    forall k | k in posts :: PostModel.SchemaValid(posts[k])
  }

  lemma InsertKeepsValid(posts: map<PostId, Post>, id: PostId, p: Post)
    requires ValidPosts(posts) && PostModel.SchemaValid(p)
    ensures ValidPosts(posts[id := p])
  {
  }

  /** `$push: { posts: id }` on the author's document, a no-op when it is gone. */
  function PushPost(users: map<UserId, User>, u: UserId, id: PostId): (r: map<UserId, User>)
    ensures r.Keys == users.Keys
    ensures u in users ==> r[u] == users[u].(posts := users[u].posts + [id])
    ensures forall k | k in users && k != u :: r[k] == users[k]
  {
    if u in users then users[u := users[u].(posts := users[u].posts + [id])] else users
  }

  /** `$pull: { posts: id }` on the author's document: every occurrence goes. */
  function PullPost(users: map<UserId, User>, u: UserId, id: PostId): (r: map<UserId, User>)
    ensures r.Keys == users.Keys
    ensures u in users ==> id !in r[u].posts
    ensures u in users ==> r[u] == users[u].(posts := Without(users[u].posts, id))
    ensures u in users ==> forall q | q != id :: q in r[u].posts <==> q in users[u].posts
    ensures forall k | k in users && k != u :: r[k] == users[k]
  {
    WithoutMembers(if u in users then users[u].posts else [], id);
    if u in users then users[u := users[u].(posts := Without(users[u].posts, id))] else users
  }

  /** Deleting a post just created gives the author's document back. */
  lemma PullUndoesPush(users: map<UserId, User>, u: UserId, id: PostId)
    requires u in users ==> id !in users[u].posts
    ensures PullPost(PushPost(users, u, id), u, id) == users
  {
    if u in users {
      WithoutAppended(users[u].posts, id);
      assert PullPost(PushPost(users, u, id), u, id)[u] == users[u];
    }
  }

  /** `images || []`: any array given, even an empty one, is kept. */
  function ImagesOr(images: Option<seq<Image>>): seq<Image>
  {
    if images.Some? then images.value else []
  }

  /** `visibility || 'public'`, through the schema's enum check. */
  function VisibilityOr(visibility: Option<string>): (v: Option<Visibility>)
    ensures !Truthy(visibility) ==> v == Some(Public)
    ensures Truthy(visibility) ==> v == ParseVisibility(visibility.value)
  {
    ParseVisibility(if Truthy(visibility) then visibility.value else "public")
  }

  /** `POST /`: content is checked for blankness but stored as given. */
  method CreatePost(db: Db, session: Session?, content: Option<string>, images: Option<seq<Image>>,
                    visibility: Option<string>, newId: PostId, now: int) returns (r: Reply<PostView>)
    requires ValidPosts(db.posts)
    modifies db
    ensures ValidPosts(db.posts)
    ensures SessionUser(session).None? ==> r == Fail(UNAUTHORIZED, AUTH_REQUIRED) && db.posts == old(db.posts) && db.users == old(db.users)
    ensures SessionUser(session).Some? && MissingOrBlank(content) ==>
      r == Fail(BAD_REQUEST, CONTENT_REQUIRED) && db.posts == old(db.posts) && db.users == old(db.users)
    ensures SessionUser(session).Some? && !MissingOrBlank(content) ==>
      var u := SessionUser(session).value;
      var vis := VisibilityOr(visibility);
      if vis.None? || newId in old(db.posts) || Utf16Length(content.value) > MAX_CONTENT_LENGTH then
        r == Fail(SERVER_ERROR, SERVER_ERROR_MESSAGE) && db.posts == old(db.posts) && db.users == old(db.users)
      else
        var p := Post(newId, u, content.value, ImagesOr(images), [], [], [], vis.value, now);
        && db.posts == old(db.posts)[newId := p]
        && db.users == PushPost(old(db.users), u, newId)
        && (u !in old(db.users) ==> r == Fail(SERVER_ERROR, SERVER_ERROR_MESSAGE))
        && (u in old(db.users) ==> r == Ok(CREATED, PostView(newId, AuthorOf(old(db.users)[u]), content.value,
                                                            ImagesOr(images), 0, 0, 0, false, JustNow, now)))
  {
    var gate := IsAuthenticated(session);
    if gate.Reject? {
      return Fail(gate.status, gate.message);
    }
    var u := session.userId.value;
    if MissingOrBlank(content) {
      return Fail(BAD_REQUEST, CONTENT_REQUIRED);
    }
    var vis := VisibilityOr(visibility);
    // save(): the enum and maxlength validators, then the unique _id
    if vis.None? || Utf16Length(content.value) > MAX_CONTENT_LENGTH || newId in db.posts {
      return Fail(SERVER_ERROR, SERVER_ERROR_MESSAGE);
    }
    var post := Post(newId, u, content.value, ImagesOr(images), [], [], [], vis.value, now);
    InsertKeepsValid(db.posts, newId, post);
    db.posts := db.posts[newId := post];
    db.users := PushPost(db.users, u, newId);
    // populate('author'): a deleted author leaves `post.author` null
    if u !in db.users {
      return Fail(SERVER_ERROR, SERVER_ERROR_MESSAGE);
    }
    r := Ok(CREATED, PostView(newId, AuthorOf(db.users[u]), content.value, ImagesOr(images), 0, 0, 0, false,
                              GetTimeAgo(post, now), now));
  }

  /** The post after `PUT /:postId` sets the given fields; `None` when the
      new visibility fails the enum check. Nothing else changes. */
  function Updated(p: Post, content: Option<string>, images: Option<seq<Image>>, visibility: Option<string>): (q: Option<Post>)
    ensures q.Some? <==> !Truthy(visibility) || ParseVisibility(visibility.value).Some?
    ensures q.Some? ==>
      && q.value.content == (if Truthy(content) then content.value else p.content)
      && q.value.images == (if images.Some? then images.value else p.images)
      && (Truthy(visibility) ==> Some(q.value.visibility) == ParseVisibility(visibility.value))
      && (!Truthy(visibility) ==> q.value.visibility == p.visibility)
      && q.value.(content := p.content, images := p.images, visibility := p.visibility) == p
  {
    var p1 := if Truthy(content) then p.(content := content.value) else p;
    var p2 := if images.Some? then p1.(images := images.value) else p1;
    if !Truthy(visibility) then Some(p2)
    else
      var v := ParseVisibility(visibility.value);
      if v.None? then None else Some(p2.(visibility := v.value))
  }

  /** `PUT /:postId`: only the author may update; `content` and `visibility`
      apply when truthy, `images` whenever given. */
  method UpdatePost(db: Db, session: Session?, postId: PostId, content: Option<string>,
                    images: Option<seq<Image>>, visibility: Option<string>, nowMs: int) returns (r: Reply<PostView>)
    requires ValidPosts(db.posts)
    modifies db
    ensures ValidPosts(db.posts)
    ensures db.users == old(db.users)
    ensures SessionUser(session).None? ==> r == Fail(UNAUTHORIZED, AUTH_REQUIRED) && db.posts == old(db.posts)
    ensures SessionUser(session).Some? && postId !in old(db.posts) ==> r == Fail(NOT_FOUND, POST_NOT_FOUND) && db.posts == old(db.posts)
    ensures SessionUser(session).Some? && postId in old(db.posts) && old(db.posts)[postId].author != SessionUser(session).value ==>
      r == Fail(FORBIDDEN, NOT_AUTHOR_UPDATE) && db.posts == old(db.posts)
    ensures SessionUser(session).Some? && postId in old(db.posts) && old(db.posts)[postId].author == SessionUser(session).value ==>
      var u := SessionUser(session).value;
      var q := Updated(old(db.posts)[postId], content, images, visibility);
      if q.None? || !PostModel.SchemaValid(q.value) then
        r == Fail(SERVER_ERROR, SERVER_ERROR_MESSAGE) && db.posts == old(db.posts)
      else
        && db.posts == old(db.posts)[postId := q.value]
        && (u !in db.users ==> r == Fail(SERVER_ERROR, SERVER_ERROR_MESSAGE))
        && (u in db.users ==> r == Ok(OK, ViewOfPost(q.value, db.users[u], IsLikedBy(q.value, u), nowMs)))
  {
    var gate := IsAuthenticated(session);
    if gate.Reject? {
      return Fail(gate.status, gate.message);
    }
    var u := session.userId.value;
    if postId !in db.posts {
      return Fail(NOT_FOUND, POST_NOT_FOUND);
    }
    var post := db.posts[postId];
    if post.author != u {
      return Fail(FORBIDDEN, NOT_AUTHOR_UPDATE);
    }
    var q := Updated(post, content, images, visibility);
    if q.None? || !PostModel.SchemaValid(q.value) {
      return Fail(SERVER_ERROR, SERVER_ERROR_MESSAGE);
    }
    db.posts := db.posts[postId := q.value];
    if u !in db.users {
      return Fail(SERVER_ERROR, SERVER_ERROR_MESSAGE);
    }
    r := Ok(OK, ViewOfPost(q.value, db.users[u], IsLikedBy(q.value, u), nowMs));
  }

  /** `DELETE /:postId`: only the author may delete; the id is pulled from
      the author's `posts`. */
  method DeletePost(db: Db, session: Session?, postId: PostId) returns (r: Reply<string>)
    requires ValidPosts(db.posts)
    modifies db
    ensures ValidPosts(db.posts)
    ensures SessionUser(session).None? ==> r == Fail(UNAUTHORIZED, AUTH_REQUIRED) && db.posts == old(db.posts) && db.users == old(db.users)
    ensures SessionUser(session).Some? && postId !in old(db.posts) ==>
      r == Fail(NOT_FOUND, POST_NOT_FOUND) && db.posts == old(db.posts) && db.users == old(db.users)
    ensures SessionUser(session).Some? && postId in old(db.posts) && old(db.posts)[postId].author != SessionUser(session).value ==>
      r == Fail(FORBIDDEN, NOT_AUTHOR_DELETE) && db.posts == old(db.posts) && db.users == old(db.users)
    ensures SessionUser(session).Some? && postId in old(db.posts) && old(db.posts)[postId].author == SessionUser(session).value ==>
      && r == Ok(OK, "Post deleted successfully")
      && db.posts == old(db.posts) - {postId}
      && db.users == PullPost(old(db.users), SessionUser(session).value, postId)
  {
    var gate := IsAuthenticated(session);
    if gate.Reject? {
      return Fail(gate.status, gate.message);
    }
    var u := session.userId.value;
    if postId !in db.posts {
      return Fail(NOT_FOUND, POST_NOT_FOUND);
    }
    if db.posts[postId].author != u {
      return Fail(FORBIDDEN, NOT_AUTHOR_DELETE);
    }
    db.posts := db.posts - {postId};
    db.users := PullPost(db.users, u, postId);
    r := Ok(OK, "Post deleted successfully");
  }

  function Liked(p: Post, u: UserId): Post
  {
    p.(likes := p.likes + [u])
  }

  function Unliked(p: Post, u: UserId): Post
  {
    p.(likes := Without(p.likes, u))
  }

  /** A like adds the user once; an unlike removes every like of the user
      and no other entry; an unlike undoes a like. */
  lemma LikeUnlikeFacts(p: Post, u: UserId)
    ensures IsLikedBy(Liked(p, u), u) && LikesCount(Liked(p, u)) == LikesCount(p) + 1
    ensures !IsLikedBy(Unliked(p, u), u)
    ensures forall v | v != u :: IsLikedBy(Unliked(p, u), v) <==> IsLikedBy(p, v)
    ensures IsLikedBy(p, u) ==> LikesCount(Unliked(p, u)) < LikesCount(p)
    ensures !IsLikedBy(p, u) ==> Unliked(Liked(p, u), u) == p
  {
    IsLikedByMeansMember(Liked(p, u), u);
    IsLikedByMeansMember(Unliked(p, u), u);
    IsLikedByMeansMember(p, u);
    WithoutMembers(p.likes, u);
    forall v | v != u ensures IsLikedBy(Unliked(p, u), v) <==> IsLikedBy(p, v) {
      IsLikedByMeansMember(Unliked(p, u), v);
      IsLikedByMeansMember(p, v);
    }
    if IsLikedBy(p, u) {
      assert multiset(p.likes)[u] > 0;
    } else {
      WithoutAppended(p.likes, u);
    }
  }

  lemma LikesKeepValid(p: Post, u: UserId)
    requires PostModel.SchemaValid(p)
    ensures PostModel.SchemaValid(Liked(p, u)) && PostModel.SchemaValid(Unliked(p, u))
  {
  }

  /** `POST /:postId/like`: refused when the user already likes the post. */
  method LikePost(db: Db, session: Session?, postId: PostId) returns (r: Reply<nat>)
    requires ValidPosts(db.posts)
    modifies db
    ensures ValidPosts(db.posts)
    ensures db.users == old(db.users)
    ensures SessionUser(session).None? ==> r == Fail(UNAUTHORIZED, AUTH_REQUIRED) && db.posts == old(db.posts)
    ensures SessionUser(session).Some? && postId !in old(db.posts) ==> r == Fail(NOT_FOUND, POST_NOT_FOUND) && db.posts == old(db.posts)
    ensures SessionUser(session).Some? && postId in old(db.posts) ==>
      var u := SessionUser(session).value;
      var p := old(db.posts)[postId];
      if IsLikedBy(p, u) then r == Fail(BAD_REQUEST, ALREADY_LIKED) && db.posts == old(db.posts)
      else db.posts == old(db.posts)[postId := Liked(p, u)] && r == Ok(OK, LikesCount(p) + 1)
  {
    var gate := IsAuthenticated(session);
    if gate.Reject? {
      return Fail(gate.status, gate.message);
    }
    var u := session.userId.value;
    if postId !in db.posts {
      return Fail(NOT_FOUND, POST_NOT_FOUND);
    }
    var post := db.posts[postId];
    if IsLikedBy(post, u) {
      return Fail(BAD_REQUEST, ALREADY_LIKED);
    }
    LikesKeepValid(post, u);
    db.posts := db.posts[postId := Liked(post, u)];
    r := Ok(OK, LikesCount(Liked(post, u)));
  }

  /** `DELETE /:postId/like`: refused when the user does not like the post. */
  method UnlikePost(db: Db, session: Session?, postId: PostId) returns (r: Reply<nat>)
    requires ValidPosts(db.posts)
    modifies db
    ensures ValidPosts(db.posts)
    ensures db.users == old(db.users)
    ensures SessionUser(session).None? ==> r == Fail(UNAUTHORIZED, AUTH_REQUIRED) && db.posts == old(db.posts)
    ensures SessionUser(session).Some? && postId !in old(db.posts) ==> r == Fail(NOT_FOUND, POST_NOT_FOUND) && db.posts == old(db.posts)
    ensures SessionUser(session).Some? && postId in old(db.posts) ==>
      var u := SessionUser(session).value;
      var p := old(db.posts)[postId];
      if !IsLikedBy(p, u) then r == Fail(BAD_REQUEST, NOT_LIKED) && db.posts == old(db.posts)
      else db.posts == old(db.posts)[postId := Unliked(p, u)] && r == Ok(OK, LikesCount(Unliked(p, u)))
  {
    var gate := IsAuthenticated(session);
    if gate.Reject? {
      return Fail(gate.status, gate.message);
    }
    var u := session.userId.value;
    if postId !in db.posts {
      return Fail(NOT_FOUND, POST_NOT_FOUND);
    }
    var post := db.posts[postId];
    if !IsLikedBy(post, u) {
      return Fail(BAD_REQUEST, NOT_LIKED);
    }
    LikesKeepValid(post, u);
    db.posts := db.posts[postId := Unliked(post, u)];
    r := Ok(OK, LikesCount(Unliked(post, u)));
  }

  /** A comment the validators accept keeps the post valid. */
  lemma CommentKeepsValid(p: Post, c: Comment)
    requires PostModel.SchemaValid(p) && 0 < Utf16Length(c.content) <= MAX_COMMENT_LENGTH
    ensures PostModel.SchemaValid(p.(comments := p.comments + [c]))
  {
    var q := p.(comments := p.comments + [c]);
    assert forall i | 0 <= i < |p.comments| :: q.comments[i] == p.comments[i];
  }

  datatype CommentAdded = CommentAdded(comment: Comment, commentsCount: nat)

  /** `POST /:postId/comment`: blank content is refused before the lookup;
      the content is stored untrimmed, and one over 1000 UTF-16 code units fails
      validation on save. */
  method AddComment(db: Db, session: Session?, postId: PostId, content: Option<string>, now: int)
    returns (r: Reply<CommentAdded>)
    requires ValidPosts(db.posts)
    modifies db
    ensures ValidPosts(db.posts)
    ensures db.users == old(db.users)
    ensures SessionUser(session).None? ==> r == Fail(UNAUTHORIZED, AUTH_REQUIRED) && db.posts == old(db.posts)
    ensures SessionUser(session).Some? && MissingOrBlank(content) ==> r == Fail(BAD_REQUEST, COMMENT_REQUIRED) && db.posts == old(db.posts)
    ensures SessionUser(session).Some? && !MissingOrBlank(content) && postId !in old(db.posts) ==>
      r == Fail(NOT_FOUND, POST_NOT_FOUND) && db.posts == old(db.posts)
    ensures SessionUser(session).Some? && !MissingOrBlank(content) && postId in old(db.posts) ==>
      var p := old(db.posts)[postId];
      var c := Comment(SessionUser(session).value, content.value, now);
      if Utf16Length(content.value) > MAX_COMMENT_LENGTH then
        r == Fail(SERVER_ERROR, SERVER_ERROR_MESSAGE) && db.posts == old(db.posts)
      else
        db.posts == old(db.posts)[postId := p.(comments := p.comments + [c])]
        && r == Ok(CREATED, CommentAdded(c, CommentsCount(p) + 1))
  {
    var gate := IsAuthenticated(session);
    if gate.Reject? {
      return Fail(gate.status, gate.message);
    }
    var u := session.userId.value;
    if MissingOrBlank(content) {
      return Fail(BAD_REQUEST, COMMENT_REQUIRED);
    }
    if postId !in db.posts {
      return Fail(NOT_FOUND, POST_NOT_FOUND);
    }
    var post := db.posts[postId];
    var c := Comment(u, content.value, now);
    if Utf16Length(content.value) > MAX_COMMENT_LENGTH {
      return Fail(SERVER_ERROR, SERVER_ERROR_MESSAGE);
    }
    assert 0 < |Trim(content.value)| <= |content.value|;
    var updated := post.(comments := post.comments + [c]);
    CommentKeepsValid(post, c);
    InsertKeepsValid(db.posts, postId, updated);
    db.posts := db.posts[postId := updated];
    r := Ok(CREATED, CommentAdded(c, |updated.comments|));
  }
}
