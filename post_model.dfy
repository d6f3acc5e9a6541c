/** The Post document (backend/models/Post.js): its fields and schema
    constraints, the derived counts, `isLikedBy` and `getTimeAgo`. */
module PostModel {
  import opened Common

  const MAX_CONTENT_LENGTH := 5000
  const MAX_COMMENT_LENGTH := 1000

  datatype Visibility = Public | Friends | Private

  /** The schema's enum check on `visibility`. */
  function ParseVisibility(s: string): (v: Option<Visibility>)
    ensures v.Some? <==> s == "public" || s == "friends" || s == "private"
    ensures v == Some(Public) <==> s == "public"
  {
    if s == "public" then Some(Public)
    else if s == "friends" then Some(Friends)
    else if s == "private" then Some(Private)
    else None
  }

  datatype Image = Image(url: string, alt: string)
  datatype Comment = Comment(author: UserId, content: string, createdAt: int)
  datatype Share = Share(user: UserId, sharedAt: int)

  /** `createdAt` is the creation time in milliseconds. */
  datatype Post = Post(
    id: PostId,
    author: UserId,
    content: string,
    images: seq<Image>,
    likes: seq<UserId>,
    comments: seq<Comment>,
    shares: seq<Share>,
    visibility: Visibility,
    createdAt: int)

  /** What Mongoose's validators check when a post is saved: content is
      required (non-empty) and at most 5000 UTF-16 code units, and so is every
      comment's content with a limit of 1000. */
  predicate SchemaValid(p: Post)
  {
    && 0 < Utf16Length(p.content) <= MAX_CONTENT_LENGTH
    && forall i | 0 <= i < |p.comments| :: 0 < Utf16Length(p.comments[i].content) <= MAX_COMMENT_LENGTH
  }

  /** A post as the schema creates it: no images given, nothing liked,
      commented or shared, visibility defaulting to public. */
  function NewPost(id: PostId, author: UserId, content: string, createdAt: int): (p: Post)
    ensures LikesCount(p) == 0 && CommentsCount(p) == 0 && SharesCount(p) == 0
    ensures p.visibility == Public
    ensures p.author == author && p.content == content && p.id == id
    ensures Utf16Length(content) <= MAX_CONTENT_LENGTH ==> (SchemaValid(p) <==> content != "")
  {
    Post(id, author, content, [], [], [], [], Public, createdAt)
  }

  function LikesCount(p: Post): nat
  {
    |p.likes|
  }

  function CommentsCount(p: Post): nat
  {
    |p.comments|
  }

  function SharesCount(p: Post): nat
  {
    |p.shares|
  }

  /** `isLikedBy(u)`: some entry of `likes` is `u`. */
  predicate IsLikedBy(p: Post, u: UserId)
  {
    exists i | 0 <= i < |p.likes| :: p.likes[i] == u
  }

  lemma IsLikedByMeansMember(p: Post, u: UserId)
    ensures IsLikedBy(p, u) <==> u in p.likes
  {
    if u in p.likes {
      var i :| 0 <= i < |p.likes| && p.likes[i] == u;
    }
  }

  /** A relative time: "Just now", "<count><unit> ago", or the creation date
      written out (the locale formatting of the date is not modelled). */
  datatype TimeUnit = Minute | Hour | Day | Week | Month | Year
  datatype TimeAgo = JustNow | Ago(count: int, unit: TimeUnit) | OnDate(createdAt: int)

  function UnitSeconds(u: TimeUnit): int
  {
    match u
    case Minute => 60
    case Hour => 3600
    case Day => 86400
    case Week => 604800
    case Month => 2592000
    case Year => 31536000
  }

  /** `Math.floor((now - createdAt) / 1000)`; Dafny's `/` by a positive
      divisor rounds down, as `Math.floor` does, also for negative differences. */
  function ElapsedSeconds(nowMs: int, createdMs: int): int
  {
    (nowMs - createdMs) / 1000
  }

  /** `getTimeAgo()`: the first threshold the elapsed seconds fall under picks
      the unit, and the count is the whole number of that unit. */
  function GetTimeAgo(p: Post, nowMs: int): (r: TimeAgo)
    ensures var d := ElapsedSeconds(nowMs, p.createdAt);
      && (r == JustNow <==> d < 60)
      && (r.Ago? && r.unit == Minute <==> 60 <= d < 3600)
      && (r.Ago? && r.unit == Hour <==> 3600 <= d < 86400)
      && (r.Ago? && r.unit == Day <==> 86400 <= d < 604800)
      && (r.Ago? && r.unit == Week <==> 604800 <= d < 2592000)
      && (r.OnDate? <==> 2592000 <= d)
      && (r.Ago? ==> r.unit in {Minute, Hour, Day, Week} && r.count == d / UnitSeconds(r.unit))
    ensures r.OnDate? ==> r.createdAt == p.createdAt
    ensures r.Ago? && r.unit == Minute ==> 1 <= r.count <= 59
    ensures r.Ago? && r.unit == Hour ==> 1 <= r.count <= 23
    ensures r.Ago? && r.unit == Day ==> 1 <= r.count <= 6
    ensures r.Ago? && r.unit == Week ==> 1 <= r.count <= 4
  {
    var diff := ElapsedSeconds(nowMs, p.createdAt);
    if diff < 60 then JustNow
    else if diff < 3600 then Ago(diff / 60, Minute)
    else if diff < 86400 then Ago(diff / 3600, Hour)
    else if diff < 604800 then Ago(diff / 86400, Day)
    else if diff < 2592000 then Ago(diff / 604800, Week)
    else OnDate(p.createdAt)
  }
}
