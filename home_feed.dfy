/** The home page's local feed (frontend/src/pages/Home.jsx): a list of
    sample posts held in component state, an optimistic like toggle and a
    composer that prepends the user's new post. Nothing here reaches the
    server; each handler replaces the state with a value computed from the
    old one. */
module HomeFeed {
  import opened Common
  import opened Text

  /** One card of the feed, as the page stores it. */
  datatype FeedPost = FeedPost(
    id: int,
    author: string,
    username: string,
    avatar: string,
    time: string,
    content: string,
    image: Option<string>,
    likes: int,
    comments: int,
    shares: int,
    liked: bool)

  /** The feed the page starts with. */
  const InitialPosts: seq<FeedPost> := [
    FeedPost(1, "Sarah Johnson", "@sarahj", "SJ", "2h ago",
      "Just launched my new project! Check it out and let me know what you think. Excited to share this with everyone! \U{1F680}",
      None, 234, 45, 12, false),
    FeedPost(2, "Mike Chen", "@mikechen", "MC", "4h ago",
      "Beautiful sunset today! Nature never ceases to amaze me. \U{1F305}",
      Some("https://images.unsplash.com/photo-1506905925346-21bda4d32df4?w=800"), 567, 89, 23, true),
    FeedPost(3, "Emma Wilson", "@emmaw", "EW", "6h ago",
      "Finally finished reading this amazing book! Highly recommend it to anyone interested in technology and innovation. \U{1F4DA}",
      None, 123, 34, 8, false)
  ]

  // ---------------------------------------------------------------------
  // What the feed keeps true

  /** Ids run over 1..|posts| without repetition, so every id names one card. */
  predicate IdsNumbered(posts: seq<FeedPost>)
  {
    (forall i | 0 <= i < |posts| :: 1 <= posts[i].id <= |posts|)
    && (forall i, j | 0 <= i < j < |posts| :: posts[i].id != posts[j].id)
  }

  /** Counters are never negative, and a card the user liked counts that like. */
  predicate CountsConsistent(p: FeedPost)
  {
    p.likes >= (if p.liked then 1 else 0) && p.comments >= 0 && p.shares >= 0
  }

  predicate ValidFeed(posts: seq<FeedPost>)
  {
    IdsNumbered(posts) && forall i | 0 <= i < |posts| :: CountsConsistent(posts[i])
  }

  lemma InitialFeedValid()
    ensures ValidFeed(InitialPosts)
  {
  }

  // ---------------------------------------------------------------------
  // handleLike

  /** One card's like flipped: `liked` negated, `likes` one up when it becomes
      liked and one down when it stops being liked. */
  function Flipped(p: FeedPost): FeedPost
  {
    p.(liked := !p.liked, likes := if p.liked then p.likes - 1 else p.likes + 1)
  }

  /** `posts.map(post => post.id === postId ? flipped : post)`. */
  function LikeToggled(posts: seq<FeedPost>, id: int): (r: seq<FeedPost>)
    ensures |r| == |posts|
  {
    seq(|posts|, i requires 0 <= i < |posts| => if posts[i].id == id then Flipped(posts[i]) else posts[i])
  }

  /** The card with the id changes only in `liked` and `likes`, by one in the
      direction of the new state; every other card, and the order, stay as they were. */
  lemma {:induction false} LikeToggledEffect(posts: seq<FeedPost>, id: int, i: int)
    requires 0 <= i < |posts|
    ensures posts[i].id != id ==> LikeToggled(posts, id)[i] == posts[i]
    ensures posts[i].id == id ==>
      var q := LikeToggled(posts, id)[i];
      q.liked == !posts[i].liked
      && q.likes - posts[i].likes == (if q.liked then 1 else -1)
      && q.(liked := posts[i].liked, likes := posts[i].likes) == posts[i]
  {
  }

  /** Toggling the same card twice gives the feed back. */
  lemma LikeToggledTwice(posts: seq<FeedPost>, id: int)
    ensures LikeToggled(LikeToggled(posts, id), id) == posts
  {
    var once := LikeToggled(posts, id);
    var twice := LikeToggled(once, id);
    forall i | 0 <= i < |posts| ensures twice[i] == posts[i] {
      assert once[i].id == posts[i].id;
    }
  }

  /** The toggle keeps ids and consistent counters. */
  lemma LikeToggledValid(posts: seq<FeedPost>, id: int)
    requires ValidFeed(posts)
    ensures ValidFeed(LikeToggled(posts, id))
  {
    var r := LikeToggled(posts, id);
    forall i | 0 <= i < |r| ensures r[i].id == posts[i].id && CountsConsistent(r[i]) {
      assert CountsConsistent(posts[i]);
    }
  }

  // ---------------------------------------------------------------------
  // handleCreatePost

  /** The card `handleCreatePost` builds for the text typed into the composer. */
  function NewFeedPost(id: int, content: string): FeedPost
  {
    FeedPost(id, "You", "@you", "Y", "Just now", content, None, 0, 0, 0, false)
  }

  /** `[newPost, ...posts]` when the trimmed input is non-empty; the feed
      unchanged otherwise. */
  function Created(posts: seq<FeedPost>, content: string): seq<FeedPost>
  {
    if Trim(content) != "" then [NewFeedPost(|posts| + 1, content)] + posts else posts
  }

  /** Blank input leaves the feed alone; other input puts exactly one new card
      in front, with fresh counters, unliked, holding the text as typed. */
  lemma CreatedEffect(posts: seq<FeedPost>, content: string)
    ensures IsBlank(content) ==> Created(posts, content) == posts
    ensures !IsBlank(content) ==>
      var r := Created(posts, content);
      |r| == |posts| + 1 && r[1..] == posts
      && r[0].id == |posts| + 1 && r[0].content == content
      && r[0].likes == 0 && r[0].comments == 0 && r[0].shares == 0 && !r[0].liked
  {
    if !IsBlank(content) {
      assert Trim(content) != "";
    }
  }

  /** A consistent card numbered one past the length can go in front of a valid feed. */
  lemma PrependValid(posts: seq<FeedPost>, p: FeedPost)
    requires ValidFeed(posts) && p.id == |posts| + 1 && CountsConsistent(p)
    ensures ValidFeed([p] + posts)
  {
    var r := [p] + posts;
    forall i | 1 <= i < |r|
      ensures r[i] == posts[i - 1] && 1 <= r[i].id < p.id
    {
    }
    forall i, j | 0 <= i < j < |r|
      ensures r[i].id != r[j].id
    {
      if i > 0 {
        assert r[i].id == posts[i - 1].id && r[j].id == posts[j - 1].id;
      }
    }
  }

  /** The new card's id, one past the length, is not taken, so ids stay numbered. */
  lemma CreatedValid(posts: seq<FeedPost>, content: string)
    requires ValidFeed(posts)
    ensures ValidFeed(Created(posts, content))
  {
    if Trim(content) != "" {
      PrependValid(posts, NewFeedPost(|posts| + 1, content));
    }
  }

  // ---------------------------------------------------------------------
  // The component's state

  class HomePage {
    var posts: seq<FeedPost>
    var postContent: string

    predicate Valid()
      reads this
    {
      ValidFeed(posts)
    }

    constructor ()
      ensures posts == InitialPosts && postContent == ""
      ensures Valid()
    {
      posts := InitialPosts;
      postContent := "";
      InitialFeedValid();
    }

    /** The composer's `onChange`. */
    method SetPostContent(text: string)
      modifies this
      ensures postContent == text && posts == old(posts)
    {
      postContent := text;
    }

    method HandleLike(id: int)
      requires Valid()
      modifies this
      ensures posts == LikeToggled(old(posts), id) && postContent == old(postContent)
      ensures Valid()
    {
      LikeToggledValid(posts, id);
      posts := LikeToggled(posts, id);
    }

    /** Prepends the new card and clears the composer, or does nothing on blank input. */
    method HandleCreatePost()
      requires Valid()
      modifies this
      ensures posts == Created(old(posts), old(postContent))
      ensures IsBlank(old(postContent)) ==> posts == old(posts) && postContent == old(postContent)
      ensures !IsBlank(old(postContent)) ==> |posts| == |old(posts)| + 1 && postContent == ""
      ensures Valid()
    {
      CreatedValid(posts, postContent);
      CreatedEffect(posts, postContent);
      if Trim(postContent) != "" {
        posts := [NewFeedPost(|posts| + 1, postContent)] + posts;
        postContent := "";
      }
    }
  }
}
