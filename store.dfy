/** The document database, held in memory: one map per collection, keyed by
    document id. A handler's writes are one atomic step on these maps. */
module Store {
  import opened Common
  import opened PostModel
  import opened UserModel

  class Db {
    var posts: map<PostId, Post>
    var users: map<UserId, User>

    constructor ()
      ensures posts == map[] && users == map[]
    {
      posts := map[];
      users := map[];
    }
  }

  /** Every document is stored under its own id. */
  ghost predicate KeyedById(posts: map<PostId, Post>, users: map<UserId, User>)
  {
    && (forall k | k in posts :: posts[k].id == k)
    && (forall k | k in users :: users[k].id == k)
  }
}
