/** Profile rules (backend/routes/profile.js): reading profiles, the partial
    profile update, follow and unfollow, the follower and following lists,
    and the statistics. The router's own gate answers 401 "Not
    authenticated"; `req.session` always exists under the session middleware. */
module ProfileRoutes {
  import opened Common
  import opened Text
  import opened Lists
  import opened AuthMiddleware
  import opened PostModel
  import opened UserModel
  import opened Store
  import opened AuthRoutes

  const NOT_AUTHENTICATED := "Not authenticated"
  const USER_NOT_FOUND := "User not found"
  const ALREADY_FOLLOWING := "Already following this user"
  const SERVER_ERROR_MESSAGE := "Server error"

  /** The router's `isAuthenticated`: only a truthy `userId` gets through. */
  function ProfileGate(s: Session): (g: Gate)
    reads s
    ensures g.Next? <==> SessionUser(s).Some?
    ensures g.Reject? ==> g == Reject(UNAUTHORIZED, NOT_AUTHENTICATED, None)
  {
    if !Truthy(s.userId) then Reject(UNAUTHORIZED, NOT_AUTHENTICATED, None) else Next
  }

  /** Every stored user passes the schema's validators: what `save()` enforces. */
  ghost predicate ValidUsers(users: map<UserId, User>)
  {
    forall k | k in users :: UserModel.SchemaValid(users[k])
  }

  // ---------------------------------------------------------------------
  // Reading profiles

  /** `GET /`: the logged-in user's profile. */
  function OwnProfile(db: Db, session: Session): (r: Reply<UserView>)
    reads db, session
    ensures ProfileGate(session).Reject? ==> r == Fail(UNAUTHORIZED, NOT_AUTHENTICATED)
    ensures ProfileGate(session).Next? ==>
      (r.Ok? <==> session.userId.value in db.users)
      && (r.Ok? ==> r == Ok(OK, ViewOf(db.users[session.userId.value])))
      && (r.Fail? ==> r == Fail(NOT_FOUND, USER_NOT_FOUND))
  {
    var gate := ProfileGate(session);
    if gate.Reject? then Fail(gate.status, gate.message)
    else if session.userId.value !in db.users then Fail(NOT_FOUND, USER_NOT_FOUND)
    else Ok(OK, ViewOf(db.users[session.userId.value]))
  }

  /** `GET /:username`: the parameter is lower-cased, and the query runs it
      through the username setters; since usernames are unique, the one
      account stored under that normalised username is found. */
  method ProfileByUsername(db: Db, username: string) returns (r: Reply<UserView>)
    requires UniqueAccounts(db.users)
    ensures r.Fail? <==> forall k | k in db.users :: db.users[k].username != Normalize(username)
    ensures r.Fail? ==> r == Fail(NOT_FOUND, USER_NOT_FOUND)
    ensures forall k | k in db.users && db.users[k].username == Normalize(username) ::
      r == Ok(OK, ViewOf(db.users[k]))
  {
    var wanted := ToLower(username);
    NormalizeLower(username);
    if !exists k | k in db.users :: db.users[k].username == Normalize(wanted) {
      return Fail(NOT_FOUND, USER_NOT_FOUND);
    }
    var k :| k in db.users && db.users[k].username == Normalize(wanted);
    r := Ok(OK, ViewOf(db.users[k]));
  }

  // ---------------------------------------------------------------------
  // Profile update

  /** The user after `PUT /update` has set its fields: `name` (trimmed by its
      setter) and the avatar only when `name` is truthy, the other three
      whenever given. The avatar is read off the name as sent, before the
      setter trims it. */
  function ProfileUpdated(u: User, name: Option<string>, bio: Option<string>, location: Option<string>,
                          website: Option<string>): (v: User)
    ensures v.name == (if Truthy(name) then Trim(name.value) else u.name)
    ensures v.avatar == (if Truthy(name) then ToUpper(WordStarts(name.value, true)) else u.avatar)
    ensures v.bio == (if bio.Some? then bio.value else u.bio)
    ensures v.location == (if location.Some? then location.value else u.location)
    ensures v.website == (if website.Some? then website.value else u.website)
    ensures v.(name := u.name, avatar := u.avatar, bio := u.bio, location := u.location, website := u.website) == u
  {
    var u1 := if Truthy(name) then u.(name := NormalizeName(name.value)) else u;
    var u2 := if bio.Some? then u1.(bio := bio.value) else u1;
    var u3 := if location.Some? then u2.(location := location.value) else u2;
    var u4 := if website.Some? then u3.(website := website.value) else u3;
    if Truthy(name) then
      InitialsAreWordStarts(name.value);
      u4.(avatar := Initials(name.value))
    else u4
  }

  /** `PUT /update`: the updated document is saved only when it passes the
      validators; a name of spaces trims to nothing and fails `required`,
      a bio over 500 UTF-16 code units fails `maxlength`: both 500. */
  method UpdateProfile(db: Db, session: Session, name: Option<string>, bio: Option<string>,
                       location: Option<string>, website: Option<string>) returns (r: Reply<UserView>)
    requires ValidUsers(db.users)
    modifies db
    ensures ValidUsers(db.users)
    ensures db.posts == old(db.posts)
    ensures ProfileGate(session).Reject? ==> r == Fail(UNAUTHORIZED, NOT_AUTHENTICATED) && db.users == old(db.users)
    ensures ProfileGate(session).Next? && session.userId.value !in old(db.users) ==>
      r == Fail(NOT_FOUND, USER_NOT_FOUND) && db.users == old(db.users)
    ensures ProfileGate(session).Next? && session.userId.value in old(db.users) ==>
      var k := session.userId.value;
      var v := ProfileUpdated(old(db.users)[k], name, bio, location, website);
      if UserModel.SchemaValid(v) then db.users == old(db.users)[k := v] && r == Ok(OK, ViewOf(v))
      else db.users == old(db.users) && r == Fail(SERVER_ERROR, SERVER_ERROR_MESSAGE)
  {
    var gate := ProfileGate(session);
    if gate.Reject? {
      return Fail(gate.status, gate.message);
    }
    var k := session.userId.value;
    if k !in db.users {
      return Fail(NOT_FOUND, USER_NOT_FOUND);
    }
    var user := ProfileUpdated(db.users[k], name, bio, location, website);
    if !UserModel.SchemaValid(user) {
      return Fail(SERVER_ERROR, SERVER_ERROR_MESSAGE);
    }
    db.users := db.users[k := user];
    r := Ok(OK, ViewOf(user));
  }

  /** A valid user stays valid when only its follow lists change. */
  lemma FollowListsKeepValid(u: User, followers: seq<UserId>, following: seq<UserId>)
    requires UserModel.SchemaValid(u)
    ensures UserModel.SchemaValid(u.(followers := followers, following := following))
  {
  }

  // ---------------------------------------------------------------------
  // The follow graph

  /** `a` lists `b` among the users it follows. */
  predicate Follows(users: map<UserId, User>, a: UserId, b: UserId)
  {
    a in users && b in users[a].following
  }

  /** `b` lists `a` among its followers. */
  predicate FollowedBy(users: map<UserId, User>, b: UserId, a: UserId)
  {
    b in users && a in users[b].followers
  }

  /** Between existing users, the two lists tell the same story. */
  ghost predicate FollowSymmetric(users: map<UserId, User>)
  {
    forall a, b | a in users && b in users :: Follows(users, a, b) == FollowedBy(users, b, a)
  }

  /** The records after follow's two saves: `me` gains `target` in `following`,
      then `target` gains `me` in `followers` (the same record when `me` is
      `target`: each save writes only the path it changed). */
  function Followed(users: map<UserId, User>, me: UserId, target: UserId): (r: map<UserId, User>)
    requires me in users && target in users
    ensures r.Keys == users.Keys
    ensures forall k | k in users && k != me && k != target :: r[k] == users[k]
  {
    var cur := users[me];
    var users1 := users[me := cur.(following := cur.following + [target])];
    users1[target := users1[target].(followers := users1[target].followers + [me])]
  }

  /** The records after unfollow's two saves: every `target` leaves `me`'s
      `following`, then every `me` leaves `target`'s `followers`. */
  function Unfollowed(users: map<UserId, User>, me: UserId, target: UserId): (r: map<UserId, User>)
    requires me in users && target in users
    ensures r.Keys == users.Keys
    ensures forall k | k in users && k != me && k != target :: r[k] == users[k]
  {
    var cur := users[me];
    var users1 := users[me := cur.(following := Without(cur.following, target))];
    users1[target := users1[target].(followers := Without(users1[target].followers, me))]
  }

  /** The records after unfollow's first save alone: `me`'s `following` filtered. */
  function FollowingDropped(users: map<UserId, User>, me: UserId, target: UserId): (r: map<UserId, User>)
    requires me in users
    ensures r.Keys == users.Keys
    ensures r[me] == users[me].(following := Without(users[me].following, target))
    ensures forall k | k in users && k != me :: r[k] == users[k]
  {
    users[me := users[me].(following := Without(users[me].following, target))]
  }

  /** Whether unfollow's second save is refused by Mongoose's version check.
      When `target` is `me` both lookups load the same document, twice.
      Assigning a filtered array to a path makes the save require the version
      the document was loaded with and then move it on. The first save
      changes `following` exactly when `me` is in it. The stale second copy
      then writes, and is refused, exactly when its filter takes `me` out of
      `followers`. */
  predicate StaleSecondSave(users: map<UserId, User>, me: UserId, target: UserId)
  {
    me == target && me in users && me in users[me].following && me in users[me].followers
  }

  /** As written, a user who followed themself and then unfollows themself
      keeps the follower entry: the graph is no longer in step. */
  lemma SelfUnfollowBreaksSymmetry(users: map<UserId, User>, me: UserId)
    requires StaleSecondSave(users, me, me)
    ensures !FollowSymmetric(FollowingDropped(users, me, me))
  {
    var r := FollowingDropped(users, me, me);
    WithoutMembers(users[me].following, me);
    assert !Follows(r, me, me) && FollowedBy(r, me, me);
  }

  /** A first follow of oneself leads straight to that state. */
  lemma SelfFollowThenUnfollowFails(users: map<UserId, User>, me: UserId)
    requires me in users && me !in users[me].following
    ensures StaleSecondSave(Followed(users, me, me), me, me)
    ensures !FollowSymmetric(FollowingDropped(Followed(users, me, me), me, me))
  {
    var f := Followed(users, me, me);
    assert f[me].following == users[me].following + [me];
    assert f[me].followers == users[me].followers + [me];
    SelfUnfollowBreaksSymmetry(f, me);
  }

  /** A follow makes each list grow by exactly one entry, and keeps the lists in step. */
  lemma FollowFacts(users: map<UserId, User>, me: UserId, target: UserId)
    requires me in users && target in users && target !in users[me].following
    requires FollowSymmetric(users)
    ensures var r := Followed(users, me, target);
      && r[me].following == users[me].following + [target]
      && r[target].followers == users[target].followers + [me]
      && (me != target ==> r[me].followers == users[me].followers && r[target].following == users[target].following)
      && Follows(r, me, target) && FollowedBy(r, target, me)
      && FollowSymmetric(r)
  {
    var r := Followed(users, me, target);
    assert !FollowedBy(users, target, me);
    forall a, b | a in r && b in r ensures Follows(r, a, b) == FollowedBy(r, b, a) {
      assert Follows(users, a, b) == FollowedBy(users, b, a);
      if a == me && b == target {
      } else if a == me {
        assert r[a].following == users[a].following + [target];
        assert r[b].followers == users[b].followers;
      } else if b == target {
        assert r[b].followers == users[b].followers + [me];
        assert r[a].following == users[a].following;
      } else {
        assert r[a].following == users[a].following;
        assert r[b].followers == users[b].followers;
      }
    }
  }

  /** An unfollow leaves no trace of the edge in either list, touches no
      other entry, and keeps the lists in step. */
  lemma UnfollowFacts(users: map<UserId, User>, me: UserId, target: UserId)
    requires me in users && target in users
    requires FollowSymmetric(users)
    ensures var r := Unfollowed(users, me, target);
      && !Follows(r, me, target) && !FollowedBy(r, target, me)
      && r[me].following == Without(users[me].following, target)
      && r[target].followers == Without(users[target].followers, me)
      && FollowSymmetric(r)
  {
    var r := Unfollowed(users, me, target);
    WithoutMembers(users[me].following, target);
    WithoutMembers(users[target].followers, me);
    assert forall x | x in r :: r[x].following == if x == me then Without(users[me].following, target) else users[x].following;
    assert forall x | x in r :: r[x].followers == if x == target then Without(users[target].followers, me) else users[x].followers;
    forall a, b | a in r && b in r ensures Follows(r, a, b) == FollowedBy(r, b, a) {
      assert Follows(users, a, b) == FollowedBy(users, b, a);
    }
  }

  /** Unfollowing twice is unfollowing once. */
  lemma UnfollowIdempotent(users: map<UserId, User>, me: UserId, target: UserId)
    requires me in users && target in users
    ensures Unfollowed(Unfollowed(users, me, target), me, target) == Unfollowed(users, me, target)
  {
    var r := Unfollowed(users, me, target);
    var r2 := Unfollowed(r, me, target);
    WithoutIdempotent(users[me].following, target);
    if me == target {
      WithoutIdempotent(users[me].followers, me);
      assert r2[me] == r[me];
    } else {
      WithoutIdempotent(users[target].followers, me);
      assert r2[me] == r[me];
      assert r2[target] == r[target];
    }
  }

  /** `POST /follow/:userId`. */
  method Follow(db: Db, session: Session, target: UserId) returns (r: Reply<string>)
    requires ValidUsers(db.users)
    modifies db
    ensures ValidUsers(db.users)
    ensures db.posts == old(db.posts)
    ensures ProfileGate(session).Reject? ==> r == Fail(UNAUTHORIZED, NOT_AUTHENTICATED) && db.users == old(db.users)
    ensures ProfileGate(session).Next? ==>
      var me := session.userId.value;
      if target !in old(db.users) || me !in old(db.users) then
        r == Fail(NOT_FOUND, USER_NOT_FOUND) && db.users == old(db.users)
      else if target in old(db.users)[me].following then
        r == Fail(BAD_REQUEST, ALREADY_FOLLOWING) && db.users == old(db.users)
      else
        r == Ok(OK, "User followed successfully") && db.users == Followed(old(db.users), me, target)
  {
    var gate := ProfileGate(session);
    if gate.Reject? {
      return Fail(gate.status, gate.message);
    }
    var me := session.userId.value;
    if target !in db.users || me !in db.users {
      return Fail(NOT_FOUND, USER_NOT_FOUND);
    }
    if target in db.users[me].following {
      return Fail(BAD_REQUEST, ALREADY_FOLLOWING);
    }
    var cur := db.users[me];
    FollowListsKeepValid(cur, cur.followers, cur.following + [target]);
    db.users := db.users[me := cur.(following := cur.following + [target])];
    var other := db.users[target];
    FollowListsKeepValid(other, other.followers + [me], other.following);
    db.users := db.users[target := other.(followers := other.followers + [me])];
    r := Ok(OK, "User followed successfully");
  }

  /** `POST /unfollow/:userId`: no membership check. A self-unfollow that
      finds the version moved on answers 500 after the first save. */
  method Unfollow(db: Db, session: Session, target: UserId) returns (r: Reply<string>)
    requires ValidUsers(db.users)
    modifies db
    ensures ValidUsers(db.users)
    ensures db.posts == old(db.posts)
    ensures ProfileGate(session).Reject? ==> r == Fail(UNAUTHORIZED, NOT_AUTHENTICATED) && db.users == old(db.users)
    ensures ProfileGate(session).Next? ==>
      var me := session.userId.value;
      if target !in old(db.users) || me !in old(db.users) then
        r == Fail(NOT_FOUND, USER_NOT_FOUND) && db.users == old(db.users)
      else if StaleSecondSave(old(db.users), me, target) then
        r == Fail(SERVER_ERROR, SERVER_ERROR_MESSAGE) && db.users == FollowingDropped(old(db.users), me, target)
      else
        r == Ok(OK, "User unfollowed successfully") && db.users == Unfollowed(old(db.users), me, target)
  {
    var gate := ProfileGate(session);
    if gate.Reject? {
      return Fail(gate.status, gate.message);
    }
    var me := session.userId.value;
    if target !in db.users || me !in db.users {
      return Fail(NOT_FOUND, USER_NOT_FOUND);
    }
    var stale := StaleSecondSave(db.users, me, target);
    var cur := db.users[me];
    FollowListsKeepValid(cur, cur.followers, Without(cur.following, target));
    db.users := db.users[me := cur.(following := Without(cur.following, target))];
    if stale {
      return Fail(SERVER_ERROR, SERVER_ERROR_MESSAGE);
    }
    var other := db.users[target];
    FollowListsKeepValid(other, Without(other.followers, me), other.following);
    db.users := db.users[target := other.(followers := Without(other.followers, me))];
    r := Ok(OK, "User unfollowed successfully");
  }

  // ---------------------------------------------------------------------
  // Follower and following lists

  /** One entry of the two lists. */
  datatype FollowEntry = FollowEntry(id: UserId, name: string, username: string, avatar: string,
                                     bio: string, isFollowing: bool)

  datatype FollowList = FollowList(entries: seq<FollowEntry>, count: nat)

  /** `populate(...)` of an id list: ids whose document is gone are dropped. */
  function Present(ids: seq<UserId>, users: map<UserId, User>): (r: seq<UserId>)
    ensures |r| <= |ids|
    ensures forall k | k in r :: k in users && k in ids
    ensures forall k | k in ids && k in users :: k in r
  {
    if ids == [] then []
    else (if ids[0] in users then [ids[0]] else []) + Present(ids[1..], users)
  }

  function Entry(u: User, isFollowing: bool): FollowEntry
  {
    FollowEntry(u.id, u.name, u.username, u.avatar, u.bio, isFollowing)
  }

  /** `GET /:userId/following`: every followed user that still exists,
      each marked `isFollowing: true`. */
  function FollowingList(users: map<UserId, User>, owner: UserId): (r: Reply<FollowList>)
    ensures r.Fail? <==> owner !in users
    ensures r.Fail? ==> r == Fail(NOT_FOUND, USER_NOT_FOUND)
    ensures r.Ok? ==>
      var ids := Present(users[owner].following, users);
      && r.status == OK
      && r.body.count == |r.body.entries| == |ids|
      && forall i | 0 <= i < |ids| :: r.body.entries[i] == Entry(users[ids[i]], true)
  {
    if owner !in users then Fail(NOT_FOUND, USER_NOT_FOUND)
    else
      var ids := Present(users[owner].following, users);
      var entries := seq(|ids|, i requires 0 <= i < |ids| => Entry(users[ids[i]], true));
      Ok(OK, FollowList(entries, |entries|))
  }

  /** The followers list as written. The populate selects only name,
      username, avatar and bio, so `follower.following` is undefined and
      `.includes` throws as soon as a session is present and one follower
      is listed; the catch answers 500. */
  function FollowersListAsWritten(users: map<UserId, User>, owner: UserId, viewer: Option<UserId>): (r: Reply<FollowList>)
    ensures owner !in users ==> r == Fail(NOT_FOUND, USER_NOT_FOUND)
    ensures owner in users && viewer.Some? && |Present(users[owner].followers, users)| > 0 ==>
      r == Fail(SERVER_ERROR, SERVER_ERROR_MESSAGE)
    ensures r.Ok? ==> forall i | 0 <= i < |r.body.entries| :: !r.body.entries[i].isFollowing
  {
    if owner !in users then Fail(NOT_FOUND, USER_NOT_FOUND)
    else
      var ids := Present(users[owner].followers, users);
      if viewer.Some? && |ids| > 0 then Fail(SERVER_ERROR, SERVER_ERROR_MESSAGE)
      else
        var entries := seq(|ids|, i requires 0 <= i < |ids| => Entry(users[ids[i]], false));
        Ok(OK, FollowList(entries, |entries|))
  }

  /** The followers list as evidently intended: each existing follower,
      marked `isFollowing` when it follows the session user back. */
  function FollowersList(users: map<UserId, User>, owner: UserId, viewer: Option<UserId>): (r: Reply<FollowList>)
    ensures r.Fail? <==> owner !in users
    ensures r.Fail? ==> r == Fail(NOT_FOUND, USER_NOT_FOUND)
    ensures r.Ok? ==>
      var ids := Present(users[owner].followers, users);
      && r.status == OK
      && r.body.count == |r.body.entries| == |ids|
      && forall i | 0 <= i < |ids| ::
           r.body.entries[i] == Entry(users[ids[i]], viewer.Some? && Follows(users, ids[i], viewer.value))
  {
    if owner !in users then Fail(NOT_FOUND, USER_NOT_FOUND)
    else
      var ids := Present(users[owner].followers, users);
      var entries := seq(|ids|, i requires 0 <= i < |ids| =>
        Entry(users[ids[i]], viewer.Some? && viewer.value in users[ids[i]].following));
      Ok(OK, FollowList(entries, |entries|))
  }

  /** Without a session both versions agree, and nobody is marked followed. */
  lemma FollowersListsAgreeAnonymously(users: map<UserId, User>, owner: UserId)
    ensures FollowersListAsWritten(users, owner, None) == FollowersList(users, owner, None)
    ensures var r := FollowersList(users, owner, None);
      r.Ok? ==> forall i | 0 <= i < |r.body.entries| :: !r.body.entries[i].isFollowing
  {
    if owner in users {
      assert FollowersListAsWritten(users, owner, None).body.entries == FollowersList(users, owner, None).body.entries;
    }
  }

  /** The input that shows the difference: "b" follows "a", and "a" looks at
      its own followers. The version as written answers 500; the intended
      one lists "b", marked as following "a". */
  lemma FollowersListFailsForLoggedInViewer()
    ensures var b := User("b", "B", "b", "b@x", "secret", "", "", "", "B", [], ["a"], [], 0);
      var a := User("a", "A", "a", "a@x", "secret", "", "", "", "A", ["b"], [], [], 0);
      var users := map["a" := a, "b" := b];
      && FollowersListAsWritten(users, "a", Some("a")) == Fail(SERVER_ERROR, SERVER_ERROR_MESSAGE)
      && FollowersList(users, "a", Some("a")).Ok?
      && FollowersList(users, "a", Some("a")).body.entries == [Entry(b, true)]
  {
    var b := User("b", "B", "b", "b@x", "secret", "", "", "", "B", [], ["a"], [], 0);
    var a := User("a", "A", "a", "a@x", "secret", "", "", "", "A", ["b"], [], [], 0);
    var users := map["a" := a, "b" := b];
    assert Present(["b"], users) == ["b"] by {
      assert ["b"][1..] == [];
    }
  }

  /** With the lists in step, a listed follower is marked exactly when it
      appears among the session user's own followers. */
  lemma FollowersMarkedIffViewerFollowedBack(users: map<UserId, User>, owner: UserId, viewer: UserId)
    requires FollowSymmetric(users) && owner in users && viewer in users
    ensures var r := FollowersList(users, owner, Some(viewer));
      var ids := Present(users[owner].followers, users);
      forall i | 0 <= i < |ids| :: r.body.entries[i].isFollowing <==> FollowedBy(users, viewer, ids[i])
  {
    var ids := Present(users[owner].followers, users);
    forall i | 0 <= i < |ids| ensures Follows(users, ids[i], viewer) == FollowedBy(users, viewer, ids[i]) {
    }
  }

  // ---------------------------------------------------------------------
  // Statistics

  function SumLikes(ps: seq<Post>): nat
  {
    if ps == [] then 0 else LikesCount(ps[0]) + SumLikes(ps[1..])
  }

  function SumComments(ps: seq<Post>): nat
  {
    if ps == [] then 0 else CommentsCount(ps[0]) + SumComments(ps[1..])
  }

  function SumShares(ps: seq<Post>): nat
  {
    if ps == [] then 0 else SharesCount(ps[0]) + SumShares(ps[1..])
  }

  function CountWithImages(ps: seq<Post>): nat
  {
    if ps == [] then 0 else (if |ps[0].images| > 0 then 1 else 0) + CountWithImages(ps[1..])
  }

  /** The sums split over a concatenation. */
  lemma {:induction false} SumsAppend(a: seq<Post>, b: seq<Post>)
    ensures SumLikes(a + b) == SumLikes(a) + SumLikes(b)
    ensures SumComments(a + b) == SumComments(a) + SumComments(b)
    ensures SumShares(a + b) == SumShares(a) + SumShares(b)
    ensures CountWithImages(a + b) == CountWithImages(a) + CountWithImages(b)
  {
    if a == [] {
      assert a + b == b;
    } else {
      assert (a + b)[1..] == a[1..] + b;
      SumsAppend(a[1..], b);
    }
  }

  /** Taking out the post at `i` takes out its counts. */
  lemma SumsRemove(ps: seq<Post>, i: nat)
    requires i < |ps|
    ensures var rest := ps[..i] + ps[i + 1..];
      && SumLikes(ps) == LikesCount(ps[i]) + SumLikes(rest)
      && SumComments(ps) == CommentsCount(ps[i]) + SumComments(rest)
      && SumShares(ps) == SharesCount(ps[i]) + SumShares(rest)
      && CountWithImages(ps) == (if |ps[i].images| > 0 then 1 else 0) + CountWithImages(rest)
  {
    assert ps == ps[..i] + [ps[i]] + ps[i + 1..];
    SumsAppend(ps[..i] + [ps[i]], ps[i + 1..]);
    SumsAppend(ps[..i], [ps[i]]);
    SumsAppend(ps[..i], ps[i + 1..]);
    assert [ps[i]][1..] == [];
  }

  /** Matching the head of `a` with position `i` of `b` leaves equal multisets behind. */
  lemma RemoveMatched(a: seq<Post>, b: seq<Post>, i: nat)
    requires multiset(a) == multiset(b) && a != [] && i < |b| && b[i] == a[0]
    ensures multiset(a[1..]) == multiset(b[..i] + b[i + 1..])
  {
    assert b == b[..i] + [b[i]] + b[i + 1..];
    assert a == [a[0]] + a[1..];
    calc {
      multiset(a[1..]);
      multiset(a) - multiset{a[0]};
      multiset(b) - multiset{b[i]};
      multiset(b[..i]) + multiset(b[i + 1..]);
      multiset(b[..i] + b[i + 1..]);
    }
  }

  /** The statistics do not depend on the order the query returns the posts in. */
  lemma {:induction false} SumsIgnoreOrder(a: seq<Post>, b: seq<Post>)
    requires multiset(a) == multiset(b)
    ensures SumLikes(a) == SumLikes(b) && SumComments(a) == SumComments(b)
    ensures SumShares(a) == SumShares(b) && CountWithImages(a) == CountWithImages(b)
    decreases |a|
  {
    if a != [] {
      assert a[0] in multiset(b);
      var i :| 0 <= i < |b| && b[i] == a[0];
      RemoveMatched(a, b, i);
      SumsRemove(b, i);
      SumsIgnoreOrder(a[1..], b[..i] + b[i + 1..]);
    }
  }

  datatype Stats = Stats(posts: nat, followers: nat, following: nat, totalLikes: nat,
                         totalComments: nat, totalShares: nat, mediaPosts: nat)

  function AuthoredBy(all: seq<Post>, author: UserId): (r: seq<Post>)
    ensures forall p | p in r :: p in all && p.author == author
    ensures forall p | p in all && p.author == author :: p in r
  {
    if all == [] then []
    else (if all[0].author == author then [all[0]] else []) + AuthoredBy(all[1..], author)
  }

  /** `GET /:userId/stats`: the counts of the user's document and the sums
      over the posts the user wrote (`all` is the posts collection). */
  function UserStats(users: map<UserId, User>, all: seq<Post>, owner: UserId): (r: Reply<Stats>)
    ensures r.Fail? <==> owner !in users
    ensures r.Fail? ==> r == Fail(NOT_FOUND, USER_NOT_FOUND)
    ensures r.Ok? ==>
      var mine := AuthoredBy(all, owner);
      && r.body.posts == PostsCount(users[owner])
      && r.body.followers == FollowersCount(users[owner])
      && r.body.following == FollowingCount(users[owner])
      && r.body.totalLikes == SumLikes(mine)
      && r.body.totalComments == SumComments(mine)
      && r.body.totalShares == SumShares(mine)
      && r.body.mediaPosts == CountWithImages(mine) <= |mine|
  {
    if owner !in users then Fail(NOT_FOUND, USER_NOT_FOUND)
    else
      var u := users[owner];
      var mine := AuthoredBy(all, owner);
      MediaAtMostPosts(mine);
      Ok(OK, Stats(PostsCount(u), FollowersCount(u), FollowingCount(u),
                   SumLikes(mine), SumComments(mine), SumShares(mine), CountWithImages(mine)))
  }

  lemma {:induction false} MediaAtMostPosts(ps: seq<Post>)
    ensures CountWithImages(ps) <= |ps|
  {
    if ps != [] {
      MediaAtMostPosts(ps[1..]);
    }
  }
}
