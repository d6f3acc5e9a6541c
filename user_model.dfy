/** The User document (backend/models/User.js): fields, setters, defaults,
    validators and the derived counts. */
module UserModel {
  import opened Common
  import opened Text

  const MAX_BIO_LENGTH := 500
  const MIN_PASSWORD_LENGTH := 6

  /** `password` holds the stored hash, never the plaintext. */
  datatype User = User(
    id: UserId,
    name: string,
    username: string,
    email: string,
    password: string,
    bio: string,
    location: string,
    website: string,
    avatar: string,
    followers: seq<UserId>,
    following: seq<UserId>,
    posts: seq<PostId>,
    createdAt: int)

  /** The `trim` then `lowercase` setters of `username` and `email`. Mongoose
      runs them on values being saved and on the values of a query filter. */
  function Normalize(s: string): string
  {
    ToLower(Trim(s))
  }

  /** The `trim` setter of `name`. */
  function NormalizeName(s: string): string
  {
    Trim(s)
  }

  /** `new User({name, username, email, password})`: the setters run first,
      then the defaults, the avatar default reading the already trimmed name. */
  function NewUser(id: UserId, name: string, username: string, email: string,
                   passwordHash: string, createdAt: int): (u: User)
    ensures u.id == id && u.password == passwordHash
    ensures u.username == Normalize(username) && u.email == Normalize(email)
    ensures u.name == Trim(name) && u.avatar == ToUpper(WordStarts(Trim(name), true))
    ensures u.bio == "" && u.location == "" && u.website == ""
    ensures FollowersCount(u) == 0 && FollowingCount(u) == 0 && PostsCount(u) == 0
  {
    var n := NormalizeName(name);
    InitialsAreWordStarts(n);
    User(id, n, Normalize(username), Normalize(email), passwordHash,
         "", "", "", Initials(n), [], [], [], createdAt)
  }

  /** What Mongoose's validators check when a user is saved. */
  predicate SchemaValid(u: User)
  {
    && u.name != "" && u.username != "" && u.email != ""
    && Utf16Length(u.password) >= MIN_PASSWORD_LENGTH
    && Utf16Length(u.bio) <= MAX_BIO_LENGTH
  }

  function FollowersCount(u: User): nat
  {
    |u.followers|
  }

  function FollowingCount(u: User): nat
  {
    |u.following|
  }

  function PostsCount(u: User): nat
  {
    |u.posts|
  }

  /** The user object the routes send back: every profile field and the
      three counts, and no password field (the joined date, a locale-formatted
      string, is not modelled). */
  datatype UserView = UserView(
    id: UserId, name: string, username: string, email: string,
    bio: string, location: string, website: string, avatar: string,
    followers: nat, following: nat, posts: nat)

  function ViewOf(u: User): (v: UserView)
    ensures v.followers == |u.followers| && v.following == |u.following| && v.posts == |u.posts|
    ensures v.id == u.id && v.username == u.username && v.email == u.email
  {
    UserView(u.id, u.name, u.username, u.email, u.bio, u.location, u.website, u.avatar,
             FollowersCount(u), FollowingCount(u), PostsCount(u))
  }

  lemma LowerKeepsSpaces(c: char)
    ensures IsSpace(LowerChar(c)) == IsSpace(c)
  {
  }

  lemma {:induction false} TrimStartLower(s: string)
    ensures TrimStart(ToLower(s)) == ToLower(TrimStart(s))
    decreases |s|
  {
    if s != [] {
      LowerKeepsSpaces(s[0]);
      assert ToLower(s)[1..] == ToLower(s[1..]);
      if IsSpace(s[0]) {
        TrimStartLower(s[1..]);
      }
    }
  }

  lemma {:induction false} TrimEndLower(s: string)
    ensures TrimEnd(ToLower(s)) == ToLower(TrimEnd(s))
    decreases |s|
  {
    if s != [] {
      LowerKeepsSpaces(s[|s| - 1]);
      assert ToLower(s)[..|s| - 1] == ToLower(s[..|s| - 1]);
      if IsSpace(s[|s| - 1]) {
        TrimEndLower(s[..|s| - 1]);
      }
    }
  }

  /** Lower-casing before the setters changes nothing: `x.toLowerCase()` and
      `x` are stored, and looked up, as the same value. */
  lemma NormalizeLower(s: string)
    ensures Normalize(ToLower(s)) == Normalize(s)
    ensures Normalize(Normalize(s)) == Normalize(s)
  {
    TrimStartLower(s);
    TrimEndLower(TrimStart(s));
    LowerIdempotent(Trim(s));
    var t := Trim(s);
    TrimStartLower(t);
    TrimEndLower(TrimStart(t));
    TrimIdempotent(s);
    LowerIdempotent(t);
  }

  lemma TrimIdempotent(s: string)
    ensures Trim(Trim(s)) == Trim(s)
  {
    var t := Trim(s);
    if t != [] {
      assert TrimStart(t) == t;
      assert TrimEnd(t) == t;
    }
  }
}
