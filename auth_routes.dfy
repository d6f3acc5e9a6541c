/** Account rules (backend/routes/auth.js): register, login and the session
    check. bcrypt is abstracted: `hash` is the salted hash of one call, and
    `matches(plain, stored)` is `bcrypt.compare`. */
module AuthRoutes {
  import opened Common
  import opened Text
  import opened UserModel
  import opened Store

  const MISSING_FIELDS := "Please provide all required fields"
  const ACCOUNT_EXISTS := "User with this email or username already exists"
  const REGISTER_ERROR := "Server error during registration"
  const MISSING_CREDENTIALS := "Please provide email and password"
  const INVALID_CREDENTIALS := "Invalid credentials"

  /** What the unique indexes on `username` and `email` guarantee. */
  ghost predicate UniqueAccounts(users: map<UserId, User>)
  {
    forall a, b | a in users && b in users && a != b :: !Clash(users[a], users[b])
  }

  /** Two accounts that share an email or a username. */
  predicate Clash(x: User, y: User)
  {
    x.email == y.email || x.username == y.username
  }

  /** A new account whose email and username nobody has keeps the accounts distinct. */
  lemma AddKeepsUnique(users: map<UserId, User>, id: UserId, u: User)
    requires UniqueAccounts(users) && id !in users
    requires forall k | k in users :: users[k].email != u.email && users[k].username != u.username
    ensures UniqueAccounts(users[id := u])
  {
  }

  /** `User.findOne({ $or: [{ email }, { username }] })` finds a document;
      the filter values pass through the same setters as stored values. */
  predicate AccountExists(users: map<UserId, User>, email: string, username: string)
  {
    exists k | k in users :: users[k].email == Normalize(email) || users[k].username == Normalize(username)
  }

  predicate AllGiven(name: Option<string>, username: Option<string>, email: Option<string>, password: Option<string>)
  {
    Truthy(name) && Truthy(username) && Truthy(email) && Truthy(password)
  }

  /** The document `new User({...})` builds from the request body. */
  function RegisteredUser(newId: UserId, name: string, username: string, email: string,
                          password: string, hash: string -> string, now: int): (u: User)
    ensures u.password == hash(password)
    ensures u.username == Normalize(username) && u.email == Normalize(email)
  {
    NormalizeLower(username);
    NormalizeLower(email);
    NewUser(newId, name, ToLower(username), ToLower(email), hash(password), now)
  }

  /** `POST /register`. */
  method Register(db: Db, session: Session, name: Option<string>, username: Option<string>,
                  email: Option<string>, password: Option<string>, newId: UserId,
                  hash: string -> string, now: int) returns (r: Reply<UserView>)
    requires UniqueAccounts(db.users)
    modifies db, session
    ensures UniqueAccounts(db.users)
    ensures db.posts == old(db.posts)
    ensures !AllGiven(name, username, email, password) ==>
      r == Fail(BAD_REQUEST, MISSING_FIELDS) && db.users == old(db.users) && session.userId == old(session.userId)
    ensures AllGiven(name, username, email, password) && AccountExists(old(db.users), email.value, username.value) ==>
      r == Fail(BAD_REQUEST, ACCOUNT_EXISTS) && db.users == old(db.users) && session.userId == old(session.userId)
    ensures AllGiven(name, username, email, password) && !AccountExists(old(db.users), email.value, username.value) ==>
      var u := RegisteredUser(newId, name.value, username.value, email.value, password.value, hash, now);
      if newId in old(db.users) || !SchemaValid(u) then
        r == Fail(SERVER_ERROR, REGISTER_ERROR) && db.users == old(db.users) && session.userId == old(session.userId)
      else
        db.users == old(db.users)[newId := u] && session.userId == Some(newId) && r == Ok(CREATED, ViewOf(u))
  {
    if !Truthy(name) || !Truthy(username) || !Truthy(email) || !Truthy(password) {
      return Fail(BAD_REQUEST, MISSING_FIELDS);
    }
    if AccountExists(db.users, email.value, username.value) {
      return Fail(BAD_REQUEST, ACCOUNT_EXISTS);
    }
    var user := RegisteredUser(newId, name.value, username.value, email.value, password.value, hash, now);
    // save(): a duplicate _id or a failed validator throws, and the catch answers 500
    if newId in db.users || !SchemaValid(user) {
      return Fail(SERVER_ERROR, REGISTER_ERROR);
    }
    AddKeepsUnique(db.users, newId, user);
    db.users := db.users[newId := user];
    session.userId := Some(newId);
    r := Ok(CREATED, ViewOf(user));
  }

  /** `POST /login`: an unknown email and a wrong password get the same answer. */
  method Login(db: Db, session: Session, email: Option<string>, password: Option<string>,
               matches: (string, string) -> bool) returns (r: Reply<UserView>)
    requires UniqueAccounts(db.users)
    modifies session
    ensures !(Truthy(email) && Truthy(password)) ==>
      r == Fail(BAD_REQUEST, MISSING_CREDENTIALS) && session.userId == old(session.userId)
    ensures Truthy(email) && Truthy(password) ==>
      && (r.Fail? ==> r == Fail(UNAUTHORIZED, INVALID_CREDENTIALS) && session.userId == old(session.userId))
      && ((forall k | k in db.users :: db.users[k].email != Normalize(email.value)) ==> r.Fail?)
      && (forall k | k in db.users && db.users[k].email == Normalize(email.value) ::
            && (r.Ok? <==> matches(password.value, db.users[k].password))
            && (r.Ok? ==> r == Ok(OK, ViewOf(db.users[k])) && session.userId == Some(k)))
  {
    if !Truthy(email) || !Truthy(password) {
      return Fail(BAD_REQUEST, MISSING_CREDENTIALS);
    }
    var lookup := ToLower(email.value);
    NormalizeLower(email.value);
    if !exists k | k in db.users :: db.users[k].email == Normalize(lookup) {
      return Fail(UNAUTHORIZED, INVALID_CREDENTIALS);
    }
    var k :| k in db.users && db.users[k].email == Normalize(lookup);
    var user := db.users[k];
    var isMatch := matches(password.value, user.password);
    if !isMatch {
      return Fail(UNAUTHORIZED, INVALID_CREDENTIALS);
    }
    session.userId := Some(k);
    r := Ok(OK, ViewOf(user));
  }

  /** The answer of `GET /check`. */
  datatype CheckReply = CheckReply(status: int, authenticated: bool, user: Option<UserView>)

  /** `GET /check`: authenticated exactly when the session names a user that still exists. */
  function Check(db: Db, session: Session): (r: CheckReply)
    reads db, session
    ensures r.authenticated <==> Truthy(session.userId) && session.userId.value in db.users
    ensures !r.authenticated ==> r == CheckReply(UNAUTHORIZED, false, None)
    ensures r.authenticated ==> r == CheckReply(OK, true, Some(ViewOf(db.users[session.userId.value])))
  {
    if !Truthy(session.userId) then CheckReply(UNAUTHORIZED, false, None)
    else if session.userId.value !in db.users then CheckReply(UNAUTHORIZED, false, None)
    else CheckReply(OK, true, Some(ViewOf(db.users[session.userId.value])))
  }
}
