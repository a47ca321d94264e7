/**
 * UsersService: user lookups, registration with a unique username, and the
 * credential check used at login. bcrypt is abstracted as a pair of functions.
 */
module Users {
  import opened Relation
  import opened Schema

  /** The row `SELECT id, username, fullname FROM users` yields. */
  datatype UserView = UserView(id: string, username: string, fullname: string)

  /**
   * bcrypt's `hash` and `compare`. The real hash is salted, so two calls differ;
   * the model only relies on `compare` accepting the password a hash was made from.
   */
  datatype PasswordHasher = PasswordHasher(hash: string -> string, compare: (string, string) -> bool)

  ghost predicate Sound(h: PasswordHasher) {
    forall p :: h.compare(p, h.hash(p))
  }

  function UserIdPrefix(): string { "user-" }

  function GetUserById(users: seq<User>, userId: string): (r: Result<UserView>)
    ensures r == Err(NotFound) <==> !Any(users, KeyIs(UserId, userId))
    ensures r.Err? ==> r.error == NotFound
    ensures r.Ok? ==> exists u :: u in users && u.id == userId && r.value == UserView(u.id, u.username, u.fullname)
  {
    match Find(users, KeyIs(UserId, userId))
    case None => Err(NotFound)
    case Some(u) => Ok(UserView(u.id, u.username, u.fullname))
  }

  /** Under the primary key, the user found is the one row with that id. */
  lemma GetUserByIdIsTheRow(users: seq<User>, i: nat)
    requires UniqueBy(users, UserId) && i < |users|
    ensures GetUserById(users, users[i].id) == Ok(UserView(users[i].id, users[i].username, users[i].fullname))
  {
    FindUnique(users, UserId, i);
  }

  function VerifyNewUsername(users: seq<User>, username: string): (r: Outcome)
    ensures r == Pass <==> !Any(users, KeyIs(Username, username))
    ensures r != Pass ==> r == Fail(Invariant)
  {
    if Count(users, KeyIs(Username, username)) > 0 then Fail(Invariant) else Pass
  }

  function VerifyUserExists(users: seq<User>, userId: string): (r: Outcome)
    ensures r == Pass <==> Any(users, KeyIs(UserId, userId))
    ensures r != Pass ==> r == Fail(NotFound)
  {
    if Count(users, KeyIs(UserId, userId)) == 0 then Fail(NotFound) else Pass
  }

  /**
   * Login: the id of the user with that username whose stored hash matches the
   * password. An unknown username and a wrong password give the same error.
   */
  function VerifyUserCredential(users: seq<User>, username: string, password: string,
                                compare: (string, string) -> bool): (r: Result<string>)
    ensures r.Err? ==> r == Err(Authentication)
    ensures !Any(users, KeyIs(Username, username)) ==> r == Err(Authentication)
    ensures r.Ok? ==> exists u :: u in users && u.username == username && compare(password, u.password) && u.id == r.value
  {
    match Find(users, KeyIs(Username, username))
    case None => Err(Authentication)
    case Some(u) => if compare(password, u.password) then Ok(u.id) else Err(Authentication)
  }

  /** With unique usernames, the credential check is decided by that user's stored hash alone. */
  lemma CredentialOfUser(users: seq<User>, i: nat, password: string, compare: (string, string) -> bool)
    requires UniqueBy(users, Username) && i < |users|
    ensures VerifyUserCredential(users, users[i].username, password, compare)
         == if compare(password, users[i].password) then Ok(users[i].id) else Err(Authentication)
  {
    FindUnique(users, Username, i);
  }

  /** A user registered with a fresh username can log in with the password given at registration. */
  lemma RegisteredUserCanLogIn(users: seq<User>, id: string, username: string, password: string,
                               fullname: string, hasher: PasswordHasher)
    requires Sound(hasher)
    requires VerifyNewUsername(users, username) == Pass
    ensures VerifyUserCredential(users + [User(id, username, hasher.hash(password), fullname)],
                                 username, password, hasher.compare) == Ok(id)
  {
    var row := User(id, username, hasher.hash(password), fullname);
    assert KeyIs(Username, username)(row) == (Username(row) == username);
    FindAppend(users, row, KeyIs(Username, username));
  }

  class UsersService {
    const pool: Database

    constructor (pool: Database)
      ensures this.pool == pool
    {
      this.pool := pool;
    }

    /**
     * Registers a user: a taken username fails before anything is hashed or inserted;
     * otherwise one row `user-<suffix>` holding the hash of the password is inserted.
     */
    method AddUser(username: string, password: string, fullname: string, suffix: string,
                   hasher: PasswordHasher) returns (r: Result<string>)
      requires pool.Valid()
      requires !Any(pool.users, KeyIs(UserId, UserIdPrefix() + suffix))
      modifies pool`users
      ensures pool.Valid()
      ensures old(VerifyNewUsername(pool.users, username)) == Fail(Invariant) ==>
                r == Err(Invariant) && pool.users == old(pool.users)
      ensures old(VerifyNewUsername(pool.users, username)) == Pass ==>
                && r == Ok(UserIdPrefix() + suffix)
                && pool.users == old(pool.users) + [User(UserIdPrefix() + suffix, username, hasher.hash(password), fullname)]
    {
      var check := VerifyNewUsername(pool.users, username);
      if check.Fail? {
        return Err(check.error);
      }
      var id := UserIdPrefix() + suffix;
      var hashedPassword := hasher.hash(password);
      var row := User(id, username, hashedPassword, fullname);
      AppendUnique(pool.users, row, UserId);
      AppendUnique(pool.users, row, Username);
      pool.users := pool.users + [row];
      r := Ok(id);
    }
  }
}
