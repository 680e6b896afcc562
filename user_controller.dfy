/**
 * `server/controllers/user.ts`: the legacy API's accounts. Admins sign up
 * themselves, admins add users, and both log in through one endpoint that
 * looks in the user collection first and the admin collection second.
 * Passwords are stored as salted bcrypt hashes and logins answer a signed
 * JSON Web Token (RFC 7519) whose payload is `{userId, email}`.
 *
 * bcrypt and `jwt.sign` are parameters: `hash(password, salt)`,
 * `compare(password, stored)` and `sign(payload, secret)`, the last either a
 * token or the message of the error it throws. The salt of `genSalt(10)` and
 * the `_id` a new document receives are parameters too. `save()` is not
 * awaited by the source, so whether the document reaches the collection is a
 * parameter (`saved`) that never changes the answer. `fault` is the message
 * of an exception thrown by an awaited store or bcrypt call.
 */
module UserController {
  import opened Wrappers
  import opened TaskQuery

  const USER_EXISTS := "User already exists"
  const NOT_SIGNED_UP := "You are not signed up. Sign up first"
  const INVALID_PASSWORD := "Invalid Password"

  /** `server/model/admin.ts` and `server/model/user.ts`, with `_id`. */
  datatype Admin = Admin(id: string, firstName: string, lastName: string, email: string, password: string)
  datatype User = User(id: string, adminId: string, firstName: string, lastName: string,
                       email: string, password: string)

  /** The fields the handlers read from `req.body`. */
  datatype AccountBody = AccountBody(firstName: string, lastName: string, email: string, password: string)
  datatype LoginBody = LoginBody(email: string, password: string)

  /** `UserPayload`. */
  datatype TokenPayload = TokenPayload(userId: string, email: string)

  /** What a handler sends. */
  datatype Reply =
    | AlreadyExists                                               // 200 {error}
    | SignedUp(admin: Admin, token: string)                       // 201 {data: {user, token}}
    | UserAdded(added: User)                                      // 201 {user}
    | NotSignedUp                                                 // 404
    | InvalidPassword                                             // 400
    | LoggedIn(user: Option<User>, token: string, accountType: string)  // 201 {data: {user, token, type}}
    | UsersFetched(users: seq<User>)                              // 200 {data}
    | ServerError(message: string)                                // 500, the error's message

  function StatusOf(r: Reply): int {
    match r
    case AlreadyExists => 200
    case SignedUp(_, _) => 201
    case UserAdded(_) => 201
    case NotSignedUp => 404
    case InvalidPassword => 400
    case LoggedIn(_, _, _) => 201
    case UsersFetched(_) => 200
    case ServerError(_) => 500
  }

  /** `findOne(filter)`: the first document, in collection order, that
      matches, and `None` exactly when none does. */
  function FindFirst<T>(s: seq<T>, matches: T -> bool): (r: Option<T>)
    ensures r.None? <==> forall i | 0 <= i < |s| :: !matches(s[i])
    ensures r.Some? ==> r.value in s && matches(r.value)
    ensures forall i | 0 <= i < |s| && matches(s[i]) && (forall j | 0 <= j < i :: !matches(s[j])) ::
              r == Some(s[i])
  {
    if s == [] then None
    else if matches(s[0]) then Some(s[0])
    else FindFirst(s[1..], matches)
  }

  function AdminHasEmail(email: string): Admin -> bool {
    (a: Admin) => a.email == email
  }

  function UserHasEmail(email: string): User -> bool {
    (u: User) => u.email == email
  }

  function UserOfAdmin(adminId: string): User -> bool {
    (u: User) => u.adminId == adminId
  }

  /** `process.env.JWT_SECRET_KEY || ""`. */
  function SecretOrEmpty(secret: Option<string>): (k: string)
    ensures secret.Some? ==> k == secret.value
    ensures secret.None? ==> k == ""
  {
    secret.GetOr("")
  }

  /** A successful login answer, or a 500 when signing throws. */
  function IssueLogin(account: TokenPayload, user: Option<User>, accountType: string,
                      sign: (TokenPayload, string) -> Result<string, string>, secret: Option<string>): (r: Reply)
    ensures sign(account, SecretOrEmpty(secret)).Success? ==>
              r == LoggedIn(user, sign(account, SecretOrEmpty(secret)).value, accountType)
    ensures sign(account, SecretOrEmpty(secret)).Failure? ==>
              r == ServerError(sign(account, SecretOrEmpty(secret)).error)
  {
    match sign(account, SecretOrEmpty(secret))
    case Success(token) => LoggedIn(user, token, accountType)
    case Failure(message) => ServerError(message)
  }

  /** The two Mongo collections. */
  class AccountStores {
    var admins: seq<Admin>
    var users: seq<User>

    constructor (admins: seq<Admin>, users: seq<User>)
      ensures this.admins == admins && this.users == users
    {
      this.admins := admins;
      this.users := users;
    }

    /** `signup`: only the admin collection is searched. A taken email is
        answered 200 "User already exists" with nothing stored; otherwise an
        admin holding the HASH of the password (never the password) is
        stored, when its unawaited save succeeds, and answered 201 with a
        token for `{_id, email}` — or 500 if signing throws, by which time the
        save has been started. The user collection never changes. */
    method Signup(body: AccountBody, salt: string, hash: (string, string) -> string,
                  sign: (TokenPayload, string) -> Result<string, string>, secret: Option<string>,
                  newId: string, saved: bool, fault: Option<string>) returns (r: Reply)
      modifies this
      ensures users == old(users)
      ensures fault.Some? ==> r == ServerError(fault.value) && admins == old(admins)
      ensures fault.None? && FindFirst(old(admins), AdminHasEmail(body.email)).Some? ==>
                r == AlreadyExists && admins == old(admins)
      ensures fault.None? && FindFirst(old(admins), AdminHasEmail(body.email)).None? ==>
                var admin := Admin(newId, body.firstName, body.lastName, body.email, hash(body.password, salt));
                var signed := sign(TokenPayload(newId, body.email), SecretOrEmpty(secret));
                && admins == old(admins) + (if saved then [admin] else [])
                && r == (if signed.Success? then SignedUp(admin, signed.value) else ServerError(signed.error))
    {
      if fault.Some? {
        return ServerError(fault.value);
      }
      var existing := FindFirst(admins, AdminHasEmail(body.email));
      if existing.Some? {
        return AlreadyExists;
      }
      var hashedPassword := hash(body.password, salt);
      var admin := Admin(newId, body.firstName, body.lastName, body.email, hashedPassword);
      if saved {
        admins := admins + [admin];
      }
      var signed := sign(TokenPayload(admin.id, body.email), SecretOrEmpty(secret));
      if signed.Failure? {
        return ServerError(signed.error);
      }
      r := SignedUp(admin, signed.value);
    }

    /** `add_user`, behind `authenticateAdmin` (`adminId` is `req.user`): only
        the user collection is searched; a taken email is answered 200 "User
        already exists" with nothing stored; otherwise a user owned by the
        calling admin and holding the password's hash is stored (when saved)
        and answered 201. The token it signs is never sent, but a signing
        failure still turns the answer into a 500. */
    method AddUser(adminId: string, body: AccountBody, salt: string, hash: (string, string) -> string,
                   sign: (TokenPayload, string) -> Result<string, string>, secret: Option<string>,
                   newId: string, saved: bool, fault: Option<string>) returns (r: Reply)
      modifies this
      ensures admins == old(admins)
      ensures fault.Some? ==> r == ServerError(fault.value) && users == old(users)
      ensures fault.None? && FindFirst(old(users), UserHasEmail(body.email)).Some? ==>
                r == AlreadyExists && users == old(users)
      ensures fault.None? && FindFirst(old(users), UserHasEmail(body.email)).None? ==>
                var user := User(newId, adminId, body.firstName, body.lastName, body.email, hash(body.password, salt));
                var signed := sign(TokenPayload(newId, body.email), SecretOrEmpty(secret));
                && users == old(users) + (if saved then [user] else [])
                && r == (if signed.Success? then UserAdded(user) else ServerError(signed.error))
    {
      if fault.Some? {
        return ServerError(fault.value);
      }
      var existing := FindFirst(users, UserHasEmail(body.email));
      if existing.Some? {
        return AlreadyExists;
      }
      var hashedPassword := hash(body.password, salt);
      var user := User(newId, adminId, body.firstName, body.lastName, body.email, hashedPassword);
      if saved {
        users := users + [user];
      }
      var signed := sign(TokenPayload(user.id, body.email), SecretOrEmpty(secret));
      if signed.Failure? {
        return ServerError(signed.error);
      }
      r := UserAdded(user);
    }

    /** `login`: the user collection decides whenever it holds the email,
        whatever the admins hold; only otherwise is the admin collection
        consulted. 404 when neither holds it, 400 and no token when the
        password does not match the stored hash, otherwise 201 with a token
        of the matched account's `{_id, email}` and its type — with `user`
        `null` in the admin case. Nothing is stored. */
    method Login(body: LoginBody, compare: (string, string) -> bool,
                 sign: (TokenPayload, string) -> Result<string, string>, secret: Option<string>,
                 fault: Option<string>) returns (r: Reply)
      ensures fault.Some? ==> r == ServerError(fault.value)
      ensures fault.None? && FindFirst(users, UserHasEmail(body.email)).Some? ==>
                var u := FindFirst(users, UserHasEmail(body.email)).value;
                r == if !compare(body.password, u.password) then InvalidPassword
                     else IssueLogin(TokenPayload(u.id, body.email), Some(u), "user", sign, secret)
      ensures (fault.None? && FindFirst(users, UserHasEmail(body.email)).None?
               && FindFirst(admins, AdminHasEmail(body.email)).Some?) ==>
                var a := FindFirst(admins, AdminHasEmail(body.email)).value;
                r == if !compare(body.password, a.password) then InvalidPassword
                     else IssueLogin(TokenPayload(a.id, body.email), None, "admin", sign, secret)
      ensures (fault.None? && FindFirst(users, UserHasEmail(body.email)).None?
               && FindFirst(admins, AdminHasEmail(body.email)).None?) ==> r == NotSignedUp
      ensures r.LoggedIn? ==> r.accountType in {"user", "admin"} && (r.user.None? <==> r.accountType == "admin")
    {
      if fault.Some? {
        return ServerError(fault.value);
      }
      var userData := FindFirst(users, UserHasEmail(body.email));
      if userData.None? {
        var admin := FindFirst(admins, AdminHasEmail(body.email));
        if admin.None? {
          return NotSignedUp;
        }
        if !compare(body.password, admin.value.password) {
          return InvalidPassword;
        }
        return IssueLogin(TokenPayload(admin.value.id, body.email), None, "admin", sign, secret);
      }
      if !compare(body.password, userData.value.password) {
        return InvalidPassword;
      }
      r := IssueLogin(TokenPayload(userData.value.id, body.email), userData, "user", sign, secret);
    }

    /** `get_users`, behind `authenticateAdmin`: exactly the users the calling
        admin owns, in collection order. */
    method GetUsers(adminId: string, fault: Option<string>) returns (r: Reply)
      ensures fault.Some? ==> r == ServerError(fault.value)
      ensures fault.None? ==> r.UsersFetched?
                              && (forall u :: u in r.users <==> u in users && u.adminId == adminId)
                              && multiset(r.users) <= multiset(users)
                              && r.users == Filter(UserOfAdmin(adminId), users)
    {
      if fault.Some? {
        return ServerError(fault.value);
      }
      FilterExactly(UserOfAdmin(adminId), users);
      r := UsersFetched(Filter(UserOfAdmin(adminId), users));
    }
  }

  /** A new admin can log in with the password it signed up with: the stored
      hash matches it (bcrypt's promise, assumed of `hash` and `compare`), no
      user holds the email, and the token answered is the one for the new
      admin's id. */
  method SignupThenLogin(stores: AccountStores, body: AccountBody, salt: string,
                         hash: (string, string) -> string, compare: (string, string) -> bool,
                         sign: (TokenPayload, string) -> Result<string, string>, secret: Option<string>,
                         newId: string) returns (first: Reply, second: Reply)
    requires forall p, s :: compare(p, hash(p, s))
    requires FindFirst(stores.users, UserHasEmail(body.email)).None?
    requires FindFirst(stores.admins, AdminHasEmail(body.email)).None?
    requires sign(TokenPayload(newId, body.email), SecretOrEmpty(secret)).Success?
    modifies stores
    ensures first.SignedUp? && first.admin.id == newId && first.admin.password == hash(body.password, salt)
    ensures second == LoggedIn(None, first.token, "admin")
  {
    first := stores.Signup(body, salt, hash, sign, secret, newId, true, None);
    var admin := Admin(newId, body.firstName, body.lastName, body.email, hash(body.password, salt));
    AppendedIsFound(stores.admins[..|stores.admins| - 1], admin, AdminHasEmail(body.email));
    second := stores.Login(LoginBody(body.email, body.password), compare, sign, secret, None);
  }

  /** An email in neither collection, appended, is found at the end. */
  lemma AppendedIsFound<T>(s: seq<T>, x: T, matches: T -> bool)
    requires forall i | 0 <= i < |s| :: !matches(s[i])
    requires matches(x)
    ensures FindFirst(s + [x], matches) == Some(x)
  {
    var t := s + [x];
    assert t[|s|] == x;
    assert forall j | 0 <= j < |s| :: t[j] == s[j];
  }

  /** Signup looks only at the admins: an email a user already has can sign
      up as an admin, and then belongs to both collections. */
  method SignupIgnoresUsers(user: User, salt: string, hash: (string, string) -> string,
                            sign: (TokenPayload, string) -> Result<string, string>, secret: Option<string>,
                            newId: string) returns (stores: AccountStores, r: Reply)
    ensures StatusOf(r) in {201, 500}
    ensures exists a | a in stores.admins :: a.email == user.email
    ensures user in stores.users
  {
    stores := new AccountStores([], [user]);
    r := stores.Signup(AccountBody(user.firstName, user.lastName, user.email, "secret"),
                       salt, hash, sign, secret, newId, true, None);
    assert stores.admins[0].email == user.email;
  }

  /** A user an admin adds is listed for that admin. */
  method AddThenList(stores: AccountStores, adminId: string, body: AccountBody, salt: string,
                     hash: (string, string) -> string, sign: (TokenPayload, string) -> Result<string, string>,
                     secret: Option<string>, newId: string) returns (listed: Reply)
    requires FindFirst(stores.users, UserHasEmail(body.email)).None?
    modifies stores
    ensures listed.UsersFetched?
    ensures User(newId, adminId, body.firstName, body.lastName, body.email, hash(body.password, salt)) in listed.users
  {
    var added := stores.AddUser(adminId, body, salt, hash, sign, secret, newId, true, None);
    listed := stores.GetUsers(adminId, None);
    assert stores.users[|stores.users| - 1]
        == User(newId, adminId, body.firstName, body.lastName, body.email, hash(body.password, salt));
  }
}
