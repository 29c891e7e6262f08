/**
 * Account handlers: `register` validates, refuses a taken email and stores a password hash
 * without logging the user in; `login` checks credentials, signs a one-day token over
 * {id, email, role} and sets it as an http-only cookie; `logout` clears that cookie.
 * The salted hash, the hash comparison and the token signer are parameters.
 */
module AuthController {
  import opened Common
  import opened Db
  import opened AuthMiddleware

  /** What the handlers return about a user: never the password hash. */
  datatype PublicUser = PublicUser(id: int, email: string, name: string, role: string)

  /** The reply's view of user `id`: its id, email, name and role. */
  function PublicOf(id: int, u: User): (r: PublicUser)
    ensures r.id == id && r.email == u.email && r.name == u.name && r.role == u.role
  {
    PublicUser(id, u.email, u.name, u.role)
  }

  /** The public view does not depend on the stored hash. */
  lemma PublicOfIgnoresPassword(id: int, u: User, hash: string)
    ensures PublicOf(id, u.(password := hash)) == PublicOf(id, u)
  {
  }

  /** Every user id lies in [1, bound): `bound` is the table's next id. */
  predicate IdsBelow(users: map<int, User>, bound: int) {
    forall id :: id in users ==> 1 <= id < bound
  }

  /** The lowest id in [from, bound) of a user with this email (the email is unique in the table). */
  function UserWithEmail(users: map<int, User>, email: string, from: int, bound: int): (r: Option<int>)
    ensures r.Some? ==> from <= r.value < bound && r.value in users && users[r.value].email == email
    ensures r.None? ==> forall id :: from <= id < bound && id in users ==> users[id].email != email
    decreases bound - from
  {
    if from >= bound then None
    else if from in users && users[from].email == email then Some(from)
    else UserWithEmail(users, email, from + 1, bound)
  }

  /** Some user has this email. */
  predicate EmailTaken(users: map<int, User>, email: string) {
    exists id :: id in users && users[id].email == email
  }

  /** `register`'s checks, in order: all three fields present and non-empty, then the email free. */
  function RegisterCheck(users: map<int, User>, email: Option<string>, password: Option<string>, name: Option<string>): (r: Reply<()>)
    ensures r.Ok? <==> TruthyString(email) && TruthyString(password) && TruthyString(name) && !EmailTaken(users, email.value)
    ensures !(TruthyString(email) && TruthyString(password) && TruthyString(name)) ==> r == Err(400, "All fields are required")
    ensures TruthyString(email) && TruthyString(password) && TruthyString(name) && EmailTaken(users, email.value) ==>
              r == Err(400, "Email already exists")
    ensures r.Ok? ==> r.status == 201
  {
    if !TruthyString(email) || !TruthyString(password) || !TruthyString(name) then Err(400, "All fields are required")
    else if EmailTaken(users, email.value) then Err(400, "Email already exists")
    else Ok(201, ())
  }

  /** Once an email is registered, registering it again is refused whatever the other fields. */
  lemma SecondRegistrationRefused(users: map<int, User>, id: int, u: User, password: Option<string>, name: Option<string>)
    requires u.email != []
    requires TruthyString(password) && TruthyString(name)
    ensures RegisterCheck(users[id := u], Some(u.email), password, name) == Err(400, "Email already exists")
  {
    assert users[id := u][id].email == u.email;
  }

  /**
   * `register`: on success the user is stored with the hash `hashed` of the password and the
   * table's default role, and only its public fields are returned; no cookie is set.
   */
  method Register(db: Database, email: Option<string>, password: Option<string>, name: Option<string>,
                  hashed: string, defaultRole: string) returns (r: Reply<PublicUser>)
    requires db.Valid()
    modifies db`users, db`nextUserId
    ensures db.Valid()
    ensures RegisterCheck(old(db.users), email, password, name).Err? ==>
              r == Err(400, RegisterCheck(old(db.users), email, password, name).message) && unchanged(db)
    ensures RegisterCheck(old(db.users), email, password, name).Ok? ==>
              && var u := User(email.value, hashed, name.value, defaultRole);
                 r == Ok(201, PublicOf(old(db.nextUserId), u))
                 && db.users == old(db.users)[old(db.nextUserId) := u]
                 && db.nextUserId == old(db.nextUserId) + 1
  {
    var check := RegisterCheck(db.users, email, password, name);
    if check.Err? {
      return Err(400, check.message);
    }
    var id := db.nextUserId;
    var u := User(email.value, hashed, name.value, defaultRole);
    db.users := db.users[id := u];
    db.nextUserId := id + 1;
    r := Ok(201, PublicOf(id, u));
  }

  /** What `jwt.sign` is asked to sign: the claims and the lifetime. */
  datatype TokenRequest = TokenRequest(claims: Claims, expiresIn: string)

  /** A `Set-Cookie` the handler asks for, or the clearing of one. */
  datatype CookieAction =
    | SetCookie(name: string, value: string, httpOnly: bool, secure: bool, sameSite: string, maxAge: int, path: string)
    | ClearCookie(name: string)

  const TokenCookie := "token"
  const OneDayMs := 24 * 60 * 60 * 1000

  datatype LoginReply = LoginReply(cookie: CookieAction, user: PublicUser)

  /**
   * `login`, with `compare` for `bcrypt.compare`, `sign` for `jwt.sign` under the server secret,
   * and `production` for the secure flag. An unknown email and a wrong password get the
   * same reply.
   */
  function Login(users: map<int, User>, bound: int, email: Option<string>, password: Option<string>,
                 compare: (string, string) -> bool, sign: TokenRequest -> string, production: bool): (r: Reply<LoginReply>)
    requires IdsBelow(users, bound)
    ensures !(TruthyString(email) && TruthyString(password)) ==> r == Err(400, "Email and password are required")
    ensures TruthyString(email) && TruthyString(password) && UserWithEmail(users, email.value, 1, bound).None? ==>
              r == Err(401, "Invalid credentials")
    ensures TruthyString(email) && TruthyString(password) && !EmailTaken(users, email.value) ==>
              r == Err(401, "Invalid credentials")
    ensures TruthyString(email) && TruthyString(password) ==>
              (UserWithEmail(users, email.value, 1, bound).Some? <==> EmailTaken(users, email.value))
    ensures r.Ok? <==>
              && TruthyString(email) && TruthyString(password)
              && UserWithEmail(users, email.value, 1, bound).Some?
              && compare(password.value, users[UserWithEmail(users, email.value, 1, bound).value].password)
    ensures r.Err? ==> r.status == 400 || r == Err(401, "Invalid credentials")
    ensures r.Ok? ==>
              && var id := UserWithEmail(users, email.value, 1, bound).value;
                 r.status == 200 && r.body.user == PublicOf(id, users[id])
                 && r.body.cookie == SetCookie(TokenCookie, sign(TokenRequest(Claims(id, users[id].email, users[id].role), "1d")),
                                               true, production, "lax", OneDayMs, "/")
  {
    if !TruthyString(email) || !TruthyString(password) then Err(400, "Email and password are required")
    else match UserWithEmail(users, email.value, 1, bound)
      case None => Err(401, "Invalid credentials")
      case Some(id) =>
        var u := users[id];
        if !compare(password.value, u.password) then Err(401, "Invalid credentials")
        else
          var token := sign(TokenRequest(Claims(id, u.email, u.role), "1d"));
          Ok(200, LoginReply(SetCookie(TokenCookie, token, true, production, "lax", OneDayMs, "/"), PublicOf(id, u)))
  }

  /**
   * A freshly registered user can log in with the password they chose, provided the
   * comparison accepts a password against its own hash; the token names the new id.
   */
  lemma RegisteredUserCanLogIn(db: Database, email: string, password: string, name: string, hashed: string, role: string,
                               compare: (string, string) -> bool, sign: TokenRequest -> string, production: bool)
    requires db.Valid()
    requires RegisterCheck(db.users, Some(email), Some(password), Some(name)).Ok?
    requires compare(password, hashed)
    ensures var id := db.nextUserId;
      var r := Login(db.users[id := User(email, hashed, name, role)], id + 1, Some(email), Some(password), compare, sign, production);
      r.Ok? && r.body.user == PublicUser(id, email, name, role)
  {
    var id := db.nextUserId;
    var users := db.users[id := User(email, hashed, name, role)];
    var found := UserWithEmail(users, email, 1, id + 1);
    assert users[id].email == email;
    assert found == Some(id);
  }

  /** `logout`: the cookie is cleared whatever the request carries. */
  function Logout(): (r: (CookieAction, Reply<string>))
    ensures r.1.Ok? && r.1.status == 200
    ensures r.0.ClearCookie?
  {
    (ClearCookie(TokenCookie), Ok(200, "Logged out"))
  }

  /** Logout clears exactly the cookie login sets. */
  lemma LogoutClearsLoginCookie(users: map<int, User>, bound: int, email: Option<string>, password: Option<string>,
                                compare: (string, string) -> bool, sign: TokenRequest -> string, production: bool)
    requires IdsBelow(users, bound)
    requires Login(users, bound, email, password, compare, sign, production).Ok?
    ensures Logout().0.name == Login(users, bound, email, password, compare, sign, production).body.cookie.name
  {
  }
}
