/** The user handlers: the public listing, signup and login. bcrypt and jwt are the functions
    of a Crypto value; store failures are boolean parameters. */
module UsersControllers {
  import opened HttpErrors
  import opened Models
  import opened Database
  import UserRoutes
  import CheckAuth

  /** A user as listed: every stored field except the password digest. */
  datatype UserView = UserView(id: UserId, name: string, email: string, image: Image, places: seq<PlaceId>)

  /** The body of a successful signup or login. */
  datatype AuthReply = AuthReply(userId: UserId, email: string, token: string)

  /** `bcrypt.hash(plaintext, cost)`, `bcrypt.compare(plaintext, digest)` (None when it throws)
      and `jwt.sign(payload, key, {expiresIn})` (None when it throws). */
  datatype Crypto = Crypto(
    hash: (string, nat) -> string,
    compare: (string, string) -> Option<bool>,
    sign: (CheckAuth.Claims, string) -> Option<string>)

  const HashCost: nat := 12
  const TokenLifetime := "1h"

  const FetchUsersFailed := Coded("Fetching users failed please try again later", 500)
  const InvalidSignupInputs := Coded("Could not create user, invalid inputs", 422)
  const SignupLookupFailed := Coded("Signup failed please try again later", 500)
  const UserExists := Coded("Could not create user, user already exists", 422)
  const SignupFailed := Coded("Sign up failed please try again later", 500)
  const LoginLookupFailed := Coded("Signup failed please try again later", 500)
  const InvalidCredentials := Coded("Invalid credentials could not log you in", 403)
  const CompareFailed := Coded("Could not log you in, something went wrong please try again later", 500)
  const LoginFailed := Coded("Log in failed please try again later", 500)

  function View(id: UserId, u: User): (v: UserView)
  {
    UserView(id, u.name, u.email, u.image, u.places)
  }

  /** The view depends on everything but the password: two users that differ only in their
      password digest are listed identically, and the view keeps every other field. */
  lemma ViewOmitsPassword(id: UserId, u: User, digest: string)
    ensures View(id, u) == View(id, u.(password := digest))
    ensures var v := View(id, u); v.name == u.name && v.email == u.email && v.image == u.image && v.places == u.places
  {
  }

  /** GET /api/users: every stored user, password projected out; an empty store is a valid
      empty list. */
  method GetUsers(db: Store, readFails: bool) returns (r: Outcome<map<UserId, UserView>>)
    ensures readFails ==> r == Failure(FetchUsersFailed)
    ensures !readFails ==> r.Success? && r.status == 200
    ensures r.Success? ==> r.value.Keys == db.tables.users.Keys
    ensures r.Success? ==> forall id :: id in r.value ==> r.value[id] == View(id, db.tables.users[id])
  {
    if readFails {
      return Failure(FetchUsersFailed);
    }
    r := Success(200, map id | id in db.tables.users :: View(id, db.tables.users[id]));
  }

  /** The document signup saves: the hash of the password, and no places. */
  function NewUser(name: string, email: string, password: string, upload: Upload, crypto: Crypto): (u: User)
  {
    User(name, email, crypto.hash(password, HashCost), Image(upload.path, upload.filename), [])
  }

  /** The route's checks, a stored upload, a non-empty normalized address and a digest of at
      least six characters give a document the schema accepts. */
  lemma CheckedSignupSavesValidUser(name: string, email: string, password: string, upload: Upload,
                                    rules: UserRoutes.EmailRules, crypto: Crypto)
    requires UserRoutes.SignupInputsValid(name, email, password, rules)
    requires upload.path != "" && upload.filename != "" && rules.normalize(email) != ""
    requires |crypto.hash(password, HashCost)| >= PasswordMinLength
    ensures UserValid(NewUser(name, rules.normalize(email), password, upload, crypto))
    ensures NewUser(name, rules.normalize(email), password, upload, crypto).places == []
  {
  }

  /** POST /api/users/signup. The body's email has already been normalized by the route's
      sanitizer. If signing the token fails, the user has already been saved. */
  method Signup(db: Store, name: string, email: string, password: string, upload: Upload,
                rules: UserRoutes.EmailRules, crypto: Crypto, readFails: bool, saveFails: bool)
    returns (r: Outcome<AuthReply>)
    requires db.Valid()
    modifies db
    ensures db.Valid()
    ensures !r.NoResponse?
    ensures var stored := rules.normalize(email);
      var user := NewUser(name, stored, password, upload, crypto);
      && (!UserRoutes.SignupInputsValid(name, email, password, rules) ==> r == Failure(InvalidSignupInputs) && unchanged(db))
      && (UserRoutes.SignupInputsValid(name, email, password, rules) ==>
           if readFails then r == Failure(SignupLookupFailed) && unchanged(db)
           else if EmailTaken(old(db.tables.users), stored) then r == Failure(UserExists) && unchanged(db)
           else if saveFails || !UserValid(user) then r == Failure(SignupFailed) && unchanged(db)
           else
             && db.tables == InsertUser(old(db.tables), old(db.nextUserId), user)
             && old(db.nextUserId) !in old(db.tables.users)
             && match crypto.sign(CheckAuth.Claims(old(db.nextUserId), stored), TokenLifetime)
                case None => r == Failure(SignupFailed)
                case Some(token) => r == Success(201, AuthReply(old(db.nextUserId), stored, token)))
  {
    if !UserRoutes.SignupInputsValid(name, email, password, rules) {
      return Failure(InvalidSignupInputs);
    }
    var stored := rules.normalize(email);
    if readFails {
      return Failure(SignupLookupFailed);
    }
    if EmailTaken(db.tables.users, stored) {
      return Failure(UserExists);
    }
    var user := NewUser(name, stored, password, upload, crypto);
    var id, saved := db.InsertUserChecked(user, saveFails);
    if !saved {
      return Failure(SignupFailed);
    }
    var token := crypto.sign(CheckAuth.Claims(id, stored), TokenLifetime);
    if token.None? {
      return Failure(SignupFailed);
    }
    r := Success(201, AuthReply(id, stored, token.value));
  }

  /** POST /api/users/login. The email is looked up as given (login has no sanitizer). An
      unknown email and a wrong password get the same 403. */
  method Login(db: Store, email: string, password: string, crypto: Crypto, readFails: bool)
    returns (r: Outcome<AuthReply>)
    requires EmailsUnique(db.tables.users)
    ensures !r.NoResponse?
    ensures readFails ==> r == Failure(LoginLookupFailed)
    ensures !readFails && !EmailTaken(db.tables.users, email) ==> r == Failure(InvalidCredentials)
    ensures !readFails ==> forall id :: id in db.tables.users && db.tables.users[id].email == email ==>
      match crypto.compare(password, db.tables.users[id].password)
      case None => r == Failure(CompareFailed)
      case Some(false) => r == Failure(InvalidCredentials)
      case Some(true) =>
        match crypto.sign(CheckAuth.Claims(id, email), TokenLifetime)
        case None => r == Failure(LoginFailed)
        case Some(token) => r == Success(200, AuthReply(id, email, token))
  {
    if readFails {
      return Failure(LoginLookupFailed);
    }
    if !EmailTaken(db.tables.users, email) {
      return Failure(InvalidCredentials);
    }
    var id :| id in db.tables.users && db.tables.users[id].email == email;
    var valid := crypto.compare(password, db.tables.users[id].password);
    if valid.None? {
      return Failure(CompareFailed);
    }
    if !valid.value {
      return Failure(InvalidCredentials);
    }
    var token := crypto.sign(CheckAuth.Claims(id, email), TokenLifetime);
    if token.None? {
      return Failure(LoginFailed);
    }
    r := Success(200, AuthReply(id, email, token.value));
  }
}
