/** The mounted authentication routes (`routes/auth.ts`): `/signup` and
    `/login`. Email validation and normalisation belong to the validator
    library and are passed in as functions; so is token signing. */
module AuthRoutes {
  import opened Wrappers
  import opened Store
  import opened AuthMiddleware

  datatype SignupRequest = SignupRequest(email: string, password: string, role: string)

  /** `password` may be absent from a login body (`body('password').exists()`). */
  datatype LoginRequest = LoginRequest(email: string, password: Option<string>)

  datatype Body =
    | Authenticated(message: string, token: string, user: RequestUser)
    | ValidationErrors(fields: seq<string>)
    | Failure(error: string)

  datatype Reply = Reply(status: nat, body: Body)

  const MinPasswordLength: nat := 6

  /** `isIn(['psp', 'dev'])`. */
  function RoleOf(role: string): Option<Role> {
    if role == "psp" then Some(Psp) else if role == "dev" then Some(Dev) else None
  }

  /** The fields the signup validators reject, in declaration order. */
  function SignupInvalidFields(req: SignupRequest, isEmail: string -> bool): (fields: seq<string>)
    ensures fields == [] <==> isEmail(req.email) && |req.password| >= MinPasswordLength && RoleOf(req.role).Some?
  {
    (if isEmail(req.email) then [] else ["email"])
    + (if |req.password| >= MinPasswordLength then [] else ["password"])
    + (if RoleOf(req.role).Some? then [] else ["role"])
  }

  /** The fields the login validators reject, in declaration order. */
  function LoginInvalidFields(req: LoginRequest, isEmail: string -> bool): (fields: seq<string>)
    ensures fields == [] <==> isEmail(req.email) && req.password.Some?
  {
    (if isEmail(req.email) then [] else ["email"]) + (if req.password.Some? then [] else ["password"])
  }

  const InvalidCredentials := Reply(401, Failure("Invalid credentials"))
  const ServerError := Reply(500, Failure("Internal server error"))

  /** `POST /signup`. Invalid input answers 400 and touches nothing; a
      taken (normalised) email answers 409 and creates nothing; otherwise
      the plaintext password goes to the store, which hashes it, and the
      answer is 201 with a token for the new id and the new user's id,
      email and role. A store fault answers 500. */
  method Signup(db: Database, req: SignupRequest, isEmail: string -> bool, normalize: string -> string,
                sign: Claims -> string, now: nat, lookupFault: bool, insertFault: bool)
    returns (reply: Reply)
    requires db.Valid()
    modifies db
    ensures db.Valid()
    ensures db.transactions == old(db.transactions) && db.statusWrites == old(db.statusWrites)
    ensures var email := normalize(req.email);
            var created := User(old(db.lastUserId) + 1, email, Digest(Plain(req.password), UserHashRounds),
                                RoleOf(req.role).GetOr(Psp), now);
            if SignupInvalidFields(req, isEmail) != [] then
              reply == Reply(400, ValidationErrors(SignupInvalidFields(req, isEmail))) && db.users == old(db.users)
            else if lookupFault then
              reply == ServerError && db.users == old(db.users)
            else if UserWithEmail(old(db.users), email).Some? then
              reply == Reply(409, Failure("User already exists")) && db.users == old(db.users)
            else if insertFault then
              reply == ServerError && db.users == old(db.users)
            else
              && db.users == old(db.users) + [created]
              && reply == Reply(201, Authenticated("User created successfully", GenerateToken(sign, created.id, now),
                                                   RequestUserOf(created)))
  {
    var invalid := SignupInvalidFields(req, isEmail);
    if invalid != [] {
      return Reply(400, ValidationErrors(invalid));
    }
    var email := normalize(req.email);
    var existing := db.FindUserByEmail(email, lookupFault);
    if existing.Err? {
      return ServerError;
    }
    if existing.value.Some? {
      return Reply(409, Failure("User already exists"));
    }
    var created := db.CreateUser(email, Plain(req.password), RoleOf(req.role).value, now, insertFault);
    if created.Err? {
      return ServerError;
    }
    var user := created.value;
    reply := Reply(201, Authenticated("User created successfully", GenerateToken(sign, user.id, now), RequestUserOf(user)));
  }

  /** `POST /login`. An unknown email and a wrong password give the same
      401 answer; a matching password gives 200 with a token for the
      stored id. The store is only read. */
  method Login(db: Database, req: LoginRequest, isEmail: string -> bool, normalize: string -> string,
               sign: Claims -> string, now: nat, fault: bool)
    returns (reply: Reply)
    requires db.Valid()
    ensures var found := UserWithEmail(db.users, normalize(req.email));
            if LoginInvalidFields(req, isEmail) != [] then
              reply == Reply(400, ValidationErrors(LoginInvalidFields(req, isEmail)))
            else if fault then
              reply == ServerError
            else if found.None? || !BcryptCompare(req.password.value, found.value.password) then
              reply == InvalidCredentials
            else
              reply == Reply(200, Authenticated("Login successful", GenerateToken(sign, found.value.id, now),
                                                RequestUserOf(found.value)))
    ensures reply.status == 200 <==>
              LoginInvalidFields(req, isEmail) == [] && !fault &&
              exists u :: u in db.users && u.email == normalize(req.email) && BcryptCompare(req.password.value, u.password)
  {
    var invalid := LoginInvalidFields(req, isEmail);
    if invalid != [] {
      return Reply(400, ValidationErrors(invalid));
    }
    var found := db.FindUserByEmail(normalize(req.email), fault);
    if found.Err? {
      return ServerError;
    }
    if found.value.None? {
      return InvalidCredentials;
    }
    var user := found.value.value;
    if !BcryptCompare(req.password.value, user.password) {
      forall u | u in db.users && u.email == normalize(req.email)
        ensures !BcryptCompare(req.password.value, u.password)
      {
        LookupByEmailFinds(db.users, u);
      }
      return InvalidCredentials;
    }
    reply := Reply(200, Authenticated("Login successful", GenerateToken(sign, user.id, now), RequestUserOf(user)));
  }

  /** A user who signs up through the route can log in with the same
      password, as the user signup reported, and is given a token issued
      at the login time; within the same second it is signup's token. */
  method SignupThenLogin(db: Database, email: string, password: string, isEmail: string -> bool,
                         normalize: string -> string, sign: Claims -> string, signupAt: nat, loginAt: nat)
    returns (signup: Reply, login: Reply)
    requires db.Valid()
    requires isEmail(email) && |password| >= MinPasswordLength
    requires UserWithEmail(db.users, normalize(email)).None?
    modifies db
    ensures signup.status == 201 && login.status == 200
    ensures signup.body.Authenticated? && login.body.Authenticated?
    ensures signup.body.user == login.body.user && login.body.user.email == normalize(email)
    ensures signup.body.token == GenerateToken(sign, signup.body.user.id, signupAt)
    ensures login.body.token == GenerateToken(sign, login.body.user.id, loginAt)
    ensures signupAt / 1000 == loginAt / 1000 ==> signup.body.token == login.body.token
  {
    var req := SignupRequest(email, password, "dev");
    assert RoleOf(req.role) == Some(Dev);
    var created := User(db.lastUserId + 1, normalize(email), Digest(Plain(password), UserHashRounds), Dev, signupAt);
    assert SignupInvalidFields(req, isEmail) == [];
    signup := Signup(db, req, isEmail, normalize, sign, signupAt, false, false);
    assert db.users == old(db.users) + [created];
    assert created in db.users;
    LookupByEmailFinds(db.users, created);
    assert BcryptCompare(password, created.password);
    var loginReq := LoginRequest(email, Some(password));
    assert LoginInvalidFields(loginReq, isEmail) == [];
    login := Login(db, loginReq, isEmail, normalize, sign, loginAt, false);
  }
}
