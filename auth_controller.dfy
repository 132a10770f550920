/** `AuthController`: signup and login as methods that throw. The class is
    not wired to any route. Its signup hashes the password before handing
    it to the store, which hashes again; `Signup` keeps that behaviour and
    `SignupHashingOnce` is the intended one. */
module AuthController {
  import opened Wrappers
  import opened Store
  import opened AuthMiddleware

  /** `AuthController.SALT_ROUNDS`. */
  const SaltRounds: nat := 10

  datatype CreateUserDTO = CreateUserDTO(email: string, password: string, role: Role)

  /** `UserResponse`: the stored user without its password. */
  datatype UserResponse = UserResponse(id: nat, email: string, role: Role, createdAt: nat)

  datatype Session = Session(token: string, user: UserResponse)

  const UserExists: string := "User already exists"
  const InvalidCredentials: string := "Invalid credentials"

  function ResponseOf(u: User): (r: UserResponse)
    ensures r.id == u.id && r.email == u.email && r.role == u.role && r.createdAt == u.createdAt
  {
    UserResponse(u.id, u.email, u.role, u.createdAt)
  }

  /** A stored password is never recovered from a response: the response
      of two users that differ only in their password is the same. */
  lemma ResponseForgetsPassword(u: User, p: Credential)
    ensures ResponseOf(u) == ResponseOf(u.(password := p))
  {
  }

  /** `signup` as written: throws "User already exists" before hashing
      when the email is taken; otherwise passes `bcrypt.hash(password, 10)`
      to `createUser`, which stores a digest of that digest. */
  method Signup(db: Database, dto: CreateUserDTO, sign: Claims -> string, now: nat,
                lookupFault: bool, insertFault: bool)
    returns (r: Result<Session, Thrown>)
    requires db.Valid()
    modifies db
    ensures db.Valid()
    ensures db.transactions == old(db.transactions) && db.statusWrites == old(db.statusWrites)
    ensures lookupFault ==> r == Err(StoreThrown(IoFault)) && db.users == old(db.users)
    ensures !lookupFault && UserWithEmail(old(db.users), dto.email).Some? ==>
              r == Err(ErrorObject(UserExists)) && db.users == old(db.users)
    ensures !lookupFault && UserWithEmail(old(db.users), dto.email).None? ==>
              if insertFault then r == Err(StoreThrown(IoFault)) && db.users == old(db.users)
              else
                var u := User(old(db.lastUserId) + 1, dto.email,
                              Digest(Digest(Plain(dto.password), SaltRounds), UserHashRounds), dto.role, now);
                db.users == old(db.users) + [u] && r == Ok(Session(GenerateToken(sign, u.id, now), ResponseOf(u)))
  {
    var existing := db.FindUserByEmail(dto.email, lookupFault);
    if existing.Err? {
      return Err(StoreThrown(existing.error));
    }
    if existing.value.Some? {
      return Err(ErrorObject(UserExists));
    }
    var hashed := Digest(Plain(dto.password), SaltRounds);
    var created := db.CreateUser(dto.email, hashed, dto.role, now, insertFault);
    if created.Err? {
      return Err(StoreThrown(created.error));
    }
    r := Ok(Session(GenerateToken(sign, created.value.id, now), ResponseOf(created.value)));
  }

  /** `signup` as intended: the plaintext goes to the store, which is the
      one place that hashes. Otherwise identical to `Signup`. */
  method SignupHashingOnce(db: Database, dto: CreateUserDTO, sign: Claims -> string, now: nat,
                           lookupFault: bool, insertFault: bool)
    returns (r: Result<Session, Thrown>)
    requires db.Valid()
    modifies db
    ensures db.Valid()
    ensures db.transactions == old(db.transactions) && db.statusWrites == old(db.statusWrites)
    ensures lookupFault ==> r == Err(StoreThrown(IoFault)) && db.users == old(db.users)
    ensures !lookupFault && UserWithEmail(old(db.users), dto.email).Some? ==>
              r == Err(ErrorObject(UserExists)) && db.users == old(db.users)
    ensures !lookupFault && UserWithEmail(old(db.users), dto.email).None? ==>
              if insertFault then r == Err(StoreThrown(IoFault)) && db.users == old(db.users)
              else
                var u := User(old(db.lastUserId) + 1, dto.email,
                              Digest(Plain(dto.password), UserHashRounds), dto.role, now);
                db.users == old(db.users) + [u] && r == Ok(Session(GenerateToken(sign, u.id, now), ResponseOf(u)))
  {
    var existing := db.FindUserByEmail(dto.email, lookupFault);
    if existing.Err? {
      return Err(StoreThrown(existing.error));
    }
    if existing.value.Some? {
      return Err(ErrorObject(UserExists));
    }
    var created := db.CreateUser(dto.email, Plain(dto.password), dto.role, now, insertFault);
    if created.Err? {
      return Err(StoreThrown(created.error));
    }
    r := Ok(Session(GenerateToken(sign, created.value.id, now), ResponseOf(created.value)));
  }

  /** `login`: an unknown email and a wrong password throw the same
      "Invalid credentials"; a token is issued only when the password
      matches the stored digest. */
  method Login(db: Database, email: string, password: string, sign: Claims -> string, now: nat, fault: bool)
    returns (r: Result<Session, Thrown>)
    requires db.Valid()
    ensures fault ==> r == Err(StoreThrown(IoFault))
    ensures !fault ==>
              var found := UserWithEmail(db.users, email);
              if found.None? || !BcryptCompare(password, found.value.password) then
                r == Err(ErrorObject(InvalidCredentials))
              else
                r == Ok(Session(GenerateToken(sign, found.value.id, now), ResponseOf(found.value)))
    ensures r.Ok? <==> !fault && exists u :: u in db.users && u.email == email && BcryptCompare(password, u.password)
  {
    var found := db.FindUserByEmail(email, fault);
    if found.Err? {
      return Err(StoreThrown(found.error));
    }
    if found.value.None? {
      return Err(ErrorObject(InvalidCredentials));
    }
    var user := found.value.value;
    if !BcryptCompare(password, user.password) {
      forall u | u in db.users && u.email == email
        ensures !BcryptCompare(password, u.password)
      {
        LookupByEmailFinds(db.users, u);
      }
      return Err(ErrorObject(InvalidCredentials));
    }
    r := Ok(Session(GenerateToken(sign, user.id, now), ResponseOf(user)));
  }

  /** The stored digest of a controller signup is a digest of a digest, so
      no password a user can know compares equal, the signup password
      included: only the text of the inner digest would, and that text is
      never shown to the user. */
  lemma DoubleDigestMatchesNothing(password: string, candidate: string)
    ensures !BcryptCompare(candidate, Digest(Digest(Plain(password), SaltRounds), UserHashRounds))
  {
  }

  /** As written: a user who signs up through the controller cannot log
      in with the password they chose. */
  method SignupLocksOut(db: Database, dto: CreateUserDTO, sign: Claims -> string, signupAt: nat, loginAt: nat)
    returns (signup: Result<Session, Thrown>, login: Result<Session, Thrown>)
    requires db.Valid() && UserWithEmail(db.users, dto.email).None?
    modifies db
    ensures signup.Ok?
    ensures login == Err(ErrorObject(InvalidCredentials))
  {
    signup := Signup(db, dto, sign, signupAt, false, false);
    login := Login(db, dto.email, dto.password, sign, loginAt, false);
  }

  /** Intended: after hashing once, the signup password logs in as the
      user signup created (same id, email and role), with a token issued
      at the login time; within the same second it is signup's token. */
  method SignupHashingOnceThenLogin(db: Database, dto: CreateUserDTO, sign: Claims -> string,
                                    signupAt: nat, loginAt: nat)
    returns (signup: Result<Session, Thrown>, login: Result<Session, Thrown>)
    requires db.Valid() && UserWithEmail(db.users, dto.email).None?
    modifies db
    ensures signup.Ok? && login.Ok?
    ensures var (s, l) := (signup.value.user, login.value.user);
            l.id == s.id && l.email == s.email == dto.email && l.role == s.role == dto.role
    ensures signup.value.token == GenerateToken(sign, signup.value.user.id, signupAt)
    ensures login.value.token == GenerateToken(sign, login.value.user.id, loginAt)
    ensures signupAt / 1000 == loginAt / 1000 ==> login.value.token == signup.value.token
  {
    signup := SignupHashingOnce(db, dto, sign, signupAt, false, false);
    login := Login(db, dto.email, dto.password, sign, loginAt, false);
  }
}
