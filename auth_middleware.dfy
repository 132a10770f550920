/** The authentication middleware (`middleware/auth.ts`): takes the token
    from the `Authorization` header, verifies it, loads the user, and either
    lets the request through with `req.user` set or answers an error.
    JWT signing and verification are functions passed in; only their
    contract (a signed token verifies to its claims) is assumed where a
    property needs it. */
module AuthMiddleware {
  import opened Wrappers
  import opened Store
  import Text

  /** Token lifetime, `expiresIn: '7d'`, in seconds. */
  const SevenDaysSeconds: nat := 7 * 24 * 60 * 60

  /** The JWT payload and options `generateToken` signs; `jwt.sign` adds
      `iat`, the signing time in whole seconds. */
  datatype Claims = Claims(userId: nat, issuedAt: nat, expiresInSeconds: nat)

  /** What `jwt.verify` yields at a given time: the decoded user id, or a
      throw (bad signature, malformed or expired token). */
  datatype Verdict = Verified(userId: nat) | Invalid

  /** The part of a user row the middleware puts on the request. */
  datatype RequestUser = RequestUser(id: nat, email: string, role: Role)

  /** The middleware's decision: call `next` with `req.user` set, or answer. */
  datatype Gate = Next(user: RequestUser) | Reject(status: nat, error: string)

  function RequestUserOf(u: User): RequestUser {
    RequestUser(u.id, u.email, u.role)
  }

  /** `authHeader && authHeader.split(' ')[1]`, kept only when it is a
      non-empty string. A token found this way never holds a space. */
  function BearerToken(header: Option<string>): (r: Option<string>)
    ensures r.Some? ==> r.value != [] && ' ' !in r.value
  {
    match header
    case None => None
    case Some(h) =>
      var fields := Text.Split(h, ' ');
      Text.SplitFieldsFree(h, ' ');
      if |fields| >= 2 && fields[1] != [] then Some(fields[1]) else None
  }

  /** The header `<scheme> <token>` yields the token back, whatever the
      (space-free) scheme word is. */
  lemma BearerTokenOfHeader(scheme: string, token: string)
    requires ' ' !in scheme && ' ' !in token && token != []
    ensures BearerToken(Some(scheme + " " + token)) == Some(token)
  {
    Text.SplitJoin([scheme, token], ' ');
    assert Text.Join([scheme, token], ' ') == scheme + " " + token by {
      assert Text.Join([scheme, token][1..], ' ') == token;
    }
  }

  /** A header without a second space-separated field carries no token. */
  lemma NoSpaceNoToken(h: string)
    requires ' ' !in h
    ensures BearerToken(Some(h)).None?
  {
    Text.SplitNoSep(h, ' ');
  }

  /** `generateToken(userId)` at clock `now` (milliseconds): signs
      `{userId}`, issued at `now` truncated to seconds, with a seven-day
      expiry. Two tokens for one user differ only through their second. */
  function GenerateToken(sign: Claims -> string, userId: nat, now: nat): (r: string)
    ensures r == sign(Claims(userId, now / 1000, SevenDaysSeconds))
  {
    sign(Claims(userId, now / 1000, SevenDaysSeconds))
  }

  /** The `exp` claim: the second from which the token is refused. */
  function Expiry(c: Claims): nat {
    c.issuedAt + c.expiresInSeconds
  }

  /** The assumption a JWT library meets for its own secret: a token it
      signed verifies back to the signed user id at any second before the
      token's `exp` and is refused (`TokenExpiredError`) from `exp` on;
      a signed token is a non-empty string with no spaces (base64url
      parts and dots). The second argument of `verify` is the clock in
      whole seconds. */
  ghost predicate SoundKeys(sign: Claims -> string, verify: (string, nat) -> Verdict) {
    && (forall c, t: nat :: verify(sign(c), t) == if t < Expiry(c) then Verified(c.userId) else Invalid)
    && (forall c :: sign(c) != [] && ' ' !in sign(c))
  }

  /** Under sound keys a token issued at `issuedAt` and presented at
      `now` (both in milliseconds), less than seven days later, survives
      the trip through the `Bearer` header and verifies to the user it was
      issued for. */
  lemma TokenRoundTrip(sign: Claims -> string, verify: (string, nat) -> Verdict, userId: nat,
                       issuedAt: nat, now: nat)
    requires SoundKeys(sign, verify)
    requires now / 1000 < issuedAt / 1000 + SevenDaysSeconds
    ensures var token := GenerateToken(sign, userId, issuedAt);
            BearerToken(Some("Bearer " + token)) == Some(token) && verify(token, now / 1000) == Verified(userId)
  {
    var token := GenerateToken(sign, userId, issuedAt);
    var c := Claims(userId, issuedAt / 1000, SevenDaysSeconds);
    assert verify(sign(c), now / 1000) == Verified(userId);
    BearerTokenOfHeader("Bearer", token);
    assert "Bearer " + token == "Bearer" + " " + token;
  }

  /** Under sound keys a token is refused from the second its seven days
      run out, whoever it was issued for. */
  lemma TokenExpires(sign: Claims -> string, verify: (string, nat) -> Verdict, userId: nat,
                     issuedAt: nat, now: nat)
    requires SoundKeys(sign, verify)
    requires now / 1000 >= issuedAt / 1000 + SevenDaysSeconds
    ensures var token := GenerateToken(sign, userId, issuedAt);
            BearerToken(Some("Bearer " + token)) == Some(token) && verify(token, now / 1000) == Invalid
  {
    var token := GenerateToken(sign, userId, issuedAt);
    var c := Claims(userId, issuedAt / 1000, SevenDaysSeconds);
    assert verify(sign(c), now / 1000) == Invalid;
    BearerTokenOfHeader("Bearer", token);
    assert "Bearer " + token == "Bearer" + " " + token;
  }

  /** `auth` for a request arriving at `now` (milliseconds): 401 "Access
      token required" without a token; 403 "Invalid token" when
      verification at that second throws or the lookup throws; 401 "Invalid
      token" when the token's user does not exist; otherwise `next` with
      exactly the stored id, email and role. */
  method Authenticate(db: Database, header: Option<string>, verify: (string, nat) -> Verdict, now: nat,
                      lookupFault: bool)
    returns (gate: Gate)
    ensures BearerToken(header).None? ==> gate == Reject(401, "Access token required")
    ensures BearerToken(header).Some? && verify(BearerToken(header).value, now / 1000).Invalid? ==>
              gate == Reject(403, "Invalid token")
    ensures BearerToken(header).Some? && verify(BearerToken(header).value, now / 1000).Verified? ==>
              var id := verify(BearerToken(header).value, now / 1000).userId;
              && (lookupFault ==> gate == Reject(403, "Invalid token"))
              && (!lookupFault && UserWithId(db.users, id).None? ==> gate == Reject(401, "Invalid token"))
              && (!lookupFault && UserWithId(db.users, id).Some? ==>
                    gate == Next(RequestUserOf(UserWithId(db.users, id).value)))
    ensures gate.Next? ==> gate.user.id == verify(BearerToken(header).value, now / 1000).userId
                           && exists u :: u in db.users && gate.user == RequestUserOf(u)
  {
    var token := BearerToken(header);
    if token.None? {
      return Reject(401, "Access token required");
    }
    var decoded := verify(token.value, now / 1000);
    if decoded.Invalid? {
      return Reject(403, "Invalid token");
    }
    var found := db.FindUserById(decoded.userId, lookupFault);
    if found.Err? {
      return Reject(403, "Invalid token");
    }
    if found.value.None? {
      return Reject(401, "Invalid token");
    }
    gate := Next(RequestUserOf(found.value.value));
  }

  /** A token the server issued for an existing user, sent as
      `Bearer <token>` less than seven days later, lets the request through
      as that user. */
  method IssuedTokenAdmits(db: Database, sign: Claims -> string, verify: (string, nat) -> Verdict, u: User,
                           issuedAt: nat, now: nat)
    returns (gate: Gate)
    requires SoundKeys(sign, verify)
    requires db.Valid() && u in db.users
    requires now / 1000 < issuedAt / 1000 + SevenDaysSeconds
    ensures gate == Next(RequestUserOf(u))
  {
    var token := GenerateToken(sign, u.id, issuedAt);
    TokenRoundTrip(sign, verify, u.id, issuedAt, now);
    LookupByIdFinds(db.users, u);
    gate := Authenticate(db, Some("Bearer " + token), verify, now, false);
  }

  /** Seven days after issue the same token is refused with 403 "Invalid
      token", before any lookup, even for a user who still exists. */
  method ExpiredTokenRefused(db: Database, sign: Claims -> string, verify: (string, nat) -> Verdict, userId: nat,
                             issuedAt: nat, now: nat, lookupFault: bool)
    returns (gate: Gate)
    requires SoundKeys(sign, verify)
    requires now / 1000 >= issuedAt / 1000 + SevenDaysSeconds
    ensures gate == Reject(403, "Invalid token")
  {
    var token := GenerateToken(sign, userId, issuedAt);
    TokenExpires(sign, verify, userId, issuedAt, now);
    gate := Authenticate(db, Some("Bearer " + token), verify, now, lookupFault);
  }
}
