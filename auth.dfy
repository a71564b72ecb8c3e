/** The bearer-token guard and the role guard of the API
    (backend/middleware/auth.js). Verifying a token's signature and expiry
    is the token library's business: it is a parameter here that either
    decodes the claims or names the error it throws. */
module Auth {
  import opened Common
  import opened Text

  /** The decoded payload of a token. Tokens issued at register and login
      carry `userId`, `email` and `role`; `id` and `_id` are claims other
      code reads but no issued token holds. */
  datatype Claims = Claims(
    id: Option<string>,
    underscoreId: Option<string>,
    userId: Option<string>,
    email: Option<string>,
    role: Option<string>)

  /** What `jwt.verify` does with a token: return the decoded claims, or
      throw an error whose `name` is given. */
  datatype Verification = Verified(claims: Claims) | Thrown(errorName: string)

  /** How a middleware ends: by calling `next()`, or by answering with a
      status and an error text. */
  datatype Outcome = Next | Deny(status: int, error: string)

  const NoToken := "Access denied. No token provided."

  /** `req.headers.authorization?.split(' ')[1]` */
  function TokenOf(header: Option<string>): Option<string> {
    match header
    case None => None
    case Some(h) =>
      var fields := Split(h, ' ');
      if |fields| >= 2 then Some(fields[1]) else None
  }

  /** The token is the second space-separated field, whatever the first
      word is and whatever follows a further space. */
  lemma TokenIsSecondField(scheme: string, token: string, rest: string)
    requires ' ' !in scheme && ' ' !in token
    ensures TokenOf(Some(scheme + " " + token)) == Some(token)
    ensures TokenOf(Some(scheme + " " + token + " " + rest)) == Some(token)
  {
    SplitAfterField(scheme, ' ', token);
    SplitAfterField(token, ' ', rest);
    SplitAfterField(scheme, ' ', token + " " + rest);
    assert scheme + " " + token + " " + rest == scheme + [' '] + (token + [' '] + rest);
    assert Split(token, ' ')[0] == token by {
      JoinSplit(token, ' ');
      SplitWithoutSeparator(token, ' ');
    }
  }

  /** A header without any space has no second field. */
  lemma NoSpaceNoToken(h: string)
    requires ' ' !in h
    ensures TokenOf(Some(h)) == None
  {
    SplitWithoutSeparator(h, ' ');
  }

  /** The catch block of `auth`: which answer each thrown error gets. */
  function ClassifyError(errorName: string): (o: Outcome)
    ensures o.Deny?
    ensures o.status == 401 <==> errorName in {"TokenExpiredError", "JsonWebTokenError"}
    ensures o.status != 401 ==> o.status == 500
    ensures errorName == "TokenExpiredError" ==> o == Deny(401, "Token expired")
    ensures errorName == "JsonWebTokenError" ==> o == Deny(401, "Invalid token")
    ensures errorName !in {"TokenExpiredError", "JsonWebTokenError"} ==> o == Deny(500, "Token verification failed")
  {
    if errorName == "TokenExpiredError" then Deny(401, "Token expired")
    else if errorName == "JsonWebTokenError" then Deny(401, "Invalid token")
    else Deny(500, "Token verification failed")
  }

  /** The request as the middlewares see it: the Authorization header,
      `req.user`, and how many times `next` has been called. */
  class Request {
    var authorization: Option<string>
    var user: Option<Claims>
    var nextCalls: nat

    constructor (authorization: Option<string>)
      ensures this.authorization == authorization && user == None && nextCalls == 0
    {
      this.authorization := authorization;
      user := None;
      nextCalls := 0;
    }

    /** `auth`: a missing or empty token is refused with 401; a token the
        library accepts sets `req.user` to its claims and calls `next`
        once; a token it rejects is answered according to the error. */
    method Authenticate(verify: string -> Verification) returns (o: Outcome)
      modifies this`user, this`nextCalls
      ensures var token := TokenOf(authorization);
        if !Truthy(token) then
          o == Deny(401, NoToken) && user == old(user) && nextCalls == old(nextCalls)
        else match verify(token.value)
          case Verified(claims) =>
            o == Next && user == Some(claims) && nextCalls == old(nextCalls) + 1
          case Thrown(name) =>
            o == ClassifyError(name) && user == old(user) && nextCalls == old(nextCalls)
    {
      var token := TokenOf(authorization);
      if !Truthy(token) {
        return Deny(401, NoToken);
      }
      match verify(token.value)
      case Verified(claims) =>
        user := Some(claims);
        nextCalls := nextCalls + 1;
        o := Next;
      case Thrown(name) =>
        o := ClassifyError(name);
    }
  }

  /** `requireRole(roles)`: no user gives 401, a role outside `roles`
      (or no role at all) gives 403, and otherwise the request goes on. */
  function RequireRole(roles: seq<string>, user: Option<Claims>): (o: Outcome)
    ensures o == Next <==> user.Some? && user.value.role.Some? && user.value.role.value in roles
    ensures user.None? ==> o == Deny(401, NoToken)
    ensures user.Some? && o != Next ==> o.status == 403
  {
    if user.None? then Deny(401, NoToken)
    else if user.value.role.None? || user.value.role.value !in roles then
      Deny(403, "Access denied. Insufficient permissions.")
    else Next
  }
}
