/** The account handlers (backend/controllers/authController.js):
    register, login, reading and updating the caller's profile. The user
    collection is a sequence in storage order, so `findOne` is the first
    match. Password hashing, the password comparison and token signing are
    parameters. Each handler runs after its validator, so the fields it
    reads are present. The schema's `lowercase` and `trim` setters on
    `email` apply to what is stored and to every `findOne` filter on it,
    so each lookup and each store goes through `NormalEmail`. */
module AuthController {
  import opened Common
  import opened Lists
  import opened Auth
  import Text

  datatype User = User(id: string, fullName: string, email: string, passwordHash: string, role: string)

  /** The user object the handlers send back: no password field. */
  datatype PublicUser = PublicUser(id: string, fullName: string, email: string, role: string)

  datatype AuthReply =
    | Error(status: int, error: string)
    | ServerError(message: string)
    | Session(status: int, message: string, token: string, user: PublicUser)
    | Profile(profile: PublicUser)
    | ProfileUpdated(updated: Option<PublicUser>)

  const InvalidCredentials := "Invalid credentials"
  const EmailExists := "Email already exists"

  function Public(u: User): (p: PublicUser)
    ensures p.id == u.id && p.fullName == u.fullName && p.email == u.email && p.role == u.role
  {
    PublicUser(u.id, u.fullName, u.email, u.role)
  }

  /** The claims signed into a token at register and login:
      `{ userId, email, role }` and nothing else. */
  function TokenClaims(u: User): (c: Claims)
    ensures c.userId == Some(u.id) && c.email == Some(u.email) && c.role == Some(u.role)
    ensures c.id.None? && c.underscoreId.None?
  {
    Claims(None, None, Some(u.id), Some(u.email), Some(u.role))
  }

  /** The `role` schema path: missing means 'user'; a value outside the
      enum 'admin' | 'user' fails validation on save. */
  function StoredRole(role: Option<string>): (r: Option<string>)
    ensures r.Some? <==> role.None? || role.value in {"admin", "user"}
    ensures r.Some? ==> r.value in {"admin", "user"}
    ensures role.None? ==> r == Some("user")
  {
    match role
    case None => Some("user")
    case Some(v) => if v == "admin" || v == "user" then Some(v) else None
  }

  /** The `email` path's setters, `lowercase: true` then `trim: true`. */
  function NormalEmail(e: string): (r: string)
    ensures Text.Trimmed(r)
    ensures forall i :: 0 <= i < |r| ==> Text.LowerChar(r[i]) == r[i]
    ensures |r| <= |e|
  {
    var t := Text.ToLower(e);
    Text.TrimmedIff(t);
    Text.TrimShape(t);
    Text.Trim(t)
  }

  /** Normalising an address already normalised changes nothing: what is
      stored is found again by the same address. */
  lemma NormalEmailIdempotent(e: string)
    ensures NormalEmail(NormalEmail(e)) == NormalEmail(e)
  {
    var r := NormalEmail(e);
    assert Text.ToLower(r) == r;
    Text.TrimmedIff(r);
  }

  /** Two addresses that differ only in the case of ASCII letters are the
      same address to the store. */
  lemma NormalEmailIgnoresCase(e: string)
    ensures NormalEmail(Text.ToLower(e)) == NormalEmail(e)
  {
    assert Text.ToLower(Text.ToLower(e)) == Text.ToLower(e);
  }

  /** A stored "a@b" blocks registering " A@B": the duplicate lookup
      sees the normalised address. */
  lemma CaseVariantIsTaken(u: User)
    requires u.email == "a@b"
    ensures EmailTaken([u], NormalEmail(" A@B"))
  {
    var t := Text.ToLower(" A@B");
    assert t == " a@b" by {
      assert t[0] == ' ' && t[1] == 'a' && t[2] == '@' && t[3] == 'b';
    }
    var c := t[1..];
    assert c == "a@b";
    assert Text.LeadingBlanks(t) == 1 by {
      assert Text.LeadingBlanks(c) == 0;
    }
    assert Text.ContentEnd(c) == 3;
    assert c[..3] == c;
    assert NormalEmail(" A@B") == [u][0].email;
  }

  /** The `email` of an update body as the update casts it. */
  function CastEmail(email: Option<string>): (r: Option<string>)
    ensures r.Some? <==> email.Some?
    ensures r.Some? ==> r.value == NormalEmail(email.value)
  {
    match email
    case None => None
    case Some(e) => Some(NormalEmail(e))
  }

  predicate EmailTaken(users: seq<User>, email: string) {
    exists k :: 0 <= k < |users| && users[k].email == email
  }

  /** `User.findOne({ email, _id: { $ne: userId } })` finds someone. */
  predicate EmailHeldByOther(users: seq<User>, email: string, userId: Option<string>) {
    exists k :: 0 <= k < |users| && users[k].email == email && Some(users[k].id) != userId
  }

  /** No two users share an email or an id. */
  predicate UniqueUsers(users: seq<User>) {
    forall i, j :: 0 <= i < j < |users| ==> users[i].email != users[j].email && users[i].id != users[j].id
  }

  /** A user who sends back their own current email is not refused: only
      another user holding the address blocks the update. */
  lemma OwnEmailAllowed(users: seq<User>, k: nat)
    requires UniqueUsers(users)
    requires k < |users|
    ensures !EmailHeldByOther(users, users[k].email, Some(users[k].id))
  {
  }

  /** The checks `runValidators` makes on `{ fullName, email }`: a given
      name must be non-empty and at least 2 characters; a given email must
      be non-empty. Missing fields are left out of the update. */
  predicate UpdatePassesSchema(fullName: Option<string>, email: Option<string>) {
    (fullName.Some? ==> |fullName.value| >= 2) && (email.Some? ==> email.value != "")
  }

  function ApplyUpdate(u: User, fullName: Option<string>, email: Option<string>): (r: User)
    ensures r.id == u.id && r.passwordHash == u.passwordHash && r.role == u.role
    ensures r.fullName == fullName.GetOr(u.fullName) && r.email == email.GetOr(u.email)
  {
    u.(fullName := fullName.GetOr(u.fullName), email := email.GetOr(u.email))
  }

  class UserStore {
    var users: seq<User>

    predicate Valid()
      reads this
    {
      UniqueUsers(users)
    }

    constructor ()
      ensures Valid() && users == []
    {
      users := [];
    }

    /** `register`: an email already in use is refused with 400 and no
        user is created; a role outside the enum makes the save fail (500).
        Otherwise exactly one user is appended, with the hashed password
        and the role defaulting to 'user', and the reply carries a token
        signed over `{ userId, email, role }` and the public user. */
    method Register(fullName: string, email: string, password: string, role: Option<string>, newId: string,
                    hash: string -> string, sign: Claims -> string)
      returns (reply: AuthReply)
      requires Valid()
      requires forall k :: 0 <= k < |users| ==> users[k].id != newId
      modifies this`users
      ensures Valid()
      ensures EmailTaken(old(users), NormalEmail(email)) ==>
        reply == Error(400, EmailExists) && users == old(users)
      ensures !EmailTaken(old(users), NormalEmail(email)) && StoredRole(role).None? ==>
        reply == ServerError("Registration error") && users == old(users)
      ensures !EmailTaken(old(users), NormalEmail(email)) && StoredRole(role).Some? ==>
        var u := User(newId, fullName, NormalEmail(email), hash(password), StoredRole(role).value);
        && users == old(users) + [u]
        && reply == Session(201, "User registered successfully", sign(TokenClaims(u)), Public(u))
    {
      var stored := NormalEmail(email);
      var existing := FirstIndex(users, (u: User) => u.email == stored);
      if existing.Some? {
        return Error(400, EmailExists);
      }
      var r := StoredRole(role);
      if r.None? {
        return ServerError("Registration error");
      }
      var u := User(newId, fullName, stored, hash(password), r.value);
      users := users + [u];
      reply := Session(201, "User registered successfully", sign(TokenClaims(u)), Public(u));
    }

    /** `login`: an unknown email and a wrong password get the same 401
        reply; the only success is a stored user with that email whose hash
        the password matches. */
    method Login(email: string, password: string, compare: (string, string) -> bool, sign: Claims -> string)
      returns (reply: AuthReply)
      requires Valid()
      ensures reply.Error? ==> reply == Error(401, InvalidCredentials)
      ensures reply.Error? <==>
        !exists k :: 0 <= k < |users| && users[k].email == NormalEmail(email) && compare(password, users[k].passwordHash)
      ensures reply.Session? ==>
        exists k :: 0 <= k < |users| && users[k].email == NormalEmail(email)
          && reply == Session(200, "Login successful", sign(TokenClaims(users[k])), Public(users[k]))
      ensures reply.Error? || reply.Session?
    {
      var wanted := NormalEmail(email);
      var found := FirstIndex(users, (u: User) => u.email == wanted);
      if found.None? {
        return Error(401, InvalidCredentials);
      }
      var u := users[found.value];
      if !compare(password, u.passwordHash) {
        return Error(401, InvalidCredentials);
      }
      reply := Session(200, "Login successful", sign(TokenClaims(u)), Public(u));
    }

    /** `getProfile`: the user the token's `userId` names, without the
        password; 404 when there is none (or the claim is missing). */
    function GetProfile(claims: Claims): (reply: AuthReply)
      reads this
      ensures reply.Error? <==> forall k :: 0 <= k < |users| ==> Some(users[k].id) != claims.userId
      ensures reply.Error? ==> reply == Error(404, "User not found")
      ensures reply.Profile? ==>
        exists k :: 0 <= k < |users| && Some(users[k].id) == claims.userId && reply.profile == Public(users[k])
    {
      match FirstIndex(users, (u: User) => Some(u.id) == claims.userId)
      case None => Error(404, "User not found")
      case Some(k) => Profile(Public(users[k]))
    }

    /** `updateProfile`: a non-empty email held by another user is refused
        with 400, the caller's own email is not; an update the schema
        rejects fails with 500; otherwise the caller's record gets the
        given fields and nothing else changes, and a caller with no record
        gets 200 with a null user. Emails stay unique throughout. */
    method UpdateProfile(claims: Claims, fullName: Option<string>, email: Option<string>) returns (reply: AuthReply)
      requires Valid()
      modifies this`users
      ensures Valid()
      ensures Truthy(email) && EmailHeldByOther(old(users), NormalEmail(email.value), claims.userId) ==>
        reply == Error(400, EmailExists) && users == old(users)
      ensures !(Truthy(email) && EmailHeldByOther(old(users), NormalEmail(email.value), claims.userId)) ==>
        if !UpdatePassesSchema(fullName, CastEmail(email)) then
          reply == ServerError("Update error") && users == old(users)
        else match FirstIndex(old(users), (u: User) => Some(u.id) == claims.userId)
          case None =>
            reply == ProfileUpdated(None) && users == old(users)
          case Some(k) =>
            && users == old(users)[k := ApplyUpdate(old(users)[k], fullName, CastEmail(email))]
            && reply == ProfileUpdated(Some(Public(users[k])))
    {
      var cast := CastEmail(email);
      if Truthy(email) {
        var wanted := cast.value;
        var other := FirstIndex(users, (u: User) => u.email == wanted && Some(u.id) != claims.userId);
        if other.Some? {
          return Error(400, EmailExists);
        }
      }
      if !UpdatePassesSchema(fullName, cast) {
        return ServerError("Update error");
      }
      var found := FirstIndex(users, (u: User) => Some(u.id) == claims.userId);
      if found.None? {
        return ProfileUpdated(None);
      }
      var k := found.value;
      var updated := ApplyUpdate(users[k], fullName, cast);
      UpdateKeepsUnique(users, k, updated);
      users := users[k := updated];
      reply := ProfileUpdated(Some(Public(updated)));
    }
  }

  /** Replacing one record by one with the same id and an email no other
      record holds keeps ids and emails unique. */
  lemma UpdateKeepsUnique(users: seq<User>, k: nat, updated: User)
    requires UniqueUsers(users) && k < |users|
    requires updated.id == users[k].id
    requires forall j :: 0 <= j < |users| && j != k ==> users[j].email != updated.email
    ensures UniqueUsers(users[k := updated])
  {
  }
}
