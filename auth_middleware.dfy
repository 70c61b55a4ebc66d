/** The request gates: bearer-token authentication, which sets the request's
    user, the role gates and their presets, and the owner-or-administrator
    gate. Token verification and the user lookup are abstract: their outcomes
    are passed in. */
module AuthMiddleware {
  import opened Common
  import opened JsText
  import AC = AuthConfig

  /** The authenticated user as the middleware records it on the request. */
  datatype User = User(id: int, email: string, name: string, role: string, roleId: int)

  /** A row of the user-by-id query (joined with its role's name). */
  datatype UserRow = UserRow(id: int, email: string, name: string, roleName: string, roleId: int)

  /** verifyToken: the decoded payload's `userId` (None when the claim is
      absent), or an exception. */
  datatype Verification = Verified(userId: Option<int>) | VerifyFailed

  /** getUserById: the rows it found, or `{success: false}`. */
  datatype UserLookup = LookupFailed | Rows(rows: seq<UserRow>)

  const TokenRequired := "Access token is required"
  const UserNotFound := "Invalid token - user not found"
  const BadToken := "Invalid or expired token"
  const AuthenticationRequired := "Authentication required"
  const OwnResourcesOnly := "Access denied. You can only access your own resources."
  const Administrator := "administrator"
  const RolesRequired := "Access denied. Required roles: "

  function UserOf(row: UserRow): (u: User)
    ensures u.id == row.id && u.role == row.roleName && u.roleId == row.roleId
  {
    User(row.id, row.email, row.name, row.roleName, row.roleId)
  }

  /** The user a verified token names, if the lookup found one: its first row. */
  function FoundUser(lookup: UserLookup): (u: Option<User>)
    ensures u.Some? <==> lookup.Rows? && lookup.rows != []
    ensures u.Some? ==> u.value == UserOf(lookup.rows[0])
  {
    if lookup.Rows? && |lookup.rows| > 0 then Some(UserOf(lookup.rows[0])) else None
  }

  /** What authenticateToken decides: answer 401 with a message, or set the
      user and pass the request on. */
  datatype AuthDecision = Reject(message: string) | Admit(user: User)

  function Authenticate(header: Option<string>, verify: string -> Verification,
                        lookup: Option<int> -> UserLookup): AuthDecision
  {
    var token := AC.ExtractToken(header);
    if !Present(token) then Reject(TokenRequired)
    else
      var decoded := verify(token.value);
      if decoded.VerifyFailed? then Reject(BadToken)
      else
        var user := FoundUser(lookup(decoded.userId));
        if user.None? then Reject(UserNotFound) else Admit(user.value)
  }

  function DecisionGate(d: AuthDecision): Gate
  {
    if d.Admit? then Next else Respond(Reply(401, d.message))
  }

  /** One incoming request: its Authorization header and the user the
      middleware attaches to it. */
  class Request {
    const authorization: Option<string>
    var user: Option<User>

    constructor(authorization: Option<string>)
      ensures this.authorization == authorization && user == None
    {
      this.authorization := authorization;
      user := None;
    }

    /** authenticateToken: reject with 401, or set `user` and call next. */
    method AuthenticateToken(verify: string -> Verification, lookup: Option<int> -> UserLookup) returns (g: Gate)
      modifies this
      ensures var d := Authenticate(authorization, verify, lookup);
              && g == DecisionGate(d)
              && user == (if d.Admit? then Some(d.user) else old(user))
    {
      var token := AC.ExtractToken(authorization);
      if !Present(token) {
        return Respond(Reply(401, TokenRequired));
      }
      var decoded := verify(token.value);
      if decoded.VerifyFailed? {
        return Respond(Reply(401, BadToken));
      }
      var found := FoundUser(lookup(decoded.userId));
      if found.None? {
        return Respond(Reply(401, UserNotFound));
      }
      user := found;
      g := Next;
    }

    /** optionalAuth: attach the user when the token verifies and names a
        known user; pass the request on in every case. */
    method OptionalAuth(verify: string -> Verification, lookup: Option<int> -> UserLookup) returns (g: Gate)
      modifies this
      ensures g == Next
      ensures var d := Authenticate(authorization, verify, lookup);
              user == (if d.Admit? then Some(d.user) else old(user))
    {
      var token := AC.ExtractToken(authorization);
      if Present(token) {
        var decoded := verify(token.value);
        if decoded.Verified? {
          var found := FoundUser(lookup(decoded.userId));
          if found.Some? {
            user := found;
          }
        }
      }
      g := Next;
    }
  }

  /** The three rejections of authenticateToken, in order, and its admission. */
  lemma AuthenticateMeaning(header: Option<string>, verify: string -> Verification, lookup: Option<int> -> UserLookup)
    ensures var d := Authenticate(header, verify, lookup);
            var token := AC.ExtractToken(header);
            && (d == Reject(TokenRequired) <==> !Present(token))
            && (Present(token) && verify(token.value).VerifyFailed? ==> d == Reject(BadToken))
            && (Present(token) && verify(token.value).Verified? ==>
                  var found := lookup(verify(token.value).userId);
                  && (d == Reject(UserNotFound) <==> found.LookupFailed? || found.rows == [])
                  && (d.Admit? ==> d.user == UserOf(found.rows[0])))
  {
  }

  /** Without a token nothing else is consulted: the answer is the same
      whatever verification and the lookup would say. */
  lemma NoTokenNoLookup(header: Option<string>, v1: string -> Verification, l1: Option<int> -> UserLookup,
                        v2: string -> Verification, l2: Option<int> -> UserLookup)
    requires !Present(AC.ExtractToken(header))
    ensures Authenticate(header, v1, l1) == Authenticate(header, v2, l2) == Reject(TokenRequired)
  {
  }

  /** The bare "Bearer " header carries an empty token, which counts as none. */
  lemma BareBearerRejected(verify: string -> Verification, lookup: Option<int> -> UserLookup)
    ensures Authenticate(Some(AC.BearerPrefix), verify, lookup) == Reject(TokenRequired)
  {
    AC.ExtractEdgeCases();
  }

  /** authorizeRole(...allowed): 401 without a user, 403 naming the allowed
      roles when the user's role is not among them, else next. */
  function AuthorizeRole(allowed: seq<string>, user: Option<User>): (g: Gate)
    ensures user.None? ==> g == Respond(Reply(401, AuthenticationRequired))
    ensures user.Some? ==> (g.Next? <==> user.value.role in allowed)
    ensures user.Some? && user.value.role !in allowed ==>
              g == Respond(Reply(403, RolesRequired + Join(allowed, ", ")))
  {
    if user.None? then Respond(Reply(401, AuthenticationRequired))
    else if user.value.role !in allowed then
      Respond(Reply(403, RolesRequired + Join(allowed, ", ")))
    else Next
  }

  function RequireFarmer(user: Option<User>): Gate { AuthorizeRole(["farmer"], user) }
  function RequireVeterinarian(user: Option<User>): Gate { AuthorizeRole(["veterinarian"], user) }
  function RequireAdmin(user: Option<User>): Gate { AuthorizeRole([Administrator], user) }
  function RequireVetOrAdmin(user: Option<User>): Gate { AuthorizeRole(["veterinarian", Administrator], user) }

  /** Each preset admits exactly its roles. */
  lemma PresetsAdmit(user: Option<User>)
    ensures RequireFarmer(user).Next? <==> user.Some? && user.value.role == "farmer"
    ensures RequireVeterinarian(user).Next? <==> user.Some? && user.value.role == "veterinarian"
    ensures RequireAdmin(user).Next? <==> user.Some? && user.value.role == Administrator
    ensures RequireVetOrAdmin(user).Next? <==>
              user.Some? && (user.value.role == "veterinarian" || user.value.role == Administrator)
  {
  }

  /** The two-role preset names both roles in its refusal. */
  lemma VetOrAdminRefusal(user: User)
    requires user.role != "veterinarian" && user.role != Administrator
    ensures RequireVetOrAdmin(Some(user))
            == Respond(Reply(403, RolesRequired + "veterinarian, administrator"))
  {
    JoinTwo("veterinarian", Administrator, ", ");
  }

  /** parseInt of a JSON body value: strings are parsed, integral numbers
      are themselves and non-integral ones are cut toward zero (their decimal
      rendering is parsed); the other values parse to NaN. */
  function ParseJson(v: Json): (r: Option<int>)
    ensures v.JStr? ==> r == ParseInt(v.s)
    ensures v.JNum? && v.n >= 0.0 ==> r == Some(v.n.Floor)
    ensures v.JBool? || v.JNull? || v.JObject? ==> r.None?
  {
    match v
    case JStr(s) => ParseInt(s)
    case JNum(n) => Some(if n >= 0.0 then n.Floor else -((-n).Floor))
    case _ => None
  }

  /** `parseInt(req.params[field] || req.body[field])`. */
  function RequestedUserId(field: string, params: map<string, string>, body: map<string, Json>): Option<int>
  {
    if field in params && params[field] != "" then ParseInt(params[field])
    else if field in body then ParseJson(body[field])
    else None
  }

  /** requireOwnerOrAdmin(field): 401 without a user; next when the user's id
      equals the requested id (a NaN id equals no one) or the user is an
      administrator; else 403. */
  function RequireOwnerOrAdmin(field: string, user: Option<User>, params: map<string, string>,
                               body: map<string, Json>): (g: Gate)
    ensures user.None? ==> g == Respond(Reply(401, AuthenticationRequired))
    ensures user.Some? ==>
              (g.Next? <==> RequestedUserId(field, params, body) == Some(user.value.id) || user.value.role == Administrator)
    ensures user.Some? && !g.Next? ==> g == Respond(Reply(403, OwnResourcesOnly))
  {
    if user.None? then Respond(Reply(401, AuthenticationRequired))
    else
      var isOwner := RequestedUserId(field, params, body) == Some(user.value.id);
      var isAdmin := user.value.role == Administrator;
      if !isOwner && !isAdmin then Respond(Reply(403, OwnResourcesOnly)) else Next
  }

  /** A non-empty route parameter decides ownership; the body is then ignored. */
  lemma ParamsTakePrecedence(field: string, user: Option<User>, params: map<string, string>,
                             b1: map<string, Json>, b2: map<string, Json>)
    requires field in params && params[field] != ""
    ensures RequireOwnerOrAdmin(field, user, params, b1) == RequireOwnerOrAdmin(field, user, params, b2)
  {
  }

  /** The owner reaches their own resource through its rendered id, from the
      route or from the body. */
  lemma OwnerPasses(field: string, user: User, body: map<string, Json>)
    ensures RequireOwnerOrAdmin(field, Some(user), map[field := IntToString(user.id)], body) == Next
    ensures RequireOwnerOrAdmin(field, Some(user), map[], map[field := JStr(IntToString(user.id))]) == Next
  {
    ParseIntRoundTrip(user.id);
  }

  /** Another user's id, or one that does not parse, is refused unless the
      caller is an administrator. */
  lemma OthersRefused(field: string, user: User, other: int, body: map<string, Json>)
    requires other != user.id && user.role != Administrator
    ensures RequireOwnerOrAdmin(field, Some(user), map[field := IntToString(other)], body)
            == Respond(Reply(403, OwnResourcesOnly))
    ensures RequireOwnerOrAdmin(field, Some(user), map[], map[]) == Respond(Reply(403, OwnResourcesOnly))
  {
    ParseIntRoundTrip(other);
  }
}
