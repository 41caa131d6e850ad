/** The authentication middleware as decisions over a request: where the
    token comes from, which failure each case reports, and the role and
    ownership gates. `jwt.verify` is an uninterpreted function from a
    token to a `Verdict`; attaching `req.user` is the `Admit` result. */
module AuthMiddleware {
  import opened Collections
  import opened Text
  import opened Domain
  import opened UserSchema

  /** What `jwt.verify` makes of a token: the `id` of its payload, or
      the kind of error it throws. */
  datatype Verdict = Verified(id: string) | Expired | Malformed

  /** The places a token can come from: the `Authorization` header, the
      `token` cookie and the `token` query parameter. */
  datatype Credentials = Credentials(authorization: Option<string>, cookie: Option<string>, query: Option<string>)

  /** `authorization?.split(' ')[1]`: the second space-separated word. */
  function BearerWord(header: Option<string>): (r: Option<string>)
    ensures r.Some? <==> header.Some? && |Split(header.value, ' ')| >= 2
    ensures r.Some? ==> ' ' !in r.value
  {
    if header.Some? && |Split(header.value, ' ')| >= 2 then Some(Split(header.value, ' ')[1]) else None
  }

  /** The `||` chain over the sources: the header word, else the cookie,
      else (for `authenticate` only) the query parameter. */
  function TokenOf(c: Credentials, useQuery: bool): (r: Option<string>)
    ensures r.Some? ==> r.value != ""
    ensures Truthy(BearerWord(c.authorization)) ==> r == BearerWord(c.authorization)
    ensures !Truthy(BearerWord(c.authorization)) && Truthy(c.cookie) ==> r == c.cookie
    ensures !Truthy(BearerWord(c.authorization)) && !Truthy(c.cookie) && useQuery && Truthy(c.query) ==> r == c.query
    ensures r.None? <==> !Truthy(BearerWord(c.authorization)) && !Truthy(c.cookie) && !(useQuery && Truthy(c.query))
  {
    if Truthy(BearerWord(c.authorization)) then BearerWord(c.authorization)
    else if Truthy(c.cookie) then c.cookie
    else if useQuery && Truthy(c.query) then c.query
    else None
  }

  /** A token in the header wins over the cookie and the query string. */
  lemma HeaderWins(scheme: string, token: string, cookie: Option<string>, query: Option<string>)
    requires ' ' !in scheme && ' ' !in token && token != ""
    ensures TokenOf(Credentials(Some(scheme + " " + token), cookie, query), true) == Some(token)
  {
    SplitNoSeparator(scheme, ' ');
    SplitNoSeparator(token, ' ');
    SplitConcat(scheme, token, ' ');
    assert scheme + " " + token == scheme + [' '] + token;
  }

  datatype Gate = Admit(user: User) | Deny(status: nat, message: string)

  /** `authenticate`. Every refusal is a 401; a token whose id is not an
      ObjectId makes `findById` throw and counts as an invalid token. */
  function Authenticate(users: seq<User>, c: Credentials, verify: string -> Verdict): (r: Gate)
    ensures r.Deny? ==> r.status == 401
    ensures TokenOf(c, true).None? ==> r == Deny(401, "Access denied. No token provided.")
    ensures TokenOf(c, true).Some? && verify(TokenOf(c, true).value) == Expired ==> r == Deny(401, "Token expired.")
    ensures TokenOf(c, true).Some? && verify(TokenOf(c, true).value) == Malformed ==> r == Deny(401, "Invalid token.")
    ensures r.Admit? <==>
              && TokenOf(c, true).Some?
              && verify(TokenOf(c, true).value).Verified?
              && IsObjectIdText(verify(TokenOf(c, true).value).id)
              && UserById(users, verify(TokenOf(c, true).value).id).Some?
              && users[UserById(users, verify(TokenOf(c, true).value).id).value].isActive
    ensures r.Admit? ==>
              r.user == Projected(users[UserById(users, verify(TokenOf(c, true).value).id).value])
    ensures r.Deny? && TokenOf(c, true).Some? && verify(TokenOf(c, true).value).Verified?
            && IsObjectIdText(verify(TokenOf(c, true).value).id)
            ==> r.message == "Invalid token or user not found."
  {
    match TokenOf(c, true)
    case None => Deny(401, "Access denied. No token provided.")
    case Some(token) =>
      match verify(token)
      case Expired => Deny(401, "Token expired.")
      case Malformed => Deny(401, "Invalid token.")
      case Verified(id) =>
        if !IsObjectIdText(id) then Deny(401, "Invalid token.")
        else match UserById(users, id)
          case None => Deny(401, "Invalid token or user not found.")
          case Some(k) =>
            if users[k].isActive then Admit(Projected(users[k]))
            else Deny(401, "Invalid token or user not found.")
  }

  /** A deactivated account is refused even with a valid token. */
  lemma InactiveAccountRefused(users: seq<User>, c: Credentials, verify: string -> Verdict, k: nat)
    requires k < |users|
    requires TokenOf(c, true).Some? && verify(TokenOf(c, true).value) == Verified(users[k].id)
    requires !users[k].isActive && IsObjectIdText(users[k].id) && Lower(users[k].id) == users[k].id
    requires forall j :: 0 <= j < k ==> users[j].id != users[k].id
    ensures Authenticate(users, c, verify) == Deny(401, "Invalid token or user not found.")
  {
    assert UserById(users, users[k].id) == Some(k);
  }

  datatype Check = Next | Stop(status: nat, message: string)

  /** `isAdmin`. */
  function IsAdmin(user: Option<User>): (r: Check)
    ensures r == Next <==> user.Some? && user.value.role == AdminRole
    ensures r != Next ==> r == Stop(403, "Access denied. Admin privileges required.")
  {
    if user.Some? && user.value.role == AdminRole then Next
    else Stop(403, "Access denied. Admin privileges required.")
  }

  /** `isOwnerOrAdmin(field)`: the owner is the resource's field when it
      is set, else the `userId` route parameter. */
  function IsOwnerOrAdmin(me: User, resourceOwner: Option<string>, paramUserId: Option<string>): (r: Check)
    ensures r == Next <==>
              me.role == AdminRole
              || (Truthy(resourceOwner) && me.id == resourceOwner.value)
              || (!Truthy(resourceOwner) && paramUserId == Some(me.id))
    ensures r != Next ==> r == Stop(403, "Access denied. You do not have permission to perform this action.")
  {
    var owner := if Truthy(resourceOwner) then resourceOwner else paramUserId;
    if me.role == AdminRole || owner == Some(me.id) then Next
    else Stop(403, "Access denied. You do not have permission to perform this action.")
  }

  /** With the resource loaded, the gate is exactly the handlers' own
      owner-or-admin rule. */
  lemma GateAgreesWithOwnership(me: User, owner: Id, paramUserId: Option<string>)
    requires owner != ""
    ensures IsOwnerOrAdmin(me, Some(owner), paramUserId) == Next <==> OwnerOrAdmin(me, owner)
  {
  }

  /** `optionalAuth`: never refuses; attaches an active user named by a
      header or cookie token, and nothing otherwise. */
  function OptionalAuth(users: seq<User>, c: Credentials, verify: string -> Verdict): (r: Option<User>)
    ensures TokenOf(c, false).None? ==> r.None?
    ensures r.Some? ==> r.value.password.None? && r.value.refreshToken.None? && r.value.isActive
  {
    var token := TokenOf(c, false);
    if token.None? || !verify(token.value).Verified? then None
    else
      var id := verify(token.value).id;
      if !IsObjectIdText(id) then None
      else match UserById(users, id)
        case None => None
        case Some(k) => if users[k].isActive then Some(Projected(users[k])) else None
  }

  /** `optionalAuth` attaches exactly the user `authenticate` would admit
      once the query-string token is ignored. */
  lemma OptionalAuthIsLenientAuthenticate(users: seq<User>, c: Credentials, verify: string -> Verdict)
    ensures var g := Authenticate(users, c.(query := None), verify);
            OptionalAuth(users, c, verify) == if g.Admit? then Some(g.user) else None
  {
    assert TokenOf(c, false) == TokenOf(c.(query := None), true);
  }

  /** A token in the query string is never read by `optionalAuth`. */
  lemma OptionalAuthIgnoresQuery(users: seq<User>, c: Credentials, q: Option<string>, verify: string -> Verdict)
    ensures OptionalAuth(users, c.(query := q), verify) == OptionalAuth(users, c, verify)
  {
    assert TokenOf(c.(query := q), false) == TokenOf(c, false);
  }
}
