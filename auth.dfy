/**
 * Authentication and role checks: the user a request acts as, taken from
 * an Azure AD bearer token (or a fixed development user when Azure AD is
 * switched off), and the role test endpoints apply to it.
 */
module Auth {
  import opened Wrappers
  import opened Values
  import opened Text
  import opened Exceptions

  datatype UserRole = Viewer | TrialLead | Admin {

    /** The role string as it appears in token claims. */
    function Value(): string
    {
      match this
      case Viewer => "CTSR_VIEWER"
      case TrialLead => "CTSR_TRIAL_LEAD"
      case Admin => "CTSR_ADMIN"
    }
  }

  /** The authenticated user. */
  datatype User = User(email: string, name: string, roles: seq<string>, isMock: bool)

  /** `User(email, name, roles, is_mock)`: `name or email` and `roles or []`. */
  function MakeUser(email: string, name: Option<string>, roles: Option<seq<string>>, isMock: bool): (u: User)
    ensures u.email == email && u.isMock == isMock
    ensures u.name == (if Truthy(name) then name.value else email)
    ensures u.roles == roles.GetOr([])
  {
    User(email, if Truthy(name) then name.value else email, roles.GetOr([]), isMock)
  }

  /** `has_role`: the role itself, or the admin role, is among the user's roles. */
  predicate HasRole(u: User, required: UserRole)
  {
    required.Value() in u.roles || Admin.Value() in u.roles
  }

  /** An admin passes every role check. */
  lemma AdminHasEveryRole(u: User, required: UserRole)
    requires Admin.Value() in u.roles
    ensures HasRole(u, required)
  {
  }

  /**
   * Apart from admin there is no hierarchy: a user without the admin role
   * passes a check exactly when holding that very role, so a user holding a
   * single other role (a trial lead asked to be a viewer) fails it.
   */
  lemma NoRoleHierarchy(u: User, required: UserRole)
    ensures Admin.Value() !in u.roles ==> (HasRole(u, required) <==> required.Value() in u.roles)
    ensures forall held: UserRole :: held != required && held != Admin && u.roles == [held.Value()] ==> !HasRole(u, required)
  {
  }

  /** `require_role(required)`: the user, or an AuthorizationError naming the role. */
  function CheckRole(u: User, required: UserRole): (r: Result<User>)
    ensures r.Ok? <==> HasRole(u, required)
    ensures r.Ok? ==> r.value == u
    ensures r.Err? ==> r.error == AuthorizationError(
              Some("Insufficient permissions. Required role: " + required.Value()),
              Some(map["required_role" := VStr(required.Value()), "user_roles" := StrList(u.roles)]))
  {
    if HasRole(u, required) then Ok(u)
    else Err(AuthorizationError(
      Some("Insufficient permissions. Required role: " + required.Value()),
      Some(map["required_role" := VStr(required.Value()), "user_roles" := StrList(u.roles)])))
  }

  /** The user every request acts as while Azure AD is switched off. */
  function MockUser(): (u: User)
    ensures u.isMock && HasRole(u, Viewer) && HasRole(u, TrialLead) && HasRole(u, Admin)
  {
    MakeUser("dev@localhost", Some("Local Developer"), Some([Admin.Value()]), true)
  }

  /** The claims of a decoded token, each possibly absent. */
  datatype Claims = Claims(email: Option<string>, preferredUsername: Option<string>, upn: Option<string>,
                           name: Option<string>, roles: Option<seq<string>>)

  /** What the JWT library gives back for a token: its claims, or its error text. */
  datatype Decoded = Decoded(claims: Claims) | JwtError(reason: string)

  /** `email or preferred_username or upn`: the first truthy identifier claim. */
  function Identifier(c: Claims): (r: Option<string>)
    ensures r.Some? ==> r.value != ""
    ensures r.None? <==> !Truthy(c.email) && !Truthy(c.preferredUsername) && !Truthy(c.upn)
    ensures Truthy(c.email) ==> r == c.email
  {
    if Truthy(c.email) then c.email
    else if Truthy(c.preferredUsername) then c.preferredUsername
    else if Truthy(c.upn) then c.upn
    else None
  }

  const BadHeaderMessage := "Invalid authorization header format. Expected: Bearer <token>"

  /** The token of an `Authorization: Bearer <token>` header. */
  function ExtractToken(header: Option<string>): (r: Result<string>)
    ensures !Truthy(header) ==> r == Err(AuthenticationError(Some("Missing authorization header"), None))
    ensures r.Ok? ==> r.value != [] && NoSpace(r.value)
    ensures r.Ok? ==> Truthy(header) && |Words(header.value)| == 2 && Words(header.value)[1] == r.value
                      && AsciiLower(Words(header.value)[0]) == "bearer"
    ensures Truthy(header) && r.Err? ==> r == Err(AuthenticationError(Some(BadHeaderMessage), None))
  {
    if !Truthy(header) then Err(AuthenticationError(Some("Missing authorization header"), None))
    else
      var parts := Words(header.value);
      if |parts| != 2 || AsciiLower(parts[0]) != "bearer" then
        Err(AuthenticationError(Some(BadHeaderMessage), None))
      else Ok(parts[1])
  }

  /** A header spelled `<any case of Bearer> <token>` yields the token. */
  lemma BearerHeaderAccepted(scheme: string, token: string)
    requires AsciiLower(scheme) == "bearer"
    requires token != [] && NoSpace(token)
    ensures ExtractToken(Some(scheme + " " + token)) == Ok(token)
  {
    assert |scheme| == 6;
    assert NoSpace(scheme) by {
      forall i | 0 <= i < |scheme|
        ensures !IsSpace(scheme[i])
      {
        assert AsciiLower(scheme)[i] == LowerChar(scheme[i]);
      }
    }
    WordsTwo(scheme, token);
  }

  /** A header with anything other than exactly two words is refused. */
  lemma ThreeWordHeaderRefused(a: string, b: string, c: string)
    requires IsWord(a) && IsWord(b) && IsWord(c)
    ensures ExtractToken(Some(a + " " + b + " " + c)).Err?
  {
    WordsThree(a, b, c);
  }

  /** The user a decoded token names. */
  function UserFromToken(d: Decoded): (r: Result<User>)
    ensures d.JwtError? ==> r == Err(AuthenticationError(Some("Invalid token: " + d.reason), None))
    ensures d.Decoded? && Identifier(d.claims).None? ==>
              r == Err(AuthenticationError(Some("Token missing user identification"), None))
    ensures r.Ok? ==> d.Decoded? && Some(r.value.email) == Identifier(d.claims)
                      && r.value == MakeUser(r.value.email, d.claims.name, d.claims.roles, false)
  {
    match d
    case JwtError(reason) => Err(AuthenticationError(Some("Invalid token: " + reason), None))
    case Decoded(c) =>
      match Identifier(c)
      case None => Err(AuthenticationError(Some("Token missing user identification"), None))
      case Some(email) => Ok(MakeUser(email, c.name, c.roles, false))
  }

  /**
   * `get_current_user`: the development user when Azure AD is off;
   * otherwise the user of the bearer token, which `decode` (the JWT
   * library, signature checking switched off) reads.
   */
  function CurrentUser(azureAdEnabled: bool, header: Option<string>, decode: string -> Decoded): (r: Result<User>)
    ensures !azureAdEnabled ==> r == Ok(MockUser())
    ensures azureAdEnabled && ExtractToken(header).Err? ==> r == Err(ExtractToken(header).error)
    ensures azureAdEnabled && ExtractToken(header).Ok? ==> r == UserFromToken(decode(ExtractToken(header).value))
    ensures r.Ok? ==> r.value.email != ""
    ensures r.Err? ==> r.error.kind == Authentication && r.error.statusCode == 401
  {
    if !azureAdEnabled then Ok(MockUser())
    else
      match ExtractToken(header)
      case Err(e) => Err(e)
      case Ok(token) => UserFromToken(decode(token))
  }

  /** `get_optional_user`: the development user, or nobody when Azure AD is on. */
  function OptionalUser(azureAdEnabled: bool): (r: Option<User>)
    ensures r.Some? <==> !azureAdEnabled
    ensures r.Some? ==> r.value == MockUser()
  {
    if azureAdEnabled then None else Some(MockUser())
  }
}
