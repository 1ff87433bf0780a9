/**
 * backend/auth.py: password authentication, access tokens carrying the username as
 * their subject and an expiry time, the current-user dependency, and the three role
 * gates. The token library is modelled by what its decoder checks: the signing key,
 * the algorithm, the `exp` claim against the clock and the type of the `sub` claim.
 * The clock is a parameter, in whole seconds since the epoch.
 */
module Auth {
  import opened Results
  import opened Tables
  import opened Models
  import opened Passwords
  import opened Queries

  /** The configuration the module reads: `SECRET_KEY`, `ALGORITHM`, `ACCESS_TOKEN_EXPIRE_MINUTES`. */
  datatype Settings = Settings(secretKey: string, algorithm: string, accessTokenExpireMinutes: int)

  /** A claim value: text, or a NumericDate in seconds since the epoch. */
  datatype Claim = Text(text: string) | NumericDate(seconds: int)

  /** A token as a client presents it: signed claims, or a string that does not parse as one. */
  datatype Jwt =
    | Signed(claims: map<string, Claim>, key: string, algorithm: string)
    | Garbled

  // ---------------------------------------------------------------------------
  // Passwords and login (auth.py:22-40)

  /**
   * `authenticate_user`: the user the name selects, provided the password verifies
   * against that user's stored hash.
   */
  function AuthenticateUser(users: seq<Row<User>>, username: string, password: string): (r: Option<Row<User>>)
    ensures r.Some? ==> r.value in users && r.value.value.username == username
    ensures r.Some? ==> VerifyPassword(password, r.value.value.hashedPassword)
    ensures KeyFree(users, Username, username) ==> r.None?
    ensures UniqueKey(users, Username) ==>
      (r.None? <==> forall i :: 0 <= i < |users| && users[i].value.username == username ==>
                      !VerifyPassword(password, users[i].value.hashedPassword))
  {
    var user := GetUserByUsername(users, username);
    if user.None? then None
    else if !VerifyPassword(password, user.value.value.hashedPassword) then None
    else
      assert UniqueKey(users, Username) ==> forall i :: 0 <= i < |users| && users[i].value.username == username ==>
        users[i] == user.value by {
        if UniqueKey(users, Username) {
          var j :| 0 <= j < |users| && users[j] == user.value;
          forall i | 0 <= i < |users| && users[i].value.username == username ensures users[i] == user.value {
            UniqueKeyHolder(users, Username, i, j);
          }
        }
      }
      user
  }

  // ---------------------------------------------------------------------------
  // Tokens (auth.py:42-53, and the decoder auth.py:64 relies on)

  /**
   * The lifetime of a new token: the delta given, or the configured minutes when none
   * is given. A zero delta is falsy in `if expires_delta:` and also gets the default.
   */
  function TokenLifetime(expiresDelta: Option<int>, settings: Settings): (d: int)
    ensures expiresDelta.Some? && expiresDelta.value != 0 ==> d == expiresDelta.value
    ensures expiresDelta.None? || expiresDelta.value == 0 ==> d == 60 * settings.accessTokenExpireMinutes
  {
    if expiresDelta.Some? && expiresDelta.value != 0 then expiresDelta.value
    else 60 * settings.accessTokenExpireMinutes
  }

  /**
   * `create_access_token`: the caller's claims plus `exp`, signed with the configured
   * key and algorithm. The caller's claims are a value, so they are left as they were.
   */
  function CreateAccessToken(data: map<string, Claim>, expiresDelta: Option<int>, now: int, settings: Settings)
    : (t: Jwt)
    ensures t.Signed? && t.key == settings.secretKey && t.algorithm == settings.algorithm
    ensures t.claims.Keys == data.Keys + {"exp"}
    ensures t.claims["exp"] == NumericDate(now + TokenLifetime(expiresDelta, settings))
    ensures forall k :: k in data && k != "exp" ==> t.claims[k] == data[k]
  {
    Signed(data["exp" := NumericDate(now + TokenLifetime(expiresDelta, settings))],
           settings.secretKey, settings.algorithm)
  }

  /**
   * The registered claims the decoder validates: an `exp` must be a NumericDate not
   * before the current second, and a `sub` must be text.
   */
  predicate ClaimsValid(claims: map<string, Claim>, now: int) {
    && ("exp" in claims ==> claims["exp"].NumericDate? && now <= claims["exp"].seconds)
    && ("sub" in claims ==> claims["sub"].Text?)
  }

  /**
   * `jwt.decode(token, SECRET_KEY, algorithms=[ALGORITHM])`: the claims of a token
   * signed with the configured key and algorithm whose claims are valid now; None
   * wherever the library raises JWTError.
   */
  function Decode(token: Jwt, settings: Settings, now: int): (r: Option<map<string, Claim>>)
    ensures r.Some? <==>
      token.Signed? && token.key == settings.secretKey && token.algorithm == settings.algorithm
      && ClaimsValid(token.claims, now)
    ensures r.Some? ==> r.value == token.claims
  {
    if token.Garbled? then None
    else if token.key != settings.secretKey || token.algorithm != settings.algorithm then None
    else if !ClaimsValid(token.claims, now) then None
    else Some(token.claims)
  }

  /** The username a token names: the `sub` claim of a token that decodes. */
  function TokenSubject(token: Jwt, settings: Settings, now: int): (s: Option<string>)
    ensures s.Some? <==> Decode(token, settings, now).Some? && "sub" in token.claims
    ensures s.Some? ==> token.claims["sub"] == Text(s.value)
  {
    var payload := Decode(token, settings, now);
    if payload.None? || "sub" !in payload.value then None
    else Some(payload.value["sub"].text)
  }

  // ---------------------------------------------------------------------------
  // The current user and the gates (auth.py:56-111)

  /**
   * `get_current_user`: the user the token's subject names. A token that does not
   * decode, has no subject, or names no user is refused as unauthenticated.
   */
  function CurrentUser(users: seq<Row<User>>, token: Jwt, settings: Settings, now: int): (r: Outcome<Row<User>>)
    ensures r.Err? ==> r.error == Unauthenticated
    ensures r.Ok? <==>
      TokenSubject(token, settings, now).Some? && !KeyFree(users, Username, TokenSubject(token, settings, now).value)
    ensures r.Ok? ==> r.value in users && r.value.value.username == TokenSubject(token, settings, now).value
  {
    var username := TokenSubject(token, settings, now);
    if username.None? then Err(Unauthenticated)
    else
      var user := GetUserByUsername(users, username.value);
      if user.None? then Err(Unauthenticated) else Ok(user.value)
  }

  /**
   * `get_current_active_user`: the current user unless disabled. A disabled user gets
   * its own outcome, distinct from an unauthenticated or a forbidden one.
   */
  function CurrentActiveUser(users: seq<Row<User>>, token: Jwt, settings: Settings, now: int)
    : (r: Outcome<Row<User>>)
    ensures r.Ok? <==> CurrentUser(users, token, settings, now).Ok? && !CurrentUser(users, token, settings, now).value.value.disabled
    ensures r.Ok? ==> r == CurrentUser(users, token, settings, now)
    ensures CurrentUser(users, token, settings, now).Ok? && r.Err? ==> r.error == Inactive
    ensures CurrentUser(users, token, settings, now).Err? ==> r.error == Unauthenticated
  {
    var user :- CurrentUser(users, token, settings, now);
    if user.value.disabled then Err(Inactive) else Ok(user)
  }

  /** The roles the application distinguishes. The column itself holds any string. */
  datatype Role = Admin | CompanyOwner | Agent

  /** The string the column stores for each role. */
  function RoleName(role: Role): string {
    match role
    case Admin => "admin"
    case CompanyOwner => "company_owner"
    case Agent => "agent"
  }

  /** The role a stored string names, if any: the inverse of `RoleName`. */
  function ParseRole(s: string): (r: Option<Role>)
    ensures r.Some? ==> RoleName(r.value) == s
    ensures forall role :: RoleName(role) == s ==> r == Some(role)
  {
    if s == "admin" then Some(Admin)
    else if s == "company_owner" then Some(CompanyOwner)
    else if s == "agent" then Some(Agent)
    else None
  }

  /** The role test of `get_current_active_admin_user`. */
  predicate AdminGateAdmits(role: string) {
    role == "admin"
  }

  /** The role test of `get_current_active_company_owner_user`. */
  predicate OwnerGateAdmits(role: string) {
    role in ["admin", "company_owner"]
  }

  /** The role test of `get_current_active_agent_user`. */
  predicate AgentGateAdmits(role: string) {
    role in ["admin", "company_owner", "agent"]
  }

  /** An active user passes a gate if its role passes the gate's test; anyone else is forbidden. */
  function RoleGate(active: Outcome<Row<User>>, admits: string -> bool): (r: Outcome<Row<User>>)
    ensures r.Ok? <==> active.Ok? && admits(active.value.value.role)
    ensures r.Ok? ==> r == active
    ensures active.Err? ==> r == active
    ensures active.Ok? && r.Err? ==> r.error == Forbidden
  {
    var user :- active;
    if admits(user.value.role) then Ok(user) else Err(Forbidden)
  }

  /** `get_current_active_admin_user`: admits exactly the active users whose role is admin. */
  function CurrentAdminUser(users: seq<Row<User>>, token: Jwt, settings: Settings, now: int)
    : (r: Outcome<Row<User>>)
    ensures r.Ok? <==> (CurrentActiveUser(users, token, settings, now).Ok?
      && ParseRole(CurrentActiveUser(users, token, settings, now).value.value.role) == Some(Admin))
    ensures r.Ok? ==> r == CurrentActiveUser(users, token, settings, now)
    ensures r.Err? && CurrentActiveUser(users, token, settings, now).Ok? ==> r.error == Forbidden
  {
    RoleGate(CurrentActiveUser(users, token, settings, now), AdminGateAdmits)
  }

  /** `get_current_active_company_owner_user`: admits the active admins and company owners. */
  function CurrentCompanyOwnerUser(users: seq<Row<User>>, token: Jwt, settings: Settings, now: int)
    : (r: Outcome<Row<User>>)
    ensures r.Ok? <==> (CurrentActiveUser(users, token, settings, now).Ok?
      && ParseRole(CurrentActiveUser(users, token, settings, now).value.value.role) in {Some(Admin), Some(CompanyOwner)})
    ensures r.Ok? ==> r == CurrentActiveUser(users, token, settings, now)
    ensures r.Err? && CurrentActiveUser(users, token, settings, now).Ok? ==> r.error == Forbidden
  {
    RoleGate(CurrentActiveUser(users, token, settings, now), OwnerGateAdmits)
  }

  /**
   * `get_current_active_agent_user`: admits the active users whose role is one of the
   * three roles; a user whose stored role is any other string is forbidden.
   */
  function CurrentAgentUser(users: seq<Row<User>>, token: Jwt, settings: Settings, now: int)
    : (r: Outcome<Row<User>>)
    ensures r.Ok? <==> (CurrentActiveUser(users, token, settings, now).Ok?
      && ParseRole(CurrentActiveUser(users, token, settings, now).value.value.role).Some?)
    ensures r.Ok? ==> r == CurrentActiveUser(users, token, settings, now)
    ensures r.Err? && CurrentActiveUser(users, token, settings, now).Ok? ==> r.error == Forbidden
  {
    RoleGate(CurrentActiveUser(users, token, settings, now), AgentGateAdmits)
  }

  // ---------------------------------------------------------------------------
  // Lemmas

  /** `RoleName` and `ParseRole` are inverse: every role round-trips through its stored name. */
  lemma RoleNameRoundTrip(role: Role)
    ensures ParseRole(RoleName(role)) == Some(role)
  {
  }

  /** Each gate's string test admits exactly the names of its roles. */
  lemma GatesAdmitExactly(role: string)
    ensures AdminGateAdmits(role) <==> ParseRole(role) == Some(Admin)
    ensures OwnerGateAdmits(role) <==> ParseRole(role) == Some(Admin) || ParseRole(role) == Some(CompanyOwner)
    ensures AgentGateAdmits(role) <==> ParseRole(role).Some?
  {
  }

  /** The gates are nested: admin-gate users pass the owner gate, and owner-gate users the agent gate. */
  lemma GatesMonotone(users: seq<Row<User>>, token: Jwt, settings: Settings, now: int)
    ensures CurrentAdminUser(users, token, settings, now).Ok? ==>
      CurrentCompanyOwnerUser(users, token, settings, now) == CurrentAdminUser(users, token, settings, now)
    ensures CurrentCompanyOwnerUser(users, token, settings, now).Ok? ==>
      CurrentAgentUser(users, token, settings, now) == CurrentCompanyOwnerUser(users, token, settings, now)
  {
  }

  /** No gate admits a disabled user: whatever the role, the outcome is Inactive. */
  lemma DisabledUserIsInactive(users: seq<Row<User>>, token: Jwt, settings: Settings, now: int)
    requires CurrentUser(users, token, settings, now).Ok?
    requires CurrentUser(users, token, settings, now).value.value.disabled
    ensures CurrentAdminUser(users, token, settings, now) == Err(Inactive)
    ensures CurrentCompanyOwnerUser(users, token, settings, now) == Err(Inactive)
    ensures CurrentAgentUser(users, token, settings, now) == Err(Inactive)
  {
  }

  /**
   * A token made for a subject names that subject exactly until its expiry second
   * and names nobody after it.
   */
  lemma TokenNamesSubjectUntilExpiry(
    data: map<string, Claim>, expiresDelta: Option<int>, issued: int, settings: Settings, now: int)
    requires "sub" in data && data["sub"].Text?
    ensures var t := CreateAccessToken(data, expiresDelta, issued, settings);
      TokenSubject(t, settings, now) == (if now <= issued + TokenLifetime(expiresDelta, settings)
                                         then Some(data["sub"].text) else None)
  {
    var t := CreateAccessToken(data, expiresDelta, issued, settings);
    assert t.claims["sub"] == data["sub"];
  }

  /** A token signed with any other key, or any other algorithm, authenticates nobody. */
  lemma ForgedTokenRejected(users: seq<Row<User>>, token: Jwt, settings: Settings, now: int)
    requires token.Signed? && (token.key != settings.secretKey || token.algorithm != settings.algorithm)
    ensures CurrentUser(users, token, settings, now) == Err(Unauthenticated)
  {
  }
}
