/** The per-request authentication step (`JwtRequestFilter`): read a bearer
    token, name its user, and authenticate the request when nothing else
    has and the token validates. */
module AuthFilter {
  import opened Base
  import opened Text
  import Users
  import Jwt

  const BearerPrefix: string := "Bearer "

  /** The token of an `Authorization` header: what follows "Bearer ". */
  function BearerToken(header: Option<string>): (r: Option<string>)
    ensures r.Some? <==> header.Some? && StartsWith(header.value, BearerPrefix)
    ensures r.Some? ==> header.value == BearerPrefix + r.value
  {
    if header.Some? && StartsWith(header.value, BearerPrefix) then
      assert header.value == header.value[..7] + header.value[7..];
      Some(header.value[7..])
    else None
  }

  /** The authentication placed in the security context: the user's
      details, no credentials, the user's authorities. */
  datatype Authentication = Authentication(principal: Users.UserDetails, credentials: Option<string>, authorities: seq<string>)

  /** The four clock readings a run may take, in order: while extracting
      the name, then the two parses and the comparison inside validation. */
  datatype Clock = Clock(extract: nat, validateName: nat, validateExpiry: nat, compare: nat)

  /** What escapes the filter: the user lookup and validation are outside
      its try block. */
  datatype FilterFault = LookupFailed(userFault: Users.UserFault) | TokenRejected(tokenFault: Jwt.JwtFault)

  /** A run: the context's authentication afterwards (or what was thrown)
      and how often the rest of the chain ran. */
  datatype FilterRun = FilterRun(result: Result<Option<Authentication>, FilterFault>, chainCalls: nat)

  /** The name the filter reads from a token; any parse failure leaves it null. */
  function TokenUsername(c: Jwt.Codec, token: Option<string>, now: nat): Option<string> {
    match token
    case None => None
    case Some(t) =>
      match Jwt.ExtractUsername(c, t, now)
      case Ok(name) => name
      case Err(_) => None
  }

  /** `doFilterInternal`. */
  function DoFilter(c: Jwt.Codec, header: Option<string>, existing: Option<Authentication>,
                    users: Users.UserStore, clock: Clock): (run: FilterRun)
    ensures run.result.Ok? <==> run.chainCalls == 1
    ensures run.result.Err? ==> run.chainCalls == 0
    ensures existing.Some? ==> run == FilterRun(Ok(existing), 1)
    ensures TokenUsername(c, BearerToken(header), clock.extract).None? ==> run == FilterRun(Ok(existing), 1)
    ensures run.result.Ok? && run.result.value != existing ==>
      && existing.None?
      && var name := TokenUsername(c, BearerToken(header), clock.extract).value;
      && Users.LoadUserByUsername(users, name).Ok?
      && var user := Users.LoadUserByUsername(users, name).value;
      && Jwt.ValidateToken(c, BearerToken(header).value, user, clock.validateName, clock.validateExpiry, clock.compare) == Ok(true)
      && run.result.value == Some(Authentication(user, None, user.authorities))
    ensures existing.None? && TokenUsername(c, BearerToken(header), clock.extract).Some? ==>
      BearerToken(header).Some? &&
      var lookup := Users.LoadUserByUsername(users, TokenUsername(c, BearerToken(header), clock.extract).value);
      && (lookup.Err? ==> run == FilterRun(Err(LookupFailed(lookup.error)), 0))
      && (lookup.Ok? ==>
            var valid := Jwt.ValidateToken(c, BearerToken(header).value, lookup.value, clock.validateName, clock.validateExpiry, clock.compare);
            && (valid.Err? ==> run == FilterRun(Err(TokenRejected(valid.error)), 0))
            && (valid.Ok? ==>
                  run == FilterRun(Ok(if valid.value then Some(Authentication(lookup.value, None, lookup.value.authorities)) else None), 1)))
  {
    var token := BearerToken(header);
    match TokenUsername(c, token, clock.extract)
    case None => FilterRun(Ok(existing), 1)
    case Some(name) =>
      if existing.Some? then FilterRun(Ok(existing), 1)
      else match Users.LoadUserByUsername(users, name)
        case Err(e) => FilterRun(Err(LookupFailed(e)), 0)
        case Ok(user) =>
          match Jwt.ValidateToken(c, token.value, user, clock.validateName, clock.validateExpiry, clock.compare)
          case Err(e) => FilterRun(Err(TokenRejected(e)), 0)
          case Ok(false) => FilterRun(Ok(existing), 1)
          case Ok(true) => FilterRun(Ok(Some(Authentication(user, None, user.authorities))), 1)
  }

  /** A request carrying a fresh token generated for a stored user is
      authenticated as that user, and the chain runs once. */
  lemma FreshTokenAuthenticates(c: Jwt.Codec, users: Users.UserStore, j: nat, t1: nat, t2: nat, clock: Clock)
    requires Jwt.RoundTrips(c) && Users.Valid(users) && j < |users.rows|
    requires users.rows[j].username.value != ""
    requires t1 <= t2
    requires clock.extract + 1000 <= t1 + Jwt.ValidityMillis && clock.validateName + 1000 <= t1 + Jwt.ValidityMillis
    requires clock.validateExpiry + 1000 <= t1 + Jwt.ValidityMillis && clock.compare + 1000 <= t1 + Jwt.ValidityMillis
    ensures var user := Users.UserDetails(users.rows[j].username.value, users.rows[j].password.value, []);
      var token := Jwt.GenerateToken(c, user, t1, t2);
      DoFilter(c, Some(BearerPrefix + token), None, users, clock) == FilterRun(Ok(Some(Authentication(user, None, []))), 1)
  {
    var user := Users.UserDetails(users.rows[j].username.value, users.rows[j].password.value, []);
    var token := Jwt.GenerateToken(c, user, t1, t2);
    var header := BearerPrefix + token;
    assert header[..7] == BearerPrefix;
    assert header[7..] == token;
    Jwt.TokenLifetime(c, user, t1, t2, clock.extract);
    Users.FindsTheOnlyUsername(users, user.username, j);
    Jwt.FreshTokenValidates(c, user, t1, t2, clock.validateName, clock.validateExpiry, clock.compare);
  }

  /** An expired token is ignored: the request goes on as it came, with no
      exception and the chain run once. */
  lemma ExpiredTokenIsIgnored(c: Jwt.Codec, users: Users.UserStore, user: Users.UserDetails, t1: nat, t2: nat,
                              clock: Clock, existing: Option<Authentication>)
    requires Jwt.RoundTrips(c) && t1 <= t2 && clock.extract > t2 + Jwt.ValidityMillis
    ensures DoFilter(c, Some(BearerPrefix + Jwt.GenerateToken(c, user, t1, t2)), existing, users, clock) == FilterRun(Ok(existing), 1)
  {
    var token := Jwt.GenerateToken(c, user, t1, t2);
    var header := BearerPrefix + token;
    assert header[..7] == BearerPrefix;
    assert header[7..] == token;
    Jwt.TokenLifetime(c, user, t1, t2, clock.extract);
  }
}
