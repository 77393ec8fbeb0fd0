/** Tokens (`JwtUtil`): what a generated token claims, when it counts as
    expired, and how a token is validated against a user. Signing and the
    compact serialisation are a codec given as a parameter; the expiry check
    the parser performs is modelled. */
module Jwt {
  import opened Base
  import Users

  /** `1000 * 60 * 60 * 10`: ten hours in milliseconds. */
  const ValidityMillis: nat := 36_000_000

  /** A token's claims; times are epoch milliseconds. */
  datatype Claims = Claims(custom: map<string, string>, subject: Option<string>, issuedAt: Option<nat>, expiration: Option<nat>)

  /** Token times travel as whole seconds. */
  function WholeSeconds(ms: nat): (r: nat)
    ensures r <= ms < r + 1000
  {
    ms / 1000 * 1000
  }

  function WholeSecondsOf(t: Option<nat>): Option<nat> {
    match t
    case Some(ms) => Some(WholeSeconds(ms))
    case None => None
  }

  /** The claims as a parser reads them back from a token. */
  function OnTheWire(c: Claims): Claims {
    c.(issuedAt := WholeSecondsOf(c.issuedAt), expiration := WholeSecondsOf(c.expiration))
  }

  /** Signing with the secret key and reading back: `verify` yields the
      claims of a well-formed token whose signature checks. */
  datatype Codec = Codec(sign: Claims -> string, verify: string -> Option<Claims>)

  /** A faithful codec: a signed token reads back as its claims. */
  ghost predicate RoundTrips(c: Codec) {
    forall cl :: c.verify(c.sign(cl)) == Some(OnTheWire(cl))
  }

  datatype JwtFault = Malformed | Expired | NullReference

  /** `extractAllClaims` with the clock at `now`: the parser refuses a token
      that does not verify, and one whose expiration is before `now`. */
  function ParseClaims(c: Codec, token: string, now: nat): (r: Result<Claims, JwtFault>)
    ensures c.verify(token).None? ==> r == Err(Malformed)
    ensures c.verify(token).Some? ==>
      var cl := c.verify(token).value;
      if cl.expiration.Some? && now > cl.expiration.value then r == Err(Expired) else r == Ok(cl)
  {
    match c.verify(token)
    case None => Err(Malformed)
    case Some(cl) => if cl.expiration.Some? && now > cl.expiration.value then Err(Expired) else Ok(cl)
  }

  /** `extractUsername`: the subject (possibly null). */
  function ExtractUsername(c: Codec, token: string, now: nat): Result<Option<string>, JwtFault> {
    match ParseClaims(c, token, now)
    case Ok(cl) => Ok(cl.subject)
    case Err(e) => Err(e)
  }

  /** `extractExpiration`: the expiration (possibly null). */
  function ExtractExpiration(c: Codec, token: string, now: nat): Result<Option<nat>, JwtFault> {
    match ParseClaims(c, token, now)
    case Ok(cl) => Ok(cl.expiration)
    case Err(e) => Err(e)
  }

  /** `isTokenExpired`: the expiration (read by parsing at `parseNow`) lies
      strictly before the clock reading `now`; a missing expiration throws. */
  function IsTokenExpired(c: Codec, token: string, parseNow: nat, now: nat): (r: Result<bool, JwtFault>)
    ensures r.Ok? <==> ExtractExpiration(c, token, parseNow).Ok? && ExtractExpiration(c, token, parseNow).value.Some?
    ensures r.Ok? ==> (r.value <==> ExtractExpiration(c, token, parseNow).value.value < now)
    ensures ExtractExpiration(c, token, parseNow) == Ok(None) ==> r == Err(NullReference)
  {
    match ExtractExpiration(c, token, parseNow)
    case Err(e) => Err(e)
    case Ok(None) => Err(NullReference)
    case Ok(Some(exp)) => Ok(exp < now)
  }

  /** A token that still parses at `now` is not expired at `now`: the
      parser's own check and this one agree at the same instant. */
  lemma ParsedIsNotExpired(c: Codec, token: string, now: nat)
    requires IsTokenExpired(c, token, now, now).Ok?
    ensures IsTokenExpired(c, token, now, now) == Ok(false)
  {
  }

  /** `createToken`: the custom claims, the subject, issued at the first
      clock reading and expiring ten hours after the second. */
  function CreateToken(c: Codec, custom: map<string, string>, subject: string, t1: nat, t2: nat): (token: string)
    ensures RoundTrips(c) ==>
      c.verify(token) == Some(Claims(custom, Some(subject), Some(WholeSeconds(t1)), Some(WholeSeconds(t2 + ValidityMillis))))
  {
    c.sign(Claims(custom, Some(subject), Some(t1), Some(t2 + ValidityMillis)))
  }

  /** `generateToken`: no custom claims, the user's name as subject. */
  function GenerateToken(c: Codec, user: Users.UserDetails, t1: nat, t2: nat): (token: string)
    ensures RoundTrips(c) ==>
      && c.verify(token).Some?
      && c.verify(token).value.custom == map[]
      && c.verify(token).value.subject == Some(user.username)
  {
    CreateToken(c, map[], user.username, t1, t2)
  }

  /** A generated token names its user for ten hours, to within the second
      the wire format drops, and is refused as expired afterwards. */
  lemma TokenLifetime(c: Codec, user: Users.UserDetails, t1: nat, t2: nat, now: nat)
    requires RoundTrips(c) && t1 <= t2
    ensures now + 1000 <= t1 + ValidityMillis ==>
      ExtractUsername(c, GenerateToken(c, user, t1, t2), now) == Ok(Some(user.username))
    ensures now > t2 + ValidityMillis ==>
      ExtractUsername(c, GenerateToken(c, user, t1, t2), now) == Err(Expired)
  {
    var exp := WholeSeconds(t2 + ValidityMillis);
    assert c.verify(GenerateToken(c, user, t1, t2)).value.expiration == Some(exp);
  }

  /** `validateToken`: the subject must equal the user's name (a null
      subject throws), and only then is the expiration read (parsing again)
      and compared with the clock. Each parse and the comparison read the
      clock afresh. */
  function ValidateToken(c: Codec, token: string, user: Users.UserDetails, n1: nat, n2: nat, n3: nat): (r: Result<bool, JwtFault>)
    ensures r == Ok(true) <==>
      && ExtractUsername(c, token, n1) == Ok(Some(user.username))
      && ExtractExpiration(c, token, n2).Ok?
      && ExtractExpiration(c, token, n2).value.Some?
      && n3 <= ExtractExpiration(c, token, n2).value.value
    ensures (ExtractUsername(c, token, n1).Ok? && ExtractUsername(c, token, n1).value.Some?
             && ExtractUsername(c, token, n1).value.value != user.username) ==> r == Ok(false)
    ensures ExtractUsername(c, token, n1) == Ok(None) ==> r == Err(NullReference)
    ensures ExtractUsername(c, token, n1).Err? ==> r == Err(ExtractUsername(c, token, n1).error)
  {
    match ExtractUsername(c, token, n1)
    case Err(e) => Err(e)
    case Ok(None) => Err(NullReference)
    case Ok(Some(name)) =>
      if name != user.username then Ok(false)
      else match IsTokenExpired(c, token, n2, n3)
        case Err(e) => Err(e)
        case Ok(expired) => Ok(!expired)
  }

  /** A token generated for a user validates for that user while it is
      fresh. */
  lemma FreshTokenValidates(c: Codec, user: Users.UserDetails, t1: nat, t2: nat, n1: nat, n2: nat, n3: nat)
    requires RoundTrips(c) && t1 <= t2
    requires n1 + 1000 <= t1 + ValidityMillis && n2 + 1000 <= t1 + ValidityMillis && n3 + 1000 <= t1 + ValidityMillis
    ensures ValidateToken(c, GenerateToken(c, user, t1, t2), user, n1, n2, n3) == Ok(true)
  {
    var token := GenerateToken(c, user, t1, t2);
    var exp := WholeSeconds(t2 + ValidityMillis);
    assert c.verify(token).value.expiration == Some(exp);
    assert ExtractExpiration(c, token, n2) == Ok(Some(exp));
  }

  /** A fresh token never validates for a user of another name. */
  lemma FreshTokenRejectsOtherName(c: Codec, user: Users.UserDetails, other: Users.UserDetails, t1: nat, t2: nat,
                                   n1: nat, n2: nat, n3: nat)
    requires RoundTrips(c) && t1 <= t2 && n1 + 1000 <= t1 + ValidityMillis
    requires other.username != user.username
    ensures ValidateToken(c, GenerateToken(c, user, t1, t2), other, n1, n2, n3) == Ok(false)
  {
    var token := GenerateToken(c, user, t1, t2);
    var exp := WholeSeconds(t2 + ValidityMillis);
    assert c.verify(token).value.expiration == Some(exp);
  }
}
