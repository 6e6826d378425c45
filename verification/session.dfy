/** Token evaluation of the dashboard page: reading the role and the expiry
    instant out of the stored session token, and deciding whether the session
    has lapsed at a given instant. */
module Session {
  import opened Base

  /** The two claims the client reads from a decoded token. `exp` is the
      NumericDate of section 4.1.4 of RFC 7519 (whole seconds since the epoch);
      `role` is an application claim. Either may be missing. */
  datatype Claims = Claims(exp: Option<int>, role: Option<string>)

  /** The token decoder is a foreign, format-only library: it is a parameter
      of the model. `None` stands for the decoder throwing on malformed input.
      No signature is checked anywhere. */
  type Decoder = string -> Option<Claims>

  /** The role claim as a string. A missing claim reads as JavaScript
      `undefined`, which every consumer treats exactly like `''`. */
  function RoleText(role: Option<string>): string {
    role.GetOr("")
  }

  /** The claims of a truthy token, when the decoder accepts it. */
  function ClaimsOf(decode: Decoder, token: Option<string>): Option<Claims> {
    if Truthy(token) then decode(token.value) else None
  }

  /** `getRole`: the role of the signed-in user, `''` when there is none. */
  function GetRole(decode: Decoder, token: Option<string>): (role: string)
    // a non-empty role is always the role claim of a present, decodable token
    ensures role != "" ==>
              Truthy(token) && decode(token.value).Some? && decode(token.value).value.role == Some(role)
    // and every such claim is returned as it is
    ensures Truthy(token) && decode(token.value).Some? && decode(token.value).value.role.Some? ==>
              Some(role) == decode(token.value).value.role
    ensures !Truthy(token) || decode(token.value).None? ==> role == ""
  {
    if !Truthy(token) then ""
    else
      match decode(token.value)
      case None => ""
      case Some(claims) => RoleText(claims.role)
  }

  /** `getTokenExpiration`: the expiry instant in milliseconds since the epoch,
      or `None` when the token is absent, undecodable, or its `exp` is falsy
      (missing or zero). */
  function GetTokenExpiration(decode: Decoder, token: Option<string>): (ms: Option<int>)
    ensures ms.Some? <==>
              ClaimsOf(decode, token).Some? && ClaimsOf(decode, token).value.exp.Some?
              && ClaimsOf(decode, token).value.exp.value != 0
    ensures ms.Some? ==> ms.value == ClaimsOf(decode, token).value.exp.value * 1000
    ensures ms.Some? ==> ms.value != 0 && ms.value % 1000 == 0
  {
    if !Truthy(token) then None
    else
      match decode(token.value)
      case None => None
      case Some(claims) =>
        if claims.exp.None? || claims.exp.value == 0 then None
        else Some(claims.exp.value * 1000)
  }

  /** `isTokenExpired`: fails closed, and the expiry instant itself already
      counts as expired. */
  function IsTokenExpired(decode: Decoder, token: Option<string>, now: int): (expired: bool)
    ensures GetTokenExpiration(decode, token).None? ==> expired
    ensures !expired <==>
              GetTokenExpiration(decode, token).Some? && now < GetTokenExpiration(decode, token).value
  {
    var exp := GetTokenExpiration(decode, token);
    if exp.None? || exp.value == 0 then true
    else now >= exp.value
  }

  /** The three situations a stored credential can be in at an instant. */
  datatype SessionState = Absent | Expired | Valid(role: string, expiresAtMs: int)

  /** Reference classification of a stored credential, written directly from
      the token's claims and independent of the three functions above. */
  function Evaluate(decode: Decoder, token: Option<string>, now: int): (st: SessionState)
    ensures st.Absent? <==> !Truthy(token)
    ensures st.Valid? ==> now < st.expiresAtMs && st.expiresAtMs % 1000 == 0
    ensures st.Valid? ==> ClaimsOf(decode, token).Some?
  {
    if !Truthy(token) then Absent
    else
      match decode(token.value)
      case None => Expired
      case Some(Claims(exp, role)) =>
        match exp
        case None => Expired
        case Some(seconds) =>
          if seconds != 0 && now < seconds * 1000 then Valid(RoleText(role), seconds * 1000)
          else Expired
  }

  /** The page's three functions agree with the reference classification:
      a token is unexpired exactly when it is `Valid`, and then its role and
      expiry instant are the ones `Evaluate` reports. */
  lemma EvaluateAgrees(decode: Decoder, token: Option<string>, now: int)
    ensures !IsTokenExpired(decode, token, now) <==> Evaluate(decode, token, now).Valid?
    ensures Evaluate(decode, token, now).Valid? ==>
              GetTokenExpiration(decode, token) == Some(Evaluate(decode, token, now).expiresAtMs)
              && GetRole(decode, token) == Evaluate(decode, token, now).role
    ensures Evaluate(decode, token, now).Absent? ==> IsTokenExpired(decode, token, now)
  {
  }

  /** Once expired, a token stays expired: the verdict is monotone in time. */
  lemma ExpiryIsMonotone(decode: Decoder, token: Option<string>, now: int, later: int)
    requires now <= later
    requires IsTokenExpired(decode, token, now)
    ensures IsTokenExpired(decode, token, later)
  {
  }

  /** The expiry instant is the first millisecond at which the token counts as
      expired: the boundary belongs to the expired side. */
  lemma ExpiryBoundary(decode: Decoder, token: Option<string>, ms: int)
    requires GetTokenExpiration(decode, token) == Some(ms)
    ensures IsTokenExpired(decode, token, ms)
    ensures !IsTokenExpired(decode, token, ms - 1)
  {
  }

  /** The same decoder with every role claim removed. */
  function EraseRoles(decode: Decoder): (erased: Decoder)
    ensures forall t :: erased(t).Some? <==> decode(t).Some?
  {
    t => match decode(t)
         case None => None
         case Some(c) => Some(c.(role := None))
  }

  /** Expiry never looks at the role claim. */
  lemma ExpiryIgnoresRole(decode: Decoder, token: Option<string>, now: int)
    ensures GetTokenExpiration(EraseRoles(decode), token) == GetTokenExpiration(decode, token)
    ensures IsTokenExpired(EraseRoles(decode), token, now) == IsTokenExpired(decode, token, now)
  {
  }
}
