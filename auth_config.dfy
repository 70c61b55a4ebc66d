/** The JWT settings and the two token helpers that are plain decisions: taking
    the token out of an Authorization header and testing a decoded token's
    expiry. Signing, verifying and decoding are the JWT library's and stay
    abstract. */
module AuthConfig {
  import opened Common
  import opened JsText

  const Issuer: string := "chickfit-api"
  const Audience: string := "chickfit-mobile-app"
  const DefaultExpiry: string := "24h"
  const RefreshExpiry: string := "7d"
  const BearerPrefix: string := "Bearer "

  /** The JWT settings: the lifetime comes from JWT_EXPIRE unless it is unset or empty. */
  datatype JwtConfig = JwtConfig(expiresIn: string, issuer: string, audience: string)

  function Config(jwtExpire: Option<string>): (c: JwtConfig)
    ensures c.issuer == Issuer && c.audience == Audience
    ensures Present(jwtExpire) ==> c.expiresIn == jwtExpire.value
    ensures !Present(jwtExpire) ==> c.expiresIn == DefaultExpiry
  {
    JwtConfig(OrElse(jwtExpire, DefaultExpiry), Issuer, Audience)
  }

  /** What the signer is asked for: an access token with the configured
      lifetime, or a refresh token valid for seven days; both under the same
      issuer and audience. */
  datatype SignRequest = SignRequest(expiresIn: string, issuer: string, audience: string)

  function AccessTokenRequest(c: JwtConfig): (r: SignRequest)
    ensures r.expiresIn == c.expiresIn && r.issuer == c.issuer && r.audience == c.audience
  {
    SignRequest(c.expiresIn, c.issuer, c.audience)
  }

  function RefreshTokenRequest(c: JwtConfig): (r: SignRequest)
    ensures r.expiresIn == RefreshExpiry && r.issuer == c.issuer && r.audience == c.audience
  {
    SignRequest(RefreshExpiry, c.issuer, c.audience)
  }

  /** extractTokenFromHeader: the header without its "Bearer " prefix, or None
      when the header is missing, empty or lacks the exact, case-sensitive prefix. */
  function ExtractToken(header: Option<string>): (token: Option<string>)
    ensures token.Some? <==> header.Some? && StartsWith(header.value, BearerPrefix)
    ensures token.Some? ==> header.value == BearerPrefix + token.value
  {
    if !Present(header) || !StartsWith(header.value, BearerPrefix) then None
    else
      var h := header.value;
      assert h == h[..7] + h[7..];
      Some(h[7..])
  }

  /** Extraction inverts prefixing: every token is recovered from its header. */
  lemma ExtractOfBearer(t: string)
    ensures ExtractToken(Some(BearerPrefix + t)) == Some(t)
  {
    StartsWithAppend(BearerPrefix, t);
    var h := BearerPrefix + t;
    assert h[7..] == t;
  }

  /** The edge cases: no header, an empty header, the lower-case scheme and the
      bare prefix. */
  lemma ExtractEdgeCases()
    ensures ExtractToken(None) == None
    ensures ExtractToken(Some("")) == None
    ensures ExtractToken(Some("bearer abc")) == None
    ensures ExtractToken(Some("Bearer")) == None
    ensures ExtractToken(Some(BearerPrefix)) == Some("")
  {
    assert "bearer abc"[..7] != BearerPrefix by { assert "bearer abc"[0] == 'b'; }
    ExtractOfBearer("");
    assert BearerPrefix + "" == BearerPrefix;
  }

  /** What decoding a token (without verifying it) yields: nothing, or a
      payload whose `exp` claim, in seconds, may be missing. */
  datatype Decoded = DecodeFailed | Decoded(exp: Option<real>)

  /** isTokenExpired at time `now` (milliseconds). */
  predicate IsTokenExpired(decoded: Decoded, now: int)
  {
    decoded.DecodeFailed? || decoded.exp.None? || decoded.exp.value == 0.0
    || now as real >= decoded.exp.value * 1000.0
  }

  /** A token with a non-zero expiry claim is expired exactly from the
      claim's millisecond onwards; without a decodable payload or a
      (truthy) claim it counts as expired. */
  lemma ExpiryMeaning(decoded: Decoded, now: int)
    ensures decoded.DecodeFailed? ==> IsTokenExpired(decoded, now)
    ensures decoded.Decoded? && (decoded.exp.None? || decoded.exp == Some(0.0)) ==> IsTokenExpired(decoded, now)
    ensures decoded.Decoded? && decoded.exp.Some? && decoded.exp.value != 0.0 ==>
              (IsTokenExpired(decoded, now) <==> now as real >= decoded.exp.value * 1000.0)
  {
  }

  /** Expiry is monotone in time: once expired, a token stays expired. */
  lemma ExpiryIsMonotone(decoded: Decoded, now: int, later: int)
    requires now <= later && IsTokenExpired(decoded, now)
    ensures IsTokenExpired(decoded, later)
  {
  }

  /** The boundary: a claim of exp seconds expires at exp·1000 ms, not before. */
  lemma ExpiryBoundary(exp: nat)
    requires exp > 0
    ensures !IsTokenExpired(Decoded(Some(exp as real)), exp * 1000 - 1)
    ensures IsTokenExpired(Decoded(Some(exp as real)), exp * 1000)
  {
  }
}
