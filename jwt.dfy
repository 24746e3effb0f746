/** The token service: its configuration, the claim set and lifetime of
    an issued token, and the rule by which a presented token is accepted.
    A token is the decoded record of its claims and of the registered
    claims `iss`, `aud` and `exp` of section 4.1 of RFC 7519; the compact
    serialisation and the HMAC-SHA256 signature are abstract: a token
    records the key it was signed with, and a signature checks out exactly
    when that key is the configured one. Clock readings are parameters. */
module Jwt {
  import opened Base
  import opened Decimal

  /** The issuer (`iss`, 4.1.1) and audience (`aud`, 4.1.3) this service
      writes into every token and demands of every presented token. */
  const Issuer := "BosphorusFellasAPI"
  const Audience := "BosphorusFellasAPI"

  /** The clock skew tolerated when checking `exp` (4.1.4): none. */
  const ClockSkew := 0

  /** The lifetime setting used when `Jwt:ExpiryTimeInSeconds` is absent. */
  const DefaultExpirySetting := "3600"

  /** The two fields the service sets once, in its constructor. */
  datatype Config = Config(secretKey: string, expiryTimeInSeconds: int)

  /** Constructing the service either yields a configuration or throws. */
  datatype ConfigResult =
    | Configured(config: Config)
    | MissingSecretKey        // ArgumentNullException: no `Jwt:SecretKey`
    | InvalidExpirySetting    // int.Parse throws on the lifetime setting

  /** The constructor: a missing secret key fails construction; a missing
      lifetime setting falls back to "3600"; a present one must parse. */
  function NewJwtService(secretKey: Option<string>, expirySetting: Option<string>): (r: ConfigResult)
    ensures r == MissingSecretKey <==> secretKey.None?
    ensures r.Configured? ==> r.config.secretKey == secretKey.value
    ensures r.Configured? ==> ParseInt32(expirySetting.GetOr(DefaultExpirySetting)) == Some(r.config.expiryTimeInSeconds)
    ensures r == InvalidExpirySetting <==> secretKey.Some? && ParseInt32(expirySetting.GetOr(DefaultExpirySetting)).None?
  {
    match secretKey
    case None => MissingSecretKey
    case Some(k) =>
      match ParseInt32(expirySetting.GetOr(DefaultExpirySetting))
      case None => InvalidExpirySetting
      case Some(seconds) => Configured(Config(k, seconds))
  }

  /** Without a lifetime setting, tokens live one hour. */
  lemma DefaultExpiry(secretKey: string)
    ensures NewJwtService(Some(secretKey), None) == Configured(Config(secretKey, 3600))
  {
    assert NatToDecimal(3600) == NatToDecimal(360) + ['0'];
    assert NatToDecimal(360) == NatToDecimal(36) + ['0'];
    assert NatToDecimal(36) == NatToDecimal(3) + ['6'];
    assert IntToDecimal(3600) == DefaultExpirySetting;
    Int32RoundTrip(3600);
  }

  /** The claim types the service uses: three standard ones and named
      custom claims. */
  datatype ClaimType = NameIdentifier | Email | Name | Custom(name: string)

  datatype Claim = Claim(kind: ClaimType, value: string)

  const UserTypeClaim := Custom("UserType")
  const AdClaim := Custom("Ad")
  const SoyadClaim := Custom("Soyad")

  /** `FindFirst(kind)?.Value`. */
  function FindClaim(claims: seq<Claim>, kind: ClaimType): (r: Option<string>)
    ensures r.Some? <==> exists i :: 0 <= i < |claims| && claims[i].kind == kind
  {
    match FirstIndex(claims, (c: Claim) => c.kind == kind)
    case None => None
    case Some(i) => Some(claims[i].value)
  }

  /** The claim found is the first one of its type. */
  lemma FindClaimAt(claims: seq<Claim>, kind: ClaimType, k: nat)
    requires k < |claims| && claims[k].kind == kind
    requires forall j :: 0 <= j < k ==> claims[j].kind != kind
    ensures FindClaim(claims, kind) == Some(claims[k].value)
  {
    FirstIndexAt(claims, (c: Claim) => c.kind == kind, k);
  }

  /** A decoded token. `signingKey` stands for the signature: the
      symmetric key whose HMAC the token carries. */
  datatype Token = Token(
    claims: seq<Claim>,
    issuer: string,
    audience: string,
    exp: int,
    signingKey: string)

  /** The claims put into every token, in the order the service lists them. */
  function ClaimSet(userId: int, userType: string, email: string, ad: string, soyad: string): seq<Claim> {
    [ Claim(NameIdentifier, IntToDecimal(userId)),
      Claim(Email, email),
      Claim(Name, ad + " " + soyad),
      Claim(UserTypeClaim, userType),
      Claim(AdClaim, ad),
      Claim(SoyadClaim, soyad) ]
  }

  /** Each claim of the set reads back as the value it was built from:
      the identity claims first, then the custom ones. */
  lemma IssuedIdentityClaims(userId: int, userType: string, email: string, ad: string, soyad: string)
    ensures var claims := ClaimSet(userId, userType, email, ad, soyad);
      && FindClaim(claims, NameIdentifier) == Some(IntToDecimal(userId))
      && FindClaim(claims, Email) == Some(email)
      && FindClaim(claims, Name) == Some(ad + " " + soyad)
  {
    var claims := ClaimSet(userId, userType, email, ad, soyad);
    FindClaimAt(claims, NameIdentifier, 0);
    FindClaimAt(claims, Email, 1);
    FindClaimAt(claims, Name, 2);
  }

  lemma IssuedCustomClaims(userId: int, userType: string, email: string, ad: string, soyad: string)
    ensures var claims := ClaimSet(userId, userType, email, ad, soyad);
      && FindClaim(claims, UserTypeClaim) == Some(userType)
      && FindClaim(claims, AdClaim) == Some(ad)
      && FindClaim(claims, SoyadClaim) == Some(soyad)
  {
    var claims := ClaimSet(userId, userType, email, ad, soyad);
    FindClaimAt(claims, UserTypeClaim, 3);
    FindClaimAt(claims, AdClaim, 4);
    FindClaimAt(claims, SoyadClaim, 5);
  }

  /** `GenerateToken`, issued at instant `now`: the token expires one
      configured window later and, when that window is positive, is good
      at the moment of issue. For a window of zero or less the library
      throws instead, because `NotBefore` is read from the clock after
      `Expires` is computed; the login maps that to its problem response. */
  function GenerateToken(cfg: Config, userId: int, userType: string, email: string,
                         ad: string, soyad: string, now: int): (t: Token)
    ensures t.exp - now == cfg.expiryTimeInSeconds
    ensures 0 < cfg.expiryTimeInSeconds ==> ValidateToken(cfg, Some(t), now) == Some(t.claims)
  {
    Token(ClaimSet(userId, userType, email, ad, soyad), Issuer, Audience,
          now + cfg.expiryTimeInSeconds, cfg.secretKey)
  }

  /** Every claim a handler reads back from an issued token yields the
      value it was issued with. */
  lemma IssuedTokenClaims(cfg: Config, userId: int, userType: string, email: string,
                          ad: string, soyad: string, now: int)
    ensures var claims := GenerateToken(cfg, userId, userType, email, ad, soyad, now).claims;
      && FindClaim(claims, NameIdentifier) == Some(IntToDecimal(userId))
      && FindClaim(claims, Email) == Some(email)
      && FindClaim(claims, Name) == Some(ad + " " + soyad)
      && FindClaim(claims, UserTypeClaim) == Some(userType)
      && FindClaim(claims, AdClaim) == Some(ad)
      && FindClaim(claims, SoyadClaim) == Some(soyad)
  {
    IssuedIdentityClaims(userId, userType, email, ad, soyad);
    IssuedCustomClaims(userId, userType, email, ad, soyad);
  }

  /** `ValidateToken` at instant `now`; `None` for the token argument is a
      string that does not decode as a token. Each check the library
      performs is a reason to return `null`; the lifetime check allows no
      clock skew: the token is rejected once `exp` lies before `now`. */
  function ValidateToken(cfg: Config, token: Option<Token>, now: int): (r: Option<seq<Claim>>)
    ensures r.Some? <==>
      && token.Some?
      && token.value.signingKey == cfg.secretKey
      && token.value.issuer == Issuer
      && token.value.audience == Audience
      && now <= token.value.exp
    ensures r.Some? ==> r.value == token.value.claims
  {
    match token
    case None => None
    case Some(t) =>
      if t.signingKey != cfg.secretKey then None
      else if t.issuer != Issuer then None
      else if t.audience != Audience then None
      else if t.exp < now - ClockSkew then None
      else Some(t.claims)
  }

  /** `GetExpiryTime`, called at instant `now`: the window measured from
      that call, not from any token. */
  function GetExpiryTime(cfg: Config, now: int): (r: int)
    ensures r - now == cfg.expiryTimeInSeconds
  {
    now + cfg.expiryTimeInSeconds
  }

  /** An issued token is accepted exactly up to and including its expiry
      instant, and from then on rejected, with no grace period. */
  lemma IssuedTokenLifetime(cfg: Config, userId: int, userType: string, email: string,
                            ad: string, soyad: string, issuedAt: int, now: int)
    ensures var t := GenerateToken(cfg, userId, userType, email, ad, soyad, issuedAt);
      ValidateToken(cfg, Some(t), now) ==
        if now <= issuedAt + cfg.expiryTimeInSeconds then Some(t.claims) else None
  {
  }

  /** One instant past `exp` is enough for rejection. */
  lemma NoClockSkew(cfg: Config, t: Token)
    requires t.signingKey == cfg.secretKey && t.issuer == Issuer && t.audience == Audience
    ensures ValidateToken(cfg, Some(t), t.exp).Some?
    ensures ValidateToken(cfg, Some(t), t.exp + 1).None?
  {
  }

  /** A token for another issuer or audience, or signed with another key,
      is rejected at every instant. */
  lemma ForeignTokenRejected(cfg: Config, t: Token, now: int)
    requires t.issuer != Issuer || t.audience != Audience || t.signingKey != cfg.secretKey
    ensures ValidateToken(cfg, Some(t), now).None?
  {
  }
}
