/** The login handler's outcome: the response it writes and the tables
    after the legacy-password upgrade, as functions of the tables it reads.
    `issueNow` is the clock reading inside `GenerateToken` and `expiryNow`
    the later one inside `GetExpiryTime`. */
module Login {
  import opened Base
  import opened Models
  import opened Decimal
  import opened Jwt
  import opened Credentials
  import opened Http
  import opened Gates

  /** The response: a token and the profile of the row that verified, or
      one of the two refusals. The token library refuses to issue a token
      whose lifetime is not positive; its exception ends in the handler's
      catch-all problem response. */
  function LoginResponse(dtoValid: bool, admins: seq<Admin>, members: seq<Uye>, email: string, sifre: string,
                         c: Crypto, cfg: Config, issueNow: int, expiryNow: int): (r: Response)
    ensures var d := Authenticate(admins, members, email, sifre, c);
      r.Ok? <==> dtoValid && (d.AdminLogin? || d.MemberLogin?) && 0 < cfg.expiryTimeInSeconds
    ensures !dtoValid ==> r == ValidationFailed
    ensures dtoValid && Authenticate(admins, members, email, sifre, c).InvalidCredentials?
      ==> r == BadRequest(InvalidCredentialsMsg)
    ensures dtoValid && Authenticate(admins, members, email, sifre, c).InactiveMember?
      ==> r == BadRequest(InactiveAccountMsg)
    ensures var d := Authenticate(admins, members, email, sifre, c);
      dtoValid && (d.AdminLogin? || d.MemberLogin?) && cfg.expiryTimeInSeconds <= 0 ==> r == Problem(LoginProblem)
    ensures r.Ok? ==>
      && r.body.LoggedIn? && r.body.expiresAt == GetExpiryTime(cfg, expiryNow)
      && r.body.token.exp == issueNow + cfg.expiryTimeInSeconds
      && ValidateToken(cfg, Some(r.body.token), issueNow) == Some(r.body.token.claims)
    ensures var d := Authenticate(admins, members, email, sifre, c);
      r.Ok? && d.AdminLogin? ==>
        && r.body.userType == AdminRole && r.body.userId == admins[d.index].id
        && r.body.ad == admins[d.index].ad && r.body.soyad == admins[d.index].soyad
        && r.body.email == admins[d.index].email
        && r.body.token.claims == ClaimSet(admins[d.index].id, AdminRole, admins[d.index].email,
                                           admins[d.index].ad, admins[d.index].soyad)
    ensures var d := Authenticate(admins, members, email, sifre, c);
      r.Ok? && d.MemberLogin? ==>
        && r.body.userType == MemberRole && r.body.userId == members[d.index].id
        && r.body.ad == members[d.index].ad && r.body.soyad == members[d.index].soyad
        && r.body.email == members[d.index].email
        && r.body.token.claims == ClaimSet(members[d.index].id, MemberRole, members[d.index].email,
                                           members[d.index].ad, members[d.index].soyad)
  {
    if !dtoValid then ValidationFailed
    else match Authenticate(admins, members, email, sifre, c)
      case AdminLogin(i, _) =>
        var a := admins[i];
        if cfg.expiryTimeInSeconds <= 0 then Problem(LoginProblem)
        else Ok(LoggedIn(GenerateToken(cfg, a.id, AdminRole, a.email, a.ad, a.soyad, issueNow),
                         AdminRole, a.id, a.ad, a.soyad, a.email, GetExpiryTime(cfg, expiryNow)))
      case MemberLogin(j, _) =>
        var u := members[j];
        if cfg.expiryTimeInSeconds <= 0 then Problem(LoginProblem)
        else Ok(LoggedIn(GenerateToken(cfg, u.id, MemberRole, u.email, u.ad, u.soyad, issueNow),
                         MemberRole, u.id, u.ad, u.soyad, u.email, GetExpiryTime(cfg, expiryNow)))
      case InactiveMember(_) => BadRequest(InactiveAccountMsg)
      case InvalidCredentials => BadRequest(InvalidCredentialsMsg)
  }

  /** The admin table after the login: only the verified row's plaintext
      secret is replaced, by its hash, and only when the save succeeds. */
  function UpgradedAdmins(admins: seq<Admin>, members: seq<Uye>, email: string, sifre: string,
                          c: Crypto, saveOk: bool): (admins': seq<Admin>)
    ensures |admins'| == |admins|
    ensures var d := Authenticate(admins, members, email, sifre, c);
      forall k :: 0 <= k < |admins| && !(d.AdminLogin? && d.upgrade && saveOk && k == d.index) ==> admins'[k] == admins[k]
    ensures var d := Authenticate(admins, members, email, sifre, c);
      d.AdminLogin? && d.upgrade && saveOk ==> admins'[d.index] == admins[d.index].(sifre := c.hash(sifre))
  {
    match Authenticate(admins, members, email, sifre, c)
    case AdminLogin(i, upgrade) =>
      if upgrade && saveOk then admins[i := admins[i].(sifre := c.hash(sifre))] else admins
    case _ => admins
  }

  /** The member table after the login: the same for the member row. */
  function UpgradedMembers(admins: seq<Admin>, members: seq<Uye>, email: string, sifre: string,
                           c: Crypto, saveOk: bool): (members': seq<Uye>)
    ensures |members'| == |members|
    ensures var d := Authenticate(admins, members, email, sifre, c);
      forall k :: 0 <= k < |members| && !(d.MemberLogin? && d.upgrade && saveOk && k == d.index) ==> members'[k] == members[k]
    ensures var d := Authenticate(admins, members, email, sifre, c);
      d.MemberLogin? && d.upgrade && saveOk ==> members'[d.index] == members[d.index].(sifre := c.hash(sifre))
  {
    match Authenticate(admins, members, email, sifre, c)
    case MemberLogin(j, upgrade) =>
      if upgrade && saveOk then members[j := members[j].(sifre := c.hash(sifre))] else members
    case _ => members
  }

  /** A saved login with a plaintext secret leaves a bcrypt hash behind:
      the row that verified now stores a `$2` hash of the same password,
      while a failed save or a secret that is already hashed leaves both
      tables as they were. */
  lemma PlaintextRewrittenToHash(admins: seq<Admin>, members: seq<Uye>, email: string, sifre: string,
                                 c: Crypto, saveOk: bool)
    requires Sound(c)
    ensures var d := Authenticate(admins, members, email, sifre, c);
      var admins' := UpgradedAdmins(admins, members, email, sifre, c, saveOk);
      var members' := UpgradedMembers(admins, members, email, sifre, c, saveOk);
      && (d.AdminLogin? && d.upgrade && saveOk ==>
            !IsBcryptHash(admins[d.index].sifre) && IsBcryptHash(admins'[d.index].sifre)
            && PasswordMatches(admins'[d.index].sifre, sifre, c) && members' == members)
      && (d.MemberLogin? && d.upgrade && saveOk ==>
            !IsBcryptHash(members[d.index].sifre) && IsBcryptHash(members'[d.index].sifre)
            && PasswordMatches(members'[d.index].sifre, sifre, c) && admins' == admins)
      && (!saveOk || !(d.AdminLogin? || d.MemberLogin?) || !d.upgrade ==> admins' == admins && members' == members)
  {
    UpgradeOnlyFromPlaintext(admins, members, email, sifre, c);
    UpgradeKeepsPassword(c, sifre);
  }

  /** The caller a handler sees when `token` is presented at `now`. */
  function Presented(cfg: Config, token: Token, now: int): Option<Caller> {
    match ValidateToken(cfg, Some(token), now)
    case None => None
    case Some(claims) => Some(CallerOf(claims))
  }

  /** An admin's token passes the admin gates, and not the member gate,
      from its issue to its expiry, and no gate at all afterwards. */
  lemma AdminTokenGrantsAdmin(dtoValid: bool, admins: seq<Admin>, members: seq<Uye>, email: string, sifre: string,
                              c: Crypto, cfg: Config, issueNow: int, expiryNow: int, now: int)
    requires Authenticate(admins, members, email, sifre, c).AdminLogin?
    requires LoginResponse(dtoValid, admins, members, email, sifre, c, cfg, issueNow, expiryNow).Ok?
    ensures var b := LoginResponse(dtoValid, admins, members, email, sifre, c, cfg, issueNow, expiryNow).body;
      && b.userType == AdminRole
      && (issueNow <= now <= b.token.exp ==>
            Presented(cfg, b.token, now).Some?
            && AdminWithId(Presented(cfg, b.token, now).value) == Allow
            && MemberOnly(Presented(cfg, b.token, now).value) == Forbid)
      && (b.token.exp < now ==> Presented(cfg, b.token, now).None?)
  {
    var a := admins[Authenticate(admins, members, email, sifre, c).index];
    IssuedTokenClaims(cfg, a.id, AdminRole, a.email, a.ad, a.soyad, issueNow);
  }

  /** A member's token carries the member role and an id claim that
      parses back to the member's id, up to its expiry. */
  lemma MemberTokenGrantsMember(dtoValid: bool, admins: seq<Admin>, members: seq<Uye>, email: string, sifre: string,
                                c: Crypto, cfg: Config, issueNow: int, expiryNow: int, now: int)
    requires Authenticate(admins, members, email, sifre, c).MemberLogin?
    requires LoginResponse(dtoValid, admins, members, email, sifre, c, cfg, issueNow, expiryNow).Ok?
    requires InInt32(members[Authenticate(admins, members, email, sifre, c).index].id)
    ensures var b := LoginResponse(dtoValid, admins, members, email, sifre, c, cfg, issueNow, expiryNow).body;
      var j := Authenticate(admins, members, email, sifre, c).index;
      && b.userType == MemberRole
      && (issueNow <= now <= b.token.exp ==>
            Presented(cfg, b.token, now).Some?
            && MemberOnly(Presented(cfg, b.token, now).value) == Allow
            && AdminOnly(Presented(cfg, b.token, now).value) == Forbid
            && ParseInt32(Presented(cfg, b.token, now).value.userId.value) == Some(members[j].id))
      && (b.token.exp < now ==> Presented(cfg, b.token, now).None?)
  {
    var u := members[Authenticate(admins, members, email, sifre, c).index];
    IssuedTokenClaims(cfg, u.id, MemberRole, u.email, u.ad, u.soyad, issueNow);
    Int32RoundTrip(u.id);
  }

  /** `ExpiresAt` in the response is measured from its own clock reading:
      it differs from the token's `exp` by exactly the time that passed
      between the two readings. */
  lemma ExpiresAtFromSeparateClock(dtoValid: bool, admins: seq<Admin>, members: seq<Uye>, email: string, sifre: string,
                                   c: Crypto, cfg: Config, issueNow: int, expiryNow: int)
    requires LoginResponse(dtoValid, admins, members, email, sifre, c, cfg, issueNow, expiryNow).Ok?
    ensures var b := LoginResponse(dtoValid, admins, members, email, sifre, c, cfg, issueNow, expiryNow).body;
      b.expiresAt - b.token.exp == expiryNow - issueNow
  {
  }

  /** The upgrade is invisible to the user: the same credentials, after the
      rewritten secret has been saved, get the same response. */
  lemma UpgradeInvisible(admins: seq<Admin>, members: seq<Uye>, email: string, sifre: string,
                         c: Crypto, cfg: Config, issueNow: int, expiryNow: int)
    requires Sound(c)
    ensures var admins' := UpgradedAdmins(admins, members, email, sifre, c, true);
      var members' := UpgradedMembers(admins, members, email, sifre, c, true);
      LoginResponse(true, admins', members', email, sifre, c, cfg, issueNow, expiryNow)
        == LoginResponse(true, admins, members, email, sifre, c, cfg, issueNow, expiryNow)
  {
    var d := Authenticate(admins, members, email, sifre, c);
    if d.AdminLogin? {
      SecondAdminLogin(admins, members, email, sifre, c);
    } else if d.MemberLogin? {
      SecondMemberLogin(admins, members, email, sifre, c);
    }
  }

  /** An unknown email and a wrong password are answered alike: whenever
      no row verifies, with the one generic message. */
  lemma NoAccountProbing(admins: seq<Admin>, members: seq<Uye>, email: string, sifre: string,
                         c: Crypto, cfg: Config, issueNow: int, expiryNow: int)
    requires !AdminVerified(admins, email, sifre, c) && !MemberVerified(members, email, sifre, c)
    ensures LoginResponse(true, admins, members, email, sifre, c, cfg, issueNow, expiryNow)
      == BadRequest(InvalidCredentialsMsg)
  {
  }

  /** An inactive member is refused before the upgrade step: no token,
      and neither table changes, even for a plaintext secret. */
  lemma InactiveNotUpgraded(admins: seq<Admin>, members: seq<Uye>, email: string, sifre: string,
                            c: Crypto, cfg: Config, issueNow: int, expiryNow: int, saveOk: bool)
    requires Authenticate(admins, members, email, sifre, c).InactiveMember?
    ensures LoginResponse(true, admins, members, email, sifre, c, cfg, issueNow, expiryNow) == BadRequest(InactiveAccountMsg)
    ensures UpgradedAdmins(admins, members, email, sifre, c, saveOk) == admins
    ensures UpgradedMembers(admins, members, email, sifre, c, saveOk) == members
  {
  }
}
