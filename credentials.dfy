/** The login credential policy: how a stored secret is checked against
    the supplied one, when a legacy plaintext secret is rewritten as a
    hash, and which outcome a login attempt has. The bcrypt functions are
    a parameter: a hash function and a verifier, of which the model only
    assumes what `Sound` states. */
module Credentials {
  import opened Base
  import opened Models

  /** The prefix by which the handler recognises a bcrypt hash. */
  const HashPrefix := "$2"

  /** `stored.StartsWith("$2")`. */
  predicate IsBcryptHash(stored: string) {
    |stored| >= |HashPrefix| && stored[..|HashPrefix|] == HashPrefix
  }

  /** `BCrypt.HashPassword` and `BCrypt.Verify(password, hash)`. */
  datatype Crypto = Crypto(hash: string -> string, verify: (string, string) -> bool)

  /** What the model relies on: a password verifies against its own hash,
      and every hash carries the bcrypt prefix. */
  ghost predicate Sound(c: Crypto) {
    forall p :: c.verify(p, c.hash(p)) && IsBcryptHash(c.hash(p))
  }

  /** A stored hash is checked only by the verifier; any other stored
      secret only by exact equality. */
  predicate PasswordMatches(stored: string, input: string, c: Crypto) {
    if IsBcryptHash(stored) then c.verify(input, stored) else stored == input
  }

  /** A successful plaintext comparison: the stored secret is to be
      rewritten as `hash(input)`. */
  predicate NeedsUpgrade(stored: string, input: string) {
    !IsBcryptHash(stored) && stored == input
  }

  /** The admin row the handler finds for `email` accepts the secret. */
  predicate AdminVerified(admins: seq<Admin>, email: string, sifre: string, c: Crypto) {
    var i := AdminByEmail(admins, email);
    i.Some? && PasswordMatches(admins[i.value].sifre, sifre, c)
  }

  /** The member row the handler finds for `email` accepts the secret. */
  predicate MemberVerified(members: seq<Uye>, email: string, sifre: string, c: Crypto) {
    var j := UyeByEmail(members, email);
    j.Some? && PasswordMatches(members[j.value].sifre, sifre, c)
  }

  /** How a login attempt ends; the index is the row that verified and
      `upgrade` says whether its stored secret is to be rewritten. */
  datatype AuthDecision =
    | AdminLogin(index: nat, upgrade: bool)
    | MemberLogin(index: nat, upgrade: bool)
    | InactiveMember(index: nat)
    | InvalidCredentials

  /** The decision of the login handler for a well-formed request: the
      admin table first, then the member table; an inactive member whose
      secret verifies is refused; otherwise the single generic failure. */
  function Authenticate(admins: seq<Admin>, members: seq<Uye>, email: string, sifre: string, c: Crypto): (d: AuthDecision)
    ensures d.AdminLogin? ==> AdminByEmail(admins, email) == Some(d.index)
    ensures d.AdminLogin? ==> d.index < |admins| && admins[d.index].email == email
    ensures d.AdminLogin? ==> d.upgrade == NeedsUpgrade(admins[d.index].sifre, sifre)
    ensures d.MemberLogin? || d.InactiveMember? ==> UyeByEmail(members, email) == Some(d.index)
    ensures d.MemberLogin? || d.InactiveMember? ==> d.index < |members| && members[d.index].email == email
    ensures d.MemberLogin? ==> members[d.index].status && d.upgrade == NeedsUpgrade(members[d.index].sifre, sifre)
    ensures d.InactiveMember? ==> !members[d.index].status
    ensures d.InvalidCredentials? <==>
      !AdminVerified(admins, email, sifre, c) && !MemberVerified(members, email, sifre, c)
    ensures d.AdminLogin? <==> AdminVerified(admins, email, sifre, c)
    ensures d.MemberLogin? || d.InactiveMember? <==>
      !AdminVerified(admins, email, sifre, c) && MemberVerified(members, email, sifre, c)
  {
    var i := AdminByEmail(admins, email);
    if i.Some? && PasswordMatches(admins[i.value].sifre, sifre, c) then
      AdminLogin(i.value, NeedsUpgrade(admins[i.value].sifre, sifre))
    else
      var j := UyeByEmail(members, email);
      if j.Some? && PasswordMatches(members[j.value].sifre, sifre, c) then
        if !members[j.value].status then InactiveMember(j.value)
        else MemberLogin(j.value, NeedsUpgrade(members[j.value].sifre, sifre))
      else InvalidCredentials
  }

  /** A verified admin gets the admin outcome whatever the member table
      holds, even a member row with the same email. */
  lemma AdminPrecedence(admins: seq<Admin>, members: seq<Uye>, others: seq<Uye>, email: string, sifre: string, c: Crypto)
    requires AdminVerified(admins, email, sifre, c)
    ensures Authenticate(admins, members, email, sifre, c).AdminLogin?
    ensures Authenticate(admins, members, email, sifre, c) == Authenticate(admins, others, email, sifre, c)
  {
  }

  /** An admin row whose secret does not verify is as good as no admin
      row: the attempt falls through to the member table. */
  lemma AdminMismatchFallsThrough(admins: seq<Admin>, members: seq<Uye>, email: string, sifre: string, c: Crypto)
    requires !AdminVerified(admins, email, sifre, c)
    ensures Authenticate(admins, members, email, sifre, c) == Authenticate([], members, email, sifre, c)
  {
  }

  /** Only a plaintext secret equal to the input is ever upgraded. */
  lemma UpgradeOnlyFromPlaintext(admins: seq<Admin>, members: seq<Uye>, email: string, sifre: string, c: Crypto)
    ensures var d := Authenticate(admins, members, email, sifre, c);
      (d.AdminLogin? && d.upgrade ==> !IsBcryptHash(admins[d.index].sifre) && admins[d.index].sifre == sifre) &&
      (d.MemberLogin? && d.upgrade ==> !IsBcryptHash(members[d.index].sifre) && members[d.index].sifre == sifre)
  {
  }

  /** Only the first member row with the email is consulted: once there
      is one, a later row with the same email, active or not, whatever its
      secret, never changes the outcome. An inactive first row is refused
      even when a later active row would accept the password. */
  lemma LaterMemberRowIgnored(admins: seq<Admin>, members: seq<Uye>, later: Uye, email: string, sifre: string, c: Crypto)
    requires UyeByEmail(members, email).Some?
    ensures Authenticate(admins, members + [later], email, sifre, c) == Authenticate(admins, members, email, sifre, c)
  {
    var j := UyeByEmail(members, email).value;
    assert forall k :: 0 <= k < |members| ==> (members + [later])[k] == members[k];
    FirstIndexAt(members + [later], (u: Uye) => u.email == email, j);
  }

  /** The rewritten secret accepts the same password, by hash, and is
      never upgraded again. */
  lemma UpgradeKeepsPassword(c: Crypto, sifre: string)
    requires Sound(c)
    ensures PasswordMatches(c.hash(sifre), sifre, c)
    ensures !NeedsUpgrade(c.hash(sifre), sifre)
  {
  }

  /** After the upgrade of the admin row that verified, the same login
      verifies again against that row, now by hash and without a further
      upgrade. */
  lemma SecondAdminLogin(admins: seq<Admin>, members: seq<Uye>, email: string, sifre: string, c: Crypto)
    requires Sound(c)
    requires Authenticate(admins, members, email, sifre, c).AdminLogin?
    ensures var i := Authenticate(admins, members, email, sifre, c).index;
      var admins' := admins[i := admins[i].(sifre := c.hash(sifre))];
      Authenticate(admins', members, email, sifre, c) == AdminLogin(i, false)
  {
    var i := Authenticate(admins, members, email, sifre, c).index;
    var admins' := admins[i := admins[i].(sifre := c.hash(sifre))];
    assert admins'[..i] == admins[..i];
    FirstIndexStable(admins, admins', (a: Admin) => a.email == email, i);
    UpgradeKeepsPassword(c, sifre);
  }

  /** The same for an active member whose row was upgraded. */
  lemma SecondMemberLogin(admins: seq<Admin>, members: seq<Uye>, email: string, sifre: string, c: Crypto)
    requires Sound(c)
    requires Authenticate(admins, members, email, sifre, c).MemberLogin?
    ensures var j := Authenticate(admins, members, email, sifre, c).index;
      var members' := members[j := members[j].(sifre := c.hash(sifre))];
      Authenticate(admins, members', email, sifre, c) == MemberLogin(j, false)
  {
    var j := Authenticate(admins, members, email, sifre, c).index;
    var members' := members[j := members[j].(sifre := c.hash(sifre))];
    assert members'[..j] == members[..j];
    FirstIndexStable(members, members', (u: Uye) => u.email == email, j);
    UpgradeKeepsPassword(c, sifre);
  }
}
