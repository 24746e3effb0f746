/** Properties that span several handlers: what an approval makes
    possible at login, and what a deactivation takes away. */
module Sessions {
  import opened Base
  import opened Models
  import opened Decimal
  import opened Credentials
  import opened Http
  import opened Gates
  import opened Membership
  import opened Events
  import opened Profile

  /** An approved applicant whose email no member row has yet can log in
      with the temporary password, and nothing is upgraded. */
  lemma ApprovedApplicantLogsIn(admins: seq<Admin>, members: seq<Uye>, b: UyelikBasvurusu, id: int, now: int, c: Crypto)
    requires Sound(c)
    requires !AdminVerified(admins, b.email, TemporaryPassword, c)
    requires UyeByEmail(members, b.email).None?
    ensures var members' := members + [MemberFromApplication(b, id, c.hash(TemporaryPassword), now)];
      Authenticate(admins, members', b.email, TemporaryPassword, c) == MemberLogin(|members|, false)
  {
    var members' := members + [MemberFromApplication(b, id, c.hash(TemporaryPassword), now)];
    assert forall j :: 0 <= j < |members| ==> members'[j] == members[j];
    FirstIndexAt(members', (u: Uye) => u.email == b.email, |members|);
    ApprovedMemberHasTemporaryPassword(b, id, now, c);
  }

  /** Approval does not look for an existing member with the applicant's
      email: when there is one, the login lookup keeps finding that older
      row and the new member's row is never reached. */
  lemma ApprovalShadowedByExistingMember(members: seq<Uye>, b: UyelikBasvurusu, id: int, sifre: string, now: int)
    requires UyeByEmail(members, b.email).Some?
    ensures var members' := members + [MemberFromApplication(b, id, sifre, now)];
      UyeByEmail(members', b.email) == UyeByEmail(members, b.email)
  {
    var members' := members + [MemberFromApplication(b, id, sifre, now)];
    var j := UyeByEmail(members, b.email).value;
    assert forall k :: 0 <= k < |members| ==> members'[k] == members[k];
    FirstIndexAt(members', (u: Uye) => u.email == b.email, j);
  }

  /** A member caller as the gates see one: the member role and an id
      claim that parses to `uyeId`. */
  predicate MemberCaller(caller: Caller, uyeId: int) {
    caller.userType == Some(MemberRole) && !IsNullOrEmpty(caller.userId)
    && ParseInt32(caller.userId.value) == Some(uyeId)
  }

  /** Once the admin sets a member's flag to passive, that member's still
      valid token is refused by both listings and by the profile update;
      joining events is unaffected, since it does not look at the flag. */
  lemma {:induction false} DeactivationLocksOut(admin: Caller, caller: Caller, uyeId: int, members: seq<Uye>,
                                              dtoValid: bool, etkinlikId: int, events: seq<Etkinlik>,
                                              rows: seq<EtkinlikKatilimci>, now: int)
    requires StatusGuard(admin, true, uyeId, members).Proceed?
    requires MemberCaller(caller, uyeId)
    ensures var i := StatusGuard(admin, true, uyeId, members).value;
      var members' := members[i := members[i].(status := false)];
      && ContentGate(caller, members') == Forbid
      && EventListGate(caller, members') == Forbid
      && ProfileGuard(caller, dtoValid, members') == (if dtoValid then Refuse(Forbidden) else Refuse(ValidationFailed))
      && JoinGuard(caller, dtoValid, etkinlikId, events, rows, members', now)
         == JoinGuard(caller, dtoValid, etkinlikId, events, rows, members, now)
  {
    var i := StatusGuard(admin, true, uyeId, members).value;
    var members' := members[i := members[i].(status := false)];
    assert members'[..i] == members[..i];
    FirstIndexStable(members, members', (u: Uye) => u.id == uyeId, i);
    JoinIgnoresMemberStatus(caller, dtoValid, etkinlikId, events, rows, members, now, i, false);
  }

  /** Setting the flag back to active readmits the member to the listings. */
  lemma {:induction false} ReactivationReadmits(admin: Caller, caller: Caller, uyeId: int, members: seq<Uye>)
    requires StatusGuard(admin, true, uyeId, members).Proceed?
    requires MemberCaller(caller, uyeId)
    ensures var i := StatusGuard(admin, true, uyeId, members).value;
      var members' := members[i := members[i].(status := true)];
      ContentGate(caller, members') == Allow && EventListGate(caller, members') == Allow
  {
    var i := StatusGuard(admin, true, uyeId, members).value;
    var members' := members[i := members[i].(status := true)];
    assert members'[..i] == members[..i];
    FirstIndexStable(members, members', (u: Uye) => u.id == uyeId, i);
  }
}
