/** The checks every protected handler makes on the `UserType` and
    NameIdentifier claims of the validated token before anything else, and
    the per-request re-check of a member's active flag on the content
    listings. */
module Gates {
  import opened Base
  import opened Models
  import opened Decimal
  import Jwt
  import Http

  const AdminRole := "admin"
  const MemberRole := "uye"

  /** The two claims a handler reads: `UserType` and NameIdentifier. */
  datatype Caller = Caller(userType: Option<string>, userId: Option<string>)

  function CallerOf(claims: seq<Jwt.Claim>): Caller {
    Caller(Jwt.FindClaim(claims, Jwt.UserTypeClaim), Jwt.FindClaim(claims, Jwt.NameIdentifier))
  }

  /** `Fault` is the exception `int.Parse` throws on a malformed id claim,
      which the handler does not catch. */
  datatype Decision = Allow | Unauthorized | Forbid | Fault

  /** The response a handler gives when its gate refuses. */
  function Respond(d: Decision): Http.Response
    requires d != Allow
  {
    if d == Unauthorized then Http.Unauthorized
    else if d == Forbid then Http.Forbidden
    else Http.InternalError
  }

  /** `userType != "admin"` ⇒ Forbid: the admin handlers. */
  function AdminOnly(c: Caller): Decision {
    if c.userType != Some(AdminRole) then Forbid else Allow
  }

  /** The admin handlers that also demand an id claim. */
  function AdminWithId(c: Caller): Decision {
    if c.userType != Some(AdminRole) || IsNullOrEmpty(c.userId) then Forbid else Allow
  }

  /** `userType != "uye" || IsNullOrEmpty(userId)` ⇒ Forbid: the member
      handlers. */
  function MemberOnly(c: Caller): Decision {
    if c.userType != Some(MemberRole) || IsNullOrEmpty(c.userId) then Forbid else Allow
  }

  /** Either role, for the detail handlers. */
  function EitherRole(c: Caller): Decision {
    if c.userType != Some(AdminRole) && c.userType != Some(MemberRole) then Forbid else Allow
  }

  /** Either role and an id claim. */
  function EitherRoleWithId(c: Caller): Decision {
    if (c.userType != Some(AdminRole) && c.userType != Some(MemberRole)) || IsNullOrEmpty(c.userId)
    then Forbid else Allow
  }

  /** Any non-empty user type, for the upload handlers. */
  function AnyUser(c: Caller): Decision {
    if IsNullOrEmpty(c.userType) then Unauthorized else Allow
  }

  /** The member row with the parsed id exists and is active. */
  function ActiveMemberCheck(members: seq<Uye>, userId: string): Decision {
    match ParseInt32(userId)
    case None => Fault
    case Some(id) =>
      match UyeById(members, id)
      case None => Forbid
      case Some(i) => if !members[i].status then Forbid else Allow
  }

  /** The sponsor and news listings: both claims are needed, and only a
      member is re-checked against the member table. */
  function ContentGate(c: Caller, members: seq<Uye>): Decision {
    if IsNullOrEmpty(c.userType) || IsNullOrEmpty(c.userId) then Unauthorized
    else if c.userType.value == MemberRole then ActiveMemberCheck(members, c.userId.value)
    else Allow
  }

  /** The event listing: as `ContentGate`, except that the id claim is
      parsed for every caller before the member re-check. */
  function EventListGate(c: Caller, members: seq<Uye>): Decision {
    if IsNullOrEmpty(c.userType) || IsNullOrEmpty(c.userId) then Unauthorized
    else if ParseInt32(c.userId.value).None? then Fault
    else if c.userType.value == MemberRole then ActiveMemberCheck(members, c.userId.value)
    else Allow
  }

  /** The admin gate admits exactly the `"admin"` user type and answers
      every other caller, including one without the claim, with Forbid. */
  lemma AdminGateExact(c: Caller)
    ensures AdminOnly(c) == Allow <==> c.userType == Some(AdminRole)
    ensures AdminOnly(c) != Allow ==> AdminOnly(c) == Forbid
  {
  }

  /** The member gate admits exactly `"uye"` with an id claim; everything
      else is Forbid. */
  lemma MemberGateExact(c: Caller)
    ensures MemberOnly(c) == Allow <==> c.userType == Some(MemberRole) && !IsNullOrEmpty(c.userId)
    ensures MemberOnly(c) != Allow ==> MemberOnly(c) == Forbid
  {
  }

  /** Neither role satisfies the other's gate. */
  lemma RolesDisjoint(c: Caller)
    ensures !(AdminOnly(c) == Allow && MemberOnly(c) == Allow)
    ensures !(AdminWithId(c) == Allow && MemberOnly(c) == Allow)
  {
  }

  /** The either-role gates admit exactly the union of the two roles. */
  lemma EitherRoleIsUnion(c: Caller)
    ensures EitherRole(c) == Allow <==> AdminOnly(c) == Allow || c.userType == Some(MemberRole)
    ensures EitherRoleWithId(c) == Allow <==> AdminWithId(c) == Allow || MemberOnly(c) == Allow
  {
  }

  /** A listing answers Unauthorized exactly when a claim is missing or
      empty: it never answers Unauthorized to a caller with both claims. */
  lemma ListingUnauthorizedExact(c: Caller, members: seq<Uye>)
    ensures ContentGate(c, members) == Unauthorized <==> IsNullOrEmpty(c.userType) || IsNullOrEmpty(c.userId)
    ensures EventListGate(c, members) == Unauthorized <==> IsNullOrEmpty(c.userType) || IsNullOrEmpty(c.userId)
  {
  }

  /** Admins are never re-checked: with both claims present an admin is
      admitted whatever the member table holds. */
  lemma AdminsNotRechecked(c: Caller, members: seq<Uye>)
    requires c.userType == Some(AdminRole) && !IsNullOrEmpty(c.userId)
    ensures ContentGate(c, members) == Allow
    ensures ParseInt32(c.userId.value).Some? ==> EventListGate(c, members) == Allow
  {
  }

  /** A member is admitted to a listing exactly when the first member row
      with its id is active; a missing or inactive row is Forbid. */
  lemma MemberListingNeedsActiveRow(c: Caller, members: seq<Uye>, id: int)
    requires c.userType == Some(MemberRole) && c.userId.Some? && ParseInt32(c.userId.value) == Some(id)
    ensures ContentGate(c, members) == EventListGate(c, members)
    ensures ContentGate(c, members) == Allow <==>
      UyeById(members, id).Some? && members[UyeById(members, id).value].status
    ensures ContentGate(c, members) != Allow ==> ContentGate(c, members) == Forbid
  {
  }
}
