/** The database context the handlers share, and the handlers that write
    to it. Each handler runs its guard chain against the current tables,
    then changes the tracked rows and saves them; `saveOk` is whether
    `SaveChangesAsync` succeeds, and when it does not the tables stay as
    they were. The identity columns are counters the save advances. */
module Store {
  import opened Base
  import opened Models
  import opened Jwt
  import opened Credentials
  import opened Http
  import opened Gates
  import opened Membership
  import opened Events
  import opened Profile
  import opened Login

  /** Member ids: below the counter and unique. */
  predicate MembersValid(members: seq<Uye>, next: int) {
    && (forall i :: 0 <= i < |members| ==> members[i].id < next)
    && (forall i, j :: 0 <= i < j < |members| ==> members[i].id != members[j].id)
  }

  predicate ApplicationsValid(apps: seq<UyelikBasvurusu>, next: int) {
    (forall i :: 0 <= i < |apps| ==> apps[i].id < next) && EmailsUnique(apps)
  }

  predicate AttendanceValid(rows: seq<EtkinlikKatilimci>, next: int) {
    (forall i :: 0 <= i < |rows| ==> rows[i].id < next) && PairsUnique(rows)
  }

  /** A member with the next id keeps the member ids valid. */
  lemma AppendMember(members: seq<Uye>, next: int, u: Uye)
    requires MembersValid(members, next) && u.id == next
    ensures MembersValid(members + [u], next + 1)
  {
    assert forall i :: 0 <= i < |members| ==> (members + [u])[i] == members[i];
  }

  /** Rewriting a member row without changing its id keeps them valid. */
  lemma UpdateMember(members: seq<Uye>, next: int, i: nat, u: Uye)
    requires MembersValid(members, next) && i < |members| && u.id == members[i].id
    ensures MembersValid(members[i := u], next)
  {
  }

  /** A verdict keeps ids and emails, so the applications stay valid. */
  lemma DecideKeepsApplications(apps: seq<UyelikBasvurusu>, next: int, i: nat, v: Verdict)
    requires ApplicationsValid(apps, next) && i < |apps|
    ensures ApplicationsValid(Decided(apps, i, v), next)
  {
    var apps' := Decided(apps, i, v);
    assert forall k :: 0 <= k < |apps| ==> apps'[k].email == apps[k].email && apps'[k].id == apps[k].id;
  }

  class Database {
    var adminler: seq<Admin>
    var uyeler: seq<Uye>
    var basvurular: seq<UyelikBasvurusu>
    var etkinlikler: seq<Etkinlik>
    var katilimcilar: seq<EtkinlikKatilimci>

    /** The next value of each identity column. */
    var nextUyeId: int
    var nextBasvuruId: int
    var nextEtkinlikId: int
    var nextKatilimId: int

    /** Every id lies below its counter, member ids are unique, no two
        applications share an email and no member attends one event twice. */
    predicate Valid()
      reads this
    {
      && MembersValid(uyeler, nextUyeId)
      && ApplicationsValid(basvurular, nextBasvuruId)
      && (forall i :: 0 <= i < |etkinlikler| ==> etkinlikler[i].id < nextEtkinlikId)
      && AttendanceValid(katilimcilar, nextKatilimId)
    }

    /** A database holding only the seeded admins. */
    constructor(admins: seq<Admin>)
      ensures Valid()
      ensures adminler == admins && uyeler == [] && basvurular == [] && etkinlikler == [] && katilimcilar == []
    {
      adminler, uyeler, basvurular, etkinlikler, katilimcilar := admins, [], [], [], [];
      nextUyeId, nextBasvuruId, nextEtkinlikId, nextKatilimId := 1, 1, 1, 1;
    }

    /** `POST /api/login`: the response is computed from the tables as
        found; the verified row's plaintext secret is rewritten when the
        save succeeds, and a failed save is ignored. */
    method Login(dtoValid: bool, email: string, sifre: string, c: Crypto, cfg: Config,
                 issueNow: int, expiryNow: int, saveOk: bool) returns (r: Response)
      requires Valid()
      modifies this
      ensures Valid()
      ensures r == LoginResponse(dtoValid, old(adminler), old(uyeler), email, sifre, c, cfg, issueNow, expiryNow)
      ensures adminler == if dtoValid then UpgradedAdmins(old(adminler), old(uyeler), email, sifre, c, saveOk) else old(adminler)
      ensures uyeler == if dtoValid then UpgradedMembers(old(adminler), old(uyeler), email, sifre, c, saveOk) else old(uyeler)
      ensures basvurular == old(basvurular) && etkinlikler == old(etkinlikler) && katilimcilar == old(katilimcilar)
      ensures nextUyeId == old(nextUyeId) && nextBasvuruId == old(nextBasvuruId)
      ensures nextEtkinlikId == old(nextEtkinlikId) && nextKatilimId == old(nextKatilimId)
    {
      r := LoginResponse(dtoValid, adminler, uyeler, email, sifre, c, cfg, issueNow, expiryNow);
      if !dtoValid {
        return;
      }
      match Authenticate(adminler, uyeler, email, sifre, c)
      case AdminLogin(i, upgrade) =>
        if upgrade && saveOk {
          adminler := adminler[i := adminler[i].(sifre := c.hash(sifre))];
        }
      case MemberLogin(j, upgrade) =>
        if upgrade && saveOk {
          UpdateMember(uyeler, nextUyeId, j, uyeler[j].(sifre := c.hash(sifre)));
          uyeler := uyeler[j := uyeler[j].(sifre := c.hash(sifre))];
        }
      case _ =>
    }

    /** `POST /api/uyelik-basvurusu`: a pending application with a fresh id. */
    method SubmitApplication(dtoValid: bool, f: ApplicationForm, now: int, saveOk: bool) returns (r: Response)
      requires Valid()
      modifies this
      ensures Valid()
      ensures var g := SubmitGuard(dtoValid, f, old(basvurular));
        if g.Refuse? then r == g.response && basvurular == old(basvurular) && nextBasvuruId == old(nextBasvuruId)
        else if !saveOk then r == Problem(ApplicationSaveProblem) && basvurular == old(basvurular) && nextBasvuruId == old(nextBasvuruId)
        else && r == Ok(ApplicationReceived(old(nextBasvuruId), Bekliyor))
             && basvurular == old(basvurular) + [NewApplication(f, old(nextBasvuruId), now)]
             && nextBasvuruId == old(nextBasvuruId) + 1
      ensures adminler == old(adminler) && uyeler == old(uyeler) && etkinlikler == old(etkinlikler)
      ensures katilimcilar == old(katilimcilar)
      ensures nextUyeId == old(nextUyeId) && nextEtkinlikId == old(nextEtkinlikId) && nextKatilimId == old(nextKatilimId)
    {
      var g := SubmitGuard(dtoValid, f, basvurular);
      if g.Refuse? {
        return g.response;
      }
      if !saveOk {
        return Problem(ApplicationSaveProblem);
      }
      SubmitKeepsEmailsUnique(dtoValid, f, basvurular, nextBasvuruId, now);
      basvurular := basvurular + [NewApplication(f, nextBasvuruId, now)];
      r := Ok(ApplicationReceived(nextBasvuruId, Bekliyor));
      nextBasvuruId := nextBasvuruId + 1;
    }

    /** `POST /api/admin/basvuru-karar`: the pending application moves to
        its final state; an approval also adds an active member with the
        hashed temporary password. Both are saved together or not at all. */
    method DecideApplication(caller: Caller, dtoValid: bool, basvuruId: int, karar: string,
                             reddetmeNedeni: Option<string>, c: Crypto, now: int, saveOk: bool)
      returns (r: Response)
      requires Valid()
      modifies this
      ensures Valid()
      ensures match DecideGuard(caller, dtoValid, basvuruId, karar, old(basvurular))
        case Refuse(resp) => r == resp && basvurular == old(basvurular) && uyeler == old(uyeler)
        case Proceed((i, v)) =>
          if !saveOk then r == Problem(DecisionProblem) && basvurular == old(basvurular) && uyeler == old(uyeler)
          else
            && basvurular == Decided(old(basvurular), i, v)
            && (v == Approve ==>
                  && uyeler == old(uyeler) + [MemberFromApplication(old(basvurular)[i], old(nextUyeId), c.hash(TemporaryPassword), now)]
                  && r == Ok(ApplicationApproved(old(nextUyeId), TemporaryPassword)))
            && (v == Reject ==> uyeler == old(uyeler) && r == Ok(ApplicationRejected(reddetmeNedeni)))
      ensures adminler == old(adminler) && etkinlikler == old(etkinlikler) && katilimcilar == old(katilimcilar)
      ensures var g := DecideGuard(caller, dtoValid, basvuruId, karar, old(basvurular));
        nextUyeId == old(nextUyeId) + (if g.Proceed? && saveOk && g.value.1 == Approve then 1 else 0)
      ensures nextBasvuruId == old(nextBasvuruId)
      ensures nextEtkinlikId == old(nextEtkinlikId) && nextKatilimId == old(nextKatilimId)
    {
      var g := DecideGuard(caller, dtoValid, basvuruId, karar, basvurular);
      if g.Refuse? {
        return g.response;
      }
      if !saveOk {
        return Problem(DecisionProblem);
      }
      var (i, v) := g.value;
      var b := basvurular[i];
      DecideKeepsApplications(basvurular, nextBasvuruId, i, v);
      basvurular := Decided(basvurular, i, v);
      if v == Approve {
        var u := MemberFromApplication(b, nextUyeId, c.hash(TemporaryPassword), now);
        AppendMember(uyeler, nextUyeId, u);
        uyeler := uyeler + [u];
        r := Ok(ApplicationApproved(nextUyeId, TemporaryPassword));
        nextUyeId := nextUyeId + 1;
      } else {
        r := Ok(ApplicationRejected(reddetmeNedeni));
      }
    }

    /** `POST /api/admin/uye-status`: the member's active flag is set. */
    method SetMemberStatus(caller: Caller, dtoValid: bool, uyeId: int, status: bool, saveOk: bool)
      returns (r: Response)
      requires Valid()
      modifies this
      ensures Valid()
      ensures match StatusGuard(caller, dtoValid, uyeId, old(uyeler))
        case Refuse(resp) => r == resp && uyeler == old(uyeler)
        case Proceed(i) =>
          if !saveOk then r == Problem(StatusProblem) && uyeler == old(uyeler)
          else r == Ok(StatusUpdated(uyeId, status)) && uyeler == old(uyeler)[i := old(uyeler)[i].(status := status)]
      ensures adminler == old(adminler) && basvurular == old(basvurular) && etkinlikler == old(etkinlikler)
      ensures katilimcilar == old(katilimcilar)
      ensures nextUyeId == old(nextUyeId) && nextBasvuruId == old(nextBasvuruId)
      ensures nextEtkinlikId == old(nextEtkinlikId) && nextKatilimId == old(nextKatilimId)
    {
      var g := StatusGuard(caller, dtoValid, uyeId, uyeler);
      if g.Refuse? {
        return g.response;
      }
      if !saveOk {
        return Problem(StatusProblem);
      }
      var i := g.value;
      UpdateMember(uyeler, nextUyeId, i, uyeler[i].(status := status));
      uyeler := uyeler[i := uyeler[i].(status := status)];
      r := Ok(StatusUpdated(uyeId, status));
    }

    /** `PUT /api/profile`: the active member's row takes the supplied values. */
    method UpdateProfile(caller: Caller, dtoValid: bool, d: ProfileUpdate, saveOk: bool) returns (r: Response)
      requires Valid()
      modifies this
      ensures Valid()
      ensures match ProfileGuard(caller, dtoValid, old(uyeler))
        case Refuse(resp) => r == resp && uyeler == old(uyeler)
        case Proceed(i) =>
          if !saveOk then r == Problem(ProfileProblem) && uyeler == old(uyeler)
          else r == Ok(ProfileUpdated) && uyeler == old(uyeler)[i := Merge(old(uyeler)[i], d)]
      ensures adminler == old(adminler) && basvurular == old(basvurular) && etkinlikler == old(etkinlikler)
      ensures katilimcilar == old(katilimcilar)
      ensures nextUyeId == old(nextUyeId) && nextBasvuruId == old(nextBasvuruId)
      ensures nextEtkinlikId == old(nextEtkinlikId) && nextKatilimId == old(nextKatilimId)
    {
      var g := ProfileGuard(caller, dtoValid, uyeler);
      if g.Refuse? {
        return g.response;
      }
      if !saveOk {
        return Problem(ProfileProblem);
      }
      var i := g.value;
      UpdateMember(uyeler, nextUyeId, i, Merge(uyeler[i], d));
      uyeler := uyeler[i := Merge(uyeler[i], d)];
      r := Ok(ProfileUpdated);
    }

    /** `POST /api/admin/etkinlik`: an active event with a fresh id. */
    method CreateEvent(caller: Caller, dtoValid: bool, f: EventForm, now: int, saveOk: bool) returns (r: Response)
      requires Valid()
      modifies this
      ensures Valid()
      ensures var g := CreateGuard(caller, dtoValid, f, now);
        if g.Refuse? then r == g.response && etkinlikler == old(etkinlikler) && nextEtkinlikId == old(nextEtkinlikId)
        else if !saveOk then r == Problem(EventSaveProblem) && etkinlikler == old(etkinlikler) && nextEtkinlikId == old(nextEtkinlikId)
        else && r == Ok(EventCreated(old(nextEtkinlikId)))
             && etkinlikler == old(etkinlikler) + [NewEvent(f, old(nextEtkinlikId), now)]
             && nextEtkinlikId == old(nextEtkinlikId) + 1
      ensures adminler == old(adminler) && uyeler == old(uyeler) && basvurular == old(basvurular)
      ensures katilimcilar == old(katilimcilar)
      ensures nextUyeId == old(nextUyeId) && nextBasvuruId == old(nextBasvuruId) && nextKatilimId == old(nextKatilimId)
    {
      var g := CreateGuard(caller, dtoValid, f, now);
      if g.Refuse? {
        return g.response;
      }
      if !saveOk {
        return Problem(EventSaveProblem);
      }
      etkinlikler := etkinlikler + [NewEvent(f, nextEtkinlikId, now)];
      r := Ok(EventCreated(nextEtkinlikId));
      nextEtkinlikId := nextEtkinlikId + 1;
    }

    /** `GET /api/etkinlikler`: after the gate, every past event that is
        still active is deactivated, and the changes are saved when there
        are any; a failed save is not caught. */
    method ListEvents(caller: Caller, now: int, saveOk: bool) returns (r: Response)
      requires Valid()
      modifies this
      ensures Valid()
      ensures var d := EventListGate(caller, old(uyeler));
        if d != Allow then r == Respond(d) && etkinlikler == old(etkinlikler)
        else if AnyPastActive(old(etkinlikler), now) && !saveOk then r == InternalError && etkinlikler == old(etkinlikler)
        else r == Ok(EventsListed) && etkinlikler == Swept(old(etkinlikler), now)
      ensures adminler == old(adminler) && uyeler == old(uyeler) && basvurular == old(basvurular)
      ensures katilimcilar == old(katilimcilar)
      ensures nextUyeId == old(nextUyeId) && nextBasvuruId == old(nextBasvuruId)
      ensures nextEtkinlikId == old(nextEtkinlikId) && nextKatilimId == old(nextKatilimId)
    {
      var d := EventListGate(caller, uyeler);
      if d != Allow {
        return Respond(d);
      }
      var swept := etkinlikler;
      var any := false;
      var i := 0;
      while i < |swept|
        invariant 0 <= i <= |swept| == |etkinlikler|
        invariant forall k :: 0 <= k < i ==> swept[k] == Expired(etkinlikler[k], now)
        invariant forall k :: i <= k < |swept| ==> swept[k] == etkinlikler[k]
        invariant any <==> exists k :: 0 <= k < i && IsPastActive(etkinlikler[k], now)
      {
        if IsPastActive(swept[i], now) {
          swept := swept[i := swept[i].(status := false)];
          any := true;
        }
        i := i + 1;
      }
      assert swept == Swept(etkinlikler, now);
      if any {
        if !saveOk {
          return InternalError;
        }
        etkinlikler := swept;
      } else {
        SweptChangesIffPastActive(etkinlikler, now);
      }
      r := Ok(EventsListed);
    }

    /** `POST /api/etkinlik/katil`: an attendance row with a fresh id. */
    method JoinEvent(caller: Caller, dtoValid: bool, etkinlikId: int, now: int, saveOk: bool) returns (r: Response)
      requires Valid()
      modifies this
      ensures Valid()
      ensures match JoinGuard(caller, dtoValid, etkinlikId, old(etkinlikler), old(katilimcilar), old(uyeler), now)
        case Refuse(resp) => r == resp && katilimcilar == old(katilimcilar) && nextKatilimId == old(nextKatilimId)
        case Proceed(uid) =>
          if !saveOk then r == Problem(JoinProblem) && katilimcilar == old(katilimcilar) && nextKatilimId == old(nextKatilimId)
          else && r == Ok(Joined(old(nextKatilimId)))
               && katilimcilar == old(katilimcilar) + [NewAttendance(old(nextKatilimId), etkinlikId, uid, now)]
               && nextKatilimId == old(nextKatilimId) + 1
      ensures adminler == old(adminler) && uyeler == old(uyeler) && basvurular == old(basvurular)
      ensures etkinlikler == old(etkinlikler)
      ensures nextUyeId == old(nextUyeId) && nextBasvuruId == old(nextBasvuruId) && nextEtkinlikId == old(nextEtkinlikId)
    {
      var g := JoinGuard(caller, dtoValid, etkinlikId, etkinlikler, katilimcilar, uyeler, now);
      if g.Refuse? {
        return g.response;
      }
      if !saveOk {
        return Problem(JoinProblem);
      }
      JoinKeepsPairsUnique(caller, dtoValid, etkinlikId, etkinlikler, katilimcilar, uyeler, now, nextKatilimId);
      katilimcilar := katilimcilar + [NewAttendance(nextKatilimId, etkinlikId, g.value, now)];
      r := Ok(Joined(nextKatilimId));
      nextKatilimId := nextKatilimId + 1;
    }

    /** `DELETE /api/etkinlik/{id}/ayril`: the member's attendance row is
        removed. */
    method LeaveEvent(caller: Caller, etkinlikId: int, now: int, saveOk: bool) returns (r: Response)
      requires Valid()
      modifies this
      ensures Valid()
      ensures match LeaveGuard(caller, etkinlikId, old(etkinlikler), old(katilimcilar), now)
        case Refuse(resp) => r == resp && katilimcilar == old(katilimcilar)
        case Proceed((uid, k)) =>
          if !saveOk then r == Problem(LeaveProblem) && katilimcilar == old(katilimcilar)
          else
            && r == Ok(Left) && katilimcilar == RemoveAt(old(katilimcilar), k)
            && KatilimFor(katilimcilar, etkinlikId, uid).None?
      ensures adminler == old(adminler) && uyeler == old(uyeler) && basvurular == old(basvurular)
      ensures etkinlikler == old(etkinlikler)
      ensures nextUyeId == old(nextUyeId) && nextBasvuruId == old(nextBasvuruId)
      ensures nextEtkinlikId == old(nextEtkinlikId) && nextKatilimId == old(nextKatilimId)
    {
      var g := LeaveGuard(caller, etkinlikId, etkinlikler, katilimcilar, now);
      if g.Refuse? {
        return g.response;
      }
      if !saveOk {
        return Problem(LeaveProblem);
      }
      var (uid, k) := g.value;
      LeaveRemovesPair(katilimcilar, etkinlikId, uid, k);
      katilimcilar := RemoveAt(katilimcilar, k);
      r := Ok(Left);
    }
  }
}
