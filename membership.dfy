/** The membership workflow: an application is submitted once per email,
    waits as "bekliyor", and an admin approves it (creating an active
    member with the temporary password) or rejects it; either decision is
    final. The admin can also switch a member's active flag. */
module Membership {
  import opened Base
  import opened Models
  import opened Http
  import opened Gates
  import opened Credentials

  /** The fields of `UyelikBasvurusuDto`. */
  datatype ApplicationForm = ApplicationForm(
    ad: string,
    soyad: string,
    email: string,
    telefon: string,
    dogumTarihi: int,
    sehir: string,
    instagram: Option<string>,
    adres: string,
    aracMarka: Option<string>,
    aracModel: Option<string>,
    aracYili: Option<string>,
    plaka: Option<string>,
    deneyim: int,
    ilgiAlanlari: Option<string>,
    neden: Option<string>,
    acilDurumKisi: Option<string>,
    acilDurumTelefon: Option<string>,
    sartlar: bool,
    kisiselVeri: bool,
    emailBildirim: bool,
    fotograf: Option<string>)

  /** What an application row records of the form it was made from. */
  function FormOf(b: UyelikBasvurusu): ApplicationForm {
    ApplicationForm(b.ad, b.soyad, b.email, b.telefon, b.dogumTarihi, b.sehir, b.instagram,
                    b.adres, b.aracMarka, b.aracModel, b.aracYili, b.plaka, b.deneyim,
                    b.ilgiAlanlari, b.neden, b.acilDurumKisi, b.acilDurumTelefon, b.sartlar,
                    b.kisiselVeri, b.emailBildirim, b.fotograf)
  }

  /** The row a submission creates, with the id the database assigns and
      the instant of submission: every form field, and the pending state. */
  function NewApplication(f: ApplicationForm, id: int, now: int): (b: UyelikBasvurusu)
    ensures FormOf(b) == f
    ensures b.id == id && b.createdAt == now && b.durum == Bekliyor
  {
    UyelikBasvurusu(id, f.ad, f.soyad, f.email, f.telefon, f.dogumTarihi, f.sehir, f.instagram,
                    f.adres, f.aracMarka, f.aracModel, f.aracYili, f.plaka, f.deneyim,
                    f.ilgiAlanlari, f.neden, f.acilDurumKisi, f.acilDurumTelefon, f.sartlar,
                    f.kisiselVeri, f.emailBildirim, now, Bekliyor, f.fotograf)
  }

  /** The submission's checks: the form validates, and no application,
      in whatever state, has the same email. */
  function SubmitGuard(dtoValid: bool, f: ApplicationForm, apps: seq<UyelikBasvurusu>): (g: Guard<()>)
    ensures g.Proceed? <==> dtoValid && forall i :: 0 <= i < |apps| ==> apps[i].email != f.email
    ensures !dtoValid ==> g == Refuse(ValidationFailed)
    ensures dtoValid && g.Refuse? ==> g == Refuse(BadRequest(DuplicateApplicationMsg))
  {
    if !dtoValid then Refuse(ValidationFailed)
    else if BasvuruByEmail(apps, f.email).Some? then Refuse(BadRequest(DuplicateApplicationMsg))
    else Proceed(())
  }

  /** No two applications share an email. */
  predicate EmailsUnique(apps: seq<UyelikBasvurusu>) {
    forall i, j :: 0 <= i < j < |apps| ==> apps[i].email != apps[j].email
  }

  /** Since the submission refuses a known email, the application table
      never holds two applications for one email. */
  lemma SubmitKeepsEmailsUnique(dtoValid: bool, f: ApplicationForm, apps: seq<UyelikBasvurusu>, id: int, now: int)
    requires EmailsUnique(apps)
    requires SubmitGuard(dtoValid, f, apps).Proceed?
    ensures EmailsUnique(apps + [NewApplication(f, id, now)])
  {
    var apps' := apps + [NewApplication(f, id, now)];
    forall i, j | 0 <= i < j < |apps'|
      ensures apps'[i].email != apps'[j].email
    {
      if j == |apps| {
        assert apps'[i] == apps[i];
      } else {
        assert apps'[i] == apps[i] && apps'[j] == apps[j];
      }
    }
  }

  /** A second submission with the same email is refused, whatever was
      decided about the first. */
  lemma ResubmissionRefused(f: ApplicationForm, g: ApplicationForm, apps: seq<UyelikBasvurusu>, id: int, now: int)
    requires g.email == f.email
    ensures SubmitGuard(true, g, apps + [NewApplication(f, id, now)]) == Refuse(BadRequest(DuplicateApplicationMsg))
  {
    assert (apps + [NewApplication(f, id, now)])[|apps|].email == g.email;
  }

  const Onayla := "onayla"
  const Reddet := "reddet"

  /** The temporary password an approved member is given. */
  const TemporaryPassword := "123456"

  datatype Verdict = Approve | Reject

  /** The state a pending application moves to. */
  function Outcome(v: Verdict): (durum: string)
    ensures durum != Bekliyor
    ensures durum == Onaylandi <==> v == Approve
    ensures durum == Reddedildi <==> v == Reject
  {
    match v
    case Approve => Onaylandi
    case Reject => Reddedildi
  }

  /** The decision handler's checks, in order: the admin role, the form,
      the `karar` value, an application with the id, and that it is still
      pending. On success: the application found and the verdict. */
  function DecideGuard(caller: Caller, dtoValid: bool, basvuruId: int, karar: string,
                       apps: seq<UyelikBasvurusu>): (g: Guard<(nat, Verdict)>)
    ensures g.Proceed? <==>
      && AdminOnly(caller) == Allow && dtoValid && (karar == Onayla || karar == Reddet)
      && BasvuruById(apps, basvuruId).Some? && apps[BasvuruById(apps, basvuruId).value].durum == Bekliyor
    ensures g.Proceed? ==> g.value.0 == BasvuruById(apps, basvuruId).value
    ensures g.Proceed? ==> (g.value.1 == Approve <==> karar == Onayla)
    ensures AdminOnly(caller) != Allow ==> g == Refuse(Forbidden)
    ensures (AdminOnly(caller) == Allow && dtoValid && (karar == Onayla || karar == Reddet)
             && BasvuruById(apps, basvuruId).None?) ==> g == Refuse(NotFound(ApplicationNotFoundMsg))
  {
    if AdminOnly(caller) != Allow then Refuse(Respond(AdminOnly(caller)))
    else if !dtoValid then Refuse(ValidationFailed)
    else if karar != Onayla && karar != Reddet then Refuse(BadRequest(BadKararMsg))
    else match BasvuruById(apps, basvuruId)
      case None => Refuse(NotFound(ApplicationNotFoundMsg))
      case Some(i) =>
        if apps[i].durum != Bekliyor then Refuse(BadRequest(AlreadyProcessedMsg))
        else Proceed((i, if karar == Onayla then Approve else Reject))
  }

  /** The application table after a verdict on row `i`: that row moves
      to `onaylandı` on approval and to `reddedildi` on rejection, with
      its data kept, and every other row is untouched. */
  function Decided(apps: seq<UyelikBasvurusu>, i: nat, v: Verdict): (apps': seq<UyelikBasvurusu>)
    requires i < |apps|
    ensures |apps'| == |apps|
    ensures forall k :: 0 <= k < |apps| && k != i ==> apps'[k] == apps[k]
    ensures apps'[i] == apps[i].(durum := apps'[i].durum)
    ensures apps'[i].durum == (if v == Approve then Onaylandi else Reddedildi)
  {
    apps[i := apps[i].(durum := Outcome(v))]
  }

  /** A decision is final: once an application has been decided, every
      further decision on its id is refused as already processed. */
  lemma {:induction false} DecisionIsFinal(caller: Caller, basvuruId: int, karar: string, karar2: string,
                                         apps: seq<UyelikBasvurusu>)
    requires DecideGuard(caller, true, basvuruId, karar, apps).Proceed?
    requires karar2 == Onayla || karar2 == Reddet
    ensures var (i, v) := DecideGuard(caller, true, basvuruId, karar, apps).value;
      DecideGuard(caller, true, basvuruId, karar2, Decided(apps, i, v)) == Refuse(BadRequest(AlreadyProcessedMsg))
  {
    var (i, v) := DecideGuard(caller, true, basvuruId, karar, apps).value;
    var apps' := Decided(apps, i, v);
    assert apps'[..i] == apps[..i];
    FirstIndexStable(apps, apps', (b: UyelikBasvurusu) => b.id == basvuruId, i);
  }

  /** Only a pending application ever changes state, and then only its
      state: every row of the table after a verdict is the row before or
      that row with a final state. */
  lemma DecidedOnlyMovesPending(apps: seq<UyelikBasvurusu>, i: nat, v: Verdict)
    requires i < |apps| && apps[i].durum == Bekliyor
    ensures var apps' := Decided(apps, i, v);
      forall k :: 0 <= k < |apps| ==>
        apps'[k] == apps[k] ||
        (k == i && apps[k].durum == Bekliyor && apps'[k] == apps[k].(durum := Outcome(v))
         && (apps'[k].durum == Onaylandi || apps'[k].durum == Reddedildi))
    ensures Decided(apps, i, v)[i].durum == Onaylandi <==> v == Approve
  {
  }

  /** The member an approval creates: the application's personal and
      vehicle data (not `neden`), active, with the given hash of the
      temporary password. */
  function MemberFromApplication(b: UyelikBasvurusu, id: int, sifre: string, now: int): (u: Uye)
    ensures u.id == id && u.status && u.sifre == sifre && u.createdAt == now
    ensures u.email == b.email && u.ad == b.ad && u.soyad == b.soyad
    ensures u.uyelikSartlari == b.sartlar && u.kisiselVeri == b.kisiselVeri
    ensures u.telefon == b.telefon && u.dogumTarihi == b.dogumTarihi && u.sehir == b.sehir
    ensures u.instagram == b.instagram && u.adres == b.adres
    ensures u.aracMarka == b.aracMarka && u.aracModel == b.aracModel && u.aracYili == b.aracYili && u.plaka == b.plaka
    ensures u.deneyim == b.deneyim && u.ilgiAlanlari == b.ilgiAlanlari
    ensures u.acilDurumKisi == b.acilDurumKisi && u.acilDurumTelefon == b.acilDurumTelefon
    ensures u.emailBildirim == b.emailBildirim && u.fotograf == b.fotograf
  {
    Uye(id, b.ad, b.soyad, b.email, b.telefon, b.dogumTarihi, b.sehir, b.instagram, b.adres,
        b.aracMarka, b.aracModel, b.aracYili, b.plaka, b.deneyim, b.ilgiAlanlari,
        b.acilDurumKisi, b.acilDurumTelefon, b.sartlar, b.kisiselVeri, b.emailBildirim,
        now, sifre, true, b.fotograf)
  }

  /** The new member's stored secret is a hash that accepts the temporary
      password and needs no upgrade. */
  lemma ApprovedMemberHasTemporaryPassword(b: UyelikBasvurusu, id: int, now: int, c: Crypto)
    requires Sound(c)
    ensures var u := MemberFromApplication(b, id, c.hash(TemporaryPassword), now);
      IsBcryptHash(u.sifre) && PasswordMatches(u.sifre, TemporaryPassword, c)
      && !NeedsUpgrade(u.sifre, TemporaryPassword)
  {
    UpgradeKeepsPassword(c, TemporaryPassword);
  }

  /** The status handler's checks: the admin role, the form, and a member
      with the id; on success, that member's row. */
  function StatusGuard(caller: Caller, dtoValid: bool, uyeId: int, members: seq<Uye>): (g: Guard<nat>)
    ensures g.Proceed? <==> AdminOnly(caller) == Allow && dtoValid && UyeById(members, uyeId).Some?
    ensures g.Proceed? ==> g.value == UyeById(members, uyeId).value
    ensures AdminOnly(caller) != Allow ==> g == Refuse(Forbidden)
    ensures AdminOnly(caller) == Allow && dtoValid && UyeById(members, uyeId).None?
      ==> g == Refuse(NotFound(MemberNotFoundMsg))
  {
    if AdminOnly(caller) != Allow then Refuse(Respond(AdminOnly(caller)))
    else if !dtoValid then Refuse(ValidationFailed)
    else match UyeById(members, uyeId)
      case None => Refuse(NotFound(MemberNotFoundMsg))
      case Some(i) => Proceed(i)
  }

  /** Setting the flag twice to the same value changes nothing the
      second time, and the second request finds the same row. */
  lemma {:induction false} StatusUpdateIdempotent(caller: Caller, uyeId: int, status: bool, members: seq<Uye>)
    requires StatusGuard(caller, true, uyeId, members).Proceed?
    ensures var i := StatusGuard(caller, true, uyeId, members).value;
      var members' := members[i := members[i].(status := status)];
      && StatusGuard(caller, true, uyeId, members') == Proceed(i)
      && members'[i := members'[i].(status := status)] == members'
  {
    var i := StatusGuard(caller, true, uyeId, members).value;
    var members' := members[i := members[i].(status := status)];
    assert members'[..i] == members[..i];
    FirstIndexStable(members, members', (u: Uye) => u.id == uyeId, i);
  }
}
