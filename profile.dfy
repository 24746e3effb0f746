/** The member's own profile update: a partial update in which a field
    left out, or sent as an empty string, keeps its stored value. */
module Profile {
  import opened Base
  import opened Models
  import opened Decimal
  import opened Http
  import opened Gates

  /** The fields of `ProfileUpdateDto`, all optional. */
  datatype ProfileUpdate = ProfileUpdate(
    telefon: Option<string>,
    sehir: Option<string>,
    instagram: Option<string>,
    adres: Option<string>,
    aracMarka: Option<string>,
    aracModel: Option<string>,
    aracYili: Option<string>,
    plaka: Option<string>,
    deneyim: Option<int>,
    ilgiAlanlari: Option<string>,
    acilDurumKisi: Option<string>,
    acilDurumTelefon: Option<string>,
    emailBildirim: Option<bool>,
    fotograf: Option<string>)

  const NoChanges := ProfileUpdate(None, None, None, None, None, None, None, None,
                                   None, None, None, None, None, None)

  /** A text field: replaced only by a non-empty value. */
  function Text(stored: string, v: Option<string>): string {
    if IsNullOrEmpty(v) then stored else v.value
  }

  /** A nullable text field: replaced only by a non-empty value, so the
      update can never clear it. */
  function Nullable(stored: Option<string>, v: Option<string>): Option<string> {
    if IsNullOrEmpty(v) then stored else v
  }

  /** The member row after the update: a supplied non-empty text, or a
      supplied number or flag, replaces its field, any other field keeps
      its stored value, and the identity, the credential, the consents and
      the active flag are never touched. */
  function Merge(u: Uye, d: ProfileUpdate): (u': Uye)
    ensures u'.id == u.id && u'.ad == u.ad && u'.soyad == u.soyad && u'.email == u.email
    ensures u'.sifre == u.sifre && u'.status == u.status && u'.createdAt == u.createdAt
    ensures u'.dogumTarihi == u.dogumTarihi && u'.uyelikSartlari == u.uyelikSartlari && u'.kisiselVeri == u.kisiselVeri
    ensures u'.telefon == (if d.telefon.Some? && d.telefon.value != "" then d.telefon.value else u.telefon)
    ensures u'.sehir == (if d.sehir.Some? && d.sehir.value != "" then d.sehir.value else u.sehir)
    ensures u'.adres == (if d.adres.Some? && d.adres.value != "" then d.adres.value else u.adres)
    ensures u'.instagram == (if d.instagram.Some? && d.instagram.value != "" then d.instagram else u.instagram)
    ensures u'.aracMarka == (if d.aracMarka.Some? && d.aracMarka.value != "" then d.aracMarka else u.aracMarka)
    ensures u'.aracModel == (if d.aracModel.Some? && d.aracModel.value != "" then d.aracModel else u.aracModel)
    ensures u'.aracYili == (if d.aracYili.Some? && d.aracYili.value != "" then d.aracYili else u.aracYili)
    ensures u'.plaka == (if d.plaka.Some? && d.plaka.value != "" then d.plaka else u.plaka)
    ensures u'.ilgiAlanlari == (if d.ilgiAlanlari.Some? && d.ilgiAlanlari.value != "" then d.ilgiAlanlari else u.ilgiAlanlari)
    ensures u'.acilDurumKisi == (if d.acilDurumKisi.Some? && d.acilDurumKisi.value != "" then d.acilDurumKisi else u.acilDurumKisi)
    ensures u'.acilDurumTelefon == (if d.acilDurumTelefon.Some? && d.acilDurumTelefon.value != "" then d.acilDurumTelefon else u.acilDurumTelefon)
    ensures u'.fotograf == (if d.fotograf.Some? && d.fotograf.value != "" then d.fotograf else u.fotograf)
    ensures u'.deneyim == (if d.deneyim.Some? then d.deneyim.value else u.deneyim)
    ensures u'.emailBildirim == (if d.emailBildirim.Some? then d.emailBildirim.value else u.emailBildirim)
  {
    u.(telefon := Text(u.telefon, d.telefon),
       sehir := Text(u.sehir, d.sehir),
       instagram := Nullable(u.instagram, d.instagram),
       adres := Text(u.adres, d.adres),
       aracMarka := Nullable(u.aracMarka, d.aracMarka),
       aracModel := Nullable(u.aracModel, d.aracModel),
       aracYili := Nullable(u.aracYili, d.aracYili),
       plaka := Nullable(u.plaka, d.plaka),
       ilgiAlanlari := Nullable(u.ilgiAlanlari, d.ilgiAlanlari),
       acilDurumKisi := Nullable(u.acilDurumKisi, d.acilDurumKisi),
       acilDurumTelefon := Nullable(u.acilDurumTelefon, d.acilDurumTelefon),
       fotograf := Nullable(u.fotograf, d.fotograf),
       deneyim := d.deneyim.GetOr(u.deneyim),
       emailBildirim := d.emailBildirim.GetOr(u.emailBildirim))
  }

  /** An update without values changes nothing. */
  lemma NoChangesIsIdentity(u: Uye)
    ensures Merge(u, NoChanges) == u
  {
  }

  /** Applying the same update twice is applying it once. */
  lemma MergeIdempotent(u: Uye, d: ProfileUpdate)
    ensures Merge(Merge(u, d), d) == Merge(u, d)
  {
  }

  /** The update after another: a field the later update supplies takes
      the later value and any other field the earlier one. */
  function Then(d1: ProfileUpdate, d2: ProfileUpdate): ProfileUpdate {
    ProfileUpdate(
      Nullable(d1.telefon, d2.telefon), Nullable(d1.sehir, d2.sehir),
      Nullable(d1.instagram, d2.instagram), Nullable(d1.adres, d2.adres),
      Nullable(d1.aracMarka, d2.aracMarka), Nullable(d1.aracModel, d2.aracModel),
      Nullable(d1.aracYili, d2.aracYili), Nullable(d1.plaka, d2.plaka),
      if d2.deneyim.Some? then d2.deneyim else d1.deneyim,
      Nullable(d1.ilgiAlanlari, d2.ilgiAlanlari), Nullable(d1.acilDurumKisi, d2.acilDurumKisi),
      Nullable(d1.acilDurumTelefon, d2.acilDurumTelefon),
      if d2.emailBildirim.Some? then d2.emailBildirim else d1.emailBildirim,
      Nullable(d1.fotograf, d2.fotograf))
  }

  /** Two updates in a row are the one combined update: the last value
      sent for a field wins. */
  lemma MergeThen(u: Uye, d1: ProfileUpdate, d2: ProfileUpdate)
    ensures Merge(Merge(u, d1), d2) == Merge(u, Then(d1, d2))
  {
  }

  /** An empty string is treated as an absent value: a stored value cannot
      be cleared through this update. */
  lemma EmptyStringKeeps(u: Uye, d: ProfileUpdate)
    ensures Merge(u, d.(instagram := Some(""))) == Merge(u, d.(instagram := None))
    ensures Merge(u, d.(telefon := Some(""))) == Merge(u, d.(telefon := None))
    ensures u.instagram.Some? ==> Merge(u, d.(instagram := Some(""))).instagram == u.instagram
  {
  }

  /** The handler's checks: the member role, the form, the id claim, a
      member row with the id, and that row being active. On success: the
      row to update. */
  function ProfileGuard(caller: Caller, dtoValid: bool, members: seq<Uye>): (g: Guard<nat>)
    ensures g.Proceed? <==>
      && MemberOnly(caller) == Allow && dtoValid && ParseInt32(caller.userId.value).Some?
      && UyeById(members, ParseInt32(caller.userId.value).value).Some?
      && members[UyeById(members, ParseInt32(caller.userId.value).value).value].status
    ensures g.Proceed? ==> Some(g.value) == UyeById(members, ParseInt32(caller.userId.value).value)
    ensures MemberOnly(caller) != Allow ==> g == Refuse(Forbidden)
    ensures MemberOnly(caller) == Allow && !dtoValid ==> g == Refuse(ValidationFailed)
    ensures MemberOnly(caller) == Allow && dtoValid && ParseInt32(caller.userId.value).None? ==> g == Refuse(InternalError)
    ensures MemberOnly(caller) == Allow && dtoValid && ParseInt32(caller.userId.value).Some? ==>
      var i := UyeById(members, ParseInt32(caller.userId.value).value);
      && (i.None? ==> g == Refuse(NotFound(MemberNotFoundMsg)))
      && (i.Some? && !members[i.value].status ==> g == Refuse(Forbidden))
  {
    if MemberOnly(caller) != Allow then Refuse(Respond(MemberOnly(caller)))
    else if !dtoValid then Refuse(ValidationFailed)
    else match ParseInt32(caller.userId.value)
      case None => Refuse(InternalError)
      case Some(uid) =>
        match UyeById(members, uid)
        case None => Refuse(NotFound(MemberNotFoundMsg))
        case Some(i) => if !members[i].status then Refuse(Forbidden) else Proceed(i)
  }

  /** After an update the same member is found by the same id and is still
      active, so a further update reaches the same row. */
  lemma {:induction false} ProfileUpdateKeepsAccess(caller: Caller, dtoValid: bool, members: seq<Uye>, d: ProfileUpdate)
    requires ProfileGuard(caller, dtoValid, members).Proceed?
    ensures var i := ProfileGuard(caller, dtoValid, members).value;
      ProfileGuard(caller, dtoValid, members[i := Merge(members[i], d)]) == Proceed(i)
  {
    var i := ProfileGuard(caller, dtoValid, members).value;
    var uid := ParseInt32(caller.userId.value).value;
    var members' := members[i := Merge(members[i], d)];
    FirstIndexSameMatches(members, members', (u: Uye) => u.id == uid);
  }
}
