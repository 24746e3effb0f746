/** Events: creation by an admin, the expiry sweep the listing performs,
    and joining and leaving by members. */
module Events {
  import opened Base
  import opened Models
  import opened Decimal
  import opened Http
  import opened Gates

  /** The fields of `EtkinlikDto`. */
  datatype EventForm = EventForm(
    baslik: string,
    aciklama: string,
    fotograf: Option<string>,
    adres: string,
    zaman: int)

  /** What an event row records of the form it was created from. */
  function EventFormOf(e: Etkinlik): EventForm {
    EventForm(e.baslik, e.aciklama, e.fotograf, e.adres, e.zaman)
  }

  /** The row a creation adds: the form, active, without a PDF. */
  function NewEvent(f: EventForm, id: int, now: int): (e: Etkinlik)
    ensures EventFormOf(e) == f
    ensures e.id == id && e.createdAt == now && e.status && e.pdfUrl.None?
  {
    Etkinlik(id, f.baslik, f.aciklama, f.fotograf, None, f.adres, now, f.zaman, true)
  }

  /** The creation handler's checks: the admin role, the form, and an
      event time not before the current instant. */
  function CreateGuard(caller: Caller, dtoValid: bool, f: EventForm, now: int): (g: Guard<()>)
    ensures g.Proceed? <==> AdminOnly(caller) == Allow && dtoValid && now <= f.zaman
    ensures AdminOnly(caller) != Allow ==> g == Refuse(Forbidden)
    ensures AdminOnly(caller) == Allow && dtoValid && f.zaman < now ==> g == Refuse(BadRequest(PastEventDateMsg))
  {
    if AdminOnly(caller) != Allow then Refuse(Respond(AdminOnly(caller)))
    else if !dtoValid then Refuse(ValidationFailed)
    else if f.zaman < now then Refuse(BadRequest(PastEventDateMsg))
    else Proceed(())
  }

  /** An event the listing deactivates: its time has passed and it is
      still active. */
  predicate IsPastActive(e: Etkinlik, now: int) {
    e.zaman < now && e.status
  }

  predicate AnyPastActive(events: seq<Etkinlik>, now: int) {
    exists i :: 0 <= i < |events| && IsPastActive(events[i], now)
  }

  /** An event as the sweep leaves it. */
  function Expired(e: Etkinlik, now: int): (e': Etkinlik)
    ensures e' == e.(status := e'.status)
    ensures e'.status <==> e.status && now <= e.zaman
  {
    if IsPastActive(e, now) then e.(status := false) else e
  }

  /** The event table after the sweep at instant `now`. */
  function Swept(events: seq<Etkinlik>, now: int): (r: seq<Etkinlik>)
    ensures |r| == |events|
    ensures forall i :: 0 <= i < |events| ==> r[i] == Expired(events[i], now)
  {
    if |events| == 0 then []
    else [Expired(events[0], now)] + Swept(events[1..], now)
  }

  /** After the sweep no event is past and active, and an event is active
      exactly when it was active and is not past. */
  lemma SweptLeavesNoPastActive(events: seq<Etkinlik>, now: int)
    ensures !AnyPastActive(Swept(events, now), now)
    ensures forall i :: 0 <= i < |events| ==>
      (Swept(events, now)[i].status <==> events[i].status && now <= events[i].zaman)
  {
  }

  /** The sweep changes nothing but the active flag, and leaves events not
      yet past exactly as they were. */
  lemma SweptOnlyDeactivates(events: seq<Etkinlik>, now: int)
    ensures forall i :: 0 <= i < |events| ==>
      Swept(events, now)[i] == events[i].(status := Swept(events, now)[i].status)
    ensures forall i :: 0 <= i < |events| && now <= events[i].zaman ==> Swept(events, now)[i] == events[i]
  {
  }

  /** Sweeping again at the same instant changes nothing. */
  lemma SweptIdempotent(events: seq<Etkinlik>, now: int)
    ensures Swept(Swept(events, now), now) == Swept(events, now)
  {
  }

  /** The sweep changes the table exactly when some event is past and
      active: the listing saves exactly when there is something to save. */
  lemma SweptChangesIffPastActive(events: seq<Etkinlik>, now: int)
    ensures Swept(events, now) != events <==> AnyPastActive(events, now)
  {
    if AnyPastActive(events, now) {
      var i :| 0 <= i < |events| && IsPastActive(events[i], now);
      assert Swept(events, now)[i] != events[i];
    } else {
      assert forall i :: 0 <= i < |events| ==> Swept(events, now)[i] == events[i];
    }
  }

  /** A later sweep covers an earlier one: sweeping at `t1` and then at a
      later `t2` is sweeping at `t2`. */
  lemma SweptMonotone(events: seq<Etkinlik>, t1: int, t2: int)
    requires t1 <= t2
    ensures Swept(Swept(events, t1), t2) == Swept(events, t2)
  {
  }

  /** The sweep keeps every id in place, so every lookup by id finds the
      same row. */
  lemma SweptKeepsLookup(events: seq<Etkinlik>, now: int, id: int)
    ensures EtkinlikById(Swept(events, now), id) == EtkinlikById(events, id)
  {
    FirstIndexSameMatches(events, Swept(events, now), (e: Etkinlik) => e.id == id);
  }

  /** A freshly created event is active and not swept at its creation. */
  lemma NewEventSurvivesSweep(caller: Caller, dtoValid: bool, f: EventForm, id: int, now: int)
    requires CreateGuard(caller, dtoValid, f, now).Proceed?
    ensures !IsPastActive(NewEvent(f, id, now), now) && Expired(NewEvent(f, id, now), now).status
  {
  }

  /** The join handler's checks, in order: the member role, the form, the
      id claim parsing, an event with the id, that it is active and not
      past, that the member has not joined it, and a member row with the
      id (whose active flag is not looked at). On success: the member id. */
  function JoinGuard(caller: Caller, dtoValid: bool, etkinlikId: int, events: seq<Etkinlik>,
                     rows: seq<EtkinlikKatilimci>, members: seq<Uye>, now: int): (g: Guard<int>)
    ensures g.Proceed? <==>
      && MemberOnly(caller) == Allow && dtoValid && ParseInt32(caller.userId.value).Some?
      && EtkinlikById(events, etkinlikId).Some?
      && events[EtkinlikById(events, etkinlikId).value].status
      && now <= events[EtkinlikById(events, etkinlikId).value].zaman
      && KatilimFor(rows, etkinlikId, ParseInt32(caller.userId.value).value).None?
      && UyeById(members, ParseInt32(caller.userId.value).value).Some?
    ensures g.Proceed? ==> g.value == ParseInt32(caller.userId.value).value
    ensures MemberOnly(caller) != Allow ==> g == Refuse(Forbidden)
    ensures MemberOnly(caller) == Allow && !dtoValid ==> g == Refuse(ValidationFailed)
    ensures MemberOnly(caller) == Allow && dtoValid && ParseInt32(caller.userId.value).None? ==> g == Refuse(InternalError)
    ensures MemberOnly(caller) == Allow && dtoValid && ParseInt32(caller.userId.value).Some? ==>
      var uid := ParseInt32(caller.userId.value).value;
      var e := EtkinlikById(events, etkinlikId);
      && (e.None? ==> g == Refuse(NotFound(EventNotFoundMsg)))
      && (e.Some? && !events[e.value].status ==> g == Refuse(BadRequest(EventInactiveMsg)))
      && (e.Some? && events[e.value].status && events[e.value].zaman < now ==> g == Refuse(BadRequest(JoinPastMsg)))
      && (e.Some? && events[e.value].status && now <= events[e.value].zaman && KatilimFor(rows, etkinlikId, uid).Some?
          ==> g == Refuse(BadRequest(AlreadyJoinedMsg)))
      && ((e.Some? && events[e.value].status && now <= events[e.value].zaman && KatilimFor(rows, etkinlikId, uid).None?
           && UyeById(members, uid).None?) ==> g == Refuse(BadRequest(MemberNotFoundMsg)))
  {
    if MemberOnly(caller) != Allow then Refuse(Respond(MemberOnly(caller)))
    else if !dtoValid then Refuse(ValidationFailed)
    else match ParseInt32(caller.userId.value)
      case None => Refuse(InternalError)
      case Some(uid) =>
        match EtkinlikById(events, etkinlikId)
        case None => Refuse(NotFound(EventNotFoundMsg))
        case Some(e) =>
          if !events[e].status then Refuse(BadRequest(EventInactiveMsg))
          else if events[e].zaman < now then Refuse(BadRequest(JoinPastMsg))
          else if KatilimFor(rows, etkinlikId, uid).Some? then Refuse(BadRequest(AlreadyJoinedMsg))
          else if UyeById(members, uid).None? then Refuse(BadRequest(MemberNotFoundMsg))
          else Proceed(uid)
  }

  /** The row a join adds. */
  function NewAttendance(id: int, etkinlikId: int, uid: int, now: int): (k: EtkinlikKatilimci)
    ensures k.id == id && k.etkinlikId == etkinlikId && k.katilimciId == uid && k.createdAt == now
  {
    EtkinlikKatilimci(id, etkinlikId, uid, now)
  }

  /** The leave handler's checks, in order: the member role, the id claim
      parsing, an event with the id, that it is not past (its active flag
      is not looked at), and an attendance row for the pair. On success:
      the member id and the row to remove. */
  function LeaveGuard(caller: Caller, etkinlikId: int, events: seq<Etkinlik>,
                      rows: seq<EtkinlikKatilimci>, now: int): (g: Guard<(int, nat)>)
    ensures g.Proceed? <==>
      && MemberOnly(caller) == Allow && ParseInt32(caller.userId.value).Some?
      && EtkinlikById(events, etkinlikId).Some?
      && now <= events[EtkinlikById(events, etkinlikId).value].zaman
      && KatilimFor(rows, etkinlikId, ParseInt32(caller.userId.value).value).Some?
    ensures g.Proceed? ==> g.value.0 == ParseInt32(caller.userId.value).value
    ensures g.Proceed? ==> Some(g.value.1) == KatilimFor(rows, etkinlikId, g.value.0)
    ensures MemberOnly(caller) != Allow ==> g == Refuse(Forbidden)
    ensures MemberOnly(caller) == Allow && ParseInt32(caller.userId.value).None? ==> g == Refuse(InternalError)
    ensures MemberOnly(caller) == Allow && ParseInt32(caller.userId.value).Some? ==>
      var uid := ParseInt32(caller.userId.value).value;
      var e := EtkinlikById(events, etkinlikId);
      && (e.None? ==> g == Refuse(NotFound(EventNotFoundMsg)))
      && (e.Some? && events[e.value].zaman < now ==> g == Refuse(BadRequest(LeavePastMsg)))
      && (e.Some? && now <= events[e.value].zaman && KatilimFor(rows, etkinlikId, uid).None?
          ==> g == Refuse(BadRequest(NotJoinedMsg)))
  {
    if MemberOnly(caller) != Allow then Refuse(Respond(MemberOnly(caller)))
    else match ParseInt32(caller.userId.value)
      case None => Refuse(InternalError)
      case Some(uid) =>
        match EtkinlikById(events, etkinlikId)
        case None => Refuse(NotFound(EventNotFoundMsg))
        case Some(e) =>
          if events[e].zaman < now then Refuse(BadRequest(LeavePastMsg))
          else match KatilimFor(rows, etkinlikId, uid)
            case None => Refuse(BadRequest(NotJoinedMsg))
            case Some(k) => Proceed((uid, k))
  }

  /** The attendance table without row `k`. */
  function RemoveAt<T>(s: seq<T>, k: nat): (r: seq<T>)
    requires k < |s|
    ensures |r| == |s| - 1
    ensures forall i :: 0 <= i < k ==> r[i] == s[i]
    ensures forall i :: k <= i < |r| ==> r[i] == s[i + 1]
  {
    s[..k] + s[k + 1..]
  }

  /** No member attends one event twice. */
  predicate PairsUnique(rows: seq<EtkinlikKatilimci>) {
    forall i, j :: 0 <= i < j < |rows| ==>
      !(rows[i].etkinlikId == rows[j].etkinlikId && rows[i].katilimciId == rows[j].katilimciId)
  }

  /** A join only adds a pair that is not there yet. */
  lemma JoinKeepsPairsUnique(caller: Caller, dtoValid: bool, etkinlikId: int, events: seq<Etkinlik>,
                             rows: seq<EtkinlikKatilimci>, members: seq<Uye>, now: int, id: int)
    requires PairsUnique(rows)
    requires JoinGuard(caller, dtoValid, etkinlikId, events, rows, members, now).Proceed?
    ensures var uid := JoinGuard(caller, dtoValid, etkinlikId, events, rows, members, now).value;
      PairsUnique(rows + [NewAttendance(id, etkinlikId, uid, now)])
  {
    var uid := JoinGuard(caller, dtoValid, etkinlikId, events, rows, members, now).value;
    var rows' := rows + [NewAttendance(id, etkinlikId, uid, now)];
    forall i, j | 0 <= i < j < |rows'|
      ensures !(rows'[i].etkinlikId == rows'[j].etkinlikId && rows'[i].katilimciId == rows'[j].katilimciId)
    {
      assert rows'[i] == rows[i];
      if j < |rows| {
        assert rows'[j] == rows[j];
      }
    }
  }

  /** Removing a row keeps the pairs unique, and with unique pairs the
      member no longer attends the event afterwards. */
  lemma LeaveRemovesPair(rows: seq<EtkinlikKatilimci>, etkinlikId: int, uid: int, k: nat)
    requires PairsUnique(rows)
    requires KatilimFor(rows, etkinlikId, uid) == Some(k)
    ensures PairsUnique(RemoveAt(rows, k))
    ensures KatilimFor(RemoveAt(rows, k), etkinlikId, uid).None?
  {
    var rows' := RemoveAt(rows, k);
    forall i | 0 <= i < |rows'|
      ensures !(rows'[i].etkinlikId == etkinlikId && rows'[i].katilimciId == uid)
    {
      if i >= k {
        assert rows'[i] == rows[i + 1];
      }
    }
    forall i, j | 0 <= i < j < |rows'|
      ensures !(rows'[i].etkinlikId == rows'[j].etkinlikId && rows'[i].katilimciId == rows'[j].katilimciId)
    {
      var i0 := if i < k then i else i + 1;
      var j0 := if j < k then j else j + 1;
      assert rows'[i] == rows[i0] && rows'[j] == rows[j0];
    }
  }

  /** Joining twice: the second join is refused as already joined. */
  lemma {:induction false} SecondJoinRefused(caller: Caller, etkinlikId: int, events: seq<Etkinlik>,
                                           rows: seq<EtkinlikKatilimci>, members: seq<Uye>, now: int, id: int)
    requires JoinGuard(caller, true, etkinlikId, events, rows, members, now).Proceed?
    ensures var uid := JoinGuard(caller, true, etkinlikId, events, rows, members, now).value;
      JoinGuard(caller, true, etkinlikId, events, rows + [NewAttendance(id, etkinlikId, uid, now)], members, now)
        == Refuse(BadRequest(AlreadyJoinedMsg))
  {
    var uid := JoinGuard(caller, true, etkinlikId, events, rows, members, now).value;
    var rows' := rows + [NewAttendance(id, etkinlikId, uid, now)];
    FirstIndexAt(rows', (k: EtkinlikKatilimci) => k.etkinlikId == etkinlikId && k.katilimciId == uid, |rows|);
  }

  /** Joining and then leaving at the same instant is allowed and gives
      back the attendance table as it was. */
  lemma {:induction false} JoinThenLeave(caller: Caller, etkinlikId: int, events: seq<Etkinlik>,
                                       rows: seq<EtkinlikKatilimci>, members: seq<Uye>, now: int, id: int)
    requires JoinGuard(caller, true, etkinlikId, events, rows, members, now).Proceed?
    ensures var uid := JoinGuard(caller, true, etkinlikId, events, rows, members, now).value;
      var rows' := rows + [NewAttendance(id, etkinlikId, uid, now)];
      && LeaveGuard(caller, etkinlikId, events, rows', now) == Proceed((uid, |rows|))
      && RemoveAt(rows', |rows|) == rows
  {
    var uid := JoinGuard(caller, true, etkinlikId, events, rows, members, now).value;
    var rows' := rows + [NewAttendance(id, etkinlikId, uid, now)];
    FirstIndexAt(rows', (k: EtkinlikKatilimci) => k.etkinlikId == etkinlikId && k.katilimciId == uid, |rows|);
    assert RemoveAt(rows', |rows|) == rows;
  }

  /** Joining does not look at the member's active flag: a deactivated
      member is admitted like an active one. */
  lemma {:induction false} JoinIgnoresMemberStatus(caller: Caller, dtoValid: bool, etkinlikId: int,
                                                 events: seq<Etkinlik>, rows: seq<EtkinlikKatilimci>,
                                                 members: seq<Uye>, now: int, i: nat, status: bool)
    requires i < |members|
    ensures JoinGuard(caller, dtoValid, etkinlikId, events, rows, members[i := members[i].(status := status)], now)
         == JoinGuard(caller, dtoValid, etkinlikId, events, rows, members, now)
  {
    var members' := members[i := members[i].(status := status)];
    if MemberOnly(caller) == Allow && ParseInt32(caller.userId.value).Some? {
      var uid := ParseInt32(caller.userId.value).value;
      FirstIndexSameMatches(members, members', (u: Uye) => u.id == uid);
    }
  }

  /** Leaving does not look at the event's active flag: an event the
      sweep has not reached can be left whatever its flag. */
  lemma {:induction false} LeaveIgnoresEventStatus(caller: Caller, etkinlikId: int, events: seq<Etkinlik>,
                                                 rows: seq<EtkinlikKatilimci>, now: int, i: nat, status: bool)
    requires i < |events|
    ensures LeaveGuard(caller, etkinlikId, events[i := events[i].(status := status)], rows, now)
         == LeaveGuard(caller, etkinlikId, events, rows, now)
  {
    FirstIndexSameMatches(events, events[i := events[i].(status := status)], (e: Etkinlik) => e.id == etkinlikId);
  }
}
