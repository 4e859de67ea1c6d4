/**
 * src/app/services/citas.service.ts over an in-memory 'citas' collection: the
 * fail-closed slot check, the normalised write, and the two-phase read of one
 * day's appointments. Query failures are parameters.
 */
module CitasService {
  import opened Wrappers
  import opened Calendar
  import opened CitaDocs
  import opened Seqs

  /** `${x}` of an optional value: a missing one prints as "undefined". */
  function Interpolate(f: Option<string>): string {
    match f
    case Some(s) => s
    case None => "undefined"
  }

  /** `(x || '').toString()`. */
  function TextOrEmpty(f: Option<string>): (r: string)
    ensures Truthy(f) ==> r == f.value
    ensures !Truthy(f) ==> r == ""
  {
    if Truthy(f) then f.value else ""
  }

  /** `s.slice(0, 5)`. */
  function Take5(s: string): (r: string)
    ensures |r| <= 5 && r <= s
    ensures |s| <= 5 ==> r == s
  {
    if |s| <= 5 then s else s[..5]
  }

  /** The document `createAppointment` writes, or None when the date and time do not parse. */
  function NormalizedForWrite(data: CitaDoc): (r: Option<CitaDoc>)
    ensures r.Some? ==>
      && r.value.date == Some(TextOrEmpty(data.date))
      && r.value.time == Some(Take5(TextOrEmpty(data.time)))
      && |r.value.time.value| <= 5
      && r.value.estado == Some("confirmada")
      && r.value.fecha.Some?
      && r.value == data.(date := r.value.date, time := r.value.time,
                          fecha := r.value.fecha, estado := r.value.estado)
  {
    var parsed := ParseDateTime(Interpolate(data.date) + "T" + Interpolate(data.time) + ":00");
    if parsed.None? then None
    else
      var date' := Some(TextOrEmpty(data.date));
      var time' := Some(Take5(TextOrEmpty(data.time)));
      var saved := data.(date := date', time := time', fecha := Some(parsed.value),
                         estado := Some("confirmada"));
      assert saved.date == date' && saved.time == time' && saved.fecha == Some(parsed.value);
      Some(saved)
  }

  /** A well-formed date and `HH:MM` time always parse, and `fecha` is that moment. */
  lemma WellFormedWriteParses(data: CitaDoc, d: Date, hour: nat, minute: nat)
    requires ValidDate(d) && 0 <= d.year <= 9999 && hour < 24 && minute < 60
    requires data.date == Some(DateString(d)) && data.time == Some(TimeString(hour, minute))
    ensures NormalizedForWrite(data).Some?
    ensures NormalizedForWrite(data).value.fecha == Some(DateTime(d, hour, minute, 0, 0))
    ensures NormalizedForWrite(data).value.time == data.time
  {
    ParseDateTimeOfStrings(d, hour, minute);
    assert Interpolate(data.date) == DateString(d) && Interpolate(data.time) == TimeString(hour, minute);
  }

  /** The documents `where('date', '==', date)` and `where('time', '==', time)` return. */
  predicate SlotMatch(d: StoredDoc, date: string, time: string) {
    d.data.date == Some(date) && d.data.time == Some(time)
  }

  /** The first query: by date, and by tutor when one is given. */
  predicate FirstMatch(d: StoredDoc, date: string, tutorId: Option<string>) {
    d.data.date == Some(date) && (Truthy(tutorId) ==> d.data.tutorId == tutorId)
  }

  /** A row of the first phase: `date` is the stored one, else from `fecha`, else the requested one. */
  function FirstRow(d: StoredDoc, date: string): StoredDoc {
    var dateStr := if Truthy(d.data.date) then d.data.date.value
                   else if d.data.fecha.Some? then FechaDate(d.data).value
                   else date;
    StoredDoc(d.id, d.data.(time := NormalizedTime(d.data), date := Some(dateStr)))
  }

  /** The fallback query: by tutor when one is given, else by `fecha` within the day. */
  predicate FallbackMatch(d: StoredDoc, day: Option<Date>, tutorId: Option<string>) {
    if Truthy(tutorId) then d.data.tutorId == tutorId
    else d.data.fecha.Some? && day.Some? && ValidDate(day.value) && InDay(d.data.fecha.value, day.value)
  }

  /** `dt >= dayStart && dt <= dayEnd` for `T00:00:00` and `T23:59:59.999` of the day. */
  predicate InDay(t: Timestamp, day: Date)
    requires ValidDate(day)
  {
    Instant(StartOfDay(day)) <= Instant(t) <= Instant(EndOfDay(day))
  }

  /** The fallback's date: the stored one, else the one from `fecha`. */
  function FallbackDate(d: StoredDoc): Option<string> {
    if !Truthy(d.data.date) && d.data.fecha.Some? then FechaDate(d.data) else d.data.date
  }

  /**
   * The client-side `include` test. `day` is the parse of the requested date;
   * an unparsable date leaves only the string comparison.
   */
  predicate Include(d: StoredDoc, date: string, day: Option<Date>) {
    FallbackDate(d) == Some(date)
    || (d.data.fecha.Some? && day.Some? && ValidDate(day.value) && InDay(d.data.fecha.value, day.value))
  }

  /** A document passes exactly when its date string is the requested one or its `fecha` falls on that day. */
  lemma IncludeMeansSameDay(d: StoredDoc, date: string)
    ensures Include(d, date, ParseDate(date)) <==>
      FallbackDate(d) == Some(date)
      || (d.data.fecha.Some? && ParseDate(date) == Some(d.data.fecha.value.date))
  {
    if d.data.fecha.Some? && ParseDate(date).Some? {
      WithinDay(d.data.fecha.value, ParseDate(date).value);
    }
  }

  function FallbackRow(d: StoredDoc, date: string): StoredDoc {
    var dateStr := FallbackDate(d);
    StoredDoc(d.id, d.data.(time := NormalizedTime(d.data),
                            date := Some(if Truthy(dateStr) then dateStr.value else date)))
  }

  /** The rows the fallback pushes for a snapshot: the included documents, normalised, in order. */
  function FallbackRows(s: seq<StoredDoc>, date: string, day: Option<Date>): seq<StoredDoc> {
    Map(FallbackKept(s, date, day), (d: StoredDoc) => FallbackRow(d, date))
  }

  /** The documents of the fallback snapshot that the `forEach` keeps. */
  function FallbackKept(s: seq<StoredDoc>, date: string, day: Option<Date>): seq<StoredDoc> {
    Filter(s, (d: StoredDoc) => Include(d, date, day))
  }

  lemma FallbackRowsSnoc(s: seq<StoredDoc>, x: StoredDoc, date: string, day: Option<Date>)
    ensures FallbackRows(s + [x], date, day)
         == FallbackRows(s, date, day) + (if Include(x, date, day) then [FallbackRow(x, date)] else [])
  {
    FilterSnoc(s, x, (d: StoredDoc) => Include(d, date, day));
    assert FallbackKept(s + [x], date, day)
        == FallbackKept(s, date, day) + (if Include(x, date, day) then [x] else []);
  }

  /** The documents the first query returns, in collection order. */
  function FirstSnapshot(citas: seq<StoredDoc>, date: string, tutorId: Option<string>): seq<StoredDoc> {
    Filter(citas, (d: StoredDoc) => FirstMatch(d, date, tutorId))
  }

  /** The documents the fallback query returns, in collection order. */
  function FallbackSnapshot(citas: seq<StoredDoc>, day: Option<Date>, tutorId: Option<string>): seq<StoredDoc> {
    Filter(citas, (d: StoredDoc) => FallbackMatch(d, day, tutorId))
  }

  function FirstRows(hits: seq<StoredDoc>, date: string): seq<StoredDoc> {
    Map(hits, (d: StoredDoc) => FirstRow(d, date))
  }

  /** What `getAppointmentsForDate` resolves to, or the error it rethrows. */
  function AppointmentsForDate(citas: seq<StoredDoc>, date: string, tutorId: Option<string>,
                               firstFails: bool, fallbackFails: bool): Result<seq<StoredDoc>, string>
  {
    var hits := FirstSnapshot(citas, date, tutorId);
    if !firstFails && |hits| > 0 then
      Success(FirstRows(hits, date))
    else if fallbackFails || (!Truthy(tutorId) && ParseDate(date).None?) then
      Failure("fallback query failed")
    else
      var day := ParseDate(date);
      Success(FallbackRows(FallbackSnapshot(citas, day, tutorId), date, day))
  }

  /** When the date query finds documents they are the answer; the fallback is never consulted. */
  lemma FirstHitsShortCircuit(citas: seq<StoredDoc>, date: string, tutorId: Option<string>, fallbackFails: bool)
    requires exists j :: 0 <= j < |citas| && FirstMatch(citas[j], date, tutorId)
    ensures AppointmentsForDate(citas, date, tutorId, false, fallbackFails)
         == AppointmentsForDate(citas, date, tutorId, false, false)
    ensures AppointmentsForDate(citas, date, tutorId, false, fallbackFails).Success?
  {
    var j :| 0 <= j < |citas| && FirstMatch(citas[j], date, tutorId);
    var hits := FirstSnapshot(citas, date, tutorId);
    assert citas[j] in hits;
  }

  /** No document matches the date query. */
  predicate NoFirstHits(citas: seq<StoredDoc>, date: string, tutorId: Option<string>) {
    forall j :: 0 <= j < |citas| ==> !FirstMatch(citas[j], date, tutorId)
  }

  /**
   * A failed date query is swallowed, whatever it would have found: the answer
   * is the fallback's, which fails only when the fallback query fails or has no
   * range to query.
   */
  lemma FirstFailureSwallowed(citas: seq<StoredDoc>, date: string, tutorId: Option<string>, fallbackFails: bool)
    ensures var r := AppointmentsForDate(citas, date, tutorId, true, fallbackFails);
      && (r.Success? <==> !fallbackFails && (Truthy(tutorId) || ParseDate(date).Some?))
      && (r.Success? ==>
            r.value == FallbackRows(FallbackSnapshot(citas, ParseDate(date), tutorId), date, ParseDate(date)))
    ensures NoFirstHits(citas, date, tutorId) ==>
      AppointmentsForDate(citas, date, tutorId, true, fallbackFails)
        == AppointmentsForDate(citas, date, tutorId, false, fallbackFails)
  {
    if NoFirstHits(citas, date, tutorId) {
      FilterNone(citas, (d: StoredDoc) => FirstMatch(d, date, tutorId));
    }
  }

  /** Whenever the fallback runs, because the date query failed or found nothing, its failure is rethrown. */
  lemma FallbackFailureRethrown(citas: seq<StoredDoc>, date: string, tutorId: Option<string>, firstFails: bool)
    requires firstFails || NoFirstHits(citas, date, tutorId)
    ensures AppointmentsForDate(citas, date, tutorId, firstFails, true).Failure?
  {
    if !firstFails {
      FilterNone(citas, (d: StoredDoc) => FirstMatch(d, date, tutorId));
    }
  }

  /** Every fallback row comes from a document of that day, with its explicit time kept. */
  lemma FallbackRowsOfTheDay(citas: seq<StoredDoc>, date: string, tutorId: Option<string>, firstFails: bool,
                             row: StoredDoc)
    requires firstFails || NoFirstHits(citas, date, tutorId)
    requires AppointmentsForDate(citas, date, tutorId, firstFails, false).Success?
    requires row in AppointmentsForDate(citas, date, tutorId, firstFails, false).value
    ensures exists d :: (d in citas && row.id == d.id
      && (FallbackDate(d) == Some(date)
          || (d.data.fecha.Some? && ParseDate(date) == Some(d.data.fecha.value.date)))
      && (Truthy(d.data.time) ==> row.data.time == d.data.time))
  {
    if !firstFails {
      FilterNone(citas, (d: StoredDoc) => FirstMatch(d, date, tutorId));
    }
    var day := ParseDate(date);
    var snapshot := FallbackSnapshot(citas, day, tutorId);
    var kept := Filter(snapshot, (d: StoredDoc) => Include(d, date, day));
    var rows := FallbackRows(snapshot, date, day);
    assert row in rows;
    var k :| 0 <= k < |rows| && rows[k] == row;
    var d := kept[k];
    assert Include(d, date, day);
    IncludeMeansSameDay(d, date);
    NormalizedTimePrecedence(d.data);
    assert d in citas;
  }

  /** The 'citas' collection. */
  class CitasStore {
    var citas: seq<StoredDoc>

    constructor (citas: seq<StoredDoc>)
      ensures this.citas == citas
    {
      this.citas := citas;
    }

    /**
     * `isSlotTaken`: true exactly when some stored appointment has that date and
     * time; a failed query answers true, so a slot is never double-booked by error.
     */
    method IsSlotTaken(dateString: string, time: string, queryFails: bool) returns (taken: bool)
      ensures taken <==> queryFails || exists j :: 0 <= j < |citas| && SlotMatch(citas[j], dateString, time)
    {
      if queryFails {
        return true;
      }
      var snapshot := Filter(citas, (d: StoredDoc) => SlotMatch(d, dateString, time));
      taken := |snapshot| > 0;
      if taken {
        assert snapshot[0] in citas;
      }
    }

    /**
     * `createAppointment`: writes the normalised document under a new id. A date
     * and time that do not form a valid moment, or a failed write, are errors.
     */
    method CreateAppointment(data: CitaDoc, freshId: string, writeFails: bool) returns (r: Result<string, string>)
      requires forall j :: 0 <= j < |citas| ==> citas[j].id != freshId
      modifies this
      ensures NormalizedForWrite(data).None? || writeFails ==> r.Failure? && citas == old(citas)
      ensures NormalizedForWrite(data).Some? && !writeFails ==>
        r == Success(freshId) && citas == old(citas) + [StoredDoc(freshId, NormalizedForWrite(data).value)]
    {
      var saved := NormalizedForWrite(data);
      if saved.None? {
        return Failure("invalid date");
      }
      if writeFails {
        return Failure("write failed");
      }
      citas := citas + [StoredDoc(freshId, saved.value)];
      return Success(freshId);
    }

    /** `getAppointmentsForDate`: the two query phases, pushing one row per kept document. */
    method GetAppointmentsForDate(date: string, tutorId: Option<string>, firstFails: bool, fallbackFails: bool)
      returns (r: Result<seq<StoredDoc>, string>)
      ensures r == AppointmentsForDate(citas, date, tutorId, firstFails, fallbackFails)
    {
      if !firstFails {
        var snapshot := FirstSnapshot(citas, date, tutorId);
        if |snapshot| > 0 {
          var appointments := PushFirstRows(snapshot, date);
          return Success(appointments);
        }
      }
      var day := ParseDate(date);
      if fallbackFails || (!Truthy(tutorId) && day.None?) {
        return Failure("fallback query failed");
      }
      var snapshot := FallbackSnapshot(citas, day, tutorId);
      var appointments := PushFallbackRows(snapshot, date, day);
      return Success(appointments);
    }
  }

  /** The first phase's `forEach`: one normalised row per document of the snapshot. */
  method PushFirstRows(snapshot: seq<StoredDoc>, date: string) returns (appointments: seq<StoredDoc>)
    ensures appointments == FirstRows(snapshot, date)
  {
    appointments := [];
    var i := 0;
    while i < |snapshot|
      invariant 0 <= i <= |snapshot|
      invariant |appointments| == i
      invariant forall k :: 0 <= k < i ==> appointments[k] == FirstRow(snapshot[k], date)
    {
      appointments := appointments + [FirstRow(snapshot[i], date)];
      i := i + 1;
    }
  }

  /** The fallback's `forEach`: skips documents of other days, pushes the rest normalised. */
  method PushFallbackRows(snapshot: seq<StoredDoc>, date: string, day: Option<Date>) returns (appointments: seq<StoredDoc>)
    ensures appointments == FallbackRows(snapshot, date, day)
  {
    appointments := [];
    var i := 0;
    while i < |snapshot|
      invariant 0 <= i <= |snapshot|
      invariant appointments == FallbackRows(snapshot[..i], date, day)
    {
      var d := snapshot[i];
      TakeSnoc(snapshot, i);
      FallbackRowsSnoc(snapshot[..i], d, date, day);
      if Include(d, date, day) {
        appointments := appointments + [FallbackRow(d, date)];
      }
      i := i + 1;
    }
    assert snapshot[..i] == snapshot;
  }
}
