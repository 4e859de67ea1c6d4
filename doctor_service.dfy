/**
 * The dentist's consultation list of src/app/services/doctor.service.ts: each
 * 'citas' document normalised to a row (status, date, time and name fallbacks),
 * the rows latest first, the client-side filters, and the confirm guard.
 */
module DoctorService {
  import opened Wrappers
  import opened Text
  import opened Seqs
  import opened Ordering
  import opened CitaDocs

  datatype ConsultationRow = ConsultationRow(
    id: string, date: string, time: string,
    tutorId: Option<string>, tutorEmail: Option<string>, tutorName: string,
    tutorPhone: Option<string>, patientId: Option<string>, patientName: Option<string>,
    reason: Option<string>, conclusions: Option<string>, status: string, raw: CitaDoc)

  /** The filter form; every field optional. */
  datatype ConsultationFilters = ConsultationFilters(
    date: Option<string>, tutor: Option<string>, patient: Option<string>, reason: Option<string>)

  /** The Spanish `estado` values and their status codes. */
  function EstadoCode(es: string): Option<string> {
    if es == "pendiente" then Some("pending")
    else if es == "confirmada" || es == "confirmado" then Some("confirmed")
    else if es == "cancelada" then Some("cancelled")
    else if es == "completada" then Some("completed")
    else None
  }

  /** The row's status: `status` if set, else the mapped lowercase `estado`, else pending. */
  function NormalizeStatus(d: CitaDoc): (r: string)
    ensures Truthy(d.status) ==> r == d.status.value
    ensures !Truthy(d.status) && Truthy(d.estado) ==>
      var es := ToLower(d.estado.value);
      r == (if EstadoCode(es).Some? then EstadoCode(es).value else es)
    ensures !Truthy(d.status) && !Truthy(d.estado) ==> r == "pending"
    ensures r != ""
  {
    if Truthy(d.status) then d.status.value
    else if Truthy(d.estado) then
      var es := ToLower(d.estado.value);
      match EstadoCode(es)
      case Some(code) => code
      case None => es
    else "pending"
  }

  /** The Spanish spellings map to the four codes, regardless of case. */
  lemma EstadoMapping(d: CitaDoc, e: string)
    requires !Truthy(d.status) && d.estado == Some(e) && e != ""
    ensures ToLower(e) == "pendiente" ==> NormalizeStatus(d) == "pending"
    ensures ToLower(e) in {"confirmada", "confirmado"} ==> NormalizeStatus(d) == "confirmed"
    ensures ToLower(e) == "cancelada" ==> NormalizeStatus(d) == "cancelled"
    ensures ToLower(e) == "completada" ==> NormalizeStatus(d) == "completed"
    ensures EstadoCode(ToLower(e)).None? ==> NormalizeStatus(d) == ToLower(e)
  {
  }

  /** The row `getAllConsultations` pushes for a document. */
  function NormalizeRow(doc: StoredDoc): (r: ConsultationRow)
    ensures r.id == doc.id && r.raw == doc.data
    ensures Truthy(doc.data.date) ==> r.date == doc.data.date.value
    ensures !Truthy(doc.data.date) ==> r.date == (if doc.data.fecha.Some? then FechaDate(doc.data).value else "")
    ensures Truthy(doc.data.time) ==> r.time == doc.data.time.value
    ensures !Truthy(doc.data.time) && doc.data.fecha.Some? ==> r.time == FechaTime(doc.data).value
    ensures !Truthy(doc.data.time) && doc.data.fecha.None? ==> r.time == ""
    ensures r.tutorName == (if Truthy(doc.data.tutorName) then doc.data.tutorName.value
                            else if Truthy(doc.data.tutorEmail) then doc.data.tutorEmail.value
                            else "")
    ensures r.tutorPhone == (if Truthy(doc.data.tutorPhone) then doc.data.tutorPhone else None)
    ensures r.conclusions == (if Truthy(doc.data.conclusions) then doc.data.conclusions
                              else if Truthy(doc.data.result) then doc.data.result else None)
    ensures r.status == NormalizeStatus(doc.data)
  {
    var data := doc.data;
    ConsultationRow(
      doc.id, RowDate(data), RowTime(data),
      data.tutorId, data.tutorEmail, RowTutorName(data),
      if Truthy(data.tutorPhone) then data.tutorPhone else None,
      data.childId, data.childName, data.reason,
      RowConclusions(data), NormalizeStatus(data), data)
  }

  /** The row's date: the stored `date`, else the day of `fecha`, else empty. */
  function RowDate(data: CitaDoc): (r: string)
    ensures Truthy(data.date) ==> r == data.date.value
    ensures !Truthy(data.date) ==> r == (if data.fecha.Some? then FechaDate(data).value else "")
  {
    var dateStr := if !Truthy(data.date) && data.fecha.Some? then FechaDate(data) else data.date;
    if Truthy(dateStr) then dateStr.value else ""
  }

  /** The row's time: the stored `time`, else the time of `fecha`, else empty. */
  function RowTime(data: CitaDoc): (r: string)
    ensures Truthy(data.time) ==> r == data.time.value
    ensures !Truthy(data.time) && data.fecha.Some? ==> r == FechaTime(data).value
    ensures !Truthy(data.time) && data.fecha.None? ==> r == ""
  {
    var timeStr := NormalizedTime(data);
    if Truthy(timeStr) then timeStr.value else ""
  }

  function RowTutorName(data: CitaDoc): (r: string)
    ensures r == (if Truthy(data.tutorName) then data.tutorName.value
                  else if Truthy(data.tutorEmail) then data.tutorEmail.value
                  else "")
  {
    var tutorName := Or(data.tutorName, data.tutorEmail);
    if Truthy(tutorName) then tutorName.value else ""
  }

  function RowConclusions(data: CitaDoc): (r: Option<string>)
    ensures r == (if Truthy(data.conclusions) then data.conclusions
                  else if Truthy(data.result) then data.result else None)
  {
    var conclusions := Or(data.conclusions, data.result);
    if Truthy(conclusions) then conclusions else None
  }

  /** The sort key: date, then time. */
  function RowKey(r: ConsultationRow): Key {
    (r.date, r.time)
  }

  /**
   * `getAllConsultations` over the collection: one normalised row per document,
   * then sorted by date descending, ties by time descending.
   */
  method GetAllConsultations(citas: seq<StoredDoc>) returns (rows: seq<ConsultationRow>)
    ensures SortedLatestFirst(rows, RowKey)
    ensures multiset(rows) == multiset(Map(citas, NormalizeRow))
  {
    rows := [];
    var i := 0;
    while i < |citas|
      invariant 0 <= i <= |citas|
      invariant rows == Map(citas[..i], NormalizeRow)
    {
      TakeSnoc(citas, i);
      MapSnoc(citas[..i], citas[i], NormalizeRow);
      rows := rows + [NormalizeRow(citas[i])];
      i := i + 1;
    }
    assert citas[..i] == citas;
    rows := SortLatestFirst(rows, RowKey);
  }

  /** Every consultation in the sorted list is followed only by earlier or equal (date, time) ones. */
  lemma SortedRowsOrder(rows: seq<ConsultationRow>, i: int, j: int)
    requires SortedLatestFirst(rows, RowKey) && 0 <= i < j < |rows|
    ensures rows[i].date == rows[j].date ==> !StrLt(rows[i].time, rows[j].time)
    ensures rows[i].date != rows[j].date ==> StrLt(rows[j].date, rows[i].date)
  {
    StrLtTotal(rows[i].date, rows[j].date);
  }

  /** `(x || '').trim()`, lower-cased unless it is the date. */
  function Needle(f: Option<string>): string {
    ToLower(Trim(if Truthy(f) then f.value else ""))
  }

  function DateNeedle(f: Option<string>): string {
    Trim(if Truthy(f) then f.value else "")
  }

  /** The test `applyFilters` runs on one row. */
  predicate PassesFilters(r: ConsultationRow, f: ConsultationFilters) {
    var fDate, fTutor, fPatient, fReason := DateNeedle(f.date), Needle(f.tutor), Needle(f.patient), Needle(f.reason);
    && (fDate != "" ==> r.date != "" && r.date == fDate)
    && (fTutor != "" ==> Contains(ToLower(r.tutorName + " " + (if Truthy(r.tutorEmail) then r.tutorEmail.value else "")), fTutor))
    && (fPatient != "" ==> Truthy(r.patientName) && Contains(ToLower(r.patientName.value), fPatient))
    && (fReason != "" ==> Truthy(r.reason) && Contains(ToLower(r.reason.value), fReason))
  }

  /** `applyFilters`: no filters return the rows as they are; otherwise the rows passing every filter. */
  function ApplyFilters(rows: seq<ConsultationRow>, filters: Option<ConsultationFilters>): (r: seq<ConsultationRow>)
    ensures IsSubsequence(r, rows)
    ensures filters.None? ==> r == rows
    ensures filters.Some? ==>
      (forall k :: 0 <= k < |r| ==> PassesFilters(r[k], filters.value))
      && (forall k :: 0 <= k < |rows| && PassesFilters(rows[k], filters.value) ==> rows[k] in r)
  {
    match filters
    case None =>
      SubsequenceReflexive(rows);
      rows
    case Some(f) =>
      FilterIsSubsequence(rows, (x: ConsultationRow) => PassesFilters(x, f));
      Filter(rows, (x: ConsultationRow) => PassesFilters(x, f))
  }

  /** Filters that are blank after trimming let every row through. */
  lemma BlankFiltersKeepAll(rows: seq<ConsultationRow>, f: ConsultationFilters)
    requires DateNeedle(f.date) == "" && Needle(f.tutor) == "" && Needle(f.patient) == "" && Needle(f.reason) == ""
    ensures ApplyFilters(rows, Some(f)) == rows
  {
    FilterAll(rows, (x: ConsultationRow) => PassesFilters(x, f));
  }

  /** With a date filter set, a row without a date never passes. */
  lemma DateFilterExcludesUndated(r: ConsultationRow, f: ConsultationFilters)
    requires DateNeedle(f.date) != "" && r.date == ""
    ensures !PassesFilters(r, f)
  {
  }

  /**
   * The patient filter is a case-insensitive substring test: a row passes it
   * exactly when the lowercased needle occurs somewhere in the lowercased name.
   */
  lemma PatientFilterIsSubstring(r: ConsultationRow, f: ConsultationFilters)
    requires DateNeedle(f.date) == "" && Needle(f.tutor) == "" && Needle(f.reason) == ""
    requires Needle(f.patient) != ""
    ensures PassesFilters(r, f) <==>
      Truthy(r.patientName)
      && exists k :: OccursAt(ToLower(r.patientName.value), Needle(f.patient), k)
  {
    if Truthy(r.patientName) {
      ContainsAt(ToLower(r.patientName.value), Needle(f.patient));
    }
  }

  /** The tutor filter looks in the name and the email, both case-insensitively. */
  lemma TutorFilterSearchesNameAndEmail(r: ConsultationRow, f: ConsultationFilters)
    requires DateNeedle(f.date) == "" && Needle(f.patient) == "" && Needle(f.reason) == ""
    requires Needle(f.tutor) != ""
    ensures PassesFilters(r, f) <==>
      Contains(ToLower(r.tutorName) + " " + ToLower(if Truthy(r.tutorEmail) then r.tutorEmail.value else ""),
               Needle(f.tutor))
  {
    ToLowerJoin(r.tutorName, if Truthy(r.tutorEmail) then r.tutorEmail.value else "");
  }

  /** What confirming a consultation asks of the appointment store. */
  datatype StatusUpdate = StatusUpdate(id: string, status: string)

  /** `confirmConsultation`: an empty id is an error; otherwise the status becomes confirmed. */
  function ConfirmConsultation(consultationId: string): (r: Result<StatusUpdate, string>)
    ensures r.Failure? <==> consultationId == ""
    ensures r.Success? ==> r.value == StatusUpdate(consultationId, "confirmed")
  {
    if consultationId == "" then Failure("consultationId required")
    else Success(StatusUpdate(consultationId, "confirmed"))
  }
}
