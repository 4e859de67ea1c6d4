/**
 * The clinical log ("bitacora") of src/app/services/bitacora.service.ts: the
 * entry pre-filled from an appointment and the tutor's and child's documents,
 * the update that saves it inside the appointment, and the two reads.
 */
module BitacoraService {
  import opened Wrappers
  import opened Text
  import opened Seqs
  import opened CitaDocs
  import DoctorService

  /** `x || undefined` and `x || null`: the value when truthy, else nothing. */
  function OrNone(a: Option<string>): (r: Option<string>)
    ensures Truthy(a) ==> r == a
    ensures !Truthy(a) ==> r.None?
  {
    if Truthy(a) then a else None
  }

  /** The tutor's document in 'users'. */
  datatype UserDoc = UserDoc(name: Option<string>, nombre: Option<string>, apellidoPaterno: Option<string>,
                             phone: Option<string>, telefono: Option<string>)

  /** The child's document in `users/{tutorId}/children`. */
  datatype ChildDoc = ChildDoc(
    nombre: Option<string>, apellidoPaterno: Option<string>, age: Option<string>, edad: Option<string>,
    allergies: Option<string>, alergias: Option<string>, medications: Option<string>, medicamentos: Option<string>,
    intraoralExam: Option<string>, examenIntraoral: Option<string>,
    medicalHistory: Option<string>, antecedentes: Option<string>)

  /** What reading one document gave: the document, no such document, or an error. */
  datatype Fetch<T> = Found(doc: T) | Missing | FetchError

  /** `` `${nombre} ${apellidoPaterno || ''}`.trim() ``, when there is a `nombre`. */
  function FullName(nombre: Option<string>, apellidoPaterno: Option<string>): (r: Option<string>)
    ensures Truthy(nombre) <==> r.Some?
  {
    if Truthy(nombre) then Some(Trim(nombre.value + " " + (if Truthy(apellidoPaterno) then apellidoPaterno.value else "")))
    else None
  }

  /** The entry as filled from the appointment alone. */
  function FromAppointment(appointmentId: string, a: CitaDoc): (e: BitacoraEntry)
    ensures e.appointmentId == Some(appointmentId)
    ensures e.date == (if Truthy(a.date) then a.date else FechaDate(a))
    ensures e.tutorName == OrNone(Or(a.tutorName, a.tutorEmail))
    ensures e.tutorPhone == OrNone(a.tutorPhone) && e.patientName == OrNone(a.childName)
    ensures e.diagnosis == OrNone(Or(a.diagnosis, a.diagnostico))
    ensures e.treatment == OrNone(Or(a.treatment, a.tratamiento))
    ensures e.observations == OrNone(Or(a.observations, a.observaciones))
    ensures e.age.None? && e.allergies.None? && e.medications.None?
    ensures e.intraoralExam.None? && e.medicalHistory.None?
  {
    EmptyEntry.(
      appointmentId := Some(appointmentId),
      date := if Truthy(a.date) then a.date else FechaDate(a),
      time := OrNone(a.time),
      tutorId := OrNone(a.tutorId),
      tutorName := OrNone(Or(a.tutorName, a.tutorEmail)),
      tutorPhone := OrNone(a.tutorPhone),
      patientId := OrNone(a.childId),
      patientName := OrNone(a.childName),
      reason := OrNone(a.reason),
      diagnosis := OrNone(Or(a.diagnosis, a.diagnostico)),
      treatment := OrNone(Or(a.treatment, a.tratamiento)),
      observations := OrNone(Or(a.observations, a.observaciones)))
  }

  /** The tutor's document is consulted when the appointment names a tutor. */
  predicate TutorConsulted(a: CitaDoc) {
    Truthy(a.tutorId)
  }

  /** The child's document is consulted when tutor and child are named and the tutor read did not fail. */
  predicate ChildConsulted(a: CitaDoc, tutor: Fetch<UserDoc>) {
    Truthy(a.tutorId) && Truthy(a.childId) && !tutor.FetchError?
  }

  /** The fields that only the appointment supplies are as it supplies them. */
  predicate AppointmentFieldsKept(e: BitacoraEntry, base: BitacoraEntry) {
    && e.appointmentId == base.appointmentId && e.date == base.date && e.time == base.time
    && e.tutorId == base.tutorId && e.patientId == base.patientId && e.reason == base.reason
    && e.diagnosis == base.diagnosis && e.treatment == base.treatment && e.observations == base.observations
    && e.professional == base.professional && e.nextAppointment == base.nextAppointment
    && e.updatedAt == base.updatedAt && e.updatedBy == base.updatedBy
  }

  /** The tutor's name and phone: the appointment's when it has them, else the tutor document's when read. */
  predicate TutorDetails(e: BitacoraEntry, base: BitacoraEntry, a: CitaDoc, tutor: Fetch<UserDoc>) {
    && (Truthy(base.tutorName) ==> e.tutorName == base.tutorName)
    && (Truthy(base.tutorPhone) ==> e.tutorPhone == base.tutorPhone)
    && (!(TutorConsulted(a) && tutor.Found?) ==> e.tutorName == base.tutorName && e.tutorPhone == base.tutorPhone)
    && (TutorConsulted(a) && tutor.Found? && !Truthy(base.tutorName) ==>
          e.tutorName == Or(tutor.doc.name, FullName(tutor.doc.nombre, tutor.doc.apellidoPaterno)))
    && (TutorConsulted(a) && tutor.Found? && !Truthy(base.tutorPhone) ==>
          e.tutorPhone == OrNone(Or(tutor.doc.phone, tutor.doc.telefono)))
  }

  /** The child's name and clinical details: from the child document when read, null without one. */
  predicate ChildDetails(e: BitacoraEntry, base: BitacoraEntry, a: CitaDoc, tutor: Fetch<UserDoc>, child: Fetch<ChildDoc>) {
    && (Truthy(base.patientName) ==> e.patientName == base.patientName)
    && (!(ChildConsulted(a, tutor) && child.Found?) ==>
          e.patientName == base.patientName && e.age.None? && e.allergies.None? && e.medications.None?
          && e.intraoralExam.None? && e.medicalHistory.None?)
    && (ChildConsulted(a, tutor) && child.Found? ==>
          var c := child.doc;
          && (!Truthy(base.patientName) ==> e.patientName == FullName(c.nombre, c.apellidoPaterno))
          && e.age == OrNone(Or(c.age, c.edad))
          && e.allergies == OrNone(Or(c.allergies, c.alergias))
          && e.medications == OrNone(Or(c.medications, c.medicamentos))
          && e.intraoralExam == OrNone(Or(c.intraoralExam, c.examenIntraoral))
          && e.medicalHistory == OrNone(Or(c.medicalHistory, c.antecedentes)))
  }

  /** Lines 69-70: the tutor document fills a missing name and phone. */
  function WithTutor(e: BitacoraEntry, t: UserDoc): (r: BitacoraEntry)
    ensures AppointmentFieldsKept(r, e) && r.patientName == e.patientName && r.age == e.age
    ensures r.allergies == e.allergies && r.medications == e.medications
    ensures r.intraoralExam == e.intraoralExam && r.medicalHistory == e.medicalHistory
    ensures Truthy(e.tutorName) ==> r.tutorName == e.tutorName
    ensures !Truthy(e.tutorName) ==> r.tutorName == Or(t.name, FullName(t.nombre, t.apellidoPaterno))
    ensures Truthy(e.tutorPhone) ==> r.tutorPhone == e.tutorPhone
    ensures !Truthy(e.tutorPhone) && e.tutorPhone.None? ==> r.tutorPhone == OrNone(Or(t.phone, t.telefono))
  {
    var phone := Or(Or(e.tutorPhone, t.phone), t.telefono);
    e.(tutorName := Or(e.tutorName, Or(t.name, FullName(t.nombre, t.apellidoPaterno))),
       tutorPhone := if Truthy(phone) then phone else e.tutorPhone)
  }

  /** Lines 80-85: the child document fills a missing name and the clinical details. */
  function WithChild(e: BitacoraEntry, c: ChildDoc): (r: BitacoraEntry)
    requires e.age.None? && e.allergies.None? && e.medications.None? && e.intraoralExam.None? && e.medicalHistory.None?
    ensures AppointmentFieldsKept(r, e) && r.tutorName == e.tutorName && r.tutorPhone == e.tutorPhone
    ensures Truthy(e.patientName) ==> r.patientName == e.patientName
    ensures !Truthy(e.patientName) && e.patientName.None? ==> r.patientName == FullName(c.nombre, c.apellidoPaterno)
    ensures r.age == OrNone(Or(c.age, c.edad))
    ensures r.allergies == OrNone(Or(c.allergies, c.alergias))
    ensures r.medications == OrNone(Or(c.medications, c.medicamentos))
    ensures r.intraoralExam == OrNone(Or(c.intraoralExam, c.examenIntraoral))
    ensures r.medicalHistory == OrNone(Or(c.medicalHistory, c.antecedentes))
  {
    e.(patientName := Or(e.patientName, if Truthy(c.nombre) then FullName(c.nombre, c.apellidoPaterno) else e.patientName),
       age := OrNone(Or(Or(c.age, c.edad), e.age)),
       allergies := OrNone(Or(Or(c.allergies, c.alergias), e.allergies)),
       medications := OrNone(Or(Or(c.medications, c.medicamentos), e.medications)),
       intraoralExam := OrNone(Or(Or(c.intraoralExam, c.examenIntraoral), e.intraoralExam)),
       medicalHistory := OrNone(Or(Or(c.medicalHistory, c.antecedentes), e.medicalHistory)))
  }

  /**
   * `prepareBitacoraForAppointment`: an empty id or a missing appointment is an
   * error; otherwise the entry from the appointment, completed (never
   * overwritten) from the tutor's and the child's documents when they can be
   * read. A failed read is not an error: the entry filled so far is returned.
   */
  method PrepareBitacoraForAppointment(citas: map<string, CitaDoc>, appointmentId: string,
                                       tutor: Fetch<UserDoc>, child: Fetch<ChildDoc>)
    returns (r: Result<BitacoraEntry, string>)
    ensures appointmentId == "" ==> r == Failure("appointmentId required")
    ensures appointmentId != "" && appointmentId !in citas ==> r == Failure("Appointment not found")
    ensures r.Success? <==> appointmentId != "" && appointmentId in citas
    ensures r.Success? ==> AppointmentFieldsKept(r.value, FromAppointment(appointmentId, citas[appointmentId]))
    ensures r.Success? ==> TutorDetails(r.value, FromAppointment(appointmentId, citas[appointmentId]), citas[appointmentId], tutor)
    ensures r.Success? ==> ChildDetails(r.value, FromAppointment(appointmentId, citas[appointmentId]), citas[appointmentId], tutor, child)
  {
    if appointmentId == "" {
      return Failure("appointmentId required");
    }
    if appointmentId !in citas {
      return Failure("Appointment not found");
    }
    var appt := citas[appointmentId];
    var result := FromAppointment(appointmentId, appt);
    var failed := false;
    if Truthy(result.tutorId) {
      match tutor {
        case FetchError =>
          failed := true;
        case Missing =>
        case Found(t) =>
          result := WithTutor(result, t);
      }
    }
    if !failed && Truthy(result.tutorId) && Truthy(result.patientId) {
      match child {
        case FetchError =>
        case Missing =>
        case Found(c) =>
          result := WithChild(result, c);
      }
    }
    return Success(result);
  }

  /** The update `saveBitacora` writes into the appointment document. */
  datatype UpdatePayload = UpdatePayload(bitacora: BitacoraEntry, status: Option<string>, estado: Option<string>)

  /**
   * The payload of `saveBitacora`: the entry stamped with the time and the
   * signed-in user's id, plus the completed status when `markCompleted`
   * (which defaults to true).
   */
  function SavePayload(appointmentId: string, payload: BitacoraEntry, now: Timestamp, uid: Option<string>,
                       markCompleted: bool := true): (r: Result<UpdatePayload, string>)
    ensures appointmentId == "" <==> r.Failure?
    ensures r.Success? ==>
      && r.value.bitacora.(updatedAt := payload.updatedAt, updatedBy := payload.updatedBy) == payload
      && r.value.bitacora.updatedAt == Some(now)
      && r.value.bitacora.updatedBy == OrNone(uid)
      && (r.value.status.Some? <==> markCompleted) && (r.value.estado.Some? <==> markCompleted)
      && (markCompleted ==> r.value.status == Some("completed") && r.value.estado == Some("completada"))
  {
    if appointmentId == "" then Failure("appointmentId required")
    else
      var bitacoraData := payload.(updatedAt := Some(now), updatedBy := OrNone(uid));
      if markCompleted then Success(UpdatePayload(bitacoraData, Some("completed"), Some("completada")))
      else Success(UpdatePayload(bitacoraData, None, None))
  }

  /** `updateDoc`: the payload's fields replace the document's; absent ones are left alone. */
  function ApplyUpdate(d: CitaDoc, u: UpdatePayload): (r: CitaDoc)
    ensures r.bitacora == Some(u.bitacora)
    ensures r.status == (if u.status.Some? then u.status else d.status)
    ensures r.estado == (if u.estado.Some? then u.estado else d.estado)
    ensures r.(bitacora := d.bitacora, status := d.status, estado := d.estado) == d
  {
    d.(bitacora := Some(u.bitacora),
       status := if u.status.Some? then u.status else d.status,
       estado := if u.estado.Some? then u.estado else d.estado)
  }

  /** `{ appointmentId, ...bitacora }`: the document id, unless the entry carries its own. */
  function Tagged(appointmentId: string, b: BitacoraEntry): (r: BitacoraEntry)
    ensures r.appointmentId.Some?
    ensures b.appointmentId.Some? ==> r == b
    ensures b.appointmentId.None? ==> r == b.(appointmentId := Some(appointmentId))
  {
    if b.appointmentId.Some? then b else b.(appointmentId := Some(appointmentId))
  }

  /** `getBitacoraForAppointment`: null for an empty id, a missing document or one without a log. */
  function GetBitacoraForAppointment(citas: map<string, CitaDoc>, appointmentId: string): (r: Option<BitacoraEntry>)
    ensures r.Some? <==> appointmentId != "" && appointmentId in citas && citas[appointmentId].bitacora.Some?
    ensures r.Some? ==> r.value == Tagged(appointmentId, citas[appointmentId].bitacora.value)
  {
    if appointmentId == "" || appointmentId !in citas then None
    else match citas[appointmentId].bitacora
      case None => None
      case Some(b) => Some(Tagged(appointmentId, b))
  }

  /** The appointments store the log is saved into. */
  class BitacoraStore {
    var citas: map<string, CitaDoc>

    constructor(citas: map<string, CitaDoc>)
      ensures this.citas == citas
    {
      this.citas := citas;
    }

    /**
     * `saveBitacora`: an empty id is an error, and so is an id with no
     * document (the update of a missing document fails); otherwise that
     * document alone takes the payload.
     */
    method SaveBitacora(appointmentId: string, payload: BitacoraEntry, now: Timestamp, uid: Option<string>,
                        markCompleted: bool)
      returns (r: Result<UpdatePayload, string>)
      modifies this
      ensures r.Success? <==> appointmentId != "" && appointmentId in old(citas)
      ensures r.Failure? ==> citas == old(citas)
      ensures r.Success? ==>
        && r == SavePayload(appointmentId, payload, now, uid, markCompleted)
        && citas == old(citas)[appointmentId := ApplyUpdate(old(citas)[appointmentId], r.value)]
    {
      r := SavePayload(appointmentId, payload, now, uid, markCompleted);
      if r.Success? && appointmentId !in citas {
        r := Failure("No document to update: citas/" + appointmentId);
      }
      if r.Success? {
        citas := citas[appointmentId := ApplyUpdate(citas[appointmentId], r.value)];
      }
    }
  }

  /** Reading the log back after saving it gives the stamped entry. */
  lemma SaveThenGet(citas: map<string, CitaDoc>, appointmentId: string, payload: BitacoraEntry,
                    now: Timestamp, uid: Option<string>, markCompleted: bool)
    requires appointmentId != "" && appointmentId in citas
    ensures var u := SavePayload(appointmentId, payload, now, uid, markCompleted).value;
      GetBitacoraForAppointment(citas[appointmentId := ApplyUpdate(citas[appointmentId], u)], appointmentId)
        == Some(Tagged(appointmentId, payload.(updatedAt := Some(now), updatedBy := OrNone(uid))))
  {
  }

  /** An appointment saved with `markCompleted` is listed as completed in the dentist's consultation list. */
  lemma SavedCompletedIsListedCompleted(d: CitaDoc, appointmentId: string, payload: BitacoraEntry,
                                        now: Timestamp, uid: Option<string>)
    requires appointmentId != ""
    ensures var u := SavePayload(appointmentId, payload, now, uid).value;
      DoctorService.NormalizeStatus(ApplyUpdate(d, u)) == "completed"
  {
  }

  /** Whether a document of the tutor carries a log. */
  predicate HasBitacoraOf(d: StoredDoc, tutorId: string) {
    d.data.tutorId == Some(tutorId) && d.data.bitacora.Some?
  }

  /** The row listed for such a document. */
  function BitacoraRow(d: StoredDoc): BitacoraEntry
    requires d.data.bitacora.Some?
  {
    Tagged(d.id, d.data.bitacora.value)
  }

  /** The tutor's appointments that carry a log, in collection order. */
  function TutorLogs(citas: seq<StoredDoc>, tutorId: string): (r: seq<StoredDoc>)
    ensures forall k :: 0 <= k < |r| ==> r[k].data.bitacora.Some?
  {
    Filter(citas, (d: StoredDoc) => HasBitacoraOf(d, tutorId))
  }

  /** The tutor's logs, in collection order: the specification of the loop below. */
  function BitacorasOfTutor(citas: seq<StoredDoc>, tutorId: string): (r: seq<BitacoraEntry>)
    ensures |r| <= |citas|
  {
    var kept := TutorLogs(citas, tutorId);
    seq(|kept|, k requires 0 <= k < |kept| => BitacoraRow(kept[k]))
  }

  /** One more document adds its row exactly when it is the tutor's and carries a log. */
  lemma BitacorasOfTutorSnoc(citas: seq<StoredDoc>, d: StoredDoc, tutorId: string)
    ensures BitacorasOfTutor(citas + [d], tutorId)
         == BitacorasOfTutor(citas, tutorId) + (if HasBitacoraOf(d, tutorId) then [BitacoraRow(d)] else [])
  {
    FilterSnoc(citas, d, (x: StoredDoc) => HasBitacoraOf(x, tutorId));
    assert TutorLogs(citas + [d], tutorId) == TutorLogs(citas, tutorId) + (if HasBitacoraOf(d, tutorId) then [d] else []);
  }

  /**
   * `getConsultationsWithBitacoraForTutor`: an empty tutor id lists nothing;
   * otherwise, for each of the tutor's appointments that carries a log, the
   * log tagged with the appointment's id.
   */
  method GetConsultationsWithBitacoraForTutor(citas: seq<StoredDoc>, tutorId: string)
    returns (rows: seq<BitacoraEntry>)
    ensures tutorId == "" ==> rows == []
    ensures tutorId != "" ==> rows == BitacorasOfTutor(citas, tutorId)
  {
    if tutorId == "" {
      return [];
    }
    rows := [];
    var i := 0;
    while i < |citas|
      invariant 0 <= i <= |citas|
      invariant rows == BitacorasOfTutor(citas[..i], tutorId)
    {
      var d := citas[i];
      TakeSnoc(citas, i);
      BitacorasOfTutorSnoc(citas[..i], d, tutorId);
      if d.data.tutorId == Some(tutorId) && d.data.bitacora.Some? {
        rows := rows + [Tagged(d.id, d.data.bitacora.value)];
      }
      i := i + 1;
    }
    assert citas[..i] == citas;
  }

  /** Every listed log belongs to one of the tutor's appointments carrying a log, and each such one is listed. */
  lemma BitacorasOfTutorExact(citas: seq<StoredDoc>, tutorId: string)
    ensures forall r :: r in BitacorasOfTutor(citas, tutorId) ==>
      exists i :: 0 <= i < |citas| && HasBitacoraOf(citas[i], tutorId) && r == BitacoraRow(citas[i])
    ensures forall i :: 0 <= i < |citas| && HasBitacoraOf(citas[i], tutorId) ==>
      BitacoraRow(citas[i]) in BitacorasOfTutor(citas, tutorId)
  {
    var kept := TutorLogs(citas, tutorId);
    var rows := BitacorasOfTutor(citas, tutorId);
    forall r | r in rows
      ensures exists i :: 0 <= i < |citas| && HasBitacoraOf(citas[i], tutorId) && r == BitacoraRow(citas[i])
    {
      var k :| 0 <= k < |rows| && rows[k] == r;
      assert kept[k] in citas;
      var i :| 0 <= i < |citas| && citas[i] == kept[k];
    }
    forall i | 0 <= i < |citas| && HasBitacoraOf(citas[i], tutorId)
      ensures BitacoraRow(citas[i]) in rows
    {
      assert citas[i] in kept;
      var k :| 0 <= k < |kept| && kept[k] == citas[i];
      assert rows[k] == BitacoraRow(citas[i]);
    }
  }
}
