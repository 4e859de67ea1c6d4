/**
 * The documents of the 'citas' collection as the services read them: every field
 * optional (a missing field and a null one are both `None`), `fecha` a stored
 * timestamp, and an optional `bitacora` (clinical log) written by the dentist.
 */
module CitaDocs {
  import opened Wrappers
  import opened Text
  import opened Calendar

  /** A Firestore timestamp: always a valid local date and time of day. */
  type Timestamp = t: DateTime | ValidDateTime(t) witness DateTime(Date(1970, 0, 1), 0, 0, 0, 0)

  /** JavaScript truthiness of an optional string: present and not empty. */
  predicate Truthy(f: Option<string>) {
    f.Some? && f.value != ""
  }

  /** `a || b` on optional strings. */
  function Or(a: Option<string>, b: Option<string>): Option<string> {
    if Truthy(a) then a else b
  }

  /** The clinical log kept inside an appointment document. */
  datatype BitacoraEntry = BitacoraEntry(
    appointmentId: Option<string>,
    date: Option<string>, time: Option<string>,
    tutorId: Option<string>, tutorName: Option<string>, tutorPhone: Option<string>,
    patientId: Option<string>, patientName: Option<string>, age: Option<string>,
    allergies: Option<string>, medications: Option<string>,
    intraoralExam: Option<string>, medicalHistory: Option<string>,
    professional: Option<string>, reason: Option<string>, diagnosis: Option<string>,
    treatment: Option<string>, nextAppointment: Option<string>, observations: Option<string>,
    updatedAt: Option<Timestamp>, updatedBy: Option<string>)

  /** The empty entry `{}`. */
  const EmptyEntry := BitacoraEntry(None, None, None, None, None, None, None, None, None,
    None, None, None, None, None, None, None, None, None, None, None, None)

  /** A 'citas' document. Both English and Spanish spellings occur in stored data. */
  datatype CitaDoc = CitaDoc(
    date: Option<string>, time: Option<string>, fecha: Option<Timestamp>,
    tutorId: Option<string>, tutorEmail: Option<string>, tutorName: Option<string>,
    tutorPhone: Option<string>, childId: Option<string>, childName: Option<string>,
    reason: Option<string>, conclusions: Option<string>, result: Option<string>,
    status: Option<string>, estado: Option<string>,
    diagnosis: Option<string>, diagnostico: Option<string>,
    treatment: Option<string>, tratamiento: Option<string>,
    observations: Option<string>, observaciones: Option<string>,
    bitacora: Option<BitacoraEntry>)

  /** A document with its id, as a query snapshot yields it. */
  datatype StoredDoc = StoredDoc(id: string, data: CitaDoc)

  /** `fecha.toDate().toISOString().split('T')[0]`, when there is a `fecha`. */
  function FechaDate(d: CitaDoc): (r: Option<string>)
    ensures r.Some? <==> d.fecha.Some?
  {
    match d.fecha
    case Some(t) => Some(DateString(t.date))
    case None => None
  }

  /** The `HH:MM` of `fecha`, when there is one. */
  function FechaTime(d: CitaDoc): (r: Option<string>)
    ensures r.Some? <==> d.fecha.Some?
  {
    match d.fecha
    case Some(t) => Some(TimeOfDay(t))
    case None => None
  }

  /** `let timeStr = data.time; if (!timeStr && data.fecha) timeStr = hh:mm of fecha`. */
  function NormalizedTime(d: CitaDoc): Option<string> {
    if !Truthy(d.time) && d.fecha.Some? then FechaTime(d) else d.time
  }

  /**
   * An explicit time always wins; otherwise a time derived from `fecha` is two
   * zero-padded digits of hours, a colon and two of minutes.
   */
  lemma NormalizedTimePrecedence(d: CitaDoc)
    ensures Truthy(d.time) ==> NormalizedTime(d) == d.time
    ensures !Truthy(d.time) && d.fecha.Some? ==>
      var t := NormalizedTime(d).value;
      && |t| == 5 && t[2] == ':'
      && AllDigits(t[..2]) && DigitsValue(t[..2]) == d.fecha.value.hour
      && AllDigits(t[3..]) && DigitsValue(t[3..]) == d.fecha.value.minute
    ensures !Truthy(d.time) && d.fecha.None? ==> NormalizedTime(d) == d.time
  {
    if !Truthy(d.time) && d.fecha.Some? {
      TimeStringShape(d.fecha.value.hour, d.fecha.value.minute);
    }
  }
}
