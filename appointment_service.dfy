/**
 * The 'appointments' collection and the free-slot computation of
 * src/app/services/appointment.service.ts. The document store is a map from
 * document id to appointment; "now" is a parameter.
 */
module AppointmentService {
  import opened Wrappers
  import opened Seqs

  const Pending := "pending"
  const Confirmed := "confirmed"
  const Completed := "completed"
  const Cancelled := "cancelled"

  /** A stored appointment. Timestamps are milliseconds supplied by the caller. */
  datatype Appointment = Appointment(
    userId: string, userEmail: string, childId: string, childName: string,
    date: string, time: string, reason: string, notes: Option<string>,
    status: string, createdAt: int, updatedAt: int)

  /** What `createAppointment` receives: an appointment without id and timestamps. */
  datatype AppointmentData = AppointmentData(
    userId: string, userEmail: string, childId: string, childName: string,
    date: string, time: string, reason: string, notes: Option<string>,
    status: string)

  /** The fixed day template: half-hour slots 09:00-12:30 and 14:00-18:00. */
  const AllTimeSlots: seq<string> := [
    "09:00", "09:30", "10:00", "10:30", "11:00", "11:30",
    "12:00", "12:30", "14:00", "14:30", "15:00", "15:30",
    "16:00", "16:30", "17:00", "17:30", "18:00"
  ]

  /** The query of `getAppointmentsByDate`: that date, status pending or confirmed. */
  predicate HoldsSlot(a: Appointment, date: string) {
    a.date == date && (a.status == Pending || a.status == Confirmed)
  }

  /** `getAppointmentsByDate`: the documents the date query returns, by id. */
  function AppointmentsByDate(docs: map<string, Appointment>, date: string): (r: map<string, Appointment>)
    ensures forall id :: id in r <==> id in docs && HoldsSlot(docs[id], date)
    ensures forall id :: id in r ==> r[id] == docs[id]
  {
    map id | id in docs && HoldsSlot(docs[id], date) :: docs[id]
  }

  /** `bookedTimes`: the times of the appointments holding a slot on that date. */
  function BookedTimes(docs: map<string, Appointment>, date: string): set<string> {
    var booked := AppointmentsByDate(docs, date);
    set id | id in booked :: booked[id].time
  }

  /** Some appointment in the store holds time t on that date. */
  predicate Booked(docs: map<string, Appointment>, date: string, t: string) {
    exists id :: id in docs && HoldsSlot(docs[id], date) && docs[id].time == t
  }

  /**
   * `getAvailableTimeSlots`: the template slots not taken by a pending or
   * confirmed appointment on that date, in template order.
   */
  function AvailableTimeSlots(docs: map<string, Appointment>, date: string): (r: seq<string>)
    ensures |r| <= |AllTimeSlots| == 17
    ensures forall t :: t in r <==> t in AllTimeSlots && !Booked(docs, date, t)
  {
    var booked := BookedTimes(docs, date);
    assert forall t :: t in booked <==> Booked(docs, date, t) by {
      forall t ensures t in booked <==> Booked(docs, date, t) {
        if Booked(docs, date, t) {
          var id :| id in docs && HoldsSlot(docs[id], date) && docs[id].time == t;
          assert id in AppointmentsByDate(docs, date);
        }
      }
    }
    Filter(AllTimeSlots, t => t !in booked)
  }

  /** The free slots are the template with some slots deleted, in template order. */
  lemma AvailableIsSubsequence(docs: map<string, Appointment>, date: string)
    ensures IsSubsequence(AvailableTimeSlots(docs, date), AllTimeSlots)
  {
    FilterIsSubsequence(AllTimeSlots, (t: string) => t !in BookedTimes(docs, date));
  }

  /** With no pending or confirmed appointment that day, all 17 slots are free. */
  lemma NothingBookedAllFree(docs: map<string, Appointment>, date: string)
    requires forall id :: id in docs ==> !HoldsSlot(docs[id], date)
    ensures AvailableTimeSlots(docs, date) == AllTimeSlots
  {
    assert BookedTimes(docs, date) == {};
    FilterAll(AllTimeSlots, (t: string) => t !in BookedTimes(docs, date));
  }

  /** When every slot-holding appointment of docs is also in docs', docs' frees fewer slots. */
  lemma AvailabilityMonotone(docs: map<string, Appointment>, docs': map<string, Appointment>, date: string)
    requires BookedTimes(docs, date) <= BookedTimes(docs', date)
    ensures IsSubsequence(AvailableTimeSlots(docs', date), AvailableTimeSlots(docs, date))
  {
    FilterStronger(AllTimeSlots, (t: string) => t !in BookedTimes(docs, date),
                   (t: string) => t !in BookedTimes(docs', date));
  }

  /** Storing one more appointment never frees a slot. */
  lemma BookingNeverFrees(docs: map<string, Appointment>, id: string, a: Appointment, date: string)
    requires id !in docs
    ensures IsSubsequence(AvailableTimeSlots(docs[id := a], date), AvailableTimeSlots(docs, date))
  {
    var docs' := docs[id := a];
    forall t | t in BookedTimes(docs, date) ensures t in BookedTimes(docs', date) {
      var booked := AppointmentsByDate(docs, date);
      var k :| k in booked && booked[k].time == t;
      assert k in AppointmentsByDate(docs', date);
    }
    AvailabilityMonotone(docs, docs', date);
  }

  /** A cancelled or completed appointment takes no slot: storing one changes nothing. */
  lemma CancelledOrCompletedNeverBlocks(docs: map<string, Appointment>, id: string, a: Appointment, date: string)
    requires id !in docs
    requires a.status == Cancelled || a.status == Completed
    ensures AvailableTimeSlots(docs[id := a], date) == AvailableTimeSlots(docs, date)
  {
    assert AppointmentsByDate(docs[id := a], date) == AppointmentsByDate(docs, date);
  }

  /** Cancelling an appointment never takes a slot away. */
  lemma CancelNeverBlocks(docs: map<string, Appointment>, id: string, now: int, date: string)
    requires id in docs
    ensures IsSubsequence(AvailableTimeSlots(docs, date),
                          AvailableTimeSlots(docs[id := docs[id].(status := Cancelled, updatedAt := now)], date))
  {
    var docs' := docs[id := docs[id].(status := Cancelled, updatedAt := now)];
    forall t | t in BookedTimes(docs', date) ensures t in BookedTimes(docs, date) {
      var booked' := AppointmentsByDate(docs', date);
      var k :| k in booked' && booked'[k].time == t;
      assert k in AppointmentsByDate(docs, date);
    }
    AvailabilityMonotone(docs', docs, date);
  }

  /** The 'appointments' collection. Ids of new documents come from the store. */
  class AppointmentStore {
    var docs: map<string, Appointment>

    constructor ()
      ensures docs == map[]
    {
      docs := map[];
    }

    /** `createAppointment`: stores the payload unchanged, stamped with `createdAt`/`updatedAt`. */
    method CreateAppointment(data: AppointmentData, freshId: string, now: int) returns (id: string)
      requires freshId !in docs
      modifies this
      ensures id == freshId
      ensures docs == old(docs)[id := Appointment(
        data.userId, data.userEmail, data.childId, data.childName, data.date, data.time,
        data.reason, data.notes, data.status, now, now)]
    {
      id := freshId;
      var stored := Appointment(
        data.userId, data.userEmail, data.childId, data.childName, data.date, data.time,
        data.reason, data.notes, data.status, now, now);
      docs := docs[id := stored];
    }

    /**
     * `updateAppointmentStatus`: sets status and `updatedAt` of an existing document.
     * `updateDoc` on a missing document fails; then ok is false and nothing changes.
     */
    method UpdateAppointmentStatus(id: string, status: string, now: int) returns (ok: bool)
      modifies this
      ensures ok <==> id in old(docs)
      ensures ok ==> docs == old(docs)[id := old(docs)[id].(status := status, updatedAt := now)]
      ensures !ok ==> docs == old(docs)
    {
      ok := id in docs;
      if ok {
        docs := docs[id := docs[id].(status := status, updatedAt := now)];
      }
    }

    /** `cancelAppointment`: status becomes cancelled; only status and `updatedAt` change. */
    method CancelAppointment(id: string, now: int) returns (ok: bool)
      modifies this
      ensures ok <==> id in old(docs)
      ensures ok ==> docs == old(docs)[id := old(docs)[id].(status := Cancelled, updatedAt := now)]
      ensures ok ==> docs[id].status == Cancelled
      ensures !ok ==> docs == old(docs)
    {
      ok := UpdateAppointmentStatus(id, Cancelled, now);
    }

    /** `deleteAppointment`: removes the document; deleting a missing id is not an error. */
    method DeleteAppointment(id: string)
      modifies this
      ensures docs == old(docs) - {id}
    {
      docs := docs - {id};
    }
  }
}
