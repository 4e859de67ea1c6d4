# Dental clinic front-end: booking, records and list logic in Dafny

This project models the deterministic core of an Angular front-end for a
paediatric dental clinic. Tutors book appointments ("citas") for their
children. Doctors review consultations and fill in a clinical log (the
"bitácora"). Tutors browse their history of consultations and prescriptions.
Everything that talks to Firebase is replaced by plain values:

- the Firestore collections become a `map` or a `seq` of documents held by a
  small store class, or passed in as a parameter;
- a failing query or write that the source catches becomes a boolean
  parameter; one it lets propagate has no failure outcome here;
- "today", "now", the window width and fresh document ids are parameters.

What remains is modelled one Dafny module per source file. Shared
modules hold the building blocks:

- `Wrappers`: `Option` and `Result`.
- `Text`: ASCII lower-casing, substring search, JavaScript `trim` (every
  ECMAScript white-space and line-terminator character), digit extraction and
  JavaScript string order.
- `Seqs`: subsequences, `Filter`, `Map`, and `FindFirst` (the index `find` returns).
- `Ordering`: sorted de-duplicated lists and a "latest first" sort by
  (date, time).
- `Calendar`: civil dates with JavaScript's 0-based months, day numbers,
  weekdays and the Sunday that starts a week, day arithmetic, `YYYY-MM-DD` and `HH:MM` formatting and parsing,
  and age in whole years.
- `CitaDocs`: the shape of a document in the `citas` collection, with both
  the English and Spanish field spellings found in stored data, and
  JavaScript truthiness for `a || b`.

The imperative components are classes:

- their fields are the component's fields;
- each method states its whole new state with `modifies` frames;
- list-building loops carry invariants tying the partial result to a
  specification function.

Pure logic (the filters, status maps, normalisation, phone formatting and
name parsing) is made of functions, with lemmas stating the promised
properties.

## Model

| member | source | states |
|---|---|---|
| AppointmentService.AppointmentsByDate | src/app/services/appointment.service.ts:61-77 | an appointment is returned exactly when it has the requested date and status pending or confirmed, with its stored data unchanged |
| AppointmentService.AvailableTimeSlots | src/app/services/appointment.service.ts:97-108 | a time is available exactly when it is one of the 17 template slots and no pending or confirmed appointment on that date holds it; at most 17 results |
| AppointmentService.AvailableIsSubsequence | src/app/services/appointment.service.ts:98-107 | the available slots are a subsequence of the template, in template order |
| AppointmentService.NothingBookedAllFree | src/app/services/appointment.service.ts:104-107 | with nothing booked on the date, all 17 template slots are returned |
| AppointmentService.AvailabilityMonotone | src/app/services/appointment.service.ts:104-107 | more booked times on a date give a subsequence of the previously available slots |
| AppointmentService.BookingNeverFrees | src/app/services/appointment.service.ts:104-107 | adding any appointment never makes an unavailable slot available |
| AppointmentService.CancelledOrCompletedNeverBlocks | src/app/services/appointment.service.ts:61-67 | adding a cancelled or completed appointment leaves availability unchanged |
| AppointmentService.CancelNeverBlocks | src/app/services/appointment.service.ts:87-89 | cancelling an appointment never removes an available slot |
| AppointmentService.AppointmentStore.CreateAppointment | src/app/services/appointment.service.ts:27-37 | the store gains exactly one document under the new id: the payload unchanged plus createdAt and updatedAt |
| AppointmentService.AppointmentStore.UpdateAppointmentStatus | src/app/services/appointment.service.ts:79-85 | succeeds exactly when the id exists; then only that document's status and updatedAt change; otherwise the store is unchanged |
| AppointmentService.AppointmentStore.CancelAppointment | src/app/services/appointment.service.ts:87-89 | the document's status becomes cancelled and nothing but status and updatedAt changes |
| AppointmentService.AppointmentStore.DeleteAppointment | src/app/services/appointment.service.ts:91-94 | exactly that id is removed from the store |
| AgendarCita.GenerateTimeSlots | src/app/screens/agendar-cita/agendar-cita.component.ts:147-152 | one slot per available hour, in order, each available |
| AgendarCita.AnnotatedSlots | src/app/screens/agendar-cita/agendar-cita.component.ts:160-164 | the selected day's slots are the available hours in order, each available exactly when the hour is in the service's list |
| AgendarCita.AnnotatedSlotsAgainstStore | src/app/screens/agendar-cita/agendar-cita.component.ts:154-169 | combined with the service, a slot is shown available exactly when no pending or confirmed appointment holds it on that date |
| Calendar.WeekStart | src/app/screens/agendar-cita/agendar-cita.component.ts:114-115 | the grid start, and the week `setCurrentWeek` shows, is the Sunday on or before the given day |
| AgendarCita.WeekEnd | src/app/screens/agendar-cita/agendar-cita.component.ts:117-118 | the grid end is the Saturday on or after the given day |
| AgendarCita.WeekSpan | src/app/screens/agendar-cita/agendar-cita.component.ts:109-122 | the days from the Sunday before the first to the Saturday after the last make whole weeks |
| AgendarCita.GridLengthWeeks | src/app/screens/agendar-cita/agendar-cita.component.ts:109-122 | the month grid has a multiple of 7 days, between 28 and 42 |
| AgendarCita.GridShape | src/app/screens/agendar-cita/agendar-cita.component.ts:109-142 | the generated grid is whole weeks of consecutive days, starting on a Sunday and ending on a Saturday, 28 to 42 days long |
| AgendarCita.GridCoversMonth | src/app/screens/agendar-cita/agendar-cita.component.ts:109-142 | every day of the month appears in the grid |
| AgendarCita.GridCell | src/app/screens/agendar-cita/agendar-cita.component.ts:122-142 | cell k's date is a valid day whose day number is that of the 1st of the month, less the 1st's weekday, plus k: the grid starts on the Sunday on or before the 1st and runs day by day |
| AgendarCita.GridFlags | src/app/screens/agendar-cita/agendar-cita.component.ts:124-140 | a cell is past exactly when strictly before today and today exactly when equal to it (never both); it is selected exactly when it is the selected date; its slots are the default slots |
| AgendarCita.WalkGrid | src/app/screens/agendar-cita/agendar-cita.component.ts:122-142 | the while loop that pushes a day and advances the date produces exactly the grid specification |
| AgendarCita.PreviousMonthOf | src/app/screens/agendar-cita/agendar-cita.component.ts:178-181 | the first day of the previous month, strictly earlier |
| AgendarCita.NextMonthOf | src/app/screens/agendar-cita/agendar-cita.component.ts:183-186 | the first day of the next month, strictly later |
| AgendarCita.MonthNavigationInverse | src/app/screens/agendar-cita/agendar-cita.component.ts:178-186 | next after previous, and previous after next, return to the first of the current month |
| Seqs.FindFirst | src/app/screens/agendar-cita/agendar-cita.component.ts:239 | `find` as an index: the first element that matches, or none when no element does; used for children by id on both booking and prescription screens and for prescriptions by id |
| AgendarCita.AgendarCitaComponent.constructor | src/app/screens/agendar-cita/agendar-cita.component.ts:47-76 | the initial wizard state: step 1, no selection, empty grid, no confirmation |
| AgendarCita.AgendarCitaComponent.GenerateCalendar | src/app/screens/agendar-cita/agendar-cita.component.ts:100-145 | the calendar becomes the month grid of the current month |
| AgendarCita.AgendarCitaComponent.SelectDate | src/app/screens/agendar-cita/agendar-cita.component.ts:189-207 | on a past day or a day outside the current month nothing changes; otherwise exactly that day is selected, selectedDate and the form date are set, and the step is 2 |
| AgendarCita.AgendarCitaComponent.UpdateTimeSlotsForDate | src/app/screens/agendar-cita/agendar-cita.component.ts:154-169 | on success only the selected day's slots are replaced by the annotated slots; on error, or with no selected day, nothing changes |
| AgendarCita.AgendarCitaComponent.SelectTime | src/app/screens/agendar-cita/agendar-cita.component.ts:210-219 | an unavailable slot is a no-op; otherwise the slot's hour is selected and written to the form and the step is 3 |
| AgendarCita.AgendarCitaComponent.GoToStep | src/app/screens/agendar-cita/agendar-cita.component.ts:222-224 | the step becomes the requested one |
| AgendarCita.AgendarCitaComponent.FillDetails | src/app/screens/agendar-cita/agendar-cita.component.ts:65-72 | the child, reason and notes controls take the given values |
| AgendarCita.AgendarCitaComponent.SubmitAppointment | src/app/screens/agendar-cita/agendar-cita.component.ts:227-272 | an invalid form changes nothing; no user sets loading and stops with nothing else changed; a failed write clears loading and stores nothing; a successful one stores the pending appointment and moves to step 4 with its confirmation |
| AgendarCita.AgendarCitaComponent.PreviousMonth | src/app/screens/agendar-cita/agendar-cita.component.ts:178-181 | the month moves back one and the calendar is regenerated for it |
| AgendarCita.AgendarCitaComponent.NextMonth | src/app/screens/agendar-cita/agendar-cita.component.ts:183-186 | the month moves forward one and the calendar is regenerated for it |
| AgendarCita.AgendarCitaComponent.NewAppointment | src/app/screens/agendar-cita/agendar-cita.component.ts:275-282 | the wizard returns to step 1 with no selection, an empty form and a regenerated calendar |
| CitaDocs.FechaDate | src/app/services/citas.service.ts:148-151 | a date is derived exactly when the document has a `fecha` |
| CitaDocs.FechaTime | src/app/services/citas.service.ts:113-118 | a time is derived exactly when the document has a `fecha` |
| CitaDocs.NormalizedTimePrecedence | src/app/services/citas.service.ts:112-167 | an explicit time always wins; a time derived from `fecha` is two zero-padded digits of hours, a colon, and two of minutes |
| CitasService.TextOrEmpty | src/app/services/citas.service.ts:69-70 | a truthy field is kept and anything else becomes the empty string |
| CitasService.Take5 | src/app/services/citas.service.ts:70 | the result is a prefix of at most 5 characters, and shorter input is kept whole |
| CitasService.NormalizedForWrite | src/app/services/citas.service.ts:61-74 | the stored document is the payload with date as a string, time cut to 5 characters, a `fecha` timestamp and estado 'confirmada', and nothing else changed |
| CitasService.WellFormedWriteParses | src/app/services/citas.service.ts:63-72 | a well-formed date and HH:MM time give a `fecha` at exactly that local minute and keep the time |
| CitasService.IncludeMeansSameDay | src/app/services/citas.service.ts:142-159 | the fallback keeps a document exactly when its date string is the requested one or its `fecha` lies on that day |
| CitasService.FallbackRowsSnoc | src/app/services/citas.service.ts:145-170 | the fallback pushes one normalised row per kept document, in snapshot order |
| CitasService.FirstHitsShortCircuit | src/app/services/citas.service.ts:108-123 | when the date query finds documents they are returned and the fallback's outcome is irrelevant |
| CitasService.FirstFailureSwallowed | src/app/services/citas.service.ts:124-174 | whatever the first query would have found, its failure is swallowed: the answer is the fallback's, which succeeds exactly when the fallback query succeeds and has a tutor or a parsable date, and then holds the fallback rows; with no first hits it equals the answer of a first query that succeeded |
| CitasService.FallbackFailureRethrown | src/app/services/citas.service.ts:171-174 | whenever the fallback runs (the first query failed or found nothing), a failure of the fallback query is returned as an error |
| CitasService.FallbackRowsOfTheDay | src/app/services/citas.service.ts:129-170 | whenever the fallback runs (the first query failed or found nothing), every row it returns comes from a document of the requested day and keeps its explicit time |
| CitasService.CitasStore.IsSlotTaken | src/app/services/citas.service.ts:17-31 | taken exactly when the query fails or some stored document has both that date and that time |
| CitasService.CitasStore.CreateAppointment | src/app/services/citas.service.ts:61-84 | a successful write appends exactly the normalised document under the new id; a failed one changes nothing and reports the error |
| CitasService.CitasStore.GetAppointmentsForDate | src/app/services/citas.service.ts:91-177 | returns the two-phase result: the date-query rows, else the fallback rows, with failures handled as above |
| CitasService.PushFirstRows | src/app/services/citas.service.ts:109-122 | the forEach of the first phase yields one normalised row per document, in order |
| CitasService.PushFallbackRows | src/app/services/citas.service.ts:145-170 | the forEach of the fallback yields exactly the normalised kept documents, in order |
| CitasAgendadas.StatusText | src/app/screens/citas-agendadas/citas-agendadas.component.ts:99-107 | the four statuses map to their Spanish labels and an unknown status shows as itself |
| CitasAgendadas.StatusClass | src/app/screens/citas-agendadas/citas-agendadas.component.ts:109-117 | the four statuses map to their CSS class and an unknown one to 'status-default' |
| CitasAgendadas.EnhanceAppointment | src/app/screens/citas-agendadas/citas-agendadas.component.ts:69-97 | today, past and future compare the appointment's day with today; canCancel holds exactly for today or future appointments that are pending or confirmed; an unparsable date sets no flag |
| CitasAgendadas.EnhanceAll | src/app/screens/citas-agendadas/citas-agendadas.component.ts:58 | every loaded appointment is enhanced in order, and every card's flags are consistent |
| CitasAgendadas.ExactlyOneDayFlag | src/app/screens/citas-agendadas/citas-agendadas.component.ts:70-77 | exactly one of isToday, isPast and isFuture is set |
| CitasAgendadas.UpcomingIsCancellable | src/app/screens/citas-agendadas/citas-agendadas.component.ts:155-158 | a card is in the 'upcoming' filter exactly when its canCancel flag is set, since the filter repeats the canCancel rule |
| CitasAgendadas.CountMatchesFilteredList | src/app/screens/citas-agendadas/citas-agendadas.component.ts:119-171 | every filter badge equals the length of the list that filter shows ('all' is the total) |
| CitasAgendadas.FilteredForSound | src/app/screens/citas-agendadas/citas-agendadas.component.ts:146-179 | the filtered list is sorted latest first and holds exactly the cards passing the filter |
| CitasAgendadas.WeekNavigationInverse | src/app/screens/citas-agendadas/citas-agendadas.component.ts:211-219 | going back a week and forward a week (either order) returns to the same day |
| CitasAgendadas.CitasAgendadasComponent.constructor | src/app/screens/citas-agendadas/citas-agendadas.component.ts:25-37 | no appointments, loading, the 'all' filter and the initial options |
| CitasAgendadas.CitasAgendadasComponent.SetCurrentWeek | src/app/screens/citas-agendadas/citas-agendadas.component.ts:44-49 | the current week starts on the Sunday of today's week |
| CitasAgendadas.CitasAgendadasComponent.LoadAppointments | src/app/screens/citas-agendadas/citas-agendadas.component.ts:51-67 | signed in, the cards are the enhanced appointments, every filter badge is recounted over them and the list is refiltered; not signed in, or when the fetch fails and the error is caught, cards, badges and list are unchanged; loading ends either way and the selected filter is kept |
| CitasAgendadas.CitasAgendadasComponent.UpdateFilterCounts | src/app/screens/citas-agendadas/citas-agendadas.component.ts:119-144 | each option's count becomes the number of cards it selects, and nothing else changes |
| CitasAgendadas.CitasAgendadasComponent.ApplyFilter | src/app/screens/citas-agendadas/citas-agendadas.component.ts:146-179 | the filter is selected and the shown list becomes that filter's sorted list |
| CitasAgendadas.CitasAgendadasComponent.CancelAppointment | src/app/screens/citas-agendadas/citas-agendadas.component.ts:181-208 | a card that cannot be cancelled, has no id or is not confirmed is left alone; when the store has the id, exactly that document's status and updatedAt change, the card becomes cancelled with canCancel false, every badge is recounted and the list refiltered under the same selected filter; in every other case cards, store, badges and list are unchanged |
| CitasAgendadas.CitasAgendadasComponent.PreviousWeek | src/app/screens/citas-agendadas/citas-agendadas.component.ts:211-214 | the week start moves back 7 days |
| CitasAgendadas.CitasAgendadasComponent.NextWeek | src/app/screens/citas-agendadas/citas-agendadas.component.ts:216-219 | the week start moves forward 7 days |
| CitasAgendadas.CitasAgendadasComponent.GetWeekDays | src/app/screens/citas-agendadas/citas-agendadas.component.ts:221-229 | seven consecutive days starting at the week start |
| CitasAgendadas.CitasAgendadasComponent.AppointmentsOn | src/app/screens/citas-agendadas/citas-agendadas.component.ts:231-234 | exactly the shown cards of that day, in shown order |
| DoctorService.NormalizeStatus | src/app/services/doctor.service.ts:46-79 | `status` wins; else the lowercased `estado` is mapped (unknown values pass through lowercased); else 'pending'; never empty |
| DoctorService.EstadoMapping | src/app/services/doctor.service.ts:46-51 | pendiente, confirmada/confirmado, cancelada and completada map to pending, confirmed, cancelled and completed in any letter case |
| DoctorService.NormalizeRow | src/app/services/doctor.service.ts:54-81 | a missing date or time falls back to the day or the HH:MM derived from `fecha`, else ''; tutorName falls back to tutorEmail, else ''; conclusions fall back to result |
| DoctorService.GetAllConsultations | src/app/services/doctor.service.ts:37-91 | the rows are a permutation of the normalised documents, sorted by date then time, latest first |
| DoctorService.SortedRowsOrder | src/app/services/doctor.service.ts:85-88 | of two rows, the earlier one has a later date, or the same date and a time that is not earlier |
| DoctorService.ApplyFilters | src/app/services/doctor.service.ts:96-120 | with no filters the rows are returned as they are; otherwise the result is a subsequence of the rows holding exactly those that pass every filter |
| DoctorService.BlankFiltersKeepAll | src/app/services/doctor.service.ts:97-104 | filters that are blank after trimming return every row |
| DoctorService.DateFilterExcludesUndated | src/app/services/doctor.service.ts:104-107 | with a date filter set, a row without a date never passes |
| DoctorService.PatientFilterIsSubstring | src/app/services/doctor.service.ts:100-114 | the patient filter is a case-insensitive substring match of the trimmed needle |
| DoctorService.TutorFilterSearchesNameAndEmail | src/app/services/doctor.service.ts:99-111 | the tutor filter searches "name email", case-insensitively |
| DoctorService.ConfirmConsultation | src/app/services/doctor.service.ts:125-128 | an empty id fails; any other id asks for status 'confirmed' on that id |
| BitacoraService.OrNone | src/app/services/bitacora.service.ts:50-59 | a truthy value is kept and anything else becomes null |
| BitacoraService.FullName | src/app/services/bitacora.service.ts:69-80 | a name is built exactly when a nombre is present |
| BitacoraService.FromAppointment | src/app/services/bitacora.service.ts:46-60 | the appointment's date wins over the one derived from `fecha`; tutorName falls back to tutorEmail; clinical fields take the English spelling, then the Spanish; child fields start null |
| BitacoraService.WithTutor | src/app/services/bitacora.service.ts:63-72 | values taken from the appointment are never overwritten; the tutor document only fills a missing name or phone |
| BitacoraService.WithChild | src/app/services/bitacora.service.ts:75-87 | the patient name is only filled when missing; age, allergies, medications, intraoral exam and history take the English, then the Spanish field, else null |
| BitacoraService.PrepareBitacoraForAppointment | src/app/services/bitacora.service.ts:38-93 | an empty id or a missing appointment throws; otherwise the merged entry is returned, even when fetching the tutor or child fails |
| BitacoraService.SavePayload | src/app/services/bitacora.service.ts:99-117 | an empty id fails; the payload is the entry stamped with updatedAt and updatedBy, plus status 'completed' and estado 'completada' exactly when markCompleted |
| BitacoraService.ApplyUpdate | src/app/services/bitacora.service.ts:111-117 | the update sets the bitacora and the given status fields and leaves the rest of the document alone |
| BitacoraService.BitacoraStore.SaveBitacora | src/app/services/bitacora.service.ts:99-118 | succeeds exactly for an existing non-empty id, then stores that payload; otherwise the store is unchanged |
| BitacoraService.Tagged | src/app/services/bitacora.service.ts:129 | the returned entry always carries an appointment id, its own if it has one |
| BitacoraService.GetBitacoraForAppointment | src/app/services/bitacora.service.ts:123-130 | null for an empty id, a missing document or one without a bitacora; otherwise the tagged bitacora |
| BitacoraService.SaveThenGet | src/app/services/bitacora.service.ts:99-130 | reading back after a save gives the saved entry with its stamps |
| BitacoraService.SavedCompletedIsListedCompleted | src/app/services/bitacora.service.ts:111-115 | a save with the default flag makes the doctor's list show the consultation as completed |
| BitacoraService.BitacorasOfTutorSnoc | src/app/services/bitacora.service.ts:141-146 | each document adds one row exactly when it is the tutor's and has a bitacora |
| BitacoraService.GetConsultationsWithBitacoraForTutor | src/app/services/bitacora.service.ts:135-148 | an empty tutor id gives no rows; otherwise the loop yields the tutor's documents with a bitacora, in order |
| BitacoraService.BitacorasOfTutorExact | src/app/services/bitacora.service.ts:135-148 | every row is a tagged bitacora of one of the tutor's documents, and every such document appears |
| HistorialConsultas.View | src/app/screens/historial-consultas/historial-consultas.component.ts:90-100 | each view keeps its consultation and a lowercased search text |
| HistorialConsultas.SearchTextLayout | src/app/screens/historial-consultas/historial-consultas.component.ts:98 | the search text is child name, doctor, reason, diagnosis and treatment, lowercased and space-joined |
| HistorialConsultas.SearchFindsEachField | src/app/screens/historial-consultas/historial-consultas.component.ts:137-140 | a search term equal to any of those fields, in any case, finds the consultation |
| HistorialConsultas.SearchIgnoresTermCase | src/app/screens/historial-consultas/historial-consultas.component.ts:137-140 | the search term is matched case-insensitively |
| HistorialConsultas.DateRangeInclusive | src/app/screens/historial-consultas/historial-consultas.component.ts:127-135 | the date range keeps exactly dateFrom <= date <= dateTo as strings |
| HistorialConsultas.StatusClass | src/app/screens/historial-consultas/historial-consultas.component.ts:190-197 | known statuses map to their class and any other to 'status-default' |
| HistorialConsultas.StatusText | src/app/screens/historial-consultas/historial-consultas.component.ts:199-206 | known statuses map to their label and any other shows as itself |
| HistorialConsultas.RefilterIsNoOp | src/app/screens/historial-consultas/historial-consultas.component.ts:110-144 | applying the filters twice gives the same list |
| HistorialConsultas.HistorialConsultasComponent.constructor | src/app/screens/historial-consultas/historial-consultas.component.ts:28-43 | empty lists and no filters |
| HistorialConsultas.HistorialConsultasComponent.ProcessConsultations | src/app/screens/historial-consultas/historial-consultas.component.ts:90-100 | one view per consultation, in order |
| HistorialConsultas.HistorialConsultasComponent.ExtractFilterOptions | src/app/screens/historial-consultas/historial-consultas.component.ts:102-108 | doctors and reasons are strictly sorted and hold exactly the values that occur |
| HistorialConsultas.HistorialConsultasComponent.ApplyFilters | src/app/screens/historial-consultas/historial-consultas.component.ts:110-144 | the shown list is the subsequence of consultations passing every set filter, and consultations are unchanged |
| HistorialConsultas.HistorialConsultasComponent.ClearFilters | src/app/screens/historial-consultas/historial-consultas.component.ts:150-158 | every filter is emptied and the shown list equals all consultations |
| HistorialRecetas.View | src/app/screens/historial-recetas/historial-recetas.component.ts:120-131 | totalCost is the cost, or 0 when absent, and the search text is lowercased |
| HistorialRecetas.SearchTextLayout | src/app/screens/historial-recetas/historial-recetas.component.ts:128 | the search text is child name, doctor, diagnosis and treatment name, lowercased and space-joined |
| HistorialRecetas.SearchFindsEachField | src/app/screens/historial-recetas/historial-recetas.component.ts:128-168 | a search term equal to any of those fields, in any case, is contained in the search text |
| HistorialRecetas.TreatmentIgnoredInBitacora | src/app/screens/historial-recetas/historial-recetas.component.ts:170-173 | in the bitacora view the treatment filter has no effect |
| HistorialRecetas.TreatmentFilterInList | src/app/screens/historial-recetas/historial-recetas.component.ts:170-173 | in the list view every shown prescription's treatment contains the filter, case-insensitively |
| HistorialRecetas.StatusClass | src/app/screens/historial-recetas/historial-recetas.component.ts:267-274 | known statuses map to their class and any other to 'status-default' |
| HistorialRecetas.StatusText | src/app/screens/historial-recetas/historial-recetas.component.ts:276-283 | known statuses map to their label and any other shows as itself |
| HistorialRecetas.GetChildAge | src/app/screens/historial-recetas/historial-recetas.component.ts:242-256 | 0 for an unknown child or a missing birth date; otherwise the year difference, one less when today's (month, day) precedes the birthday |
| HistorialRecetas.HistorialRecetasComponent.constructor | src/app/screens/historial-recetas/historial-recetas.component.ts:31-68 | empty lists, list view, no selection, the default treatment filter |
| HistorialRecetas.HistorialRecetasComponent.ProcessPrescriptions | src/app/screens/historial-recetas/historial-recetas.component.ts:120-131 | one view per prescription, in order |
| HistorialRecetas.HistorialRecetasComponent.ExtractFilterOptions | src/app/screens/historial-recetas/historial-recetas.component.ts:133-136 | doctors are strictly sorted and hold exactly the values that occur |
| HistorialRecetas.HistorialRecetasComponent.ApplyFilters | src/app/screens/historial-recetas/historial-recetas.component.ts:138-182 | the shown list is the subsequence passing the child, doctor, status, date range, search and treatment filters; with nothing selected, its first element is selected |
| HistorialRecetas.HistorialRecetasComponent.OnTreatmentFilterChange | src/app/screens/historial-recetas/historial-recetas.component.ts:188-191 | the treatment filter is set and the list refiltered by it; an existing selection is kept, and with none the first listed prescription is selected |
| HistorialRecetas.HistorialRecetasComponent.ClearFilters | src/app/screens/historial-recetas/historial-recetas.component.ts:193-202 | every filter, the treatment filter included, is emptied and the shown list equals all prescriptions; an existing selection is kept, and with none the first prescription is selected |
| HistorialRecetas.HistorialRecetasComponent.SwitchView | src/app/screens/historial-recetas/historial-recetas.component.ts:204-209 | the view changes; entering the bitacora view with nothing selected selects the first shown prescription |
| HistorialRecetas.HistorialRecetasComponent.SelectPrescription | src/app/screens/historial-recetas/historial-recetas.component.ts:211-216 | the prescription is selected and the view becomes the bitacora view |
| HistorialRecetas.HistorialRecetasComponent.UpdatePrescriptionStatus | src/app/screens/historial-recetas/historial-recetas.component.ts:293-311 | after a successful update only the prescription with that id changes status, the selection follows it, and the list is refiltered; on failure nothing changes |
| CompletarPerfil.PasswordsMatchValidator | src/app/screens/completar-perfil/completar-perfil.component.ts:6-10 | no error exactly when password equals confirmPassword; otherwise the mismatch error |
| CompletarPerfil.PasswordsMatchSymmetric | src/app/screens/completar-perfil/completar-perfil.component.ts:6-10 | swapping the two fields gives the same verdict |
| CompletarPerfil.StoredDigits | src/app/screens/completar-perfil/completar-perfil.component.ts:60-61 | the stored value is the first 10 digits of the input, with non-digits dropped |
| CompletarPerfil.Displayed | src/app/screens/completar-perfil/completar-perfil.component.ts:62-68 | up to 3 digits as they are; 4 to 6 as 'ddd-rest'; more as 'ddd-ddd-rest' |
| CompletarPerfil.DisplayedRoundTrip | src/app/screens/completar-perfil/completar-perfil.component.ts:62-68 | deleting the dashes from the displayed value gives back the stored digits |
| CompletarPerfil.DigitsOfDisplayed | src/app/screens/completar-perfil/completar-perfil.component.ts:60-68 | extracting digits from the displayed value gives back the stored digits |
| CompletarPerfil.ReformatIsStable | src/app/screens/completar-perfil/completar-perfil.component.ts:58-69 | re-entering the displayed value stores the same digits |
| CompletarPerfil.TelefonoValidExactly | src/app/screens/completar-perfil/completar-perfil.component.ts:29-34 | the telefono control accepts exactly 10 characters, all digits |
| CompletarPerfil.StoredPhoneValid | src/app/screens/completar-perfil/completar-perfil.component.ts:29-61 | the stored phone is valid exactly when the input held at least 10 digits |
| CompletarPerfil.Split | src/app/screens/completar-perfil/completar-perfil.component.ts:80 | splitting on spaces gives at least one part, none containing a space, and joining the parts with single spaces gives the input back |
| CompletarPerfil.Words | src/app/screens/completar-perfil/completar-perfil.component.ts:80 | the words are a subsequence of the split parts, each non-empty and without a space, and every non-empty part is among them |
| CompletarPerfil.ParseDisplayName | src/app/screens/completar-perfil/completar-perfil.component.ts:78-98 | a null or empty name gives three empty strings; 1 to 3 words fill nombre, apellidoP and apellidoM in order; 4 or more give the first two words as nombre and the next two as surnames |
| CompletarPerfil.ThreeWordNameRoundTrip | src/app/screens/completar-perfil/completar-perfil.component.ts:78-98 | joining three single words with spaces and parsing gives them back |
| CompletarPerfil.RemoveIndex | src/app/screens/completar-perfil/completar-perfil.component.ts:56 | the index `removeAt` acts on: in range as given, negative counted from the end and clamped at 0, and an index past the end kept as given, so that nothing is removed |
| CompletarPerfil.CompletarPerfilForm.constructor | src/app/screens/completar-perfil/completar-perfil.component.ts:24-38 | the form starts with one empty child and an empty phone |
| CompletarPerfil.CompletarPerfilForm.AgregarHijo | src/app/screens/completar-perfil/completar-perfil.component.ts:55 | exactly one new empty child is appended |
| CompletarPerfil.CompletarPerfilForm.EliminarHijo | src/app/screens/completar-perfil/completar-perfil.component.ts:56 | a single child is never removed; otherwise the child at the index is removed, so the list never drops below one entry |
| CompletarPerfil.CompletarPerfilForm.FormatPhoneNumber | src/app/screens/completar-perfil/completar-perfil.component.ts:58-69 | the control stores the digits, the field shows the dashed form, and removing dashes from what is shown gives what is stored |
| Perfil.CalculateAge | src/app/screens/perfil/perfil.component.ts:145-157 | 0 for an empty string; otherwise the year difference, one less when today's (month, day) precedes the birthday |
| Perfil.CalculateAgeNonNegative | src/app/screens/perfil/perfil.component.ts:148-154 | a birth date not after today gives an age of at least 0 |
| Perfil.FormOf | src/app/screens/perfil/perfil.component.ts:94-103 | the form shows the profile's nombre, surnames and telefono |
| Perfil.Merge | src/app/screens/perfil/perfil.component.ts:124-128 | the merged profile shows exactly the form's values and keeps uid, email and rol |
| Perfil.MergeUnchangedForm | src/app/screens/perfil/perfil.component.ts:94-128 | saving an unchanged form leaves the profile as it was |
| Perfil.PerfilComponent.constructor | src/app/screens/perfil/perfil.component.ts:37-49 | not in edit mode; the form shows the profile when there is one |
| Perfil.PerfilComponent.UpdateProfileForm | src/app/screens/perfil/perfil.component.ts:94-103 | with a profile, the form shows it; otherwise the form is unchanged |
| Perfil.PerfilComponent.ToggleEditMode | src/app/screens/perfil/perfil.component.ts:105-110 | editMode flips; leaving edit mode resets the form from the profile |
| Perfil.PerfilComponent.ToggleEditChildrenMode | src/app/screens/perfil/perfil.component.ts:112-114 | only editChildrenMode flips |
| Perfil.PerfilComponent.SaveProfile | src/app/screens/perfil/perfil.component.ts:116-137 | an invalid form or no user sends nothing; a successful save merges the form into the profile and leaves edit mode; a failed one changes nothing |
| Servicios.ItemsPerViewFor | src/app/screens/servicios/servicios.component.ts:40-45 | 1 below 640 pixels, 2 below 1024, otherwise 3 |
| Servicios.TotalPages | src/app/screens/servicios/servicios.component.ts:47-49 | max(1, ceil(items / itemsPerView)): at least 1, the pages hold every card, and one page fewer would not |
| Servicios.TotalPagesIsLeast | src/app/screens/servicios/servicios.component.ts:47-49 | no smaller positive page count holds every card |
| Servicios.FiveCardsNeedTwoPages | src/app/screens/servicios/servicios.component.ts:13-49 | the five service cards always need at least two pages |
| Servicios.NextPrevInverse | src/app/screens/servicios/servicios.component.ts:55-56 | prev after next, and next after prev, restore the page |
| Servicios.Carousel.Pages | src/app/screens/servicios/servicios.component.ts:47-49 | the page count is at least 1 |
| Servicios.Carousel.PageIndices | src/app/screens/servicios/servicios.component.ts:51-53 | the page list is 0 to totalPages - 1 |
| Servicios.Carousel.constructor | src/app/screens/servicios/servicios.component.ts:10-109 | page 0, three items per view, not paused, no touch recorded |
| Servicios.Carousel.Next | src/app/screens/servicios/servicios.component.ts:55 | the page advances modulo the page count |
| Servicios.Carousel.Prev | src/app/screens/servicios/servicios.component.ts:56 | the page goes back modulo the page count |
| Servicios.Carousel.OnResize | src/app/screens/servicios/servicios.component.ts:26-38 | items per view follow the width, and a page past the end is clamped to the last page |
| Servicios.Carousel.StartAutoplay | src/app/screens/servicios/servicios.component.ts:63-69 | autoplay runs exactly when there is more than one page |
| Servicios.Carousel.ClearAutoplay | src/app/screens/servicios/servicios.component.ts:71-76 | autoplay is off |
| Servicios.Carousel.AutoplayTick | src/app/screens/servicios/servicios.component.ts:66-68 | a tick advances the page when autoplay runs and the carousel is not paused; otherwise nothing changes |
| Servicios.Carousel.OnTouchStart | src/app/screens/servicios/servicios.component.ts:89-95 | the carousel pauses and records the first touch position |
| Servicios.Carousel.OnTouchMoveCapture | src/app/screens/servicios/servicios.component.ts:110-115 | the last touch position is recorded |
| Servicios.Carousel.OnTouchEnd | src/app/screens/servicios/servicios.component.ts:101-106 | without a recorded start the carousel resumes; otherwise nothing changes |
| Servicios.Carousel.OnTouchEndFinal | src/app/screens/servicios/servicios.component.ts:117-127 | a move of more than 50 pixels goes to the next page leftwards and the previous one rightwards; the touch fields are cleared and the carousel resumes |
| Servicios.Carousel.PauseAutoplay | src/app/screens/servicios/servicios.component.ts:78 | the carousel is paused |
| Servicios.Carousel.ResumeAutoplay | src/app/screens/servicios/servicios.component.ts:79 | the carousel is not paused |
| CancelCita.CancelCitaComponent.constructor | src/app/modals/cancel-cita/cancel-cita.component.ts:19-20 | state 'idle' with no error message |
| CancelCita.CancelCitaComponent.OnConfirm | src/app/modals/cancel-cita/cancel-cita.component.ts:22-27 | the state becomes 'loading' and true is emitted |
| CancelCita.CancelCitaComponent.OnClose | src/app/modals/cancel-cita/cancel-cita.component.ts:29-34 | from any state: 'idle', no error message, and false is emitted |
| CancelCita.CancelCitaComponent.ShowSuccess | src/app/modals/cancel-cita/cancel-cita.component.ts:37-39 | the state becomes 'success' and the message is kept |
| CancelCita.CancelCitaComponent.ShowError | src/app/modals/cancel-cita/cancel-cita.component.ts:42-45 | the state becomes 'error' with the given message, or the default one, so an error always has a message |
| Calendar.DaysInMonth | src/app/screens/agendar-cita/agendar-cita.component.ts:111 | 28 to 31 days; 29 exactly for February of a leap year |
| Calendar.NextDay | src/app/screens/agendar-cita/agendar-cita.component.ts:141 | `setDate(getDate() + 1)` gives the valid date one day later |
| Calendar.AddDays | src/app/screens/citas-agendadas/citas-agendadas.component.ts:211-229 | moving n days gives the valid date n days away |
| Calendar.WeekdayAddDays | src/app/screens/agendar-cita/agendar-cita.component.ts:113-118 | the weekday advances by n modulo 7 |
| Calendar.DayNumberMonotone | src/app/screens/agendar-cita/agendar-cita.component.ts:124-135 | date order is day-number order |
| Calendar.TimeStringShape | src/app/services/citas.service.ts:113-118 | a formatted time is two digits, a colon and two digits, reading back the hour and minute |
| Calendar.ParseDateString | src/app/services/citas.service.ts:63 | parsing a formatted date gives the date back |
| Calendar.ParseDateTimeOfStrings | src/app/services/citas.service.ts:63 | parsing `date + 'T' + time + ':00'` gives that local minute |
| Calendar.WithinDay | src/app/services/citas.service.ts:142-159 | an instant lies between 00:00:00.000 and 23:59:59.999 of a day exactly when it falls on that day |
| Calendar.AgeOn | src/app/screens/perfil/perfil.component.ts:148-154 | the year difference, one less exactly when today's (month, day) precedes the birthday |
| Calendar.AgeNonNegative | src/app/screens/perfil/perfil.component.ts:148-154 | nobody born on or before today has a negative age |
| Calendar.AgeMonotone | src/app/screens/perfil/perfil.component.ts:148-154 | age never decreases as today moves forward |
| Ordering.SortedDistinct | src/app/screens/historial-consultas/historial-consultas.component.ts:102-108 | `[...new Set(xs)].sort()` is strictly sorted and holds exactly the values of xs |
| Ordering.SortLatestFirst | src/app/services/doctor.service.ts:85-88 | the sorted list is a permutation of the input, latest (date, time) first |

## Left out

- Firestore itself: queries, `where`/`orderBy`, snapshots, `addDoc`, `updateDoc` and `deleteDoc`. The collections are a map or a sequence of documents. A failing call that the source catches is a boolean parameter. The order that server-side `orderBy` would give is not modelled.
- Time zones. Every date here is a local calendar day, and a `fecha` timestamp is a local date and time. The source mixes UTC and local time, and in a browser outside UTC the shift is systematic, not an edge case near midnight:
  - `new Date('YYYY-MM-DD')` is UTC midnight, while `setHours(0,0,0,0)` and `getFullYear`/`getMonth`/`getDate` are local. West of UTC, the clinic's Mexico included, every stored date reads as the previous local day at every hour. So `CitasAgendadas.EnhanceAppointment` marks today's appointment past and not cancellable (citas-agendadas.component.ts:70-80), and `Perfil.CalculateAge` and `HistorialRecetas.GetChildAge` read a birthday one day early (perfil.component.ts:147, historial-recetas.component.ts:246). The model compares the stated day with today.
  - `toISOString()` of a local `Date` gives the UTC day. `CitaDocs.FechaDate` takes the local day of a `fecha` timestamp, where the source takes its UTC day through `toISOString().split('T')[0]` (citas.service.ts:150, doctor.service.ts:56, bitacora.service.ts:48). `getWeekDays` keeps the current time of day, so after 18:00 in UTC-6 `CitasAgendadas.CitasAgendadasComponent.AppointmentsOn` looks up the next day (citas-agendadas.component.ts:232). East of UTC, the local midnights of the booking grid give the previous day in `AgendarCita.AgendarCitaComponent.SelectDate` and `UpdateTimeSlotsForDate` (agendar-cita.component.ts:156 and :196). The model uses the grid's own day.
- JavaScript `Date` parsing leniency. Only `YYYY-MM-DD` and `YYYY-MM-DDTHH:MM:SS` are parsed. Anything else is unparsable:
  - `CitasAgendadas.EnhanceAppointment` then sets no day flag;
  - `Perfil.CalculateAge` and `HistorialRecetas.GetChildAge` return no value where JavaScript gives `NaN`.
- Locale formatting: `toLocaleDateString`, day and month names, `formattedDate`, and `Intl.NumberFormat` (`formatCurrency`).
- `localeCompare` is modelled as plain character-code order. Dafny characters are code points, not UTF-16 units. Lower-casing is ASCII only.
- `DoctorService.GetAllConsultations`, `BitacoraService.PrepareBitacoraForAppointment`, `BitacoraService.GetBitacoraForAppointment`, `BitacoraService.GetConsultationsWithBitacoraForTutor` and `AppointmentService.AppointmentStore.DeleteAppointment`: their Firestore reads and deletes (doctor.service.ts:39, bitacora.service.ts:42, :126 and :139, appointment.service.ts:93) have no `try`/`catch`, so a failed call rejects the returned promise. The model gives these members no failure outcome; it describes only the calls that succeed.
- `Ordering.SortLatestFirst`: the order among rows with equal (date, time) is not stated. JavaScript's `Array.prototype.sort` is stable and keeps their input order.
- `HistorialRecetas.View`: the cost is an integer. A fractional cost in a stored prescription is not represented; the cost only feeds `formatCurrency`, which is left out with the other locale formatting.
- `CitasService.getCurrentTimeInMexico` (citas.service.ts:34-55): it reads the wall clock and may call an external time service. "today" and "now" are parameters instead.
- `AppointmentService.getUserAppointments` (appointment.service.ts:39-59): a Firestore query for the user's appointments, ordered by date and time descending on the server, and `[]` with no user. The model takes the fetched rows as the `raw` parameter of `CitasAgendadas.CitasAgendadasComponent.LoadAppointments`, and a failed fetch as its `fetchFailed` parameter. The server-side order is not modelled; the screen re-sorts anyway.
- The prescription, medical-consultation, patient and auth services are not part of this model. Neither are the fetches in `loadChildren` and `loadUserProfile`, or the sample data built in `loadConsultations` and `loadPrescriptions`.
- Browser side effects: `alert` and `confirm`, DOM downloads (`exportData`), `window.print`, and router navigation. An `EventEmitter` emit is recorded as an appended value. The user's answer to `confirm` is a parameter.
- Timers and the window. `setInterval` timing is reduced to a tick method (`Servicios.Carousel.AutoplayTick`). The window width and touch positions are integers passed in.
- Concurrency: the race between `selectDate` and an in-flight `updateTimeSlotsForDate`, and any double booking between clients.
- The `loadingCalendar` flag and `markAllAsTouched` in the booking wizard.
- The completar-perfil submit, which registers the user through the auth service, and the form patching in its `ngOnInit`. `getChildName` and `getChildAllergies` in the history screens are display helpers and are left out as well.
- JavaScript values are reduced as follows:
  - `null` and `undefined` both become `None`;
  - document fields are strings or absent, never numbers or objects;
  - a prescription card is addressed by its index or id, not by object identity.
- `DoctorService.ConfirmConsultation`: only the empty-id guard and the requested status change are modelled. doctor.service.ts:127 calls `updateAppointmentStatus` on the citas service, which that service does not define.
- `BitacoraService.Tagged`: in `{ appointmentId, ...bitacora }` a bitacora that carries its own `appointmentId` keeps it. The document id only fills a missing one, as the spread in the code does.
- `CancelCita.CancelCitaComponent.ShowError`: the default message is kept character for character as the source writes it.
- `AppointmentService.AppointmentStore.UpdateAppointmentStatus`: `updateDoc` on a missing document fails in Firestore. Here that is a `false` result with the store unchanged.
- `CitasAgendadas.FilteredFor`: the source sorts by `new Date(`${date} ${time}`).getTime()` differences (citas-agendadas.component.ts:174-178). The model compares the (date, time) strings. The two agree on zero-padded `YYYY-MM-DD` and `HH:MM`, the form the screens write. They disagree on an unpadded time ("9:00" against "10:00") and on a date that does not parse, where the comparator returns `NaN` and the engine treats the cards as equal.
- `CitasService.CitasStore.CreateAppointment`: a date and time that do not form a valid moment are an `invalid date` failure with the store unchanged. The source hands the invalid `Date` to `Timestamp.fromDate` (citas.service.ts:63-72), and what Firestore then does is not part of this model.
- `CitasService.CitasStore.GetAppointmentsForDate` (specified by `CitasService.AppointmentsForDate`): with no tutor id and a date that does not parse, the fallback is a failure. The source builds its `fecha` range query from invalid dates regardless (citas.service.ts:136-138), and what Firestore returns for it is not part of this model.
- `CompletarPerfil.CompletarPerfilForm.EliminarHijo`: `FormArray.removeAt` with an index past the end removes nothing. A negative index counts from the end, as `splice` does.
