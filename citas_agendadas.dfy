/**
 * The "my appointments" screen of
 * src/app/screens/citas-agendadas/citas-agendadas.component.ts: cards with
 * day-granular today/past/future flags and the cancel rule, per-filter counts,
 * the filtered list latest first, local cancellation and week navigation.
 * "Today" is a parameter.
 */
module CitasAgendadas {
  import opened Wrappers
  import opened Calendar
  import opened Seqs
  import opened Ordering
  import opened AppointmentService

  /** An appointment as shown: the stored record with its id and derived fields. */
  datatype AppointmentCard = AppointmentCard(
    id: string, appt: Appointment,
    isToday: bool, isPast: bool, isFuture: bool, canCancel: bool,
    statusText: string, statusClass: string)

  datatype FilterOption = FilterOption(value: string, caption: string, count: int)

  const InitialFilterOptions: seq<FilterOption> := [
    FilterOption("all", "Todas las citas", 0),
    FilterOption("upcoming", "Próximas", 0),
    FilterOption("pending", "Pendientes", 0),
    FilterOption("confirmed", "Confirmadas", 0),
    FilterOption("past", "Pasadas", 0)
  ]

  /** `getStatusText`: the Spanish label of a known status, else the status itself. */
  function StatusText(status: string): (r: string)
    ensures status == Pending ==> r == "Pendiente de confirmación"
    ensures status == Confirmed ==> r == "Confirmada"
    ensures status == Completed ==> r == "Completada"
    ensures status == Cancelled ==> r == "Cancelada"
    ensures status !in {Pending, Confirmed, Completed, Cancelled} ==> r == status
  {
    var statusMap := map[Pending := "Pendiente de confirmación", Confirmed := "Confirmada",
                         Completed := "Completada", Cancelled := "Cancelada"];
    if status in statusMap && statusMap[status] != "" then statusMap[status] else status
  }

  /** `getStatusClass`: `status-<status>` for a known status, else `status-default`. */
  function StatusClass(status: string): (r: string)
    ensures status in {Pending, Confirmed, Completed, Cancelled} ==> r == "status-" + status
    ensures status !in {Pending, Confirmed, Completed, Cancelled} ==> r == "status-default"
  {
    var classMap := map[Pending := "status-pending", Confirmed := "status-confirmed",
                        Completed := "status-completed", Cancelled := "status-cancelled"];
    if status in classMap && classMap[status] != "" then classMap[status] else "status-default"
  }

  /** `['pending', 'confirmed'].includes(status)`. */
  predicate Active(status: string) {
    status == Pending || status == Confirmed
  }

  /** `appointments.map(enhanceAppointment)` over the fetched documents. */
  function EnhanceAll(raw: seq<(string, Appointment)>, today: Date): (cards: seq<AppointmentCard>)
    requires ValidDate(today)
    ensures |cards| == |raw|
    ensures forall k :: 0 <= k < |raw| ==> cards[k] == EnhanceAppointment(raw[k].0, raw[k].1, today)
    ensures forall k :: 0 <= k < |raw| ==> ConsistentCard(cards[k])
  {
    seq(|raw|, k requires 0 <= k < |raw| => EnhanceAppointment(raw[k].0, raw[k].1, today))
  }

  /**
   * `enhanceAppointment`. A date that does not parse is an invalid `Date`: every
   * comparison with it is false, so all flags are false.
   */
  function EnhanceAppointment(id: string, a: Appointment, today: Date): (c: AppointmentCard)
    requires ValidDate(today)
    ensures c.id == id && c.appt == a
    ensures ParseDate(a.date).None? ==> !c.isToday && !c.isPast && !c.isFuture && !c.canCancel
    ensures ParseDate(a.date).Some? ==>
      var d := ParseDate(a.date).value;
      && (c.isToday <==> d == today)
      && (c.isPast <==> Precedes(d, today))
      && (c.isFuture <==> Precedes(today, d))
    ensures c.canCancel <==> (c.isFuture || c.isToday) && Active(a.status)
    ensures c.statusText == StatusText(a.status) && c.statusClass == StatusClass(a.status)
  {
    match ParseDate(a.date)
    case None =>
      AppointmentCard(id, a, false, false, false, false, StatusText(a.status), StatusClass(a.status))
    case Some(d) =>
      DayNumberMonotone(d, today);
      DayNumberMonotone(today, d);
      SameDayNumber(d, today);
      var dn, tn := DayNumber(d), DayNumber(today);
      var isToday, isPast, isFuture := dn == tn, dn < tn, dn > tn;
      var canCancel := (isFuture || isToday) && Active(a.status);
      AppointmentCard(id, a, isToday, isPast, isFuture, canCancel, StatusText(a.status), StatusClass(a.status))
  }

  lemma SameDayNumber(a: Date, b: Date)
    requires ValidDate(a) && ValidDate(b)
    ensures DayNumber(a) == DayNumber(b) <==> a == b
  {
    if DayNumber(a) == DayNumber(b) {
      DayNumberInjective(a, b);
    }
  }

  /** Of today, past and future, a card with a readable date has exactly one. */
  lemma ExactlyOneDayFlag(id: string, a: Appointment, today: Date)
    requires ValidDate(today) && ParseDate(a.date).Some?
    ensures var c := EnhanceAppointment(id, a, today);
      (c.isToday && !c.isPast && !c.isFuture)
      || (!c.isToday && c.isPast && !c.isFuture)
      || (!c.isToday && !c.isPast && c.isFuture)
  {
    var d := ParseDate(a.date).value;
    DayNumberMonotone(d, today);
    DayNumberMonotone(today, d);
    SameDayNumber(d, today);
  }

  /** The cancel rule the screen keeps for every card. */
  predicate ConsistentCard(c: AppointmentCard) {
    c.canCancel <==> (c.isFuture || c.isToday) && Active(c.appt.status)
  }

  /** Membership of a card in each filter; unknown filters select nothing. */
  predicate InFilter(value: string, c: AppointmentCard) {
    if value == "all" then true
    else if value == "upcoming" then (c.isFuture || c.isToday) && Active(c.appt.status)
    else if value == "pending" then c.appt.status == Pending
    else if value == "confirmed" then c.appt.status == Confirmed
    else if value == "past" then c.isPast || c.appt.status == Completed
    else false
  }

  predicate KnownFilter(value: string) {
    value in {"all", "upcoming", "pending", "confirmed", "past"}
  }

  /** A card is upcoming exactly when it can be cancelled. */
  lemma UpcomingIsCancellable(c: AppointmentCard)
    requires ConsistentCard(c)
    ensures InFilter("upcoming", c) <==> c.canCancel
  {
  }

  /** The sort key: date, then time. */
  function When(c: AppointmentCard): Key {
    (c.appt.date, c.appt.time)
  }

  /** The count `updateFilterCounts` writes for an option; unknown options keep theirs. */
  function CountFor(cards: seq<AppointmentCard>, o: FilterOption): int {
    if o.value == "all" then |cards|
    else if KnownFilter(o.value) then |Filter(cards, (c: AppointmentCard) => InFilter(o.value, c))|
    else o.count
  }

  /** `updateFilterCounts` applied to the options `prev`: each option keeps its value and caption and takes its count. */
  predicate Recounted(opts: seq<FilterOption>, prev: seq<FilterOption>, cards: seq<AppointmentCard>) {
    && |opts| == |prev|
    && forall k :: 0 <= k < |opts| ==> opts[k] == prev[k].(count := CountFor(cards, prev[k]))
  }

  /** The list `applyFilter` leaves for a filter value; an unknown value re-sorts the current list. */
  function FilteredFor(cards: seq<AppointmentCard>, value: string, current: seq<AppointmentCard>): seq<AppointmentCard> {
    if value == "all" then SortLatestFirst(cards, When)
    else if KnownFilter(value) then SortLatestFirst(Filter(cards, (c: AppointmentCard) => InFilter(value, c)), When)
    else SortLatestFirst(current, When)
  }

  /** The badge on every known filter is the length of the list that filter shows. */
  lemma CountMatchesFilteredList(cards: seq<AppointmentCard>, o: FilterOption, current: seq<AppointmentCard>)
    requires KnownFilter(o.value)
    ensures CountFor(cards, o) == |FilteredFor(cards, o.value, current)|
  {
    var r := FilteredFor(cards, o.value, current);
    assert |multiset(r)| == |r|;
  }

  /** The filtered list holds only cards of the filter, latest first. */
  lemma FilteredForSound(cards: seq<AppointmentCard>, value: string, current: seq<AppointmentCard>)
    requires KnownFilter(value)
    ensures var r := FilteredFor(cards, value, current);
      SortedLatestFirst(r, When)
      && (forall k :: 0 <= k < |r| ==> r[k] in cards && InFilter(value, r[k]))
      && (forall c :: c in cards && InFilter(value, c) ==> c in r)
  {
    var r := FilteredFor(cards, value, current);
    var chosen := if value == "all" then cards else Filter(cards, (c: AppointmentCard) => InFilter(value, c));
    assert multiset(r) == multiset(chosen);
    forall k | 0 <= k < |r| ensures r[k] in cards && InFilter(value, r[k]) {
      assert r[k] in multiset(chosen);
    }
    forall c | c in cards && InFilter(value, c) ensures c in r {
      assert c in multiset(chosen);
    }
  }

  class CitasAgendadasComponent {
    var appointments: seq<AppointmentCard>
    var filteredAppointments: seq<AppointmentCard>
    var loading: bool
    var selectedFilter: string
    var currentWeekStart: Date
    var filterOptions: seq<FilterOption>

    ghost predicate Valid()
      reads this
    {
      && ValidDate(currentWeekStart)
      && (forall k :: 0 <= k < |appointments| ==> ConsistentCard(appointments[k]))
    }

    constructor (today: Date)
      requires ValidDate(today)
      ensures Valid()
      ensures appointments == [] && filteredAppointments == [] && loading
      ensures selectedFilter == "all" && filterOptions == InitialFilterOptions
      ensures currentWeekStart == today
    {
      appointments := [];
      filteredAppointments := [];
      loading := true;
      selectedFilter := "all";
      currentWeekStart := today;
      filterOptions := InitialFilterOptions;
    }

    /** `setCurrentWeek`: the Sunday on or before today. */
    method SetCurrentWeek(today: Date)
      requires Valid() && ValidDate(today)
      modifies this`currentWeekStart
      ensures Valid()
      ensures currentWeekStart == WeekStart(today)
    {
      currentWeekStart := WeekStart(today);
    }

    /**
     * `loadAppointments` after the fetch of the user's appointments (`raw`): the
     * cards, their counts and the current filter. Without a user, or when the
     * fetch fails and the error is caught, nothing is loaded.
     */
    method LoadAppointments(signedIn: bool, fetchFailed: bool, raw: seq<(string, Appointment)>, today: Date)
      requires Valid() && ValidDate(today)
      modifies this`appointments, this`filterOptions, this`filteredAppointments, this`loading
      modifies this`selectedFilter
      ensures Valid() && !loading && selectedFilter == old(selectedFilter)
      ensures !signedIn || fetchFailed ==>
        appointments == old(appointments) && filteredAppointments == old(filteredAppointments)
        && filterOptions == old(filterOptions)
      ensures signedIn && !fetchFailed ==>
        && |appointments| == |raw|
        && (forall k :: 0 <= k < |raw| ==> appointments[k] == EnhanceAppointment(raw[k].0, raw[k].1, today))
        && Recounted(filterOptions, old(filterOptions), appointments)
        && filteredAppointments == FilteredFor(appointments, selectedFilter, old(filteredAppointments))
    {
      loading := true;
      if !signedIn || fetchFailed {
        loading := false;
        return;
      }
      appointments := EnhanceAll(raw, today);
      UpdateFilterCounts();
      ApplyFilter(selectedFilter);
      loading := false;
    }

    /** `updateFilterCounts`: each option's count, option by option. */
    method UpdateFilterCounts()
      modifies this`filterOptions
      ensures Recounted(filterOptions, old(filterOptions), appointments)
    {
      var i := 0;
      while i < |filterOptions|
        invariant 0 <= i <= |filterOptions| == |old(filterOptions)|
        invariant forall k :: 0 <= k < i ==>
          filterOptions[k] == old(filterOptions[k]).(count := CountFor(appointments, old(filterOptions[k])))
        invariant forall k :: i <= k < |filterOptions| ==> filterOptions[k] == old(filterOptions[k])
      {
        var option := filterOptions[i];
        filterOptions := filterOptions[i := option.(count := CountFor(appointments, option))];
        i := i + 1;
      }
    }

    /** `applyFilter`: the cards of the filter, latest first by date then time. */
    method ApplyFilter(filterValue: string)
      modifies this`selectedFilter, this`filteredAppointments
      ensures selectedFilter == filterValue
      ensures filteredAppointments == FilteredFor(appointments, filterValue, old(filteredAppointments))
    {
      selectedFilter := filterValue;
      var chosen := filteredAppointments;
      if filterValue == "all" {
        chosen := appointments;
      } else if KnownFilter(filterValue) {
        chosen := Filter(appointments, (c: AppointmentCard) => InFilter(filterValue, c));
      }
      filteredAppointments := SortLatestFirst(chosen, When);
    }

    /**
     * `cancelAppointment` on the card at index i: nothing happens unless the card
     * can be cancelled, has an id and the user confirms. When the store cancels
     * it, the card shows the cancelled status and can no longer be cancelled, and
     * counts and list are recomputed.
     */
    method CancelAppointment(i: nat, confirmed: bool, store: AppointmentStore, now: int) returns (done: bool)
      requires Valid() && i < |appointments|
      modifies this`appointments, this`filterOptions, this`filteredAppointments, this`selectedFilter, store
      ensures Valid() && selectedFilter == old(selectedFilter)
      ensures done <==> old(appointments[i].canCancel) && old(appointments[i].id) != "" && confirmed
                        && old(appointments[i].id) in old(store.docs)
      ensures !done ==>
        && appointments == old(appointments) && store.docs == old(store.docs)
        && filterOptions == old(filterOptions) && filteredAppointments == old(filteredAppointments)
      ensures done ==>
        var c := old(appointments[i]);
        && appointments == old(appointments)[i := c.(appt := c.appt.(status := Cancelled),
             statusText := StatusText(Cancelled), statusClass := StatusClass(Cancelled), canCancel := false)]
        && store.docs == old(store.docs)[c.id := old(store.docs)[c.id].(status := Cancelled, updatedAt := now)]
        && Recounted(filterOptions, old(filterOptions), appointments)
        && filteredAppointments == FilteredFor(appointments, old(selectedFilter), old(filteredAppointments))
    {
      var c := appointments[i];
      if !c.canCancel || c.id == "" || !confirmed {
        return false;
      }
      done := store.CancelAppointment(c.id, now);
      if done {
        appointments := appointments[i := c.(appt := c.appt.(status := Cancelled),
          statusText := StatusText(Cancelled), statusClass := StatusClass(Cancelled), canCancel := false)];
        UpdateFilterCounts();
        ApplyFilter(selectedFilter);
      }
    }

    /** `previousWeek`: seven days back. */
    method PreviousWeek()
      requires Valid()
      modifies this`currentWeekStart
      ensures Valid()
      ensures currentWeekStart == AddDays(old(currentWeekStart), -7)
    {
      currentWeekStart := AddDays(currentWeekStart, -7);
    }

    /** `nextWeek`: seven days forward. */
    method NextWeek()
      requires Valid()
      modifies this`currentWeekStart
      ensures Valid()
      ensures currentWeekStart == AddDays(old(currentWeekStart), 7)
    {
      currentWeekStart := AddDays(currentWeekStart, 7);
    }

    /** `getWeekDays`: seven consecutive days from the week start. */
    method GetWeekDays() returns (days: seq<Date>)
      requires Valid()
      ensures |days| == 7
      ensures forall k :: 0 <= k < 7 ==>
        ValidDate(days[k]) && DayNumber(days[k]) == DayNumber(currentWeekStart) + k
    {
      days := [];
      for i := 0 to 7
        invariant |days| == i
        invariant forall k :: 0 <= k < i ==>
          ValidDate(days[k]) && DayNumber(days[k]) == DayNumber(currentWeekStart) + k
      {
        days := days + [AddDays(currentWeekStart, i)];
      }
    }

    /** `getAppointmentsForDate`: the shown cards of that day. */
    function AppointmentsOn(date: Date): (r: seq<AppointmentCard>)
      requires ValidDate(date)
      reads this
      ensures IsSubsequence(r, filteredAppointments)
      ensures forall k :: 0 <= k < |r| ==> r[k].appt.date == DateString(date)
      ensures forall c :: c in filteredAppointments && c.appt.date == DateString(date) ==> c in r
    {
      var ds := DateString(date);
      FilterIsSubsequence(filteredAppointments, (c: AppointmentCard) => c.appt.date == ds);
      Filter(filteredAppointments, (c: AppointmentCard) => c.appt.date == ds)
    }
  }

  /** Going a week back and then forward returns to the same week start. */
  lemma WeekNavigationInverse(d: Date)
    requires ValidDate(d)
    ensures AddDays(AddDays(d, -7), 7) == d
    ensures AddDays(AddDays(d, 7), -7) == d
  {
    AddDaysCompose(d, -7, 7);
    AddDaysCompose(d, 7, -7);
  }
}
