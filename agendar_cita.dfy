/**
 * The booking wizard of src/app/screens/agendar-cita/agendar-cita.component.ts:
 * a Sunday-to-Saturday month grid, selection of one day and one time slot,
 * the per-day slot annotation from the appointment store, and steps 1 to 4
 * (1 calendar, 2 time, 3 details, 4 confirmation). "Today" is a parameter.
 */
module AgendarCita {
  import opened Wrappers
  import opened Calendar
  import AppointmentService
  import Seqs

  datatype TimeSlot = TimeSlot(hour: string, available: bool)

  /** One cell of the month grid. Day, month and year are those of `date`. */
  datatype DaySchedule = DaySchedule(
    date: Date, isToday: bool, isPast: bool, isSelected: bool, timeSlots: seq<TimeSlot>)

  datatype Child = Child(id: string, nombre: string, apellidoPaterno: string)

  /** The signed-in user: uid and email (empty when the account has none). */
  datatype User = User(uid: string, email: string)

  /** What step 4 shows: the stored appointment and its id. */
  datatype Confirmation = Confirmation(id: string, data: AppointmentService.AppointmentData)

  /** `availableHours`: the same 17-slot template the appointment service uses. */
  const AvailableHours: seq<string> := AppointmentService.AllTimeSlots

  /** `generateTimeSlots`: one slot per offered hour, in order, all available. */
  function GenerateTimeSlots(): (r: seq<TimeSlot>)
    ensures |r| == |AvailableHours|
    ensures forall k :: 0 <= k < |r| ==> r[k] == TimeSlot(AvailableHours[k], true)
  {
    seq(|AvailableHours|, k requires 0 <= k < |AvailableHours| => TimeSlot(AvailableHours[k], true))
  }

  /** The slots of a selected day: every offered hour, available exactly when the service lists it. */
  function AnnotatedSlots(availableTimes: seq<string>): (r: seq<TimeSlot>)
    ensures |r| == |AvailableHours|
    ensures forall k :: 0 <= k < |r| ==>
      r[k].hour == AvailableHours[k] && (r[k].available <==> AvailableHours[k] in availableTimes)
  {
    seq(|AvailableHours|, k requires 0 <= k < |AvailableHours| =>
      TimeSlot(AvailableHours[k], AvailableHours[k] in availableTimes))
  }

  // ---------------------------------------------------------------------------
  // The month grid

  function MonthStart(y: int, m: int): Date
    requires 0 <= m < 12
  {
    Date(y, m, 1)
  }

  /** `new Date(year, month + 1, 0)`: the last day of the month. */
  function MonthEnd(y: int, m: int): Date
    requires 0 <= m < 12
  {
    Date(y, m, DaysInMonth(y, m))
  }

  /** The Saturday on or after d. */
  function WeekEnd(d: Date): (r: Date)
    requires ValidDate(d)
    ensures ValidDate(r) && Weekday(r) == 6
    ensures DayNumber(r) == DayNumber(d) + 6 - Weekday(d)
  {
    var w := Weekday(d);
    var r := AddDays(d, 6 - w);
    WeekdayAddDays(d, 6 - w);
    var sum := w + (6 - w);
    assert sum == 6;
    assert Weekday(r) == sum % 7;
    r
  }

  /** The Sunday on or before the 1st. */
  function GridStart(y: int, m: int): (r: Date)
    requires 0 <= m < 12
    ensures ValidDate(r)
  {
    WeekStart(MonthStart(y, m))
  }

  /** The Saturday on or after the last day of the month. */
  function GridEnd(y: int, m: int): (r: Date)
    requires 0 <= m < 12
    ensures ValidDate(r)
  {
    WeekEnd(MonthEnd(y, m))
  }

  function GridLength(y: int, m: int): nat
    requires 0 <= m < 12
  {
    DaysInMonth(y, m) + Weekday(MonthStart(y, m)) + 6 - Weekday(MonthEnd(y, m))
  }

  /** The cell the loop pushes for day d. */
  function DayFor(d: Date, today: Date, selected: Option<Date>): DaySchedule
    requires ValidDate(d) && ValidDate(today)
  {
    DaySchedule(d, d == today, DayNumber(d) < DayNumber(today),
                selected.Some? && selected.value == d, GenerateTimeSlots())
  }

  /** The grid `generateCalendar` builds for month m of year y. */
  function CalendarGrid(y: int, m: int, today: Date, selected: Option<Date>): seq<DaySchedule>
    requires 0 <= m < 12 && ValidDate(today)
  {
    seq(GridLength(y, m), i requires 0 <= i < GridLength(y, m) =>
      DayFor(AddDays(GridStart(y, m), i), today, selected))
  }

  /** From the Sunday before `first` to the Saturday after `last` is whole weeks. */
  lemma WeekSpan(first: Date, last: Date)
    requires ValidDate(first) && ValidDate(last) && DayNumber(first) <= DayNumber(last)
    ensures (DayNumber(last) - DayNumber(first) + 1 + Weekday(first) + 6 - Weekday(last)) % 7 == 0
  {
    var s, e := DayNumber(first), DayNumber(last);
    var a, b := (s + 4) / 7, (e + 4) / 7;
    assert s + 4 == 7 * a + Weekday(first);
    assert e + 4 == 7 * b + Weekday(last);
    assert e - s + 1 + Weekday(first) + 6 - Weekday(last) == 7 * (b - a + 1);
  }

  /** The last day of the month is DaysInMonth - 1 days after the first. */
  lemma MonthEndNumber(y: int, m: int)
    requires 0 <= m < 12
    ensures DayNumber(MonthEnd(y, m)) == DayNumber(MonthStart(y, m)) + DaysInMonth(y, m) - 1
  {
  }

  lemma GridEndNumber(y: int, m: int)
    requires 0 <= m < 12
    ensures DayNumber(GridEnd(y, m)) == DayNumber(GridStart(y, m)) + GridLength(y, m) - 1
  {
    MonthEndNumber(y, m);
  }

  /** Between four and six whole weeks. */
  lemma GridLengthWeeks(y: int, m: int)
    requires 0 <= m < 12
    ensures GridLength(y, m) % 7 == 0 && 28 <= GridLength(y, m) <= 42
  {
    MonthEndNumber(y, m);
    WeekSpan(MonthStart(y, m), MonthEnd(y, m));
    FourToSixWeeks(GridLength(y, m), DaysInMonth(y, m), Weekday(MonthStart(y, m)), Weekday(MonthEnd(y, m)));
  }

  lemma FourToSixWeeks(n: int, dim: int, ws: int, wl: int)
    requires n % 7 == 0 && 28 <= dim <= 31 && 0 <= ws < 7 && 0 <= wl < 7
    requires n == dim + ws + 6 - wl
    ensures 28 <= n <= 42
  {
  }

  /** The cells of a grid run over consecutive valid days, from a Sunday to a Saturday. */
  predicate WholeWeeks(g: seq<DaySchedule>) {
    && |g| > 0
    && (forall i :: 0 <= i < |g| ==> ValidDate(g[i].date))
    && (forall i :: 0 <= i < |g| ==> DayNumber(g[i].date) == DayNumber(g[0].date) + i)
    && Weekday(g[0].date) == 0 && Weekday(g[|g| - 1].date) == 6
  }

  /**
   * The grid is whole weeks: it starts on a Sunday, ends on a Saturday, runs over
   * consecutive days, and holds between four and six weeks.
   */
  lemma GridShape(y: int, m: int, today: Date, selected: Option<Date>)
    requires 0 <= m < 12 && ValidDate(today)
    ensures |CalendarGrid(y, m, today, selected)| % 7 == 0
    ensures 28 <= |CalendarGrid(y, m, today, selected)| <= 42
    ensures WholeWeeks(CalendarGrid(y, m, today, selected))
  {
    GridLengthWeeks(y, m);
    GridEndNumber(y, m);
    GridConsecutive(y, m, today, selected);
    BoundedByWeek(CalendarGrid(y, m, today, selected), GridStart(y, m), GridEnd(y, m));
  }

  /**
   * Cell k of the grid is the day k days after the Sunday on or before the 1st of
   * the month: its day number is the 1st's, less the 1st's weekday, plus k.
   */
  lemma GridCell(y: int, m: int, today: Date, selected: Option<Date>, k: int)
    requires 0 <= m < 12 && ValidDate(today) && 0 <= k < GridLength(y, m)
    ensures var c := CalendarGrid(y, m, today, selected)[k];
      && ValidDate(c.date)
      && DayNumber(c.date) == DayNumber(Date(y, m, 1)) - Weekday(Date(y, m, 1)) + k
  {
    var start := GridStart(y, m);
    assert DayNumber(start) == DayNumber(Date(y, m, 1)) - Weekday(Date(y, m, 1));
    assert CalendarGrid(y, m, today, selected)[k].date == AddDays(start, k);
  }

  lemma GridConsecutive(y: int, m: int, today: Date, selected: Option<Date>)
    requires 0 <= m < 12 && ValidDate(today)
    ensures var g := CalendarGrid(y, m, today, selected);
      && |g| == GridLength(y, m)
      && (forall i :: 0 <= i < |g| ==>
            (ValidDate(g[i].date) && DayNumber(g[i].date) == DayNumber(GridStart(y, m)) + i))
  {
  }

  /** A run of consecutive days from a Sunday to a Saturday starts and ends on those days. */
  lemma BoundedByWeek(g: seq<DaySchedule>, start: Date, end: Date)
    requires ValidDate(start) && ValidDate(end) && Weekday(start) == 0 && Weekday(end) == 6
    requires DayNumber(end) == DayNumber(start) + |g| - 1 && |g| > 0
    requires forall i :: 0 <= i < |g| ==>
      (ValidDate(g[i].date) && DayNumber(g[i].date) == DayNumber(start) + i)
    ensures WholeWeeks(g)
  {
    SameDay(g[0].date, start);
    SameDay(g[|g| - 1].date, end);
  }

  lemma SameDay(a: Date, b: Date)
    requires ValidDate(a) && ValidDate(b) && DayNumber(a) == DayNumber(b)
    ensures Weekday(a) == Weekday(b)
  {
    DayNumberInjective(a, b);
  }

  /** Every day of the month has a cell in the grid. */
  lemma GridCoversMonth(y: int, m: int, today: Date, selected: Option<Date>, day: int)
    requires 0 <= m < 12 && ValidDate(today) && 1 <= day <= DaysInMonth(y, m)
    ensures var g := CalendarGrid(y, m, today, selected);
      exists i :: 0 <= i < |g| && g[i].date == Date(y, m, day)
  {
    var g := CalendarGrid(y, m, today, selected);
    var start := GridStart(y, m);
    var d := Date(y, m, day);
    var i := DayNumber(d) - DayNumber(start);
    assert DayNumber(d) == DayNumber(MonthStart(y, m)) + day - 1;
    assert 0 <= i < |g|;
    DayNumberInjective(g[i].date, d);
  }

  /** A cell is past exactly when its day is before today, today exactly when it is today. */
  lemma GridFlags(y: int, m: int, today: Date, selected: Option<Date>, i: int)
    requires 0 <= m < 12 && ValidDate(today) && 0 <= i < GridLength(y, m)
    ensures var c := CalendarGrid(y, m, today, selected)[i];
      && (c.isPast <==> Precedes(c.date, today))
      && (c.isToday <==> c.date == today)
      && (c.isToday ==> !c.isPast)
      && (c.isSelected <==> selected == Some(c.date))
      && c.timeSlots == GenerateTimeSlots()
  {
    var c := CalendarGrid(y, m, today, selected)[i];
    DayNumberMonotone(c.date, today);
  }

  /**
   * The slots written for a date: each offered hour is available exactly when no
   * pending or confirmed appointment in the store holds it that day.
   */
  lemma AnnotatedSlotsAgainstStore(docs: map<string, AppointmentService.Appointment>, date: string)
    ensures var slots := AnnotatedSlots(AppointmentService.AvailableTimeSlots(docs, date));
      forall k :: 0 <= k < |slots| ==>
        (slots[k].available <==> !AppointmentService.Booked(docs, date, AvailableHours[k]))
  {
    var free := AppointmentService.AvailableTimeSlots(docs, date);
    var slots := AnnotatedSlots(free);
    forall k | 0 <= k < |slots|
      ensures slots[k].available <==> !AppointmentService.Booked(docs, date, AvailableHours[k])
    {
      assert AvailableHours[k] in AppointmentService.AllTimeSlots;
    }
  }

  /** The first cell marked selected, as `calendarDays.find(d => d.isSelected)` finds it. */
  function FirstSelected(days: seq<DaySchedule>): Option<nat> {
    Seqs.FindFirst(days, (d: DaySchedule) => d.isSelected)
  }

  /** Previous month with JavaScript's month roll-over (`new Date(y, m - 1, 1)`). */
  function PreviousMonthOf(d: Date): (r: Date)
    requires ValidDate(d)
    ensures ValidDate(r) && r.day == 1
    ensures DayNumber(r) < DayNumber(d)
  {
    var r := if d.month == 0 then Date(d.year - 1, 11, 1) else Date(d.year, d.month - 1, 1);
    DayNumberMonotone(r, d);
    r
  }

  /** Next month with roll-over (`new Date(y, m + 1, 1)`). */
  function NextMonthOf(d: Date): (r: Date)
    requires ValidDate(d)
    ensures ValidDate(r) && r.day == 1
    ensures DayNumber(d) < DayNumber(r)
  {
    var r := if d.month == 11 then Date(d.year + 1, 0, 1) else Date(d.year, d.month + 1, 1);
    DayNumberMonotone(d, r);
    r
  }

  /** Months run back and forth: next after previous returns to the 1st of the month. */
  lemma MonthNavigationInverse(d: Date)
    requires ValidDate(d)
    ensures NextMonthOf(PreviousMonthOf(d)) == Date(d.year, d.month, 1)
    ensures PreviousMonthOf(NextMonthOf(d)) == Date(d.year, d.month, 1)
  {
  }

  /** The loop of `generateCalendar`: from the grid's Sunday to its Saturday, one day at a time. */
  method WalkGrid(y: int, m: int, today: Date, selected: Option<Date>) returns (days: seq<DaySchedule>)
    requires 0 <= m < 12 && ValidDate(today)
    ensures days == CalendarGrid(y, m, today, selected)
  {
    days := [];
    var startDate := GridStart(y, m);
    var endDate := GridEnd(y, m);
    GridEndNumber(y, m);
    var current := startDate;
    while DayNumber(current) <= DayNumber(endDate)
      invariant ValidDate(current)
      invariant DayNumber(current) == DayNumber(startDate) + |days|
      invariant |days| <= GridLength(y, m)
      invariant forall k :: 0 <= k < |days| ==> days[k] == DayFor(AddDays(startDate, k), today, selected)
      decreases DayNumber(endDate) - DayNumber(current)
    {
      CellsSnoc(startDate, today, selected, days, current);
      days := days + [DayFor(current, today, selected)];
      current := NextDay(current);
    }
    GridFromCells(y, m, today, selected, days);
  }

  /** The cells from `start` stay the grid's cells when the cell of the next day is pushed. */
  lemma CellsSnoc(start: Date, today: Date, selected: Option<Date>, days: seq<DaySchedule>, current: Date)
    requires ValidDate(start) && ValidDate(today) && ValidDate(current)
    requires DayNumber(current) == DayNumber(start) + |days|
    requires forall k :: 0 <= k < |days| ==> days[k] == DayFor(AddDays(start, k), today, selected)
    ensures var next := days + [DayFor(current, today, selected)];
      forall k :: 0 <= k < |next| ==> next[k] == DayFor(AddDays(start, k), today, selected)
  {
    DayNumberInjective(current, AddDays(start, |days|));
  }

  /** A list as long as the grid whose every cell is the grid's cell is the grid. */
  lemma GridFromCells(y: int, m: int, today: Date, selected: Option<Date>, days: seq<DaySchedule>)
    requires 0 <= m < 12 && ValidDate(today) && |days| == GridLength(y, m)
    requires forall k :: 0 <= k < |days| ==> days[k] == DayFor(AddDays(GridStart(y, m), k), today, selected)
    ensures days == CalendarGrid(y, m, today, selected)
  {
  }

  /** The component state. */
  class AgendarCitaComponent {
    var currentMonth: Date
    var selectedDate: Option<Date>
    var calendarDays: seq<DaySchedule>
    var children: seq<Child>
    var loading: bool
    var step: int
    var selectedTimeSlot: string
    var confirmationData: Option<Confirmation>
    // The form controls; a reset control holds "".
    var formChildId: string
    var formDate: string
    var formTime: string
    var formReason: string
    var formNotes: string

    ghost predicate Valid()
      reads this
    {
      && ValidDate(currentMonth)
      && (forall k :: 0 <= k < |calendarDays| ==> ValidDate(calendarDays[k].date))
      && (selectedDate.Some? ==> ValidDate(selectedDate.value))
    }

    constructor (today: Date, children: seq<Child>)
      requires ValidDate(today)
      ensures Valid()
      ensures currentMonth == today && selectedDate == None && calendarDays == []
      ensures step == 1 && selectedTimeSlot == "" && confirmationData == None && !loading
      ensures this.children == children
    {
      currentMonth := today;
      selectedDate := None;
      calendarDays := [];
      this.children := children;
      loading := false;
      step := 1;
      selectedTimeSlot := "";
      confirmationData := None;
      formChildId, formDate, formTime, formReason, formNotes := "", "", "", "", "";
    }

    /** `generateCalendar`: rebuilds the grid of the displayed month. */
    method GenerateCalendar(today: Date)
      requires Valid() && ValidDate(today)
      modifies this`calendarDays
      ensures Valid()
      ensures calendarDays == CalendarGrid(currentMonth.year, currentMonth.month, today, selectedDate)
    {
      calendarDays := WalkGrid(currentMonth.year, currentMonth.month, today, selectedDate);
      GridConsecutive(currentMonth.year, currentMonth.month, today, selectedDate);
    }

    /** `isDayAvailable`: the day is not past and lies in the displayed month. */
    predicate IsDayAvailable(day: DaySchedule)
      reads this
    {
      !day.isPast && day.date.month == currentMonth.month
    }

    /**
     * `selectDate`: a past day or a day of another month changes nothing; otherwise
     * that day becomes the only selected one, the form's date is set and step is 2.
     */
    method SelectDate(i: nat)
      requires Valid() && i < |calendarDays|
      modifies this`selectedDate, this`calendarDays, this`step, this`formDate
      ensures Valid()
      ensures !IsDayAvailable(old(calendarDays[i])) ==>
        selectedDate == old(selectedDate) && calendarDays == old(calendarDays)
        && step == old(step) && formDate == old(formDate)
      ensures IsDayAvailable(old(calendarDays[i])) ==>
        && selectedDate == Some(old(calendarDays[i]).date)
        && formDate == DateString(old(calendarDays[i]).date)
        && step == 2
        && |calendarDays| == |old(calendarDays)|
        && (forall k :: 0 <= k < |calendarDays| ==>
              calendarDays[k] == old(calendarDays[k]).(isSelected := k == i))
    {
      var day := calendarDays[i];
      if day.isPast || day.date.month != currentMonth.month {
        return;
      }
      selectedDate := Some(day.date);
      formDate := DateString(day.date);
      var days := calendarDays;
      calendarDays := seq(|days|, k requires 0 <= k < |days| => days[k].(isSelected := k == i));
      step := 2;
    }

    /**
     * `updateTimeSlotsForDate`: replaces the selected day's slots with the offered
     * hours, each available exactly when the store's free slots for that date list it.
     * A failed fetch changes nothing.
     */
    method UpdateTimeSlotsForDate(date: Date, fetched: Result<map<string, AppointmentService.Appointment>, string>)
      requires Valid() && ValidDate(date)
      modifies this`calendarDays
      ensures Valid()
      ensures |calendarDays| == |old(calendarDays)|
      ensures fetched.Failure? || FirstSelected(old(calendarDays)).None? ==> calendarDays == old(calendarDays)
      ensures fetched.Success? && FirstSelected(old(calendarDays)).Some? ==>
        var j := FirstSelected(old(calendarDays)).value;
        var free := AppointmentService.AvailableTimeSlots(fetched.value, DateString(date));
        calendarDays == old(calendarDays)[j := old(calendarDays)[j].(timeSlots := AnnotatedSlots(free))]
    {
      if fetched.Failure? {
        return;
      }
      var availableTimes := AppointmentService.AvailableTimeSlots(fetched.value, DateString(date));
      var found := FirstSelected(calendarDays);
      if found.Some? {
        var j := found.value;
        calendarDays := calendarDays[j := calendarDays[j].(timeSlots := AnnotatedSlots(availableTimes))];
      }
    }

    /** `selectTime`: an unavailable slot is ignored; otherwise its hour is chosen and step is 3. */
    method SelectTime(slot: TimeSlot)
      modifies this`selectedTimeSlot, this`formTime, this`step
      ensures !slot.available ==>
        selectedTimeSlot == old(selectedTimeSlot) && formTime == old(formTime) && step == old(step)
      ensures slot.available ==>
        selectedTimeSlot == slot.hour && formTime == slot.hour && step == 3
    {
      if !slot.available {
        return;
      }
      selectedTimeSlot := slot.hour;
      formTime := slot.hour;
      step := 3;
    }

    /** `goToStep`. */
    method GoToStep(n: int)
      modifies this`step
      ensures step == n
    {
      step := n;
    }

    /** The user's entries on step 3. */
    method FillDetails(childId: string, reason: string, notes: string)
      modifies this`formChildId, this`formReason, this`formNotes
      ensures formChildId == childId && formReason == reason && formNotes == notes
    {
      formChildId, formReason, formNotes := childId, reason, notes;
    }

    /** The form's validators: child, date and time required, reason of 10 characters or more. */
    predicate FormValid()
      reads this
    {
      formChildId != "" && formDate != "" && formTime != "" && |formReason| >= 10
    }

    /** `${child?.nombre} ${child?.apellidoPaterno}`, which reads "undefined undefined" for no child. */
    function ChildName(childId: string): string
      reads this
    {
      match FindChild(children, childId)
      case Some(k) => children[k].nombre + " " + children[k].apellidoPaterno
      case None => "undefined undefined"
    }

    /** The appointment `submitAppointment` sends: status pending. */
    function PendingAppointment(user: User): AppointmentService.AppointmentData
      reads this
    {
      AppointmentService.AppointmentData(
        user.uid, user.email, formChildId, ChildName(formChildId), formDate, formTime,
        formReason, Some(formNotes), AppointmentService.Pending)
    }

    /**
     * `submitAppointment`: an invalid form sends nothing; without a user `loading`
     * stays set; otherwise a pending appointment is stored and step 4 shows it. A
     * failed write leaves the store and the step as they were.
     */
    method SubmitAppointment(user: Option<User>, store: AppointmentService.AppointmentStore,
                             freshId: string, now: int, writeFails: bool)
      requires freshId !in store.docs
      modifies this`loading, this`confirmationData, this`step, store
      ensures !old(FormValid()) ==>
        loading == old(loading) && step == old(step) && confirmationData == old(confirmationData)
        && store.docs == old(store.docs)
      ensures old(FormValid()) && user.None? ==>
        loading && step == old(step) && confirmationData == old(confirmationData)
        && store.docs == old(store.docs)
      ensures old(FormValid()) && user.Some? && writeFails ==>
        !loading && step == old(step) && confirmationData == old(confirmationData)
        && store.docs == old(store.docs)
      ensures old(FormValid()) && user.Some? && !writeFails ==>
        var data := old(PendingAppointment(user.value));
        && !loading && step == 4
        && confirmationData == Some(Confirmation(freshId, data))
        && store.docs == old(store.docs)[freshId := AppointmentService.Appointment(
             data.userId, data.userEmail, data.childId, data.childName, data.date, data.time,
             data.reason, data.notes, data.status, now, now)]
    {
      if !FormValid() {
        return;
      }
      loading := true;
      if user.None? {
        return;
      }
      if !writeFails {
        var data := PendingAppointment(user.value);
        var id := store.CreateAppointment(data, freshId, now);
        confirmationData := Some(Confirmation(id, data));
        step := 4;
      }
      loading := false;
    }

    /** `previousMonth`: the grid of the month before. */
    method PreviousMonth(today: Date)
      requires Valid() && ValidDate(today)
      modifies this`currentMonth, this`calendarDays
      ensures Valid()
      ensures currentMonth == PreviousMonthOf(old(currentMonth))
      ensures calendarDays == CalendarGrid(currentMonth.year, currentMonth.month, today, selectedDate)
    {
      currentMonth := PreviousMonthOf(currentMonth);
      GenerateCalendar(today);
    }

    /** `nextMonth`: the grid of the month after. */
    method NextMonth(today: Date)
      requires Valid() && ValidDate(today)
      modifies this`currentMonth, this`calendarDays
      ensures Valid()
      ensures currentMonth == NextMonthOf(old(currentMonth))
      ensures calendarDays == CalendarGrid(currentMonth.year, currentMonth.month, today, selectedDate)
    {
      currentMonth := NextMonthOf(currentMonth);
      GenerateCalendar(today);
    }

    /** `newAppointment`: back to step 1 with nothing selected, an empty form and a fresh grid. */
    method NewAppointment(today: Date)
      requires Valid() && ValidDate(today)
      modifies this`step, this`selectedDate, this`selectedTimeSlot, this`confirmationData, this`calendarDays
      modifies this`formChildId, this`formDate, this`formTime, this`formReason, this`formNotes
      ensures Valid()
      ensures step == 1 && selectedDate == None && selectedTimeSlot == "" && confirmationData == None
      ensures formChildId == "" && formDate == "" && formTime == "" && formReason == "" && formNotes == ""
      ensures calendarDays == CalendarGrid(currentMonth.year, currentMonth.month, today, None)
    {
      step := 1;
      selectedDate := None;
      selectedTimeSlot := "";
      confirmationData := None;
      formChildId, formDate, formTime, formReason, formNotes := "", "", "", "", "";
      assert Valid();
      GenerateCalendar(today);
    }
  }

  /** `children.find(c => c.id === childId)`, as an index. */
  function FindChild(children: seq<Child>, childId: string): Option<nat> {
    Seqs.FindFirst(children, (c: Child) => c.id == childId)
  }
}
