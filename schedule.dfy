/** The Schedule page: appointments grouped by calendar day, month-by-month navigation of the calendar,
    the two-entry preview of a calendar cell, the list view's date order, and the add/edit/cancel/submit/
    delete handlers over the page's `appointments`, `showForm` and `editingAppointment` state. */
module Schedule {
  import opened Wrappers
  import opened Clock
  import opened Seqs
  import opened Entities

  /** `apt => format(new Date(apt.dateTime), 'yyyy-MM-dd') === format(date, 'yyyy-MM-dd')`. */
  function OnSameDay(date: int): Appointment -> bool {
    (a: Appointment) => DayOf(a.dateTime) == DayOf(date)
  }

  /** `getAppointmentsForDate`. */
  function AppointmentsForDate(appointments: seq<Appointment>, date: int): (onDay: seq<Appointment>)
    ensures |onDay| <= |appointments|
    ensures forall i :: 0 <= i < |onDay| ==> DayOf(onDay[i].dateTime) == DayOf(date)
  {
    Filter(appointments, OnSameDay(date))
  }

  /** A day's cell holds exactly the appointments dated that day, in list order; cells of different days
      share none. */
  lemma DayCellsPartition(appointments: seq<Appointment>, d1: int, d2: int, x: Appointment)
    ensures x in AppointmentsForDate(appointments, d1) <==> x in appointments && DayOf(x.dateTime) == DayOf(d1)
    ensures DayOf(d1) != DayOf(d2) ==>
      !(x in AppointmentsForDate(appointments, d1) && x in AppointmentsForDate(appointments, d2))
    ensures DayOf(d1) == DayOf(d2) ==> AppointmentsForDate(appointments, d1) == AppointmentsForDate(appointments, d2)
  {
    FilterMembership(appointments, OnSameDay(d1), x);
    FilterMembership(appointments, OnSameDay(d2), x);
    if DayOf(d1) == DayOf(d2) {
      FilterCongruent(appointments, OnSameDay(d1), OnSameDay(d2));
    }
  }

  /** The month the calendar shows: `currentDate`'s full year and month (0 to 11). */
  datatype YearMonth = YearMonth(year: int, month: int)

  predicate ValidMonth(ym: YearMonth) {
    0 <= ym.month < 12
  }

  /** A month as a single count, `year * 12 + month`. */
  function MonthIndex(ym: YearMonth): int {
    ym.year * 12 + ym.month
  }

  /** `new Date(year, month)`: a year from 0 to 99 means 1900 plus that year, and a month outside 0..11
      rolls over into the neighbouring years. */
  function MonthOf(year: int, month: int): (ym: YearMonth)
    ensures ValidMonth(ym)
    ensures MonthIndex(ym) == (if 0 <= year <= 99 then 1900 + year else year) * 12 + month
  {
    var fullYear := if 0 <= year <= 99 then 1900 + year else year;
    YearMonth(fullYear + month / 12, month % 12)
  }

  /** The chevron-left button: `new Date(prev.getFullYear(), prev.getMonth() - 1)`. */
  function PreviousMonth(ym: YearMonth): (prev: YearMonth)
    ensures ValidMonth(prev)
    ensures MonthIndex(prev) == (if 0 <= ym.year <= 99 then 1900 + ym.year else ym.year) * 12 + ym.month - 1
  {
    MonthOf(ym.year, ym.month - 1)
  }

  /** The chevron-right button: `new Date(prev.getFullYear(), prev.getMonth() + 1)`. */
  function FollowingMonth(ym: YearMonth): (next: YearMonth)
    ensures ValidMonth(next)
    ensures MonthIndex(next) == (if 0 <= ym.year <= 99 then 1900 + ym.year else ym.year) * 12 + ym.month + 1
  {
    MonthOf(ym.year, ym.month + 1)
  }

  /** Outside the two-digit years, the left chevron moves back exactly one month. */
  lemma PreviousMonthStep(ym: YearMonth)
    requires ValidMonth(ym) && !(0 <= ym.year <= 99)
    ensures PreviousMonth(ym) == if ym.month == 0 then YearMonth(ym.year - 1, 11) else YearMonth(ym.year, ym.month - 1)
  {
    if ym.month == 0 {
      assert (ym.month - 1) / 12 == -1 && (ym.month - 1) % 12 == 11;
    } else {
      assert (ym.month - 1) / 12 == 0 && (ym.month - 1) % 12 == ym.month - 1;
    }
  }

  /** Outside the two-digit years, the right chevron moves forward exactly one month. */
  lemma FollowingMonthStep(ym: YearMonth)
    requires ValidMonth(ym) && !(0 <= ym.year <= 99)
    ensures FollowingMonth(ym) == if ym.month == 11 then YearMonth(ym.year + 1, 0) else YearMonth(ym.year, ym.month + 1)
  {
    if ym.month == 11 {
      assert (ym.month + 1) / 12 == 1 && (ym.month + 1) % 12 == 0;
    } else {
      assert (ym.month + 1) / 12 == 0 && (ym.month + 1) % 12 == ym.month + 1;
    }
  }

  /** When neither the month nor its neighbours fall in a two-digit year, the two chevrons undo each other. */
  lemma MonthStepsInvert(ym: YearMonth)
    requires ValidMonth(ym) && !(0 <= ym.year <= 99)
    requires !(0 <= PreviousMonth(ym).year <= 99) && !(0 <= FollowingMonth(ym).year <= 99)
    ensures FollowingMonth(PreviousMonth(ym)) == ym
    ensures PreviousMonth(FollowingMonth(ym)) == ym
  {
    PreviousMonthStep(ym);
    FollowingMonthStep(ym);
    FollowingMonthStep(PreviousMonth(ym));
    PreviousMonthStep(FollowingMonth(ym));
  }

  /** Stepping back from January of the year 100 lands on December of 99, which the next step reads as
      1999: the buttons do not undo each other there. */
  lemma TwoDigitYearStep()
    ensures PreviousMonth(YearMonth(100, 0)) == YearMonth(99, 11)
    ensures FollowingMonth(YearMonth(99, 11)) == YearMonth(2000, 0)
  {
  }

  /** A calendar cell: the first two of the day's appointments and, past two, the "+N more" count. */
  datatype CellPreview = CellPreview(shown: seq<Appointment>, more: Option<nat>)

  function Preview(onDay: seq<Appointment>): (cell: CellPreview)
    ensures |cell.shown| <= 2 && cell.shown <= onDay
    ensures cell.more.Some? <==> |onDay| > 2
    ensures cell.more.Some? ==> cell.more.value > 0 && |cell.shown| + cell.more.value == |onDay|
    ensures cell.more.None? ==> cell.shown == onDay
  {
    CellPreview(Take(onDay, 2), if |onDay| > 2 then Some(|onDay| - 2) else None)
  }

  /** Sorting the list again, as every render does, changes nothing further. */
  lemma ListOrderSettles(appointments: seq<Appointment>)
    ensures SortBy(SortBy(appointments, AppointmentTime), AppointmentTime) == SortBy(appointments, AppointmentTime)
  {
    SortBySorted(SortBy(appointments, AppointmentTime), AppointmentTime);
  }

  /** `prev.filter(a => a.Id !== appointmentId)`. */
  function RemoveAppointment(appointments: seq<Appointment>, id: int): (r: seq<Appointment>)
    ensures |r| <= |appointments|
    ensures forall i :: 0 <= i < |r| ==> r[i].id != id
  {
    Filter(appointments, AppointmentIdIsNot(id))
  }

  /** Deleting drops exactly the appointments with that `Id` and keeps the rest. */
  lemma RemoveAppointmentMembership(appointments: seq<Appointment>, id: int)
    ensures forall x :: x in RemoveAppointment(appointments, id) <==> x in appointments && x.id != id
  {
    forall x {
      FilterMembership(appointments, AppointmentIdIsNot(id), x);
    }
  }

  datatype ViewMode = ListMode | CalendarMode

  class SchedulePage {
    var appointments: seq<Appointment>
    var error: string
    var showForm: bool
    var editingAppointment: Option<Appointment>
    var currentMonth: YearMonth
    var viewMode: ViewMode

    /** The page before its first load: `today` is the month of `new Date()`. */
    constructor(today: YearMonth)
      ensures appointments == [] && error == "" && currentMonth == today && viewMode == ListMode
      ensures !showForm && editingAppointment == None
    {
      appointments := [];
      error := "";
      currentMonth := today;
      viewMode := ListMode;
      showForm := false;
      editingAppointment := None;
    }

    /** `loadData`: `fetched` is the appointments of the `Promise.all` over the appointment and pet
        services' `getAll`, or its rejection. The error is cleared first; a failure keeps the appointments
        already shown. */
    method LoadData(fetched: Result<seq<Appointment>>)
      modifies this`appointments, this`error
      ensures fetched.Ok? ==> appointments == fetched.value && error == ""
      ensures fetched.Err? ==> appointments == old(appointments) && error == "Failed to load schedule data"
    {
      error := "";
      if fetched.Ok? {
        appointments := fetched.value;
      } else {
        error := "Failed to load schedule data";
      }
    }

    method HandleAddAppointment()
      modifies this`showForm, this`editingAppointment
      ensures showForm && editingAppointment == None
    {
      editingAppointment := None;
      showForm := true;
    }

    method HandleEditAppointment(appointment: Appointment)
      modifies this`showForm, this`editingAppointment
      ensures showForm && editingAppointment == Some(appointment)
    {
      editingAppointment := Some(appointment);
      showForm := true;
    }

    method HandleCancel()
      modifies this`showForm, this`editingAppointment
      ensures !showForm && editingAppointment == None
    {
      showForm := false;
      editingAppointment := None;
    }

    /** `handleSubmitAppointment`. `saved` is what the service call settled to: `update(editing.Id, data)`
        while editing, `create(data)` otherwise. On success the saved appointment replaces every entry with
        the edited `Id`, or is appended, and the form closes; on failure nothing changes. */
    method HandleSubmitAppointment(saved: Result<Appointment>)
      modifies this`appointments, this`showForm, this`editingAppointment
      ensures saved.Err? ==>
        appointments == old(appointments) && showForm == old(showForm) && editingAppointment == old(editingAppointment)
      ensures saved.Ok? ==> !showForm && editingAppointment == None
      ensures saved.Ok? && old(editingAppointment).Some? ==>
        appointments == ReplaceWhere(old(appointments), AppointmentIdIs(old(editingAppointment).value.id), saved.value)
      ensures saved.Ok? && old(editingAppointment).None? ==> appointments == old(appointments) + [saved.value]
    {
      if saved.Ok? {
        if editingAppointment.Some? {
          appointments := ReplaceWhere(appointments, AppointmentIdIs(editingAppointment.value.id), saved.value);
        } else {
          appointments := appointments + [saved.value];
        }
        showForm := false;
        editingAppointment := None;
      }
    }

    /** `handleDeleteAppointment`: `confirmed` is the answer to `window.confirm`, `deleted` whether
        `deleteItem` resolved. */
    method HandleDeleteAppointment(id: int, confirmed: bool, deleted: bool)
      modifies this`appointments
      ensures appointments == if confirmed && deleted then RemoveAppointment(old(appointments), id) else old(appointments)
    {
      if confirmed {
        if deleted {
          appointments := RemoveAppointment(appointments, id);
        }
      }
    }

    method HandlePreviousMonth()
      modifies this`currentMonth
      ensures currentMonth == PreviousMonth(old(currentMonth))
    {
      currentMonth := PreviousMonth(currentMonth);
    }

    method HandleNextMonth()
      modifies this`currentMonth
      ensures currentMonth == FollowingMonth(old(currentMonth))
    {
      currentMonth := FollowingMonth(currentMonth);
    }

    method SetViewMode(mode: ViewMode)
      modifies this`viewMode
      ensures viewMode == mode
    {
      viewMode := mode;
    }

    /** The list view: `appointments.sort(...)` reorders the state array itself, ascending by date, and the
        cards follow that order. */
    method RenderList() returns (shown: seq<Appointment>)
      modifies this`appointments
      ensures appointments == SortBy(old(appointments), AppointmentTime)
      ensures shown == appointments
      ensures SortedBy(shown, AppointmentTime) && multiset(shown) == multiset(old(appointments))
    {
      appointments := SortBy(appointments, AppointmentTime);
      shown := appointments;
    }
  }
}
