/** The Dashboard page: the reminders due now (today's or earlier, not completed, not snoozed past now),
    the next three upcoming appointments, the number of enabled feeding schedules, and the overdue count,
    with the same complete and snooze handlers as the Reminders page. */
module Dashboard {
  import opened Wrappers
  import opened Clock
  import opened Seqs
  import opened Entities
  import opened ReminderCard
  import opened Reminders

  /** The test of `getTodaysReminders`. */
  function IsDueNow(now: int): Reminder -> bool {
    (r: Reminder) =>
      if r.completed then false
      else if r.snoozedUntil.Some? && r.snoozedUntil.value > now then false
      else IsToday(r.dateTime, now) || IsPast(r.dateTime, now)
  }

  function TodaysReminders(reminders: seq<Reminder>, now: int): (due: seq<Reminder>)
    ensures |due| <= |reminders|
    ensures forall i :: 0 <= i < |due| ==> !due[i].completed
  {
    Filter(reminders, IsDueNow(now))
  }

  /** A reminder is due now exactly when it is active, not snoozed past now, and dated today or on an
      earlier day, which is to say today's or overdue. */
  lemma TodaysRemindersExactly(reminders: seq<Reminder>, now: int, x: Reminder)
    ensures x in TodaysReminders(reminders, now)
        <==> && x in reminders && !x.completed
             && !(x.snoozedUntil.Some? && now < x.snoozedUntil.value)
             && DayOf(x.dateTime) <= DayOf(now)
    ensures x in TodaysReminders(reminders, now)
        ==> IsTodays(x.dateTime, now) || IsOverdue(x.dateTime, now)
  {
    FilterMembership(reminders, IsDueNow(now), x);
    Classification(x.dateTime, now);
    OverdueIffEarlierDay(x.dateTime, now);
  }

  /** A reminder snoozed at `now` stays off the due list for the whole hour that follows. */
  lemma SnoozeHidesForAnHour(reminders: seq<Reminder>, id: int, now: int, m: int)
    requires m < now + MsPerHour
    ensures forall x :: x in TodaysReminders(SnoozeLocally(reminders, id, now + MsPerHour), m) ==> x.id != id
  {
    var snoozed := SnoozeLocally(reminders, id, now + MsPerHour);
    forall x | x in TodaysReminders(snoozed, m) ensures x.id != id {
      FilterMembership(snoozed, IsDueNow(m), x);
      var i :| 0 <= i < |snoozed| && snoozed[i] == x;
    }
  }

  /** `apt => !apt.completed && new Date(apt.dateTime) > new Date()`. */
  function IsUpcoming(now: int): Appointment -> bool {
    (a: Appointment) => !a.completed && now < a.dateTime
  }

  /** `getUpcomingAppointments`: the open future appointments, by date, at most three. */
  function UpcomingAppointments(appointments: seq<Appointment>, now: int): (up: seq<Appointment>)
    ensures |up| <= 3
    ensures SortedBy(up, AppointmentTime)
  {
    Take(SortBy(Filter(appointments, IsUpcoming(now)), AppointmentTime), 3)
  }

  /** The upcoming list holds open future appointments of the list, three of them, or all of them when
      there are fewer. */
  lemma UpcomingAreCandidates(appointments: seq<Appointment>, now: int)
    ensures var candidates := Filter(appointments, IsUpcoming(now));
      var up := UpcomingAppointments(appointments, now);
      && |up| == (if |candidates| < 3 then |candidates| else 3)
      && multiset(up) <= multiset(candidates)
      && (forall i :: 0 <= i < |up| ==> IsUpcoming(now)(up[i]) && up[i] in appointments)
  {
    var candidates := Filter(appointments, IsUpcoming(now));
    var sorted := SortBy(candidates, AppointmentTime);
    var up := Take(sorted, 3);
    TakeIsSubMultiset(sorted, 3);
    forall i | 0 <= i < |up| ensures IsUpcoming(now)(up[i]) && up[i] in appointments {
      assert up[i] in multiset(up);
      assert up[i] in multiset(candidates);
      FilterMembership(appointments, IsUpcoming(now), up[i]);
    }
  }

  /** None of the open future appointments left out of the upcoming list is earlier than one shown. */
  lemma UpcomingAreTheEarliest(appointments: seq<Appointment>, now: int)
    ensures var candidates := Filter(appointments, IsUpcoming(now));
      var up := UpcomingAppointments(appointments, now);
      forall x, y :: x in up && y in multiset(candidates) - multiset(up) ==> x.dateTime <= y.dateTime
  {
    var sorted := SortBy(Filter(appointments, IsUpcoming(now)), AppointmentTime);
    TakeOfSortedIsSmallest(sorted, AppointmentTime, 3);
  }

  /** `getActiveFeedings`: the number of enabled schedules. */
  function ActiveFeedings(schedules: seq<FeedingSchedule>): (n: nat)
    ensures n <= |schedules|
  {
    |Filter(schedules, (s: FeedingSchedule) => s.enabled)|
  }

  /** All schedules count exactly when all are enabled, and none exactly when none is. */
  lemma ActiveFeedingsBounds(schedules: seq<FeedingSchedule>)
    ensures ActiveFeedings(schedules) == |schedules| <==> forall i :: 0 <= i < |schedules| ==> schedules[i].enabled
    ensures ActiveFeedings(schedules) == 0 <==> forall i :: 0 <= i < |schedules| ==> !schedules[i].enabled
  {
    var enabled := (s: FeedingSchedule) => s.enabled;
    FilterKeepsAll(schedules, enabled);
    if exists i :: 0 <= i < |schedules| && schedules[i].enabled {
      var i :| 0 <= i < |schedules| && schedules[i].enabled;
      FilterMembership(schedules, enabled, schedules[i]);
    } else {
      var kept := Filter(schedules, enabled);
      if kept != [] {
        FilterMembership(schedules, enabled, kept[0]);
      }
    }
  }

  /** The test of `getOverdueCount`. */
  function IsOpenAndOverdue(now: int): Reminder -> bool {
    (r: Reminder) => !r.completed && IsOverdue(r.dateTime, now)
  }

  function OverdueCount(reminders: seq<Reminder>, now: int): (n: nat)
    ensures n <= |reminders|
  {
    |Filter(reminders, IsOpenAndOverdue(now))|
  }

  /** The Dashboard's overdue count is the Reminders page's 'overdue' count; snoozing does not lower it. */
  lemma OverdueCountMatchesRemindersTab(reminders: seq<Reminder>, id: int, until: int, now: int)
    ensures OverdueCount(reminders, now) == GetCounts(reminders, now).overdue
    ensures OverdueCount(SnoozeLocally(reminders, id, until), now) == OverdueCount(reminders, now)
  {
    var snoozed := SnoozeLocally(reminders, id, until);
    FilterFilter(reminders, IsActive, Selector(Overdue, now), IsOpenAndOverdue(now));
    FilterFilter(snoozed, IsActive, Selector(Overdue, now), IsOpenAndOverdue(now));
    SnoozeKeepsCounts(reminders, id, until, now);
  }

  /** The page's state: the loaded lists and the load error. */
  class DashboardPage {
    var reminders: seq<Reminder>
    var appointments: seq<Appointment>
    var feedingSchedules: seq<FeedingSchedule>
    var error: string

    /** The page before its first load: empty lists, no error. */
    constructor()
      ensures reminders == [] && appointments == [] && feedingSchedules == [] && error == ""
    {
      reminders, appointments, feedingSchedules, error := [], [], [], "";
    }

    /** `loadData`: `fetched` is what the `Promise.all` of the services' `getAll` calls settled to; one
        rejection rejects it all. The error is cleared first; a failure keeps the lists already shown. */
    method LoadData(fetched: Result<(seq<Reminder>, seq<Appointment>, seq<FeedingSchedule>)>)
      modifies this`reminders, this`appointments, this`feedingSchedules, this`error
      ensures fetched.Ok? ==>
        && reminders == fetched.value.0 && appointments == fetched.value.1
        && feedingSchedules == fetched.value.2 && error == ""
      ensures fetched.Err? ==>
        && reminders == old(reminders) && appointments == old(appointments)
        && feedingSchedules == old(feedingSchedules) && error == "Failed to load dashboard data"
    {
      error := "";
      if fetched.Ok? {
        reminders, appointments, feedingSchedules := fetched.value.0, fetched.value.1, fetched.value.2;
      } else {
        error := "Failed to load dashboard data";
      }
    }

    /** `handleCompleteReminder`: `saved` is whether `reminderService.update` resolved. */
    method HandleCompleteReminder(id: int, saved: bool)
      modifies this`reminders
      ensures reminders == if saved then CompleteLocally(old(reminders), id) else old(reminders)
    {
      if saved {
        reminders := CompleteLocally(reminders, id);
      }
    }

    /** `handleSnoozeReminder`: one hour from `now`. */
    method HandleSnoozeReminder(id: int, now: int, saved: bool)
      modifies this`reminders
      ensures reminders == if saved then SnoozeLocally(old(reminders), id, now + MsPerHour) else old(reminders)
    {
      var snoozeUntil := now + MsPerHour;
      if saved {
        reminders := SnoozeLocally(reminders, id, snoozeUntil);
      }
    }
  }
}
