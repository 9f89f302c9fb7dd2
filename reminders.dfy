/** The Reminders page: the list of active reminders narrowed by the selected filter tab and sorted by
    date, the counts shown on the tabs, and the complete and snooze handlers that update the local list
    once the reminder service has accepted the change. */
module Reminders {
  import opened Wrappers
  import opened Clock
  import opened Seqs
  import opened Entities
  import opened ReminderCard

  /** The filter tab (`filter` state); any other key falls to the `default` branch, which is `All`. */
  datatype FilterKind = All | Today | Overdue | Upcoming

  /** `r => !r.completed`. */
  function IsActive(r: Reminder): bool {
    !r.completed
  }

  /** The extra test each tab applies to the active reminders. */
  function Selector(f: FilterKind, now: int): Reminder -> bool {
    match f
    case All => (r: Reminder) => true
    case Today => (r: Reminder) => IsToday(r.dateTime, now)
    case Overdue => (r: Reminder) => IsOverdue(r.dateTime, now)
    case Upcoming => (r: Reminder) => IsFuture(r.dateTime, now)
  }

  /** The reminders a tab lists, before sorting. */
  function Selected(reminders: seq<Reminder>, f: FilterKind, now: int): seq<Reminder> {
    Filter(Filter(reminders, IsActive), Selector(f, now))
  }

  /** `getFilteredReminders`: the active reminders, narrowed by the tab's test, sorted by date. */
  method FilteredReminders(reminders: seq<Reminder>, filter: FilterKind, now: int) returns (filtered: seq<Reminder>)
    ensures SortedBy(filtered, ReminderTime)
    ensures forall x :: multiset(filtered)[x]
                     == if IsActive(x) && Selector(filter, now)(x) then multiset(reminders)[x] else 0
    ensures |filtered| == CountOf(GetCounts(reminders, now), filter)
  {
    var active := Filter(reminders, IsActive);
    FilterMultiset(reminders, IsActive);
    var selected := active;
    match filter {
      case Today =>
        selected := Filter(active, Selector(Today, now));
      case Overdue =>
        selected := Filter(active, Selector(Overdue, now));
      case Upcoming =>
        selected := Filter(active, Selector(Upcoming, now));
      case All =>
    }
    if filter != All {
      FilterMultiset(active, Selector(filter, now));
    }
    filtered := SortBy(selected, ReminderTime);
  }

  /** The numbers on the tabs (`getCounts`). */
  datatype Counts = Counts(all: nat, today: nat, overdue: nat, upcoming: nat)

  function GetCounts(reminders: seq<Reminder>, now: int): (c: Counts)
    ensures c.today <= c.all && c.overdue <= c.all && c.upcoming <= c.all
  {
    var active := Filter(reminders, IsActive);
    Counts(|active|,
           |Filter(active, Selector(Today, now))|,
           |Filter(active, Selector(Overdue, now))|,
           |Filter(active, Selector(Upcoming, now))|)
  }

  function CountOf(c: Counts, f: FilterKind): nat {
    match f
    case All => c.all
    case Today => c.today
    case Overdue => c.overdue
    case Upcoming => c.upcoming
  }

  /** Active reminders dated on a later day than today. */
  function OnLaterDay(now: int): Reminder -> bool {
    (r: Reminder) => DayOf(now) < DayOf(r.dateTime)
  }

  /** Active reminders due later today: counted both under 'today' and under 'upcoming'. */
  function LaterToday(now: int): Reminder -> bool {
    (r: Reminder) => IsToday(r.dateTime, now) && IsFuture(r.dateTime, now)
  }

  /** The tabs split the active reminders: every one is today's, overdue, or on a later day, and 'upcoming'
      counts the later-day ones plus those due later today. */
  lemma CountsPartition(reminders: seq<Reminder>, now: int)
    ensures var c := GetCounts(reminders, now);
      var active := Filter(reminders, IsActive);
      && c.all == c.today + c.overdue + |Filter(active, OnLaterDay(now))|
      && c.upcoming == |Filter(active, LaterToday(now))| + |Filter(active, OnLaterDay(now))|
  {
    var active := Filter(reminders, IsActive);
    var notToday := (r: Reminder) => !IsToday(r.dateTime, now);
    var past := (r: Reminder) => IsPast(r.dateTime, now);
    var today := Selector(Today, now);
    forall i | 0 <= i < |active| ensures
      && (notToday(active[i]) && !past(active[i])) == OnLaterDay(now)(active[i])
      && (Selector(Upcoming, now)(active[i]) && !today(active[i])) == OnLaterDay(now)(active[i])
    {
      Classification(active[i].dateTime, now);
    }
    FilterKeepsAll(active, Selector(All, now));
    FilterCountSplit(active, Selector(All, now), today, notToday, today);
    FilterCountSplit(active, notToday, Selector(Overdue, now), OnLaterDay(now), past);
    FilterCountSplit(active, Selector(Upcoming, now), LaterToday(now), OnLaterDay(now), today);
  }

  /** `prev.filter(r => r.Id !== reminderId)` after a completed reminder is saved. */
  function CompleteLocally(reminders: seq<Reminder>, id: int): (r: seq<Reminder>)
    ensures |r| <= |reminders|
    ensures forall i :: 0 <= i < |r| ==> r[i].id != id
  {
    Filter(reminders, ReminderIdIsNot(id))
  }

  /** Completing removes exactly the reminders with that `Id`. */
  lemma CompleteLocallyMembership(reminders: seq<Reminder>, id: int)
    ensures forall x :: x in CompleteLocally(reminders, id) <==> x in reminders && x.id != id
  {
    forall x {
      FilterMembership(reminders, ReminderIdIsNot(id), x);
    }
  }

  /** After completing, every tab lists what it listed before minus that reminder, in the same order. */
  lemma {:induction false} CompleteNarrowsEveryTab(reminders: seq<Reminder>, id: int, f: FilterKind, now: int)
    ensures Selected(CompleteLocally(reminders, id), f, now)
         == Filter(Selected(reminders, f, now), ReminderIdIsNot(id))
  {
    var idNot := ReminderIdIsNot(id);
    var sel := Selector(f, now);
    var idActive := (r: Reminder) => r.id != id && IsActive(r);
    var activeSel := (r: Reminder) => IsActive(r) && sel(r);
    var lhs := (r: Reminder) => (r.id != id && IsActive(r)) && sel(r);
    var rhs := (r: Reminder) => (IsActive(r) && sel(r)) && r.id != id;
    FilterFilter(reminders, idNot, IsActive, idActive);
    FilterFilter(reminders, idActive, sel, lhs);
    FilterFilter(reminders, IsActive, sel, activeSel);
    FilterFilter(reminders, activeSel, idNot, rhs);
    FilterCongruent(reminders, lhs, rhs);
  }

  /** `prev.map(r => r.Id === reminderId ? { ...r, snoozedUntil } : r)`. What a snooze means for the pages
      is stated by `SnoozeKeepsCounts` (no tab count changes) and `Dashboard.SnoozeHidesForAnHour`. */
  function SnoozeLocally(reminders: seq<Reminder>, id: int, until: int): (r: seq<Reminder>)
    ensures |r| == |reminders|
    ensures forall i :: 0 <= i < |r| ==>
      r[i] == if reminders[i].id == id then reminders[i].(snoozedUntil := Some(until)) else reminders[i]
  {
    seq(|reminders|, i requires 0 <= i < |reminders| =>
      if reminders[i].id == id then reminders[i].(snoozedUntil := Some(until)) else reminders[i])
  }

  /** Snoozing changes no tab's count: the tabs look at `completed` and `dateTime`, never at `snoozedUntil`. */
  lemma SnoozeKeepsCounts(reminders: seq<Reminder>, id: int, until: int, now: int)
    ensures GetCounts(SnoozeLocally(reminders, id, until), now) == GetCounts(reminders, now)
  {
    var snoozed := SnoozeLocally(reminders, id, until);
    FilterCountPointwise(snoozed, reminders, IsActive);
    forall f: FilterKind
      ensures |Filter(Filter(snoozed, IsActive), Selector(f, now))| == |Filter(Filter(reminders, IsActive), Selector(f, now))|
    {
      var both := (r: Reminder) => IsActive(r) && Selector(f, now)(r);
      FilterFilter(snoozed, IsActive, Selector(f, now), both);
      FilterFilter(reminders, IsActive, Selector(f, now), both);
      FilterCountPointwise(snoozed, reminders, both);
    }
    assert CountOf(GetCounts(snoozed, now), Today) == CountOf(GetCounts(reminders, now), Today);
    assert CountOf(GetCounts(snoozed, now), Overdue) == CountOf(GetCounts(reminders, now), Overdue);
    assert CountOf(GetCounts(snoozed, now), Upcoming) == CountOf(GetCounts(reminders, now), Upcoming);
  }

  /** The page's own state: the loaded reminders, the load error and the selected tab. */
  class RemindersPage {
    var reminders: seq<Reminder>
    var error: string
    var filter: FilterKind

    /** The page before its first load: no reminders, no error, the 'all' tab. */
    constructor()
      ensures reminders == [] && error == "" && filter == All
    {
      reminders := [];
      error := "";
      filter := All;
    }

    /** `loadData`: `fetched` is the reminders of the `Promise.all` over the reminder and pet services'
        `getAll`, or its rejection. The error is cleared first; a failure keeps the reminders already shown. */
    method LoadData(fetched: Result<seq<Reminder>>)
      modifies this`reminders, this`error
      ensures fetched.Ok? ==> reminders == fetched.value && error == ""
      ensures fetched.Err? ==> reminders == old(reminders) && error == "Failed to load reminders"
    {
      error := "";
      if fetched.Ok? {
        reminders := fetched.value;
      } else {
        error := "Failed to load reminders";
      }
    }

    method SetFilter(f: FilterKind)
      modifies this`filter
      ensures filter == f
    {
      filter := f;
    }

    /** `handleCompleteReminder`; `saved` is whether `reminderService.update(id, { completed: true })`
        resolved. A rejection leaves the list as it was. */
    method HandleCompleteReminder(id: int, saved: bool)
      modifies this`reminders
      ensures reminders == if saved then CompleteLocally(old(reminders), id) else old(reminders)
    {
      if saved {
        reminders := CompleteLocally(reminders, id);
      }
    }

    /** `handleSnoozeReminder`: snoozes for one hour from `now`; `saved` is whether the service accepted. */
    method HandleSnoozeReminder(id: int, now: int, saved: bool)
      modifies this`reminders
      ensures reminders == if saved then SnoozeLocally(old(reminders), id, now + MsPerHour) else old(reminders)
    {
      var snoozeUntil := now + MsPerHour;
      if saved {
        reminders := SnoozeLocally(reminders, id, snoozeUntil);
      }
    }
  }
}
