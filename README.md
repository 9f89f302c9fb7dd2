# PetPal Drive — a Dafny model of the services, pages and forms

PetPal Drive is a single-page React application for keeping track of pets: their feeding schedules, vet
appointments, vaccinations and care reminders. This project models its core and proves properties of
the model:

- the five in-memory mock services (`getAll`, `getById`, `create`, `update`, `deleteItem` over a module-level
  array of records keyed by a numeric `Id`);
- the Reminders page (filter tabs, tab counts, complete and snooze);
- the Dashboard (reminders due now, the next three appointments, active feedings, the overdue count);
- the Schedule page (calendar cells per day, month navigation, list order, add/edit/submit/delete);
- the pet detail page (loading by route, tracking sliders, feeding-schedule toggle and delete, overview
  lists, appointments tab);
- the Pets page (load, add, edit, submit, cancel);
- the reminder card (overdue/today classification, icon, colour, badge);
- the pet card (age text, type icon, avatar, subtitle, detail route);
- the appointment and pet forms (validation on submit, error clearing on change, prefill);
- the layout (which navigation item is highlighted, the mobile menu).

Modules, one per file: `Wrappers` (Option, Result), `Clock` (instants and calendar days), `Seqs`
(`filter`, `slice`, a stable sort, replace-by-test), `Text` (`trim`, `toLowerCase`, `startsWith`,
`parseInt`, number printing), `Services`, `Entities` (the records the pages hold), `FormState`,
`ReminderCard`, `Reminders`, `Dashboard`, `Schedule`, `PetCard`, `PetDetail`, `Pets`, `AppointmentForm`,
`PetForm` and `Layout`.

How the model reads the program:

- State that a component keeps with `useState` and changes in its handlers is a `class` whose fields the
  handler methods reassign. A `prev.map(...)`, `prev.filter(...)` or `[...prev, x]` update becomes an
  assignment of the corresponding function of the old value.
- The service arrays are mutated in place (`push`, `splice`, index assignment), so one `Services.Table`
  class holds the array. One named constructor per service fixes what the five files differ in: the
  defaults that `create` sets and the not-found message.
- A settled promise is a `Result`: `Ok` when it resolved, `Err` when it rejected. A handler receives the
  outcome of the service call it awaits as a parameter. The answer to `window.confirm` is a `bool`
  parameter, and so is "now" (`new Date()`).
- Instants are integers (milliseconds on the local wall clock). A calendar day is `DayOf(t) = t / 86400000`.
- A JavaScript object is a `map<string, Value>`; an absent key is `undefined`. `Truthy` is JavaScript
  truthiness.
- An appointment's `petId` is a `Value`, not a number: the fixtures hold numbers, but an appointment
  booked through the form holds the `<select>`'s text. Comparisons with `===` are equality of `Value`s, so
  a number never equals its text.

## Model

| member | source | states |
|---|---|---|
| Services.Table.ForPets | src/services/api/petService.js:6-31 | the pet table starts as the fixture array, creates with no defaults, and rejects an unknown `Id` with 'Pet not found' |
| Services.Table.ForReminders | src/services/api/reminderService.js:21-32 | the reminder table's `create` defaults `completed` to false and `snoozedUntil` to null; its not-found message is 'Reminder not found' |
| Services.Table.ForAppointments | src/services/api/appointmentService.js:21-31 | the appointment table's `create` defaults `completed` to false; its not-found message is 'Appointment not found' |
| Services.Table.ForFeedingSchedules | src/services/api/feedingService.js:5-17 | the feeding table has no create defaults; its not-found message is 'Feeding schedule not found' |
| Services.Table.ForVaccinations | src/services/api/vaccinationService.js:5-17 | the vaccination table has no create defaults; its not-found message is 'Vaccination not found' |
| Services.Table.GetAll | src/services/api/petService.js:8-11 | `getAll` returns the table's records, element for element, and changes nothing |
| Services.Table.GetById | src/services/api/petService.js:13-20 | resolves exactly when some record has the `Id`, to the first such record; otherwise rejects with the service's not-found message |
| Services.Table.Create | src/services/api/petService.js:22-31 | appends `{Id: max+1, ...defaults, ...data}` and returns it; with no caller `Id` the table's `Id`s stay distinct |
| Services.Table.Update | src/services/api/petService.js:33-41 | overlays the patch on the first record with the `Id` and returns the result; an unknown `Id` rejects and leaves the table unchanged; a patch without `Id` keeps `Id`s distinct |
| Services.Table.DeleteItem | src/services/api/petService.js:43-50 | splices out the first record with the `Id` and resolves true; an unknown `Id` rejects and changes nothing; with distinct `Id`s none with that `Id` is left |
| Services.NewRecord | src/services/api/petService.js:25-28 | `{Id, ...defaults, ...data}` has the keys of all three; the caller's values win, then the defaults, and the generated `Id` stands when neither supplies one |
| Services.MaxId | src/services/api/petService.js:24 | `Math.max` of the `Id`s is an upper bound that some record attains |
| Services.NextId | src/services/api/petService.js:24-26 | the new `Id` exceeds every existing one, is 1 for an empty table, and is one more than an existing `Id` otherwise |
| Services.FindIndex | src/services/api/petService.js:35-36 | `findIndex` is the first position holding the `Id`, or -1 exactly when none does |
| Services.CreateKeepsIdsDistinct | src/services/api/petService.js:24-29 | appending a record with the generated `Id` keeps all `Id`s numeric and distinct |
| Services.UpdateKeepsIdsDistinct | src/services/api/petService.js:39 | a patch without an `Id` keeps every record's `Id` and their distinctness |
| Services.DeleteRemovesTheId | src/services/api/petService.js:45-49 | with distinct `Id`s, the splice leaves no record with the deleted `Id` |
| Services.ReminderCreateDefaults | src/services/api/reminderService.js:24-29 | `completed` and `snoozedUntil` take the defaults unless supplied; every supplied property, `Id` included, wins |
| Services.AppointmentCreateDefaults | src/services/api/appointmentService.js:24-28 | `completed` is false unless supplied; every supplied property wins |
| Services.PlainCreate | src/services/api/petService.js:25-28 | a pet record is the caller's data plus the generated `Id`, unless the caller supplies one |
| Services.PatchOverlay | src/services/api/petService.js:39 | `{...record, ...patch}` has both key sets, the patch's values win, the rest keep theirs |
| Services.CallerIdCanDuplicate | src/services/api/petService.js:25-28 | a caller-supplied `Id` overrides the generated one, so `create` can produce a duplicate `Id` |
| Text.Trim | src/components/organisms/AppointmentForm.jsx:49 | `s.trim()` drops leading and trailing ECMAScript white space; its contract is carried by `Text.TrimEmptyIffBlank` and `FormState.TrimsToEmpty` |
| Text.ParseInt | src/components/pages/PetDetail.jsx:41 | `parseInt(s)` skips leading white space and reads a sign and digits, `None` standing for `NaN`; its contract is carried by `Text.ParseIntNumberString` and `Text.ParseIntLeadingNumber` |
| Text.TrimEmptyIffBlank | src/components/organisms/PetForm.jsx:49 | `s.trim()` is empty exactly when every character of `s` is ECMAScript white space |
| Text.ToLower | src/components/molecules/PetCard.jsx:40 | `toLowerCase` keeps the length and lowers each ASCII letter |
| Text.ParseIntNumberString | src/components/pages/PetDetail.jsx:41 | `parseInt` reads back every integer that a template literal prints |
| Text.ParseIntLeadingNumber | src/components/molecules/PetCard.jsx:23 | `parseInt` reads the number at the head of a text such as "3 years old" |
| Seqs.TakeOfFilter | src/components/pages/PetDetail.jsx:342-344 | `filter(p).slice(0, n)` has min(n, matches) entries, is a prefix of the matches in list order, holds only elements of the list that pass `p`, and misses none when at most `n` pass |
| Seqs.SortBy | src/components/pages/Schedule.jsx:262-263 | `sort` by a date comparator keeps the length, is a permutation of its input and is ordered by the key |
| Seqs.SortBySorted | src/components/pages/Schedule.jsx:262-263 | sorting a list already in key order leaves it unchanged |
| Seqs.SortByIsStable | src/components/pages/Schedule.jsx:262-263 | elements with equal keys keep their relative order through the sort |
| Clock.DayOfMonotonic | src/components/molecules/ReminderCard.jsx:10-11 | a later instant never falls on an earlier calendar day |
| ReminderCard.IsOverdue | src/components/molecules/ReminderCard.jsx:10 | `isPast && !isToday`; its meaning, an earlier calendar day, is `ReminderCard.OverdueIffEarlierDay` |
| ReminderCard.IsTodays | src/components/molecules/ReminderCard.jsx:11 | `isToday`; how it relates to overdue and future is `ReminderCard.Classification` |
| ReminderCard.OverdueIffEarlierDay | src/components/molecules/ReminderCard.jsx:10 | `isPast && !isToday` holds exactly when the reminder is dated on an earlier calendar day |
| ReminderCard.Classification | src/components/molecules/ReminderCard.jsx:10-11 | an instant is never both overdue and today's, is always overdue, today's or on a later day, and a later day is in the future |
| ReminderCard.TodayBoundaries | src/components/molecules/ReminderCard.jsx:10-11 | before today's midnight is overdue; later today is both today's and future; earlier today is today's and not overdue |
| ReminderCard.ReminderIcon | src/components/molecules/ReminderCard.jsx:13-21 | the icon is 'Bell' exactly for an unknown type, and otherwise one of the four mapped icons |
| ReminderCard.ReminderColor | src/components/molecules/ReminderCard.jsx:23-31 | the colour is 'default' exactly for an unknown type and 'error' exactly for medication |
| ReminderCard.BadgeVariant | src/components/molecules/ReminderCard.jsx:49-50 | the badge is 'error' exactly when the reminder is overdue or a medication, and the type's colour when not overdue |
| ReminderCard.BadgeDependsOnDayAndKind | src/components/molecules/ReminderCard.jsx:49-50 | two reminders of one type on one day get the same badge |
| Reminders.Selector | src/components/pages/Reminders.jsx:76-97 | each tab's extra test on the active reminders (none, `isToday`, `isPast && !isToday`, `isFuture`); what each tab then lists is `Reminders.FilteredReminders` and `Reminders.CountsPartition` |
| Reminders.FilteredReminders | src/components/pages/Reminders.jsx:76-97 | the tab's list is sorted by date, holds each active reminder that passes the tab's test as often as the input does and nothing else, and its length is the tab's count |
| Reminders.GetCounts | src/components/pages/Reminders.jsx:99-109 | no tab counts more than 'all' |
| Reminders.CountsPartition | src/components/pages/Reminders.jsx:76-109 | 'all' is today + overdue + later days; 'upcoming' is later-today plus later days |
| Reminders.CompleteLocally | src/components/pages/Reminders.jsx:44-52 | after completing, no reminder with that `Id` is listed and the list does not grow |
| Reminders.CompleteLocallyMembership | src/components/pages/Reminders.jsx:48 | completing removes exactly the reminders with that `Id` |
| Reminders.CompleteNarrowsEveryTab | src/components/pages/Reminders.jsx:48 | every tab then lists what it listed before minus that reminder, in the same order |
| Reminders.SnoozeLocally | src/components/pages/Reminders.jsx:54-74 | the snoozed reminder gets `snoozedUntil` and every other entry stays as it was |
| Reminders.SnoozeKeepsCounts | src/components/pages/Reminders.jsx:99-109 | snoozing changes no tab count |
| Reminders.RemindersPage.constructor | src/components/pages/Reminders.jsx:16-20 | the page starts with no reminders, no error and the 'all' tab |
| Reminders.RemindersPage.LoadData | src/components/pages/Reminders.jsx:22-38 | a resolved load replaces the list and clears the error; a rejection keeps the list and sets 'Failed to load reminders' |
| Reminders.RemindersPage.SetFilter | src/components/pages/Reminders.jsx:20 | selecting a tab sets the filter |
| Reminders.RemindersPage.HandleCompleteReminder | src/components/pages/Reminders.jsx:44-52 | a saved completion drops the reminder from the list; a failure changes nothing |
| Reminders.RemindersPage.HandleSnoozeReminder | src/components/pages/Reminders.jsx:54-74 | a saved snooze sets `snoozedUntil` to one hour from now; a failure changes nothing |
| Dashboard.IsDueNow | src/components/pages/Dashboard.jsx:89-95 | the due-now test: open, not snoozed past now, dated today or earlier; stated as a membership rule by `Dashboard.TodaysRemindersExactly` |
| Dashboard.TodaysReminders | src/components/pages/Dashboard.jsx:89-95 | the due list is drawn from the reminders and holds no completed one |
| Dashboard.TodaysRemindersExactly | src/components/pages/Dashboard.jsx:89-95 | a reminder is due exactly when it is listed, open, not snoozed past now and dated today or earlier; each is today's or overdue |
| Dashboard.SnoozeHidesForAnHour | src/components/pages/Dashboard.jsx:67-95 | a reminder snoozed now stays off the due list for the next hour |
| Dashboard.UpcomingAppointments | src/components/pages/Dashboard.jsx:97-102 | at most three appointments, each open and in the future, in date order |
| Dashboard.UpcomingAreCandidates | src/components/pages/Dashboard.jsx:97-102 | the list has min(3, candidates) entries, drawn from the open future appointments without repetition |
| Dashboard.UpcomingAreTheEarliest | src/components/pages/Dashboard.jsx:97-102 | no open future appointment left out is earlier than one shown |
| Dashboard.ActiveFeedings | src/components/pages/Dashboard.jsx:104-106 | the active count is at most the number of schedules |
| Dashboard.ActiveFeedingsBounds | src/components/pages/Dashboard.jsx:104-106 | it is the total exactly when all are enabled and 0 exactly when none is |
| Dashboard.OverdueCount | src/components/pages/Dashboard.jsx:108-114 | the overdue count is at most the number of reminders |
| Dashboard.OverdueCountMatchesRemindersTab | src/components/pages/Dashboard.jsx:108-114 | it equals the Reminders page's 'overdue' count, and snoozing does not lower it |
| Dashboard.DashboardPage.constructor | src/components/pages/Dashboard.jsx:22-27 | the page starts with empty lists and no error |
| Dashboard.DashboardPage.LoadData | src/components/pages/Dashboard.jsx:29-51 | a resolved load sets the three lists and clears the error; a rejection keeps them and sets 'Failed to load dashboard data' |
| Dashboard.DashboardPage.HandleCompleteReminder | src/components/pages/Dashboard.jsx:57-65 | a saved completion drops the reminder; a failure changes nothing |
| Dashboard.DashboardPage.HandleSnoozeReminder | src/components/pages/Dashboard.jsx:67-87 | a saved snooze sets `snoozedUntil` one hour ahead; a failure changes nothing |
| Schedule.AppointmentsForDate | src/components/pages/Schedule.jsx:95-100 | a day's list is drawn from the appointments and holds only appointments on that day |
| Schedule.DayCellsPartition | src/components/pages/Schedule.jsx:95-100 | a cell holds exactly the appointments on its day; cells of different days share none; days with the same date give the same list |
| Schedule.MonthOf | src/components/pages/Schedule.jsx:118 | `new Date(year, month)` normalises the month into 0..11 and keeps the month count, reading years 0..99 as 1900+ |
| Schedule.PreviousMonth | src/components/pages/Schedule.jsx:118 | the left chevron gives a valid month one month count below the input's, the two-digit years read as 1900+ |
| Schedule.FollowingMonth | src/components/pages/Schedule.jsx:124 | the right chevron gives a valid month one month count above the input's, the two-digit years read as 1900+ |
| Schedule.PreviousMonthStep | src/components/pages/Schedule.jsx:118 | outside the two-digit years the left chevron moves back one month, across a year boundary in January |
| Schedule.FollowingMonthStep | src/components/pages/Schedule.jsx:124 | outside the two-digit years the right chevron moves forward one month, across a year boundary in December |
| Schedule.MonthStepsInvert | src/components/pages/Schedule.jsx:118-124 | away from the two-digit years the chevrons undo each other |
| Schedule.TwoDigitYearStep | src/components/pages/Schedule.jsx:118-124 | from January of the year 100, back then forward lands on January 2000 |
| Schedule.Preview | src/components/pages/Schedule.jsx:155-170 | a cell shows the first two appointments and, past two, "+N more" with N the rest |
| Schedule.ListOrderSettles | src/components/pages/Schedule.jsx:262-263 | re-sorting the list on the next render changes nothing |
| Schedule.RemoveAppointment | src/components/pages/Schedule.jsx:81 | after a delete no appointment with that `Id` is listed |
| Schedule.RemoveAppointmentMembership | src/components/pages/Schedule.jsx:81 | a delete removes exactly the appointments with that `Id` |
| Schedule.SchedulePage.constructor | src/components/pages/Schedule.jsx:17-24 | the page starts empty, on the current month, in list view, with the form closed |
| Schedule.SchedulePage.LoadData | src/components/pages/Schedule.jsx:26-42 | a resolved load sets the appointments and clears the error; a rejection keeps them and sets 'Failed to load schedule data' |
| Schedule.SchedulePage.HandleAddAppointment | src/components/pages/Schedule.jsx:48-51 | opens an empty form |
| Schedule.SchedulePage.HandleEditAppointment | src/components/pages/Schedule.jsx:53-56 | opens the form on the appointment |
| Schedule.SchedulePage.HandleCancel | src/components/pages/Schedule.jsx:90-93 | closes the form, editing nothing |
| Schedule.SchedulePage.HandleSubmitAppointment | src/components/pages/Schedule.jsx:58-75 | on success, replaces the edited `Id`'s entries or appends the saved appointment as the service returned it (its `petId` the form's text, see Findings) and closes the form; on failure changes nothing |
| Schedule.SchedulePage.HandleDeleteAppointment | src/components/pages/Schedule.jsx:77-88 | removes the `Id` only when confirmed and the delete resolved |
| Schedule.SchedulePage.HandlePreviousMonth | src/components/pages/Schedule.jsx:118 | the calendar shows the previous month |
| Schedule.SchedulePage.HandleNextMonth | src/components/pages/Schedule.jsx:124 | the calendar shows the following month |
| Schedule.SchedulePage.SetViewMode | src/components/pages/Schedule.jsx:215-226 | the buttons switch between list and calendar views |
| Schedule.SchedulePage.RenderList | src/components/pages/Schedule.jsx:262-263 | the list view sorts the state array itself by date, keeping its elements |
| PetCard.Quantity | src/components/molecules/PetCard.jsx:23 | an age text starts with a digit |
| PetCard.QuantityPlural | src/components/molecules/PetCard.jsx:23 | a year or month count ends in "s old" exactly when it is more than one, and in the singular otherwise: "1 year old", "2 months old" |
| PetCard.QuantityReadsBack | src/components/molecules/PetCard.jsx:23 | the number at the head of "N years old" is N |
| PetCard.AgeText | src/components/molecules/PetCard.jsx:15-29 | as written: 'Unknown age' exactly without a birth date; years once the year difference is positive; else months when positive; else 'Less than 1 month old' |
| PetCard.AgeTextIgnoresMonths | src/components/molecules/PetCard.jsx:19-23 | as written, once the years differ the birth month changes nothing and the text reads back the year difference |
| PetCard.AgeTextFinding | src/components/molecules/PetCard.jsx:19-28 | a December 2023 birth is "1 year old" in January 2024 as written, "1 month old" as intended |
| PetCard.IntendedAgeText | src/components/pages/PetDetail.jsx:118-132 | the corrected age text: 'Unknown age' exactly without a birth date, 'Less than 1 month old' before a whole month has passed |
| PetCard.IntendedAgeTextYears | src/components/pages/PetDetail.jsx:118-132 | the corrected text gives whole years once twelve whole months have passed, whole months before that, and reads back the count |
| PetCard.AgeTextAgreesOnceBirthdayReached | src/components/molecules/PetCard.jsx:19-28 | the written and corrected texts agree once this year's birthday has been reached |
| PetCard.PetIcon | src/components/molecules/PetCard.jsx:31-41 | 'Heart' exactly for a missing or unmapped type, 'Mouse' exactly for a hamster |
| PetCard.PetIconIgnoresCase | src/components/pages/PetDetail.jsx:133-143 | the icon lookup ignores the type's case |
| PetCard.PetRoute | src/components/molecules/PetCard.jsx:11-13 | the card navigates to a route under '/pets/' |
| PetCard.PetRouteRoundTrip | src/components/molecules/PetCard.jsx:12 | the detail page's `parseInt` of the route parameter is the card's `Id` |
| PetCard.AvatarOf | src/components/molecules/PetCard.jsx:54-62 | a photo exactly when `photoUrl` is set, otherwise the name's first character upper-cased |
| PetCard.Subtitle | src/components/molecules/PetCard.jsx:66 | the breed when set, otherwise the type |
| PetDetail.TrackingLevel | src/components/pages/PetDetail.jsx:48-49 | a missing or zero level shows as 5, any other as stored |
| PetDetail.SchedulesForPet | src/components/pages/PetDetail.jsx:50 | `filter(f => f.petId === parseInt(id))`: nothing for a non-numeric route, otherwise only schedules of that pet |
| PetDetail.AppointmentsForPet | src/components/pages/PetDetail.jsx:51 | nothing for a non-numeric route, otherwise only appointments whose `petId` is strictly the number |
| PetDetail.VaccinationsForPet | src/components/pages/PetDetail.jsx:52 | nothing for a non-numeric route, otherwise only vaccinations of that pet |
| PetDetail.LoadedRecordsBelongToThePet | src/components/pages/PetDetail.jsx:50-52 | reached from a card, the page keeps exactly that pet's schedules and vaccinations, and exactly the appointments whose `petId` is the number `Id` |
| PetDetail.FormBookedAppointmentIsLeftOut | src/components/pages/PetDetail.jsx:51 | as written, an appointment created from the form's data holds the pet as text and is missing from that pet's page |
| PetDetail.ParsedSelectionIsKept | src/components/pages/PetDetail.jsx:51 | with the selection parsed to a number, the created appointment is on its pet's page |
| PetDetail.FindSchedule | src/components/pages/PetDetail.jsx:67 | `find` returns the first schedule in the list with the `Id`, or none exactly when no entry has it |
| PetDetail.Toggled | src/components/pages/PetDetail.jsx:65-80 | an accepted toggle replaces that `Id`'s entries with the stored record, `enabled` flipped; an unknown `Id` changes nothing |
| PetDetail.ToggleTwiceRestores | src/components/pages/PetDetail.jsx:65-80 | with the service in step, toggling twice restores the list |
| PetDetail.RecentActivity | src/components/pages/PetDetail.jsx:342-344 | at most three appointments, all completed |
| PetDetail.RecentActivityIsFirstCompleted | src/components/pages/PetDetail.jsx:342-344 | min(3, completed) entries: the first completed appointments in list order, each from the list, none left out when at most three are completed |
| PetDetail.UpcomingForPet | src/components/pages/PetDetail.jsx:365-367 | at most three appointments, all open and in the future |
| PetDetail.UpcomingForPetIsFirstUpcoming | src/components/pages/PetDetail.jsx:365-367 | min(3, candidates) entries: the first open future appointments in list order, each from the list, none left out when at most three qualify |
| PetDetail.UpcomingForPetOnSortedList | src/components/pages/PetDetail.jsx:365-367 | on a date-ordered list the overview's upcoming entries are the Dashboard's |
| PetDetail.UpcomingAfterAppointmentsTab | src/components/pages/PetDetail.jsx:433-434 | once the tab has sorted newest first, no upcoming appointment left out is later than one shown |
| PetDetail.PetDetailPage.constructor | src/components/pages/PetDetail.jsx:25-33 | the page starts with no pet, empty lists, levels 5, no error, on the overview tab |
| PetDetail.PetDetailPage.LoadData | src/components/pages/PetDetail.jsx:35-59 | success sets the pet, the levels and the pet's three lists (appointments matched strictly on the number) and clears the error; a rejection sets 'Failed to load pet details' and changes nothing else |
| PetDetail.PetDetailPage.HandleToggleFeedingSchedule | src/components/pages/PetDetail.jsx:65-80 | the list becomes the toggled list when the update resolves, and stays as it was otherwise |
| PetDetail.PetDetailPage.HandleDeleteFeedingSchedule | src/components/pages/PetDetail.jsx:82-92 | removes the schedule's `Id` only when confirmed and the delete resolved |
| PetDetail.PetDetailPage.HandleDeleteAppointment | src/components/pages/PetDetail.jsx:94-104 | removes the appointment's `Id` only when confirmed and the delete resolved |
| PetDetail.PetDetailPage.HandleUpdateTracking | src/components/pages/PetDetail.jsx:106-117 | a saved update sets the pet and the chosen level only; a failure changes nothing |
| PetDetail.PetDetailPage.Slide | src/components/pages/PetDetail.jsx:278-282 | the slider sets its level first, so the level stays even when the update fails |
| PetDetail.PetDetailPage.SetActiveTab | src/components/pages/PetDetail.jsx:243 | a tab button selects that tab |
| PetDetail.PetDetailPage.RenderAppointmentsTab | src/components/pages/PetDetail.jsx:433-434 | the tab sorts the state array itself newest first, keeping its elements |
| Pets.EditReplacesOnlyTheEditedPet | src/components/pages/Pets.jsx:50-51 | a saved edit puts the saved pet where the edited one was, leaves the others, and keeps `Id`s distinct |
| Pets.AddKeepsIdsDistinct | src/components/pages/Pets.jsx:54-55 | appending a pet with a new `Id` keeps `Id`s distinct |
| Pets.PetsPage.constructor | src/components/pages/Pets.jsx:13-17 | the page starts with no pets, no error and the form closed |
| Pets.PetsPage.LoadPets | src/components/pages/Pets.jsx:19-31 | a resolved load replaces the list and clears the error; a rejection keeps it and sets 'Failed to load pets' |
| Pets.PetsPage.HandleAddPet | src/components/pages/Pets.jsx:37-40 | opens an empty form |
| Pets.PetsPage.HandleEditPet | src/components/pages/Pets.jsx:42-45 | opens the form on the pet |
| Pets.PetsPage.HandleSubmitPet | src/components/pages/Pets.jsx:47-64 | on success, replaces the edited `Id`'s entries or appends and closes the form; on failure changes nothing |
| Pets.PetsPage.HandleCancel | src/components/pages/Pets.jsx:66-69 | closes the form, editing nothing |
| FormState.ClearedOnChange | src/components/organisms/PetForm.jsx:67-69 | a change leaves no visible error on its field and keeps every other error |
| FormState.Flag | src/components/organisms/PetForm.jsx:49-50 | a failed check adds its message on its field and touches no other field |
| FormState.OrEmpty | src/components/organisms/PetForm.jsx:23-28 | a prefilled field keeps a truthy value and is '' otherwise |
| FormState.Prefill | src/components/organisms/PetForm.jsx:20-31 | the prefilled form has exactly the form's fields, each the edited record's value when truthy and '' otherwise |
| FormState.TrimsToEmpty | src/components/organisms/AppointmentForm.jsx:49 | `.trim()` succeeds exactly on a string, and is empty exactly when the string is blank |
| AppointmentForm.SelectedPet | src/components/organisms/AppointmentForm.jsx:89-99 | the pet `<select>` stores the chosen pet's `Id` as text, never as the number, and `parseInt` reads the `Id` back from it |
| AppointmentForm.ParsedSelectedPet | src/components/organisms/AppointmentForm.jsx:91 | as intended, the selection parsed back is the pet's `Id` as a number |
| AppointmentForm.ValidationErrors | src/components/organisms/AppointmentForm.jsx:45-49 | throws exactly when the reason is no string; otherwise flags each falsy pet, type and date-time and a blank reason, with its message, and nothing else |
| AppointmentForm.OptionalFieldsNeverValidated | src/components/organisms/AppointmentForm.jsx:45-49 | the veterinarian and notes never affect the errors |
| AppointmentForm.TextFormsValidate | src/components/organisms/AppointmentForm.jsx:45-53 | an all-text form never throws and passes exactly when pet, type and date-time are set and the reason is not blank |
| AppointmentForm.Form.constructor | src/components/organisms/AppointmentForm.jsx:8-30 | the form starts blank, or prefilled from the edited appointment, with no errors |
| AppointmentForm.Form.HandleSubmit | src/components/organisms/AppointmentForm.jsx:41-62 | `onSubmit` gets the data exactly when there are no errors; the shown errors are the validation's; a throwing trim leaves `isSubmitting` set |
| AppointmentForm.Form.HandleChange | src/components/organisms/AppointmentForm.jsx:64-69 | sets the field and clears that field's error |
| PetForm.ValidationErrors | src/components/organisms/PetForm.jsx:48-50 | throws exactly when the name is no string; otherwise flags a blank name and a falsy type, with their messages, and nothing else |
| PetForm.OptionalFieldsNeverValidated | src/components/organisms/PetForm.jsx:48-50 | breed, birth date, photo and notes never affect the errors |
| PetForm.TypeButtonsSatisfyTheTypeCheck | src/components/organisms/PetForm.jsx:33-41 | clicking any type button clears the type check |
| PetForm.TextFormsValidate | src/components/organisms/PetForm.jsx:48-54 | an all-text form never throws and passes exactly when the name is not blank and a type is chosen |
| PetForm.PrefilledNameIsChecked | src/components/organisms/PetForm.jsx:20-31 | a prefilled form never throws, and a missing name or type is reported |
| PetForm.Form.constructor | src/components/organisms/PetForm.jsx:9-31 | the form starts blank, or prefilled from the edited pet, with no errors |
| PetForm.Form.HandleSubmit | src/components/organisms/PetForm.jsx:43-63 | `onSubmit` gets the data exactly when there are no errors; the shown errors are the validation's; a throwing trim leaves `isSubmitting` set |
| PetForm.Form.HandleChange | src/components/organisms/PetForm.jsx:65-70 | sets the field and clears that field's error |
| Layout.IsActive | src/components/organisms/Layout.jsx:17-22 | the root item is highlighted only on '/', any other item on every path starting with its `href`; its consequences are the four lemmas below |
| Layout.DashboardOnlyAtRoot | src/components/organisms/Layout.jsx:17-22 | the Dashboard item is highlighted exactly on '/' |
| Layout.NonRootHrefsDiffer | src/components/organisms/Layout.jsx:10-15 | the other items' paths differ in their second character |
| Layout.AtMostOneActive | src/components/organisms/Layout.jsx:10-22 | on any path at most one item is highlighted |
| Layout.PetDetailHighlightsMyPets | src/components/organisms/Layout.jsx:17-22 | a pet's detail route highlights 'My Pets' and nothing else |
| Layout.LayoutState.constructor | src/components/organisms/Layout.jsx:7 | the mobile menu starts closed |
| Layout.LayoutState.ToggleMenu | src/components/organisms/Layout.jsx:62 | the menu button flips the menu |
| Layout.LayoutState.FollowMobileLink | src/components/organisms/Layout.jsx:87 | a mobile link closes the menu |

## Findings

| source | as written | input that shows it | evidently intended | confidence | as-written member | corrected member |
|---|---|---|---|---|---|---|
| src/components/molecules/PetCard.jsx:19-28 (same code at src/components/pages/PetDetail.jsx:122-131) | the age is the difference of calendar years whenever it is positive, whatever the months and days | born 2023-12-15, today 2024-01-15: "1 year old" | whole years once a full year has passed, whole months before that: "1 month old" | not executed | PetCard.AgeTextFinding | PetCard.IntendedAgeTextYears |
| src/components/organisms/AppointmentForm.jsx:91 with src/components/pages/PetDetail.jsx:51 | the pet `<select>` stores `e.target.value`, the `Id` as text; `create` keeps it, and the detail page compares `a.petId === parseInt(id)` strictly | book an appointment for pet 3 through the Schedule page's form, then open `/pets/3`: the appointment is not listed | the selection stored as the number (`parseInt(e.target.value)`), so the appointment shows on its pet's page | not executed | PetDetail.FormBookedAppointmentIsLeftOut | PetDetail.ParsedSelectionIsKept |

## Left out

- The simulated latency (`await delay(ms)`), `async`/`await` and `Promise.all`: every call is synchronous, and a handler receives the settled outcome as a parameter.
- `loading` flags, toasts, `console.error`, `navigate`, animations and the JSX markup. They change no state that the model holds, except through the handlers modelled above.
- The lists of pets that the Reminders, Dashboard and Schedule pages load only to show names beside entries. The pet names are left out; a rejection of that load is folded into `fetched`.
- The pet-name lookups `pets.find(p => p.Id === apt.petId)` (src/components/pages/Schedule.jsx:156 and 265, src/components/pages/Dashboard.jsx:249) compare strictly too, so they find no pet for a form-booked appointment, as on the detail page. They are left out with the names.
- Date strings: parsing, the local time zone and date-fns' `format` are left out. An instant is an integer of milliseconds on the local wall clock, and a calendar day is `DayOf`. Daylight-saving days, which are not 24 hours long, are not modelled.
- The calendar grid (`eachDayOfInterval`, the day-of-month labels): only the per-day cell contents and the month navigation are modelled.
- JavaScript numbers are unbounded integers: no floating point, no `NaN` beyond `parseInt` giving `None`, no precision loss past 2^53.
- `parseInt` is modelled for decimal and `0x` numerals only. A `Services.Record` holds only `null`, booleans, integers, strings and instants.
- `toLowerCase` and `toUpperCase` map only the ASCII letters. Keys of `Object.prototype` in the icon maps (`iconMap['constructor']`) are not modelled.
- Services.Table.Create: requires a caller-supplied `Id` to be numeric, because `Math.max` over a non-numeric `Id` gives `NaN`. No caller in the application supplies one.
- Services.Table.Update: requires a patch's `Id` to be numeric, for the same reason.
- PetDetail.PetDetailPage.LoadData: takes `parseInt` of the route parameter as the `petId` parameter rather than computing it. The parse itself is `Text.ParseInt`, and `PetCard.PetRouteRoundTrip` proves that it recovers the `Id` of the card that was followed.
- PetDetail.PetDetailPage.HandleToggleFeedingSchedule: takes the record that `feedingService.update` returns as the `stored` parameter (`None` when it rejects), instead of calling the service table.
- The entities hold only the properties the components read.
- The `onSubmit` rejection that both forms catch and log is not modelled. The form's state after it is the same as after a success.
- The appointment form's type buttons (the six appointment types) are markup only. The pet form's seven type buttons are modelled, because they feed the type check.
- `Schedule.MonthOf` follows `new Date(year, month)` for the years 0 to 99 (read as 1900 to 1999). The chevrons therefore misbehave there, as `Schedule.TwoDigitYearStep` states; this is not listed as a finding because no real date reaches it.
