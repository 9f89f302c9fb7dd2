/** The records the pages hold in their state, as the services return them. Only the properties the
    components read are kept. An ISO date-time is the instant it denotes (see `Clock`); a property that
    may be missing or `null` is an `Option`; a missing text property is the empty string. */
module Entities {
  import opened Wrappers
  import opened Clock
  import Services

  datatype Pet = Pet(
    id: int,
    name: string,
    kind: Option<string>,        // `type`
    breed: string,
    birthDate: Option<CalendarDate>,
    photoUrl: string,
    notes: string,
    appetite: Option<int>,
    energy: Option<int>)

  datatype Reminder = Reminder(
    id: int,
    petId: int,
    kind: string,                // `type`: feeding, appointment, vaccination, medication, ...
    title: string,
    dateTime: int,
    completed: bool,
    snoozedUntil: Option<int>)

  /** An appointment's `petId` is whatever JavaScript value was stored: a number in the fixtures, but the
      text of the form's pet `<select>` for an appointment booked through the form. */
  datatype Appointment = Appointment(
    id: int,
    petId: Services.Value,
    kind: string,                // `type`: checkup, vaccination, surgery, dental, emergency, other
    dateTime: int,
    veterinarian: string,
    reason: string,
    notes: string,
    completed: bool)

  datatype FeedingSchedule = FeedingSchedule(
    id: int,
    petId: int,
    time: string,
    foodType: string,
    amount: string,
    enabled: bool)

  datatype Vaccination = Vaccination(
    id: int,
    petId: int,
    name: string,
    dateGiven: int,
    nextDueDate: int)

  /** Sort keys: `new Date(x.dateTime)` as a number. */
  function ReminderTime(r: Reminder): int { r.dateTime }
  function AppointmentTime(a: Appointment): int { a.dateTime }
  /** The key of a descending sort (`new Date(b.dateTime) - new Date(a.dateTime)`). */
  function AppointmentTimeDescending(a: Appointment): int { -a.dateTime }

  /** `x => x.Id !== id`, the filter every delete and complete handler applies to its list. */
  function ReminderIdIsNot(id: int): Reminder -> bool { (r: Reminder) => r.id != id }
  function AppointmentIdIsNot(id: int): Appointment -> bool { (a: Appointment) => a.id != id }
  function ScheduleIdIsNot(id: int): FeedingSchedule -> bool { (s: FeedingSchedule) => s.id != id }

  /** `x => x.Id === id`, the test of every replace-by-Id `map`. */
  function AppointmentIdIs(id: int): Appointment -> bool { (a: Appointment) => a.id == id }
  function ScheduleIdIs(id: int): FeedingSchedule -> bool { (s: FeedingSchedule) => s.id == id }
  function PetIdIs(id: int): Pet -> bool { (p: Pet) => p.id == id }
}
