/** The classification a reminder card shows: overdue (a past day), today, or later; the icon and colour
    of each reminder type; and the badge that combines them. */
module ReminderCard {
  import opened Clock
  import opened Entities

  /** `isPast(date) && !isToday(date)`. */
  predicate IsOverdue(t: int, now: int) {
    IsPast(t, now) && !IsToday(t, now)
  }

  /** `isToday(date)`. */
  predicate IsTodays(t: int, now: int) {
    IsToday(t, now)
  }

  /** Overdue means dated on an earlier calendar day than today, whatever the time of day. */
  lemma OverdueIffEarlierDay(t: int, now: int)
    ensures IsOverdue(t, now) <==> DayOf(t) < DayOf(now)
  {
    if t < now {
      DayOfMonotonic(t, now);
    } else {
      DayOfMonotonic(now, t);
    }
  }

  /** Every instant is exactly one of: overdue, today, or on a later day; a card is never both overdue and
      today's, and an instant on a later day is in the future. */
  lemma Classification(t: int, now: int)
    ensures !(IsOverdue(t, now) && IsTodays(t, now))
    ensures IsOverdue(t, now) || IsTodays(t, now) || DayOf(now) < DayOf(t)
    ensures DayOf(now) < DayOf(t) ==> IsFuture(t, now) && !IsTodays(t, now) && !IsOverdue(t, now)
  {
    OverdueIffEarlierDay(t, now);
    if t <= now {
      DayOfMonotonic(t, now);
    } else {
      DayOfMonotonic(now, t);
    }
  }

  /** Anything before today's midnight is overdue; a moment later today is both today's and in the future. */
  lemma TodayBoundaries(t: int, now: int)
    ensures t < StartOfDay(now) ==> IsOverdue(t, now)
    ensures now < t < StartOfDay(now) + MsPerDay ==> IsTodays(t, now) && IsFuture(t, now)
    ensures StartOfDay(now) <= t <= now ==> IsTodays(t, now) && !IsOverdue(t, now)
  {
    DayBounds(now);
    DayBounds(t);
    OverdueIffEarlierDay(t, now);
  }

  const KnownKinds: set<string> := {"feeding", "appointment", "vaccination", "medication"}

  /** `iconMap[type] || 'Bell'`. */
  function ReminderIcon(kind: string): (icon: string)
    ensures icon != "Bell" <==> kind in KnownKinds
    ensures icon in {"UtensilsCrossed", "Calendar", "Syringe", "Pill", "Bell"}
  {
    match kind
    case "feeding" => "UtensilsCrossed"
    case "appointment" => "Calendar"
    case "vaccination" => "Syringe"
    case "medication" => "Pill"
    case _ => "Bell"
  }

  /** `colorMap[type] || 'default'`. */
  function ReminderColor(kind: string): (color: string)
    ensures color != "default" <==> kind in KnownKinds
    ensures color == "error" <==> kind == "medication"
  {
    match kind
    case "feeding" => "info"
    case "appointment" => "warning"
    case "vaccination" => "success"
    case "medication" => "error"
    case _ => "default"
  }

  /** The badge variant: 'error' for an overdue reminder, otherwise its type's colour. */
  function BadgeVariant(r: Reminder, now: int): (variant: string)
    ensures variant == "error" <==> IsOverdue(r.dateTime, now) || r.kind == "medication"
    ensures !IsOverdue(r.dateTime, now) ==> variant == ReminderColor(r.kind)
  {
    if IsOverdue(r.dateTime, now) then "error" else ReminderColor(r.kind)
  }

  /** Two reminders of the same type and the same day get the same badge. */
  lemma BadgeDependsOnDayAndKind(r: Reminder, s: Reminder, now: int)
    requires r.kind == s.kind && DayOf(r.dateTime) == DayOf(s.dateTime)
    ensures BadgeVariant(r, now) == BadgeVariant(s, now)
  {
    OverdueIffEarlierDay(r.dateTime, now);
    OverdueIffEarlierDay(s.dateTime, now);
  }
}
