/** The pet detail page: loading the pet named by the route and its schedules, appointments and
    vaccinations; the appetite and energy sliders; toggling and deleting feeding schedules; deleting
    appointments; and the overview's recent and upcoming lists and the appointments tab's order. */
module PetDetail {
  import opened Wrappers
  import opened Clock
  import opened Seqs
  import opened Text
  import opened Entities
  import opened PetCard
  import opened Dashboard
  import Services
  import AppointmentForm

  /** `petData?.appetite || 5`, `petData?.energy || 5`: a missing or zero level shows as 5. The contract
      is the `||` rule itself: the stored level when it is truthy, the fallback when it is not. */
  function TrackingLevel(stored: Option<int>): (level: int)
    ensures stored.Some? && stored.value != 0 ==> level == stored.value
    ensures stored.None? || stored.value == 0 ==> level == 5
  {
    if stored.Some? && stored.value != 0 then stored.value else 5
  }

  /** `x => x.petId === parseInt(id)`: when the route parameter is no number, `NaN` matches nothing, and
      the comparison is strict, so an appointment's `petId` matches only as the number itself. */
  function SchedulesForPet(all: seq<FeedingSchedule>, petId: Option<int>): (r: seq<FeedingSchedule>)
    ensures |r| <= |all| && (petId.None? ==> r == [])
    ensures forall i :: 0 <= i < |r| ==> petId.Some? && r[i].petId == petId.value
  {
    if petId.None? then [] else Filter(all, (s: FeedingSchedule) => s.petId == petId.value)
  }

  function AppointmentsForPet(all: seq<Appointment>, petId: Option<int>): (r: seq<Appointment>)
    ensures |r| <= |all| && (petId.None? ==> r == [])
    ensures forall i :: 0 <= i < |r| ==> petId.Some? && r[i].petId == Services.Num(petId.value)
  {
    if petId.None? then [] else Filter(all, (a: Appointment) => a.petId == Services.Num(petId.value))
  }

  function VaccinationsForPet(all: seq<Vaccination>, petId: Option<int>): (r: seq<Vaccination>)
    ensures |r| <= |all| && (petId.None? ==> r == [])
    ensures forall i :: 0 <= i < |r| ==> petId.Some? && r[i].petId == petId.value
  {
    if petId.None? then [] else Filter(all, (v: Vaccination) => v.petId == petId.value)
  }

  /** Reached through a pet card, the page keeps exactly that pet's records, in list order. */
  lemma LoadedRecordsBelongToThePet(id: int, schedules: seq<FeedingSchedule>, appointments: seq<Appointment>,
                                     vaccinations: seq<Vaccination>)
    ensures var petId := ParseInt(PetRoute(id)[6..]);
      && (forall x :: x in SchedulesForPet(schedules, petId) <==> x in schedules && x.petId == id)
      && (forall x :: x in AppointmentsForPet(appointments, petId) <==> x in appointments && x.petId == Services.Num(id))
      && (forall x :: x in VaccinationsForPet(vaccinations, petId) <==> x in vaccinations && x.petId == id)
  {
    PetRouteRoundTrip(id);
    forall x: FeedingSchedule {
      FilterMembership(schedules, (s: FeedingSchedule) => s.petId == id, x);
    }
    forall x: Appointment {
      FilterMembership(appointments, (a: Appointment) => a.petId == Services.Num(id), x);
    }
    forall x: Vaccination {
      FilterMembership(vaccinations, (v: Vaccination) => v.petId == id, x);
    }
  }

  /** As written: an appointment booked through the form stores the pet `<select>`'s text as its `petId`,
      and the strict comparison with `parseInt(id)` leaves it off that pet's page. */
  lemma FormBookedAppointmentIsLeftOut(id: int, data: Services.Record, newId: int, a: Appointment,
                                       all: seq<Appointment>)
    requires "petId" in data && data["petId"] == AppointmentForm.SelectedPet(id)
    requires a.petId == Services.NewRecord(Services.AppointmentDefaults, newId, data)["petId"]
    ensures a.petId.Str?
    ensures a !in AppointmentsForPet(all, ParseInt(PetRoute(id)[6..]))
  {
    PetRouteRoundTrip(id);
    FilterMembership(all, (x: Appointment) => x.petId == Services.Num(id), a);
  }

  /** Corrected: with the selection parsed back to a number, the booked appointment is on its pet's page. */
  lemma ParsedSelectionIsKept(id: int, data: Services.Record, newId: int, a: Appointment,
                              all: seq<Appointment>)
    requires "petId" in data && data["petId"] == AppointmentForm.ParsedSelectedPet(id)
    requires a.petId == Services.NewRecord(Services.AppointmentDefaults, newId, data)["petId"]
    requires a in all
    ensures a in AppointmentsForPet(all, ParseInt(PetRoute(id)[6..]))
  {
    PetRouteRoundTrip(id);
    FilterMembership(all, (x: Appointment) => x.petId == Services.Num(id), a);
  }

  /** `feedingSchedules.find(s => s.Id === scheduleId)`: the first schedule with the `Id`, or none. */
  function FindSchedule(schedules: seq<FeedingSchedule>, id: int): (found: Option<FeedingSchedule>)
    ensures found.Some? ==> found.value in schedules && found.value.id == id
    ensures found.Some? ==>
      exists i :: 0 <= i < |schedules| && schedules[i] == found.value && forall j :: 0 <= j < i ==> schedules[j].id != id
    ensures found.None? ==> forall i :: 0 <= i < |schedules| ==> schedules[i].id != id
  {
    if schedules == [] then None
    else if schedules[0].id == id then Some(schedules[0])
    else
      assert forall j :: 1 <= j < |schedules| ==> schedules[j] == schedules[1..][j - 1];
      FindSchedule(schedules[1..], id)
  }

  /** The list after a toggle the service accepted: `stored` is the service's record for that `Id`, which
      `update` returns with `enabled` set to the opposite of the page's copy; it replaces every entry with
      that `Id`. An `Id` the page does not hold changes nothing. */
  function Toggled(schedules: seq<FeedingSchedule>, id: int, stored: FeedingSchedule): (r: seq<FeedingSchedule>)
    ensures |r| == |schedules|
    ensures FindSchedule(schedules, id).None? ==> r == schedules
    ensures FindSchedule(schedules, id).Some? ==> forall i :: 0 <= i < |r| ==>
      r[i] == if schedules[i].id == id then stored.(enabled := !FindSchedule(schedules, id).value.enabled) else schedules[i]
  {
    match FindSchedule(schedules, id)
    case None => schedules
    case Some(schedule) => ReplaceWhere(schedules, ScheduleIdIs(id), stored.(enabled := !schedule.enabled))
  }

  /** With the page and the service in step and the `Id` held once, toggling twice restores the list. */
  lemma ToggleTwiceRestores(schedules: seq<FeedingSchedule>, k: int)
    requires 0 <= k < |schedules|
    requires forall j :: 0 <= j < |schedules| && j != k ==> schedules[j].id != schedules[k].id
    ensures var s := schedules[k];
      var once := Toggled(schedules, s.id, s);
      && once == schedules[k := s.(enabled := !s.enabled)]
      && Toggled(once, s.id, s.(enabled := !s.enabled)) == schedules
  {
    var s := schedules[k];
    assert FindSchedule(schedules, s.id).Some?;
    var once := Toggled(schedules, s.id, s);
    assert once == schedules[k := s.(enabled := !s.enabled)];
    assert FindSchedule(once, s.id).Some? by {
      assert once[k].id == s.id;
    }
    var twice := Toggled(once, s.id, s.(enabled := !s.enabled));
    assert twice == schedules;
  }

  /** `apt => apt.completed`. */
  predicate Completed(a: Appointment) {
    a.completed
  }

  /** Overview, "Recent Activity": the first three completed appointments in list order. */
  function RecentActivity(appointments: seq<Appointment>): (recent: seq<Appointment>)
    ensures |recent| <= 3
    ensures forall i :: 0 <= i < |recent| ==> recent[i].completed
  {
    Take(Filter(appointments, Completed), 3)
  }

  /** "Recent Activity" shows three completed appointments, or all of them when there are fewer; they
      are the first completed ones in list order, and none is missing when at most three are completed. */
  lemma RecentActivityIsFirstCompleted(appointments: seq<Appointment>)
    ensures var completed := Filter(appointments, Completed);
      var recent := RecentActivity(appointments);
      && |recent| == (if |completed| < 3 then |completed| else 3)
      && recent == completed[..|recent|]
      && (forall x :: x in recent ==> x in appointments && x.completed)
      && (|completed| <= 3 ==> forall x :: x in appointments && x.completed ==> x in recent)
  {
    TakeOfFilter(appointments, Completed, 3);
  }

  /** Overview, "Upcoming": the first three open future appointments in list order, unsorted. */
  function UpcomingForPet(appointments: seq<Appointment>, now: int): (upcoming: seq<Appointment>)
    ensures |upcoming| <= 3
    ensures forall i :: 0 <= i < |upcoming| ==> !upcoming[i].completed && now < upcoming[i].dateTime
  {
    Take(Filter(appointments, IsUpcoming(now)), 3)
  }

  /** "Upcoming" shows three open future appointments, or all of them when there are fewer; they are the
      first such in list order, and none is missing when at most three are open and in the future. */
  lemma UpcomingForPetIsFirstUpcoming(appointments: seq<Appointment>, now: int)
    ensures var candidates := Filter(appointments, IsUpcoming(now));
      var upcoming := UpcomingForPet(appointments, now);
      && |upcoming| == (if |candidates| < 3 then |candidates| else 3)
      && upcoming == candidates[..|upcoming|]
      && (forall x :: x in upcoming ==> x in appointments && !x.completed && now < x.dateTime)
      && (|candidates| <= 3 ==> forall x :: x in appointments && !x.completed && now < x.dateTime ==> x in upcoming)
  {
    TakeOfFilter(appointments, IsUpcoming(now), 3);
  }

  /** On a list in date order the overview's upcoming appointments are the Dashboard's. */
  lemma UpcomingForPetOnSortedList(appointments: seq<Appointment>, now: int)
    requires SortedBy(appointments, AppointmentTime)
    ensures UpcomingForPet(appointments, now) == UpcomingAppointments(appointments, now)
  {
    FilterSorted(appointments, IsUpcoming(now), AppointmentTime);
    SortBySorted(Filter(appointments, IsUpcoming(now)), AppointmentTime);
  }

  /** Once the appointments tab has sorted the list newest first, the overview's "Upcoming" holds the
      latest open future appointments: none left out is later than one shown. */
  lemma UpcomingAfterAppointmentsTab(appointments: seq<Appointment>, now: int)
    ensures var sorted := SortBy(appointments, AppointmentTimeDescending);
      var candidates := Filter(sorted, IsUpcoming(now));
      var up := UpcomingForPet(sorted, now);
      forall x, y :: x in up && y in multiset(candidates) - multiset(up) ==> y.dateTime <= x.dateTime
  {
    var sorted := SortBy(appointments, AppointmentTimeDescending);
    FilterSorted(sorted, IsUpcoming(now), AppointmentTimeDescending);
    TakeOfSortedIsSmallest(Filter(sorted, IsUpcoming(now)), AppointmentTimeDescending, 3);
  }

  datatype Tab = Overview | Feeding | AppointmentsTab | Vaccinations
  /** The `field` of `handleUpdateTracking`. */
  datatype Tracking = Appetite | Energy

  class PetDetailPage {
    var pet: Option<Pet>
    var feedingSchedules: seq<FeedingSchedule>
    var appointments: seq<Appointment>
    var vaccinations: seq<Vaccination>
    var appetite: int
    var energy: int
    var error: string
    var activeTab: Tab

    constructor()
      ensures pet == None && feedingSchedules == [] && appointments == [] && vaccinations == []
      ensures appetite == 5 && energy == 5 && error == "" && activeTab == Overview
    {
      pet, feedingSchedules, appointments, vaccinations := None, [], [], [];
      appetite, energy, error, activeTab := 5, 5, "", Overview;
    }

    /** `loadData`: `petId` is `parseInt` of the route parameter (`None` for `NaN`), `fetched` is what
        `petService.getById(petId)` settled to, and the three lists are the services' whole tables. A
        rejection sets the error and nothing else. */
    method LoadData(petId: Option<int>, fetched: Result<Pet>, allSchedules: seq<FeedingSchedule>,
                    allAppointments: seq<Appointment>, allVaccinations: seq<Vaccination>)
      modifies this`pet, this`feedingSchedules, this`appointments, this`vaccinations, this`appetite,
               this`energy, this`error
      ensures fetched.Err? ==>
        && error == "Failed to load pet details" && pet == old(pet)
        && feedingSchedules == old(feedingSchedules) && appointments == old(appointments)
        && vaccinations == old(vaccinations) && appetite == old(appetite) && energy == old(energy)
      ensures fetched.Ok? ==>
        && error == "" && pet == Some(fetched.value)
        && appetite == TrackingLevel(fetched.value.appetite) && energy == TrackingLevel(fetched.value.energy)
        && feedingSchedules == SchedulesForPet(allSchedules, petId)
        && appointments == AppointmentsForPet(allAppointments, petId)
        && vaccinations == VaccinationsForPet(allVaccinations, petId)
    {
      error := "";
      if fetched.Err? {
        error := "Failed to load pet details";
        return;
      }
      pet := Some(fetched.value);
      appetite := TrackingLevel(fetched.value.appetite);
      energy := TrackingLevel(fetched.value.energy);
      feedingSchedules := SchedulesForPet(allSchedules, petId);
      appointments := AppointmentsForPet(allAppointments, petId);
      vaccinations := VaccinationsForPet(allVaccinations, petId);
    }

    /** `handleToggleFeedingSchedule`: `stored` is the service's record for that `Id` (`None` when the
        service has none and `update` rejects). */
    method HandleToggleFeedingSchedule(scheduleId: int, stored: Option<FeedingSchedule>)
      modifies this`feedingSchedules
      ensures feedingSchedules ==
        if stored.Some? then Toggled(old(feedingSchedules), scheduleId, stored.value) else old(feedingSchedules)
    {
      var schedule := FindSchedule(feedingSchedules, scheduleId);
      if schedule.None? {
        return;
      }
      if stored.Some? {
        var updated := stored.value.(enabled := !schedule.value.enabled);
        feedingSchedules := ReplaceWhere(feedingSchedules, ScheduleIdIs(scheduleId), updated);
      }
    }

    /** `handleDeleteFeedingSchedule`: `confirmed` answers `window.confirm`, `deleted` is whether
        `deleteItem` resolved. */
    method HandleDeleteFeedingSchedule(scheduleId: int, confirmed: bool, deleted: bool)
      modifies this`feedingSchedules
      ensures feedingSchedules ==
        if confirmed && deleted then Filter(old(feedingSchedules), ScheduleIdIsNot(scheduleId)) else old(feedingSchedules)
    {
      if confirmed && deleted {
        feedingSchedules := Filter(feedingSchedules, ScheduleIdIsNot(scheduleId));
      }
    }

    method HandleDeleteAppointment(appointmentId: int, confirmed: bool, deleted: bool)
      modifies this`appointments
      ensures appointments ==
        if confirmed && deleted then Filter(old(appointments), AppointmentIdIsNot(appointmentId)) else old(appointments)
    {
      if confirmed && deleted {
        appointments := Filter(appointments, AppointmentIdIsNot(appointmentId));
      }
    }

    /** `handleUpdateTracking(field, value)`: `saved` is what `petService.update` settled to. Only a success
        changes the pet and the level. */
    method HandleUpdateTracking(field: Tracking, value: int, saved: Result<Pet>)
      modifies this`pet, this`appetite, this`energy
      ensures saved.Err? ==> pet == old(pet) && appetite == old(appetite) && energy == old(energy)
      ensures saved.Ok? ==>
        && pet == Some(saved.value)
        && appetite == (if field == Appetite then value else old(appetite))
        && energy == (if field == Energy then value else old(energy))
    {
      if saved.Ok? {
        pet := Some(saved.value);
        if field == Appetite {
          appetite := value;
        }
        if field == Energy {
          energy := value;
        }
      }
    }

    /** A slider's `onChange`: the level is set before the update is sent, so it stays even when the
        update fails. */
    method Slide(field: Tracking, value: int, saved: Result<Pet>)
      modifies this`pet, this`appetite, this`energy
      ensures field == Appetite ==> appetite == value && energy == old(energy)
      ensures field == Energy ==> energy == value && appetite == old(appetite)
      ensures pet == if saved.Ok? then Some(saved.value) else old(pet)
    {
      if field == Appetite {
        appetite := value;
      } else {
        energy := value;
      }
      HandleUpdateTracking(field, value, saved);
    }

    method SetActiveTab(tab: Tab)
      modifies this`activeTab
      ensures activeTab == tab
    {
      activeTab := tab;
    }

    /** The appointments tab: `appointments.sort(...)` reorders the state array itself, newest first. */
    method RenderAppointmentsTab() returns (shown: seq<Appointment>)
      modifies this`appointments
      ensures appointments == SortBy(old(appointments), AppointmentTimeDescending) && shown == appointments
      ensures multiset(shown) == multiset(old(appointments))
      ensures forall i, j :: 0 <= i < j < |shown| ==> shown[j].dateTime <= shown[i].dateTime
    {
      appointments := SortBy(appointments, AppointmentTimeDescending);
      shown := appointments;
      assert forall i, j :: 0 <= i < j < |shown| ==> AppointmentTimeDescending(shown[i]) <= AppointmentTimeDescending(shown[j]);
    }
  }
}
