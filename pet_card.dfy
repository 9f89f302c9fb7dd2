/** What a pet card shows and where it leads: the age text, the icon for the pet's type, the avatar, the
    subtitle, and the detail route. The age text and the icon are the same code on the pet detail page. */
module PetCard {
  import opened Wrappers
  import opened Clock
  import opened Text
  import opened Entities

  /** `${n} ${unit}${n > 1 ? 's' : ''} old`: the numeral, then the unit, plural past one. */
  function Quantity(n: nat, unit: string): (text: string)
    ensures text != [] && IsDigit(text[0])
  {
    NatString(n) + UnitSuffix(n, unit)
  }

  function UnitSuffix(n: nat, unit: string): string {
    " " + unit + (if n > 1 then "s" else "") + " old"
  }

  /** The number at the head of a quantity text is the quantity. */
  lemma QuantityReadsBack(n: nat, unit: string)
    ensures ParseInt(Quantity(n, unit)) == Some(n as int)
  {
    ParseIntLeadingNumber(n, UnitSuffix(n, unit));
  }

  /** The plural rule: a year or month count reads "…s old" exactly when it is more than one, and the
      singular "… old" otherwise, as in "1 year old" and "2 months old". */
  lemma QuantityPlural(n: nat, unit: string)
    requires unit == "year" || unit == "month"
    ensures EndsWith(Quantity(n, unit), unit + "s old") <==> n > 1
    ensures EndsWith(Quantity(n, unit), " " + unit + " old") <==> n <= 1
    ensures Quantity(1, "year") == "1 year old" && Quantity(2, "month") == "2 months old"
  {
    var text := Quantity(n, unit);
    var plural := unit + "s old";
    var singular := " " + unit + " old";
    if n > 1 {
      assert text == NatString(n) + " " + plural;
      assert text[|text| - |plural|..] == plural;
      assert text[|text| - |singular|] == unit[0] != ' ';
    } else {
      assert text == NatString(n) + singular;
      assert text[|text| - |singular|..] == singular;
      assert |NatString(n)| == 1;
      assert text[|text| - |plural|] == ' ' != unit[0];
    }
    assert NatString(1) == "1" && NatString(2) == "2";
  }

  /** `getAgeText(birthDate)` as written, `today` being `new Date()`: the difference of calendar years
      decides alone once it is positive, otherwise the difference of calendar months. */
  function AgeText(birthDate: Option<CalendarDate>, today: CalendarDate): (text: string)
    ensures birthDate.None? <==> text == "Unknown age"
    ensures birthDate.Some? && today.year - birthDate.value.year > 0 ==>
      text == Quantity(today.year - birthDate.value.year, "year")
    ensures birthDate.Some? && today.year - birthDate.value.year <= 0 && today.month - birthDate.value.month > 0 ==>
      text == Quantity(today.month - birthDate.value.month, "month")
    ensures birthDate.Some? && today.year - birthDate.value.year <= 0 && today.month - birthDate.value.month <= 0 ==>
      text == "Less than 1 month old"
  {
    match birthDate
    case None => "Unknown age"
    case Some(birth) =>
      var years := today.year - birth.year;
      var months := today.month - birth.month;
      if years > 0 then Quantity(years, "year")
      else if months > 0 then Quantity(months, "month")
      else "Less than 1 month old"
  }

  /** As written, once the calendar years differ the months play no part: the text is the same for every
      birth month. */
  lemma AgeTextIgnoresMonths(birth: CalendarDate, today: CalendarDate, month: int)
    requires today.year > birth.year
    ensures AgeText(Some(birth), today) == AgeText(Some(birth.(month := month)), today)
    ensures ParseInt(AgeText(Some(birth), today)) == Some(today.year - birth.year)
  {
    var years := today.year - birth.year;
    assert AgeText(Some(birth), today) == Quantity(years, "year");
    assert AgeText(Some(birth.(month := month)), today) == Quantity(years, "year");
    QuantityReadsBack(years, "year");
  }

  /** Born 2023-12-15 and seen on 2024-01-15, one month later, a pet is "1 year old" as written and
      "1 month old" by the intended rule. The last clause checks the intended rule on a second date:
      born 2023-06-01 and seen on 2024-01-01, seven whole months. */
  lemma AgeTextFinding()
    ensures AgeText(Some(CalendarDate(2023, 11, 15)), CalendarDate(2024, 0, 15)) == "1 year old"
    ensures IntendedAgeText(Some(CalendarDate(2023, 11, 15)), CalendarDate(2024, 0, 15)) == "1 month old"
    ensures IntendedAgeText(Some(CalendarDate(2023, 5, 1)), CalendarDate(2024, 0, 1)) == "7 months old"
  {
    assert NatString(1) == "1";
    assert NatString(7) == "7";
    assert Quantity(1, "year") == "1 year old";
    assert Quantity(1, "month") == "1 month old";
    assert Quantity(7, "month") == "7 months old";
  }

  /** Whole months from the birth date to today: a month counts once its day of the month is reached. */
  function MonthsElapsed(birth: CalendarDate, today: CalendarDate): int {
    (today.year - birth.year) * 12 + (today.month - birth.month) - (if today.day < birth.day then 1 else 0)
  }

  /** The age text the rule evidently intends: whole years once a full year has passed, whole months
      before that. */
  function IntendedAgeText(birthDate: Option<CalendarDate>, today: CalendarDate): (text: string)
    ensures birthDate.None? <==> text == "Unknown age"
    ensures birthDate.Some? && MonthsElapsed(birthDate.value, today) <= 0 ==> text == "Less than 1 month old"
  {
    match birthDate
    case None => "Unknown age"
    case Some(birth) =>
      var elapsed := MonthsElapsed(birth, today);
      if elapsed >= 12 then Quantity(elapsed / 12, "year")
      else if elapsed > 0 then Quantity(elapsed, "month")
      else "Less than 1 month old"
  }

  /** The intended text reports years exactly when at least twelve whole months have passed, and then the
      number it starts with is the count of whole years. */
  lemma IntendedAgeTextYears(birth: CalendarDate, today: CalendarDate)
    ensures var text := IntendedAgeText(Some(birth), today);
      var elapsed := MonthsElapsed(birth, today);
      && (elapsed >= 12 ==> text == Quantity(elapsed / 12, "year") && ParseInt(text) == Some(elapsed / 12))
      && (0 < elapsed < 12 ==> text == Quantity(elapsed, "month") && ParseInt(text) == Some(elapsed))
      && (elapsed <= 0 ==> text == "Less than 1 month old")
  {
    var elapsed := MonthsElapsed(birth, today);
    if elapsed >= 12 {
      QuantityReadsBack(elapsed / 12, "year");
    } else if elapsed > 0 {
      QuantityReadsBack(elapsed, "month");
    }
  }

  /** The written rule and the intended one agree once this year's birthday month and day of the month
      have both been reached; they differ only before that. */
  lemma AgeTextAgreesOnceBirthdayReached(birth: CalendarDate, today: CalendarDate)
    requires 0 <= birth.month < 12 && 0 <= today.month < 12
    requires birth.month <= today.month && birth.day <= today.day
    requires today.year >= birth.year
    ensures AgeText(Some(birth), today) == IntendedAgeText(Some(birth), today)
  {
    var years := today.year - birth.year;
    var elapsed := MonthsElapsed(birth, today);
    assert elapsed == years * 12 + (today.month - birth.month);
    if years > 0 {
      assert elapsed / 12 == years;
    }
  }

  const PetKinds: set<string> := {"dog", "cat", "bird", "fish", "rabbit", "hamster"}

  /** `iconMap[type?.toLowerCase()] || 'Heart'`. */
  function PetIcon(kind: Option<string>): (icon: string)
    ensures icon == "Heart" <==> kind.None? || ToLower(kind.value) !in PetKinds
    ensures icon == "Mouse" <==> kind.Some? && ToLower(kind.value) == "hamster"
  {
    if kind.None? then "Heart"
    else
      match ToLower(kind.value)
      case "dog" => "Dog"
      case "cat" => "Cat"
      case "bird" => "Bird"
      case "fish" => "Fish"
      case "rabbit" => "Rabbit"
      case "hamster" => "Mouse"
      case _ => "Heart"
  }

  /** The lookup ignores the case of the type. */
  lemma PetIconIgnoresCase(kind: string)
    ensures PetIcon(Some(ToLower(kind))) == PetIcon(Some(kind))
    ensures PetIcon(Some("Hamster")) == "Mouse" && PetIcon(Some("DOG")) == "Dog"
  {
    assert ToLower(ToLower(kind)) == ToLower(kind);
    assert ToLower("Hamster") == "hamster";
    assert ToLower("DOG") == "dog";
  }

  /** `/pets/${pet.Id}`, the route a click on the card navigates to. */
  function PetRoute(id: int): (route: string)
    ensures StartsWith(route, "/pets/") && |route| > 6
  {
    "/pets/" + NumberString(id)
  }

  /** The detail page's `parseInt(id)` recovers the `Id` from the route's parameter. */
  lemma PetRouteRoundTrip(id: int)
    ensures ParseInt(PetRoute(id)[6..]) == Some(id)
  {
    assert PetRoute(id)[6..] == NumberString(id);
    ParseIntNumberString(id);
  }

  /** The avatar: the photo when `photoUrl` is set, else the name's first character upper-cased. */
  datatype Avatar = Photo(url: string) | Initial(letter: string)

  function AvatarOf(pet: Pet): (avatar: Avatar)
    ensures avatar.Photo? <==> pet.photoUrl != ""
    ensures avatar.Photo? ==> avatar.url == pet.photoUrl
    ensures avatar.Initial? ==> |avatar.letter| <= 1 && (pet.name != [] <==> |avatar.letter| == 1)
    ensures avatar.Initial? && pet.name != [] && 'a' <= pet.name[0] <= 'z' ==> 'A' <= avatar.letter[0] <= 'Z'
    ensures avatar.Initial? && pet.name != [] && !('a' <= pet.name[0] <= 'z') ==> avatar.letter[0] == pet.name[0]
  {
    if pet.photoUrl != "" then Photo(pet.photoUrl) else Initial(InitialUpper(pet.name))
  }

  /** `pet.breed || pet.type`; a missing type shows nothing. The contract is the `||` rule itself: the
      breed when it is truthy (non-empty), the type when it is not. */
  function Subtitle(pet: Pet): (line: string)
    ensures pet.breed != "" ==> line == pet.breed
    ensures pet.breed == "" ==> line == (if pet.kind.Some? then pet.kind.value else "")
  {
    if pet.breed != "" then pet.breed else if pet.kind.Some? then pet.kind.value else ""
  }
}
