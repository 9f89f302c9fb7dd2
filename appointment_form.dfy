/** The appointment form: required-field validation on submit, per-field error clearing on change, and the
    prefill from an appointment being edited. */
module AppointmentForm {
  import opened Wrappers
  import opened Services
  import opened FormState

  const Fields: set<string> := {"petId", "type", "dateTime", "veterinarian", "reason", "notes"}

  /** The form data before any input: every field ''. */
  const BlankForm: Record := map k | k in Fields :: Str("")

  /** The message of each validated field. */
  const Messages: map<string, string> := map[
    "petId" := "Please select a pet",
    "type" := "Please select appointment type",
    "dateTime" := "Date and time are required",
    "reason" := "Reason is required"]

  /** The pet `<select>`: an option's `value={pet.Id}` comes back from `e.target.value` as text, so the
      form holds the pet's `Id` as a string, never as the number. */
  function SelectedPet(id: int): (v: Value)
    ensures v.Str? && v != Num(id)
    ensures Text.ParseInt(v.s) == Some(id)
  {
    Text.ParseIntNumberString(id);
    Str(Text.NumberString(id))
  }

  /** As evidently intended, `parseInt(e.target.value)`: the selected pet's `Id` as a number again. */
  function ParsedSelectedPet(id: int): (v: Value)
    ensures v == Num(id)
  {
    Text.ParseIntNumberString(id);
    Num(Text.ParseInt(SelectedPet(id).s).value)
  }

  /** The errors a submit produces: `None` when `formData.reason.trim()` throws; otherwise one message for
      each required field that is falsy, and for a blank reason. */
  function ValidationErrors(data: Record): (errors: Option<Errors>)
    ensures errors.None? <==> TrimsToEmpty(data, "reason").None?
    ensures errors.Some? ==> errors.value.Keys <= Messages.Keys
    ensures errors.Some? ==> forall k :: k in errors.value ==> errors.value[k] == Messages[k]
    ensures errors.Some? ==> ("petId" in errors.value <==> !Truthy(data, "petId"))
    ensures errors.Some? ==> ("type" in errors.value <==> !Truthy(data, "type"))
    ensures errors.Some? ==> ("dateTime" in errors.value <==> !Truthy(data, "dateTime"))
    ensures errors.Some? ==> ("reason" in errors.value <==> TrimsToEmpty(data, "reason") == Some(true))
  {
    var reasonBlank := TrimsToEmpty(data, "reason");
    if reasonBlank.None? then None
    else
      var e1 := Flag(map[], !Truthy(data, "petId"), "petId", "Please select a pet");
      var e2 := Flag(e1, !Truthy(data, "type"), "type", "Please select appointment type");
      var e3 := Flag(e2, !Truthy(data, "dateTime"), "dateTime", "Date and time are required");
      Some(Flag(e3, reasonBlank.value, "reason", "Reason is required"))
  }

  /** The veterinarian and the notes are never validated: changing them changes no error. */
  lemma OptionalFieldsNeverValidated(data: Record, field: string, value: Value)
    requires field == "veterinarian" || field == "notes"
    ensures ValidationErrors(data[field := value]) == ValidationErrors(data)
  {
    var changed := data[field := value];
    assert TrimsToEmpty(changed, "reason") == TrimsToEmpty(data, "reason");
    assert Truthy(changed, "petId") == Truthy(data, "petId");
    assert Truthy(changed, "type") == Truthy(data, "type");
    assert Truthy(changed, "dateTime") == Truthy(data, "dateTime");
  }

  /** A form whose fields are all text validates without throwing, and passes once every required field
      is filled in. */
  lemma TextFormsValidate(data: Record)
    requires forall k :: k in Fields ==> k in data && data[k].Str?
    ensures ValidationErrors(data).Some?
    ensures ValidationErrors(data) == Some(map[]) <==>
      data["petId"].s != "" && data["type"].s != "" && data["dateTime"].s != "" && !Text.IsBlank(data["reason"].s)
  {
    var errors := ValidationErrors(data).value;
    if errors == map[] {
      assert "petId" !in errors && "type" !in errors && "dateTime" !in errors && "reason" !in errors;
    } else {
      var k :| k in errors;
    }
  }

  /** What a submit did: called `onSubmit` with the form data, found errors, or threw. */
  datatype SubmitOutcome = Submitted(data: Record) | Invalid | Threw

  class Form {
    var formData: Record
    var errors: Errors
    var isSubmitting: bool

    /** The form as it stands once the prefill effect has run: blank, or the edited appointment's fields. */
    constructor(appointment: Option<Record>)
      ensures formData == if appointment.Some? then Prefill(appointment.value, Fields) else BlankForm
      ensures errors == map[] && !isSubmitting
    {
      formData := if appointment.Some? then Prefill(appointment.value, Fields) else BlankForm;
      errors := map[];
      isSubmitting := false;
    }

    /** `handleSubmit`: `onSubmit` receives the data exactly when there are no errors. A throwing `.trim()`
        leaves `isSubmitting` set and the errors as they were. */
    method HandleSubmit() returns (outcome: SubmitOutcome)
      modifies this`errors, this`isSubmitting
      ensures outcome.Threw? <==> ValidationErrors(formData).None?
      ensures outcome.Threw? ==> isSubmitting && errors == old(errors)
      ensures !outcome.Threw? ==> !isSubmitting && Some(errors) == ValidationErrors(formData)
      ensures outcome.Submitted? <==> ValidationErrors(formData) == Some(map[])
      ensures outcome.Submitted? ==> outcome.data == formData
    {
      isSubmitting := true;
      var newErrors := map[];
      newErrors := Flag(newErrors, !Truthy(formData, "petId"), "petId", "Please select a pet");
      newErrors := Flag(newErrors, !Truthy(formData, "type"), "type", "Please select appointment type");
      newErrors := Flag(newErrors, !Truthy(formData, "dateTime"), "dateTime", "Date and time are required");
      var reasonBlank := TrimsToEmpty(formData, "reason");
      if reasonBlank.None? {
        return Threw;
      }
      newErrors := Flag(newErrors, reasonBlank.value, "reason", "Reason is required");
      errors := newErrors;
      if |newErrors| == 0 {
        outcome := Submitted(formData);
      } else {
        outcome := Invalid;
      }
      isSubmitting := false;
    }

    /** `handleChange(field, value)`: sets that field and clears its error if one is shown. */
    method HandleChange(field: string, value: Value)
      modifies this`formData, this`errors
      ensures formData == old(formData)[field := value]
      ensures errors == ClearedOnChange(old(errors), field)
    {
      formData := formData[field := value];
      if HasError(errors, field) {
        errors := errors[field := ""];
      }
    }
  }
}
