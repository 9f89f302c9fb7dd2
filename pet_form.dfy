/** The pet form: a name that must not be blank and a type that must be chosen, per-field error clearing
    on change, and the prefill from the pet being edited. */
module PetForm {
  import opened Wrappers
  import opened Text
  import opened Services
  import opened FormState

  const Fields: set<string> := {"name", "type", "breed", "birthDate", "photoUrl", "notes"}

  /** The form data before any input: every field ''. */
  const BlankForm: Record := map k | k in Fields :: Str("")

  /** The values of the type buttons, in the order they are shown. */
  const PetTypeValues: seq<string> := ["dog", "cat", "bird", "fish", "rabbit", "hamster", "other"]

  /** The message of each validated field. */
  const Messages: map<string, string> := map[
    "name" := "Pet name is required",
    "type" := "Pet type is required"]

  /** The errors a submit produces: `None` when `formData.name.trim()` throws; otherwise a message for a
      blank name and one for a falsy type. */
  function ValidationErrors(data: Record): (errors: Option<Errors>)
    ensures errors.None? <==> TrimsToEmpty(data, "name").None?
    ensures errors.Some? ==> errors.value.Keys <= Messages.Keys
    ensures errors.Some? ==> forall k :: k in errors.value ==> errors.value[k] == Messages[k]
    ensures errors.Some? ==> ("name" in errors.value <==> TrimsToEmpty(data, "name") == Some(true))
    ensures errors.Some? ==> ("type" in errors.value <==> !Truthy(data, "type"))
  {
    var nameBlank := TrimsToEmpty(data, "name");
    if nameBlank.None? then None
    else
      var e1 := Flag(map[], nameBlank.value, "name", "Pet name is required");
      Some(Flag(e1, !Truthy(data, "type"), "type", "Pet type is required"))
  }

  /** The breed, the birth date, the photo URL and the notes are never validated: changing them changes
      no error. */
  lemma OptionalFieldsNeverValidated(data: Record, field: string, value: Value)
    requires field in {"breed", "birthDate", "photoUrl", "notes"}
    ensures ValidationErrors(data[field := value]) == ValidationErrors(data)
  {
    var changed := data[field := value];
    assert TrimsToEmpty(changed, "name") == TrimsToEmpty(data, "name");
    assert Truthy(changed, "type") == Truthy(data, "type");
  }

  /** Clicking any type button satisfies the type check, whatever else the form holds. */
  lemma TypeButtonsSatisfyTheTypeCheck(data: Record, i: int)
    requires 0 <= i < |PetTypeValues|
    ensures ValidationErrors(data["type" := Str(PetTypeValues[i])]).Some? ==>
      "type" !in ValidationErrors(data["type" := Str(PetTypeValues[i])]).value
  {
    assert PetTypeValues[i] != [];
  }

  /** A form whose fields are all text validates without throwing, and passes exactly when the name is
      not blank and a type is chosen. */
  lemma TextFormsValidate(data: Record)
    requires forall k :: k in Fields ==> k in data && data[k].Str?
    ensures ValidationErrors(data).Some?
    ensures ValidationErrors(data) == Some(map[]) <==> !IsBlank(data["name"].s) && data["type"].s != ""
  {
    var errors := ValidationErrors(data).value;
    if errors == map[] {
      assert "name" !in errors && "type" !in errors;
    } else {
      var k :| k in errors;
    }
  }

  /** The form prefilled from a pet whose name is text validates without throwing; a missing or empty name
      is prefilled as '' and reported as required. */
  lemma PrefilledNameIsChecked(pet: Record)
    requires "name" !in pet || pet["name"].Str? || !Truthy(pet, "name")
    ensures ValidationErrors(Prefill(pet, Fields)).Some?
    ensures !Truthy(pet, "name") ==> "name" in ValidationErrors(Prefill(pet, Fields)).value
    ensures !Truthy(pet, "type") ==> "type" in ValidationErrors(Prefill(pet, Fields)).value
  {
    var data := Prefill(pet, Fields);
    assert "name" in Fields && "type" in Fields;
    if !Truthy(pet, "name") {
      assert data["name"] == Str("");
      assert IsBlank("");
    }
    if !Truthy(pet, "type") {
      assert data["type"] == Str("");
    }
  }

  /** What a submit did: called `onSubmit` with the form data, found errors, or threw. */
  datatype SubmitOutcome = Submitted(data: Record) | Invalid | Threw

  class Form {
    var formData: Record
    var errors: Errors
    var isSubmitting: bool

    /** The form as it stands once the prefill effect has run: blank, or the edited pet's fields. */
    constructor(pet: Option<Record>)
      ensures formData == if pet.Some? then Prefill(pet.value, Fields) else BlankForm
      ensures errors == map[] && !isSubmitting
    {
      formData := if pet.Some? then Prefill(pet.value, Fields) else BlankForm;
      errors := map[];
      isSubmitting := false;
    }

    /** `handleSubmit`: `onSubmit` receives the data exactly when there are no errors. A throwing `.trim()`
        leaves `isSubmitting` set and the errors as they were. */
    method HandleSubmit() returns (outcome: SubmitOutcome)
      modifies this`errors, this`isSubmitting
      ensures outcome.Threw? <==> ValidationErrors(formData).None?
      ensures outcome.Threw? ==> isSubmitting && errors == old(errors)
      ensures !outcome.Threw? ==> !isSubmitting && Some(errors) == ValidationErrors(formData)
      ensures outcome.Submitted? <==> ValidationErrors(formData) == Some(map[])
      ensures outcome.Submitted? ==> outcome.data == formData
    {
      isSubmitting := true;
      var newErrors := map[];
      var nameBlank := TrimsToEmpty(formData, "name");
      if nameBlank.None? {
        return Threw;
      }
      newErrors := Flag(newErrors, nameBlank.value, "name", "Pet name is required");
      newErrors := Flag(newErrors, !Truthy(formData, "type"), "type", "Pet type is required");
      errors := newErrors;
      if |newErrors| == 0 {
        outcome := Submitted(formData);
      } else {
        outcome := Invalid;
      }
      isSubmitting := false;
    }

    /** `handleChange(field, value)`: sets that field and clears its error if one is shown. */
    method HandleChange(field: string, value: Value)
      modifies this`formData, this`errors
      ensures formData == old(formData)[field := value]
      ensures errors == ClearedOnChange(old(errors), field)
    {
      formData := formData[field := value];
      if HasError(errors, field) {
        errors := errors[field := ""];
      }
    }
  }
}
