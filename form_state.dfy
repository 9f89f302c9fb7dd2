/** What the appointment form and the pet form share: `formData` is a plain object of field values,
    `errors` maps a field to its message ('' once cleared), an edited record prefills the fields with
    `x || ''`, and a `.trim()` on a value that is not a string throws. */
module FormState {
  import opened Wrappers
  import opened Text
  import opened Services

  type Errors = map<string, string>

  /** `errors[field]` is truthy. */
  predicate HasError(errors: Errors, field: string) {
    field in errors && errors[field] != ""
  }

  /** `if (errors[field]) setErrors(prev => ({ ...prev, [field]: '' }))`. */
  function ClearedOnChange(errors: Errors, field: string): (after: Errors)
    ensures !HasError(after, field)
    ensures after.Keys == errors.Keys
    ensures forall k :: k in errors && k != field ==> after[k] == errors[k]
  {
    if HasError(errors, field) then errors[field := ""] else errors
  }

  /** One `if (fails) newErrors[field] = message` step of a submit. */
  function Flag(errors: Errors, failed: bool, field: string, message: string): (after: Errors)
    ensures field in after <==> failed || field in errors
    ensures failed ==> after[field] == message
    ensures forall k :: k != field ==> (k in after <==> k in errors)
    ensures forall k :: k in errors && k != field ==> after[k] == errors[k]
    ensures !failed ==> after == errors
  {
    if failed then errors[field := message] else errors
  }

  /** `source[key] || ''`. */
  function OrEmpty(source: Record, key: string): (v: Value)
    ensures Truthy(source, key) ==> v == source[key]
    ensures !Truthy(source, key) ==> v == Str("")
  {
    if Truthy(source, key) then source[key] else Str("")
  }

  /** The form data an edited record prefills: each field from the record, '' where it is falsy. */
  function Prefill(source: Record, fields: set<string>): (data: Record)
    ensures data.Keys == fields
    ensures forall k :: k in fields ==> data[k] == OrEmpty(source, k)
  {
    map k | k in fields :: OrEmpty(source, k)
  }

  /** `data[key].trim() === ''`, or `None` when the call throws because the value is no string. An ISO
      date-time string is never blank. */
  function TrimsToEmpty(data: Record, key: string): (blank: Option<bool>)
    ensures blank.Some? <==> key in data && (data[key].Str? || data[key].Instant?)
    ensures key in data && data[key].Str? ==> blank == Some(IsBlank(data[key].s))
  {
    if key !in data then None
    else match data[key]
      case Str(s) => TrimEmptyIffBlank(s); Some(Trim(s) == [])
      case Instant(_) => Some(false)
      case _ => None
  }
}
