/** The data shared by both dispatch engines: a field's configuration, the
    dynamically typed values it carries, and the outcome of a validation. */
module Common {

  datatype Option<T> = None | Some(value: T)

  /** A dynamically typed value (Swift `Any?`). `Absent` is `nil`; `Dbl` and
      `DateV` stand for a `Double` and a `Date`, whose contents no rule ever
      inspects, only their type. */
  datatype Value =
    | Absent
    | Str(s: string)
    | IntV(i: int)
    | Dbl
    | BoolV(b: bool)
    | DateV
    | StrList(items: seq<string>)
    | Other

  /** Immutable description of one form field. Nothing checks the fields when
      one is built: any combination, duplicate identifiers included, is legal. */
  datatype FieldConfiguration = FieldConfiguration(
    identifier: string,
    labelText: string,   // `label`; the word is reserved in Dafny
    placeholder: string,
    value: Value,
    isRequired: bool,
    metadata: map<string, Value>)

  /** Outcome of a validation. The message is not tied to `isValid`. */
  datatype ValidationResult = ValidationResult(isValid: bool, errorMessage: Option<string>)

  /** The foreign URL parser (`URL(string:) != nil`), supplied by the caller. */
  type UrlParser = string -> bool

  const RequiredMessage: string := "Field is required"

  /** `ValidationResult(isValid: true, errorMessage: nil)` */
  const Pass: ValidationResult := ValidationResult(true, None)

  /** `ValidationResult(isValid: false, errorMessage: message)` */
  function Fail(message: string): (r: ValidationResult)
    ensures !r.isValid && r.errorMessage == Some(message)
  {
    ValidationResult(false, Some(message))
  }

  /** `ValidationResult(isValid: ok, errorMessage: ok ? nil : message)` */
  function Verdict(ok: bool, message: string): (r: ValidationResult)
    ensures r == (if ok then Pass else Fail(message))
  {
    ValidationResult(ok, if ok then None else Some(message))
  }

  /** `metadata[key] as? Int`: a missing key and a value of another type are
      both "not set". */
  function MetaInt(metadata: map<string, Value>, key: string): (r: Option<int>)
    ensures r.Some? <==> key in metadata && metadata[key].IntV?
    ensures r.Some? ==> metadata[key] == IntV(r.value)
  {
    if key in metadata && metadata[key].IntV? then Some(metadata[key].i) else None
  }

  /** `(value as? String)?.isEmpty == false`: the value is a string with at
      least one character. */
  predicate IsNonEmptyString(v: Value) {
    v.Str? && v.s != ""
  }
}
