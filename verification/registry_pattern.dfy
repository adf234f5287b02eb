/** The open-set engine: one field class per kind, a shared base check that
    seven classes refine and eight inherit unchanged, and a registry mapping
    string keys to factories. A factory closure `{ XFormField(config: $0) }` is
    represented by the tag of the class it builds; a field object, whose only
    state is an immutable `let config`, by its class tag and configuration. */
module RegistryPattern {
  import opened Common
  import opened FieldRules

  /** The concrete field classes. */
  datatype RegKind =
    | TextFormField | EmailFormField | PasswordFormField | NumberFormField
    | DateFormField | DropdownFormField | CheckboxFormField | RadioFormField
    | TextAreaFormField | PhoneFormField | CreditCardFormField | URLFormField
    | SliderFormField | ToggleFormField | FileFormField

  /** The classes that override `validate`; the rest inherit the base check. */
  predicate Overrides(k: RegKind) {
    k.TextFormField? || k.EmailFormField? || k.PasswordFormField? || k.NumberFormField?
    || k.PhoneFormField? || k.CreditCardFormField? || k.URLFormField?
  }

  /** A field object: its class and the configuration fixed by `init`. */
  datatype RegistryField = RegistryField(kind: RegKind, config: FieldConfiguration)

  /** `BaseFormField.validate`: a required field fails when the value is nil or
      the empty string; any other value, of any type, passes. */
  function BaseValidate(config: FieldConfiguration, value: Value): ValidationResult {
    if config.isRequired && (value.Absent? || value == Str("")) then Fail(RequiredMessage)
    else Pass
  }

  /** `TextFormField.validate` */
  function ValidateText(config: FieldConfiguration, value: Value): ValidationResult {
    var base := BaseValidate(config, value);
    if !base.isValid then base
    else if ExceedsMaxLength(config, value) then Fail("Too long")
    else Pass
  }

  /** `EmailFormField.validate` */
  function ValidateEmail(config: FieldConfiguration, value: Value): ValidationResult {
    var base := BaseValidate(config, value);
    if !base.isValid then base
    else if IsNonEmptyString(value) then Verdict(IsEmailShaped(value.s), "Invalid email")
    else Pass
  }

  /** `PasswordFormField.validate` */
  function ValidatePassword(config: FieldConfiguration, value: Value): ValidationResult {
    var base := BaseValidate(config, value);
    if !base.isValid then base
    else if !value.Str? then ValidationResult(!config.isRequired, Some(RequiredMessage))
    else if |value.s| < MinPasswordLength(config) then Fail("Too short")
    else Pass
  }

  /** `NumberFormField.validate` */
  function ValidateNumber(config: FieldConfiguration, value: Value): ValidationResult {
    var base := BaseValidate(config, value);
    if !base.isValid then base
    else if !value.Dbl? then ValidationResult(!config.isRequired, Some("Invalid number"))
    else Pass
  }

  /** `PhoneFormField.validate` */
  function ValidatePhone(config: FieldConfiguration, value: Value): ValidationResult {
    var base := BaseValidate(config, value);
    if !base.isValid then base
    else if !value.Str? then ValidationResult(!config.isRequired, Some("Invalid phone"))
    else Verdict(IsPhoneLength(value.s), "Invalid phone")
  }

  /** `CreditCardFormField.validate` */
  function ValidateCreditCard(config: FieldConfiguration, value: Value): ValidationResult {
    var base := BaseValidate(config, value);
    if !base.isValid then base
    else if !value.Str? then ValidationResult(!config.isRequired, Some("Invalid card"))
    else Verdict(IsCardLength(value.s), "Invalid card")
  }

  /** `URLFormField.validate` */
  function ValidateUrl(config: FieldConfiguration, value: Value, parsesUrl: UrlParser): ValidationResult {
    var base := BaseValidate(config, value);
    if !base.isValid then base
    else if !value.Str? then ValidationResult(!config.isRequired, Some("Invalid URL"))
    else Verdict(parsesUrl(value.s), "Invalid URL")
  }

  /** Dynamic dispatch of `validate` on the object's class. */
  function Validate(field: RegistryField, value: Value, parsesUrl: UrlParser): ValidationResult {
    match field.kind
    case TextFormField => ValidateText(field.config, value)
    case EmailFormField => ValidateEmail(field.config, value)
    case PasswordFormField => ValidatePassword(field.config, value)
    case NumberFormField => ValidateNumber(field.config, value)
    case PhoneFormField => ValidatePhone(field.config, value)
    case CreditCardFormField => ValidateCreditCard(field.config, value)
    case URLFormField => ValidateUrl(field.config, value, parsesUrl)
    case DateFormField => BaseValidate(field.config, value)
    case DropdownFormField => BaseValidate(field.config, value)
    case CheckboxFormField => BaseValidate(field.config, value)
    case RadioFormField => BaseValidate(field.config, value)
    case TextAreaFormField => BaseValidate(field.config, value)
    case SliderFormField => BaseValidate(field.config, value)
    case ToggleFormField => BaseValidate(field.config, value)
    case FileFormField => BaseValidate(field.config, value)
  }

  /** `getPlaceholder()`, inherited by every class. */
  function GetPlaceholder(field: RegistryField): string {
    field.config.placeholder
  }

  /** `getLabel()`, inherited by every class. */
  function GetLabel(field: RegistryField): string {
    field.config.labelText
  }

  /** `isRequired()`, inherited by every class. */
  function IsRequired(field: RegistryField): bool {
    field.config.isRequired
  }

  /** The keys `registerAllFields` uses. */
  const StandardKeys: set<string> := {
    "text", "email", "password", "number", "date", "dropdown", "checkbox", "radio",
    "textarea", "phone", "creditCard", "url", "slider", "toggle", "file"}

  /** The factory table after the fifteen registrations of `registerAllFields`,
      performed in order on the table `m`. */
  function WithAllFields(m: map<string, RegKind>): map<string, RegKind> {
    m["text" := TextFormField]["email" := EmailFormField]["password" := PasswordFormField]
     ["number" := NumberFormField]["date" := DateFormField]["dropdown" := DropdownFormField]
     ["checkbox" := CheckboxFormField]["radio" := RadioFormField]["textarea" := TextAreaFormField]
     ["phone" := PhoneFormField]["creditCard" := CreditCardFormField]["url" := URLFormField]
     ["slider" := SliderFormField]["toggle" := ToggleFormField]["file" := FileFormField]
  }

  /** The string-keyed table of factories. */
  class FormFieldRegistry {
    var factories: map<string, RegKind>

    constructor ()
      ensures factories == map[]
    {
      factories := map[];
    }

    /** Stores a factory under a key; the last registration wins. */
    method Register(key: string, factory: RegKind)
      modifies this
      ensures factories == old(factories)[key := factory]
      ensures key in factories && factories[key] == factory
      ensures forall k :: k != key ==> (k in factories <==> k in old(factories))
      ensures forall k :: k != key && k in factories ==> factories[k] == old(factories)[k]
    {
      factories := factories[key := factory];
    }

    /** Looks a key up: nil when nothing is registered under it, otherwise the
        object that key's factory builds from the configuration. */
    method CreateFormField(key: string, config: FieldConfiguration) returns (field: Option<RegistryField>)
      ensures field.None? <==> key !in factories
      ensures field.Some? ==> field.value.kind == factories[key] && field.value.config == config
    {
      if key in factories {
        field := Some(RegistryField(factories[key], config));
      } else {
        field := None;
      }
    }

    /** Registers the fifteen built-in classes under their keys, overwriting
        earlier entries for those keys and keeping every other entry. */
    method RegisterAllFields()
      modifies this
      ensures factories == WithAllFields(old(factories))
    {
      Register("text", TextFormField);
      Register("email", EmailFormField);
      Register("password", PasswordFormField);
      Register("number", NumberFormField);
      Register("date", DateFormField);
      Register("dropdown", DropdownFormField);
      Register("checkbox", CheckboxFormField);
      Register("radio", RadioFormField);
      Register("textarea", TextAreaFormField);
      Register("phone", PhoneFormField);
      Register("creditCard", CreditCardFormField);
      Register("url", URLFormField);
      Register("slider", SliderFormField);
      Register("toggle", ToggleFormField);
      Register("file", FileFormField);
    }
  }

  // ---------------------------------------------------------------------
  // Properties of the class hierarchy

  /** The base check fails exactly for a required field given nil or "", and
      its failure is the required message. */
  lemma BaseRule(config: FieldConfiguration, value: Value)
    ensures !BaseValidate(config, value).isValid <==>
      config.isRequired && (value.Absent? || value == Str(""))
    ensures BaseValidate(config, value) == Pass || BaseValidate(config, value) == Fail(RequiredMessage)
    ensures !value.Absent? && !value.Str? ==> BaseValidate(config, value) == Pass
  {
  }

  /** Every class runs the base check first and hands back its failure
      unchanged. */
  lemma BaseFailureIsFinal(field: RegistryField, value: Value, parsesUrl: UrlParser)
    requires !BaseValidate(field.config, value).isValid
    ensures Validate(field, value, parsesUrl) == BaseValidate(field.config, value)
  {
  }

  /** The eight classes without an override validate exactly as the base. */
  lemma InheritedValidation(field: RegistryField, value: Value, parsesUrl: UrlParser)
    requires !Overrides(field.kind)
    ensures Validate(field, value, parsesUrl) == BaseValidate(field.config, value)
  {
  }

  /** What each override adds once the base check has passed. */
  lemma OverrideRules(config: FieldConfiguration, value: Value, parsesUrl: UrlParser)
    requires BaseValidate(config, value).isValid
    ensures ValidateText(config, value) == (if ExceedsMaxLength(config, value) then Fail("Too long") else Pass)
    ensures ValidateEmail(config, value) ==
      (if IsNonEmptyString(value) && !IsEmailShaped(value.s) then Fail("Invalid email") else Pass)
    ensures ValidatePassword(config, value) ==
      (if !value.Str? then ValidationResult(!config.isRequired, Some(RequiredMessage))
       else if |value.s| < MinPasswordLength(config) then Fail("Too short") else Pass)
    ensures ValidateNumber(config, value) ==
      (if value.Dbl? then Pass else ValidationResult(!config.isRequired, Some("Invalid number")))
    ensures value.Str? ==>
      ValidatePhone(config, value) == (if |value.s| >= 10 then Pass else Fail("Invalid phone"))
    ensures value.Str? ==>
      ValidateCreditCard(config, value) == (if 13 <= |value.s| <= 19 then Pass else Fail("Invalid card"))
    ensures value.Str? ==>
      ValidateUrl(config, value, parsesUrl) == (if parsesUrl(value.s) then Pass else Fail("Invalid URL"))
    ensures !value.Str? ==>
      && ValidatePhone(config, value) == ValidationResult(!config.isRequired, Some("Invalid phone"))
      && ValidateCreditCard(config, value) == ValidationResult(!config.isRequired, Some("Invalid card"))
      && ValidateUrl(config, value, parsesUrl) == ValidationResult(!config.isRequired, Some("Invalid URL"))
  {
  }

  /** An override never accepts what the base check rejects. */
  lemma OverridesOnlyNarrow(field: RegistryField, value: Value, parsesUrl: UrlParser)
    ensures Validate(field, value, parsesUrl).isValid ==> BaseValidate(field.config, value).isValid
  {
  }

  /** The accessors read the stored configuration, for every class. */
  lemma AccessorsReadConfig(kind: RegKind, config: FieldConfiguration)
    ensures GetLabel(RegistryField(kind, config)) == config.labelText
    ensures GetPlaceholder(RegistryField(kind, config)) == config.placeholder
    ensures IsRequired(RegistryField(kind, config)) == config.isRequired
  {
  }

  // ---------------------------------------------------------------------
  // Properties of the registry

  /** After `registerAllFields` the table holds the fifteen keys besides
      its earlier ones, and every other key keeps its entry. */
  lemma RegisterAllFieldsKeys(m: map<string, RegKind>)
    ensures WithAllFields(m).Keys == m.Keys + StandardKeys
    ensures forall k :: k in m && k !in StandardKeys ==> WithAllFields(m)[k] == m[k]
  {
  }

  /** After `registerAllFields` each of the fifteen keys maps to its class,
      whatever the table held before. */
  lemma RegisterAllFieldsLookups(m: map<string, RegKind>)
    ensures var r := WithAllFields(m);
      && r["text"] == TextFormField && r["email"] == EmailFormField
      && r["password"] == PasswordFormField && r["number"] == NumberFormField
      && r["date"] == DateFormField && r["dropdown"] == DropdownFormField
      && r["checkbox"] == CheckboxFormField && r["radio"] == RadioFormField
      && r["textarea"] == TextAreaFormField && r["phone"] == PhoneFormField
      && r["creditCard"] == CreditCardFormField && r["url"] == URLFormField
      && r["slider"] == SliderFormField && r["toggle"] == ToggleFormField
      && r["file"] == FileFormField
  {
  }

  /** The effect is a union that favours the built-in entries, so running
      `registerAllFields` a second time changes nothing. */
  lemma RegisterAllFieldsIdempotent(m: map<string, RegKind>)
    ensures WithAllFields(m) == m + WithAllFields(map[])
    ensures WithAllFields(WithAllFields(m)) == WithAllFields(m)
  {
  }

  /** Registered into an empty table, the fifteen keys give fifteen distinct
      entries. */
  lemma StandardFactoriesCount()
    ensures |WithAllFields(map[])| == 15
    ensures WithAllFields(map[]).Keys == StandardKeys
  {
    var m0: map<string, RegKind> := map[];
    assert "text" !in m0;
    var m1 := m0["text" := TextFormField];
    assert "email" !in m1;
    var m2 := m1["email" := EmailFormField];
    assert "password" !in m2;
    var m3 := m2["password" := PasswordFormField];
    assert "number" !in m3;
    var m4 := m3["number" := NumberFormField];
    assert "date" !in m4;
    var m5 := m4["date" := DateFormField];
    assert "dropdown" !in m5;
    var m6 := m5["dropdown" := DropdownFormField];
    assert "checkbox" !in m6;
    var m7 := m6["checkbox" := CheckboxFormField];
    assert "radio" !in m7;
    var m8 := m7["radio" := RadioFormField];
    assert "textarea" !in m8;
    var m9 := m8["textarea" := TextAreaFormField];
    assert "phone" !in m9;
    var m10 := m9["phone" := PhoneFormField];
    assert "creditCard" !in m10;
    var m11 := m10["creditCard" := CreditCardFormField];
    assert "url" !in m11;
    var m12 := m11["url" := URLFormField];
    assert "slider" !in m12;
    var m13 := m12["slider" := SliderFormField];
    assert "toggle" !in m13;
    var m14 := m13["toggle" := ToggleFormField];
    assert "file" !in m14;
    var m15 := m14["file" := FileFormField];
    assert m15 == WithAllFields(map[]);
  }
}
