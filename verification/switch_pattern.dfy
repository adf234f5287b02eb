/** The closed-set engine: a fixed enumeration of fifteen field kinds, one sum
    type whose variants each carry a configuration, and validation and
    accessors chosen by exhaustive case analysis. */
module SwitchPattern {
  import opened Common
  import opened FieldRules

  /** The fifteen kinds, in declaration order. */
  datatype FormFieldType =
    | Text | Email | Password | Number | Date
    | Dropdown | Checkbox | Radio | TextArea | Phone
    | CreditCard | Url | Slider | Toggle | File

  /** The raw value of each case, which is its case name. */
  function RawValue(t: FormFieldType): string {
    match t
    case Text => "text"
    case Email => "email"
    case Password => "password"
    case Number => "number"
    case Date => "date"
    case Dropdown => "dropdown"
    case Checkbox => "checkbox"
    case Radio => "radio"
    case TextArea => "textarea"
    case Phone => "phone"
    case CreditCard => "creditCard"
    case Url => "url"
    case Slider => "slider"
    case Toggle => "toggle"
    case File => "file"
  }

  /** The failable initializer `FormFieldType(rawValue:)` that a `String` raw
      type brings with it. */
  function FromRawValue(s: string): Option<FormFieldType> {
    if s == "text" then Some(Text)
    else if s == "email" then Some(Email)
    else if s == "password" then Some(Password)
    else if s == "number" then Some(Number)
    else if s == "date" then Some(Date)
    else if s == "dropdown" then Some(Dropdown)
    else if s == "checkbox" then Some(Checkbox)
    else if s == "radio" then Some(Radio)
    else if s == "textarea" then Some(TextArea)
    else if s == "phone" then Some(Phone)
    else if s == "creditCard" then Some(CreditCard)
    else if s == "url" then Some(Url)
    else if s == "slider" then Some(Slider)
    else if s == "toggle" then Some(Toggle)
    else if s == "file" then Some(File)
    else None
  }

  /** `FormFieldType.allCases` */
  const AllCases: seq<FormFieldType> :=
    [Text, Email, Password, Number, Date, Dropdown, Checkbox, Radio, TextArea,
     Phone, CreditCard, Url, Slider, Toggle, File]

  /** Position of a kind in `AllCases`. */
  function IndexOf(t: FormFieldType): (i: nat)
    ensures i < |AllCases| && AllCases[i] == t
  {
    match t
    case Text => 0
    case Email => 1
    case Password => 2
    case Number => 3
    case Date => 4
    case Dropdown => 5
    case Checkbox => 6
    case Radio => 7
    case TextArea => 8
    case Phone => 9
    case CreditCard => 10
    case Url => 11
    case Slider => 12
    case Toggle => 13
    case File => 14
  }

  /** A field instance: exactly one kind and one configuration. */
  datatype FormField =
    | TextField(config: FieldConfiguration)
    | EmailField(config: FieldConfiguration)
    | PasswordField(config: FieldConfiguration)
    | NumberField(config: FieldConfiguration)
    | DateField(config: FieldConfiguration)
    | DropdownField(config: FieldConfiguration)
    | CheckboxField(config: FieldConfiguration)
    | RadioField(config: FieldConfiguration)
    | TextAreaField(config: FieldConfiguration)
    | PhoneField(config: FieldConfiguration)
    | CreditCardField(config: FieldConfiguration)
    | UrlField(config: FieldConfiguration)
    | SliderField(config: FieldConfiguration)
    | ToggleField(config: FieldConfiguration)
    | FileField(config: FieldConfiguration)

  /** The kind a variant stands for. */
  function KindOf(f: FormField): FormFieldType {
    match f
    case TextField(_) => Text
    case EmailField(_) => Email
    case PasswordField(_) => Password
    case NumberField(_) => Number
    case DateField(_) => Date
    case DropdownField(_) => Dropdown
    case CheckboxField(_) => Checkbox
    case RadioField(_) => Radio
    case TextAreaField(_) => TextArea
    case PhoneField(_) => Phone
    case CreditCardField(_) => CreditCard
    case UrlField(_) => Url
    case SliderField(_) => Slider
    case ToggleField(_) => Toggle
    case FileField(_) => File
  }

  /** The factory `FormField.create(type:config:)`. */
  function Create(t: FormFieldType, config: FieldConfiguration): FormField {
    match t
    case Text => TextField(config)
    case Email => EmailField(config)
    case Password => PasswordField(config)
    case Number => NumberField(config)
    case Date => DateField(config)
    case Dropdown => DropdownField(config)
    case Checkbox => CheckboxField(config)
    case Radio => RadioField(config)
    case TextArea => TextAreaField(config)
    case Phone => PhoneField(config)
    case CreditCard => CreditCardField(config)
    case Url => UrlField(config)
    case Slider => SliderField(config)
    case Toggle => ToggleField(config)
    case File => FileField(config)
  }

  /** `FormField.validate(_:)`, one rule per kind. */
  function Validate(field: FormField, value: Value, parsesUrl: UrlParser): ValidationResult {
    match field
    case TextField(config) =>
      if config.isRequired && !IsNonEmptyString(value) then Fail(RequiredMessage)
      else if ExceedsMaxLength(config, value) then Fail("Too long")
      else Pass
    case EmailField(config) =>
      if config.isRequired && !IsNonEmptyString(value) then Fail(RequiredMessage)
      else if IsNonEmptyString(value) then Verdict(IsEmailShaped(value.s), "Invalid email")
      else Pass
    case PasswordField(config) =>
      if !value.Str? then ValidationResult(!config.isRequired, Some(RequiredMessage))
      else if |value.s| < MinPasswordLength(config) then Fail("Too short")
      else Pass
    case NumberField(config) =>
      if !value.Dbl? then ValidationResult(!config.isRequired, Some("Invalid number"))
      else Pass
    case DateField(config) =>
      if !value.DateV? then ValidationResult(!config.isRequired, Some("Invalid date"))
      else Pass
    case DropdownField(config) =>
      if config.isRequired && value.Absent? then Fail("Select an option") else Pass
    case CheckboxField(config) =>
      if config.isRequired && value != BoolV(true) then Fail("Must be checked") else Pass
    case RadioField(config) =>
      if config.isRequired && value.Absent? then Fail("Select an option") else Pass
    case TextAreaField(config) =>
      if config.isRequired && !IsNonEmptyString(value) then Fail(RequiredMessage) else Pass
    case PhoneField(config) =>
      if !value.Str? then ValidationResult(!config.isRequired, Some("Invalid phone"))
      else Verdict(IsPhoneLength(value.s), "Invalid phone")
    case CreditCardField(config) =>
      if !value.Str? then ValidationResult(!config.isRequired, Some("Invalid card"))
      else Verdict(IsCardLength(value.s), "Invalid card")
    case UrlField(config) =>
      if !value.Str? then ValidationResult(!config.isRequired, Some("Invalid URL"))
      else Verdict(parsesUrl(value.s), "Invalid URL")
    case SliderField(_) => Pass
    case ToggleField(_) => Pass
    case FileField(config) =>
      if config.isRequired && value.Absent? then Fail("File required") else Pass
  }

  /** `getPlaceholder()` */
  function GetPlaceholder(field: FormField): string {
    match field
    case TextField(c) => c.placeholder
    case EmailField(c) => c.placeholder
    case PasswordField(c) => c.placeholder
    case NumberField(c) => c.placeholder
    case DateField(c) => c.placeholder
    case DropdownField(c) => c.placeholder
    case CheckboxField(c) => c.placeholder
    case RadioField(c) => c.placeholder
    case TextAreaField(c) => c.placeholder
    case PhoneField(c) => c.placeholder
    case CreditCardField(c) => c.placeholder
    case UrlField(c) => c.placeholder
    case SliderField(c) => c.placeholder
    case ToggleField(c) => c.placeholder
    case FileField(c) => c.placeholder
  }

  /** `getLabel()` */
  function GetLabel(field: FormField): string {
    match field
    case TextField(c) => c.labelText
    case EmailField(c) => c.labelText
    case PasswordField(c) => c.labelText
    case NumberField(c) => c.labelText
    case DateField(c) => c.labelText
    case DropdownField(c) => c.labelText
    case CheckboxField(c) => c.labelText
    case RadioField(c) => c.labelText
    case TextAreaField(c) => c.labelText
    case PhoneField(c) => c.labelText
    case CreditCardField(c) => c.labelText
    case UrlField(c) => c.labelText
    case SliderField(c) => c.labelText
    case ToggleField(c) => c.labelText
    case FileField(c) => c.labelText
  }

  /** `isRequired()` */
  function IsRequired(field: FormField): bool {
    match field
    case TextField(c) => c.isRequired
    case EmailField(c) => c.isRequired
    case PasswordField(c) => c.isRequired
    case NumberField(c) => c.isRequired
    case DateField(c) => c.isRequired
    case DropdownField(c) => c.isRequired
    case CheckboxField(c) => c.isRequired
    case RadioField(c) => c.isRequired
    case TextAreaField(c) => c.isRequired
    case PhoneField(c) => c.isRequired
    case CreditCardField(c) => c.isRequired
    case UrlField(c) => c.isRequired
    case SliderField(c) => c.isRequired
    case ToggleField(c) => c.isRequired
    case FileField(c) => c.isRequired
  }

  // ---------------------------------------------------------------------
  // The enumeration

  /** Fifteen kinds, each listed once, and every kind listed. */
  lemma AllCasesEnumeratesKinds()
    ensures |AllCases| == 15
    ensures forall t :: t in AllCases
    ensures forall i, j :: 0 <= i < j < |AllCases| ==> AllCases[i] != AllCases[j]
  {
    forall t ensures t in AllCases {
      assert AllCases[IndexOf(t)] == t;
    }
  }

  /** Raw values round-trip through the initializer, and the initializer
      accepts nothing but a raw value; so the raw values are distinct. */
  lemma RawValueRoundTrip(t: FormFieldType, s: string)
    ensures FromRawValue(RawValue(t)) == Some(t)
    ensures FromRawValue(s).Some? ==> RawValue(FromRawValue(s).value) == s
    ensures FromRawValue(s).None? ==> forall u :: RawValue(u) != s
  {
  }

  lemma RawValueInjective(t: FormFieldType, u: FormFieldType)
    ensures RawValue(t) == RawValue(u) ==> t == u
  {
    RawValueRoundTrip(t, RawValue(u));
    RawValueRoundTrip(u, RawValue(t));
  }

  // ---------------------------------------------------------------------
  // Factory and accessors

  /** `create` yields the variant named by the kind, carrying the configuration
      unchanged; and every field is what `create` makes of its own kind and
      configuration. */
  lemma CreateKeepsKindAndConfig(t: FormFieldType, config: FieldConfiguration, f: FormField)
    ensures KindOf(Create(t, config)) == t
    ensures Create(t, config).config == config
    ensures Create(KindOf(f), f.config) == f
  {
  }

  /** Every accessor reads the embedded configuration, whatever the kind. */
  lemma AccessorsReadConfig(t: FormFieldType, config: FieldConfiguration)
    ensures GetLabel(Create(t, config)) == config.labelText
    ensures GetPlaceholder(Create(t, config)) == config.placeholder
    ensures IsRequired(Create(t, config)) == config.isRequired
  {
  }

  // ---------------------------------------------------------------------
  // Validation rules, kind by kind

  /** Text: a required field needs a non-empty string; a string longer than an
      integer `maxLength` is too long; nothing else fails. */
  lemma TextRule(config: FieldConfiguration, value: Value, parsesUrl: UrlParser)
    ensures var r := Validate(TextField(config), value, parsesUrl);
      && (config.isRequired && !IsNonEmptyString(value) ==> r == Fail(RequiredMessage))
      && (r == Fail("Too long") <==>
            (!config.isRequired || IsNonEmptyString(value)) && ExceedsMaxLength(config, value))
      && (r.isValid <==>
            (!config.isRequired || IsNonEmptyString(value)) && !ExceedsMaxLength(config, value))
      && (r.isValid ==> r == Pass)
  {
  }

  /** Email: same required check as text; a non-empty string without "@" or
      without "." is an invalid email; an optional email given a non-string
      value passes. */
  lemma EmailRule(config: FieldConfiguration, value: Value, parsesUrl: UrlParser)
    ensures var r := Validate(EmailField(config), value, parsesUrl);
      && (config.isRequired && !IsNonEmptyString(value) ==> r == Fail(RequiredMessage))
      && (r == Fail("Invalid email") <==> IsNonEmptyString(value) && !IsEmailShaped(value.s))
      && (r.isValid <==>
            (!config.isRequired || IsNonEmptyString(value))
            && (IsNonEmptyString(value) ==> IsEmailShaped(value.s)))
      && (!config.isRequired && !value.Str? ==> r == Pass)
      && (r.isValid ==> r == Pass)
  {
  }

  /** Password: a non-string gives `isValid == !isRequired` with the required
      message; a string shorter than the integer `minLength` (default 8) is too
      short; any other string passes. */
  lemma PasswordRule(config: FieldConfiguration, value: Value, parsesUrl: UrlParser)
    ensures var r := Validate(PasswordField(config), value, parsesUrl);
      && (!value.Str? ==> r == ValidationResult(!config.isRequired, Some(RequiredMessage)))
      && (value.Str? ==> (r.isValid <==> |value.s| >= MinPasswordLength(config)))
      && (value.Str? && !r.isValid ==> r == Fail("Too short"))
      && (value.Str? && r.isValid ==> r == Pass)
  {
  }

  /** A result may be valid and still carry a message: an optional password
      given a value that is not a string. */
  lemma ValidResultMayCarryMessage(config: FieldConfiguration, parsesUrl: UrlParser)
    requires !config.isRequired
    ensures var r := Validate(PasswordField(config), IntV(0), parsesUrl);
      r.isValid && r.errorMessage == Some(RequiredMessage)
  {
  }

  /** Number and date: a value of the wrong type gives `isValid == !isRequired`
      with the kind's message; a value of the right type passes. */
  lemma NumberDateRule(config: FieldConfiguration, value: Value, parsesUrl: UrlParser)
    ensures var r := Validate(NumberField(config), value, parsesUrl);
      && (!value.Dbl? ==> r == ValidationResult(!config.isRequired, Some("Invalid number")))
      && (value.Dbl? ==> r == Pass)
      && (r.isValid <==> value.Dbl? || !config.isRequired)
    ensures var r := Validate(DateField(config), value, parsesUrl);
      && (!value.DateV? ==> r == ValidationResult(!config.isRequired, Some("Invalid date")))
      && (value.DateV? ==> r == Pass)
      && (r.isValid <==> value.DateV? || !config.isRequired)
  {
  }

  /** Phone: a non-string gives `isValid == !isRequired`; a string is valid
      exactly when it has at least ten characters. */
  lemma PhoneRule(config: FieldConfiguration, value: Value, parsesUrl: UrlParser)
    ensures var r := Validate(PhoneField(config), value, parsesUrl);
      && (!value.Str? ==> r == ValidationResult(!config.isRequired, Some("Invalid phone")))
      && (value.Str? ==> (r.isValid <==> |value.s| >= 10))
      && (value.Str? ==> r.errorMessage == (if r.isValid then None else Some("Invalid phone")))
  {
  }

  /** Credit card: a non-string gives `isValid == !isRequired`; a string is
      valid exactly when its length lies in [13, 19]. */
  lemma CreditCardRule(config: FieldConfiguration, value: Value, parsesUrl: UrlParser)
    ensures var r := Validate(CreditCardField(config), value, parsesUrl);
      && (!value.Str? ==> r == ValidationResult(!config.isRequired, Some("Invalid card")))
      && (value.Str? ==> (r.isValid <==> 13 <= |value.s| <= 19))
      && (value.Str? ==> r.errorMessage == (if r.isValid then None else Some("Invalid card")))
  {
  }

  /** URL: a non-string gives `isValid == !isRequired`; a string is valid
      exactly when the parser accepts it. */
  lemma UrlRule(config: FieldConfiguration, value: Value, parsesUrl: UrlParser)
    ensures var r := Validate(UrlField(config), value, parsesUrl);
      && (!value.Str? ==> r == ValidationResult(!config.isRequired, Some("Invalid URL")))
      && (value.Str? ==> (r.isValid <==> parsesUrl(value.s)))
      && (value.Str? ==> r.errorMessage == (if r.isValid then None else Some("Invalid URL")))
  {
  }

  /** Dropdown, radio and file fail only when required and absent; an empty
      string is present, so it passes. */
  lemma SelectionRule(config: FieldConfiguration, value: Value, parsesUrl: UrlParser)
    ensures var r := Validate(DropdownField(config), value, parsesUrl);
      r == (if config.isRequired && value.Absent? then Fail("Select an option") else Pass)
    ensures var r := Validate(RadioField(config), value, parsesUrl);
      r == (if config.isRequired && value.Absent? then Fail("Select an option") else Pass)
    ensures var r := Validate(FileField(config), value, parsesUrl);
      r == (if config.isRequired && value.Absent? then Fail("File required") else Pass)
    ensures config.isRequired ==>
      Validate(DropdownField(config), Str(""), parsesUrl).isValid
      && !Validate(DropdownField(config), Absent, parsesUrl).isValid
  {
  }

  /** Checkbox: a required checkbox passes only with the boolean `true`. */
  lemma CheckboxRule(config: FieldConfiguration, value: Value, parsesUrl: UrlParser)
    ensures var r := Validate(CheckboxField(config), value, parsesUrl);
      && (r.isValid <==> !config.isRequired || value == BoolV(true))
      && (!r.isValid ==> r == Fail("Must be checked"))
      && (r.isValid ==> r == Pass)
  {
  }

  /** Textarea: a required field needs a non-empty string. */
  lemma TextAreaRule(config: FieldConfiguration, value: Value, parsesUrl: UrlParser)
    ensures var r := Validate(TextAreaField(config), value, parsesUrl);
      && (r.isValid <==> !config.isRequired || IsNonEmptyString(value))
      && (!r.isValid ==> r == Fail(RequiredMessage))
      && (r.isValid ==> r == Pass)
  {
  }

  /** Slider and toggle have no rule: every value passes. */
  lemma SliderToggleRule(config: FieldConfiguration, value: Value, parsesUrl: UrlParser)
    ensures Validate(SliderField(config), value, parsesUrl) == Pass
    ensures Validate(ToggleField(config), value, parsesUrl) == Pass
  {
  }

  /** No kind rejects silently: every invalid result carries a message, and
      every result without a message is valid. */
  lemma InvalidCarriesMessage(f: FormField, value: Value, parsesUrl: UrlParser)
    ensures !Validate(f, value, parsesUrl).isValid ==> Validate(f, value, parsesUrl).errorMessage.Some?
    ensures Validate(f, value, parsesUrl).errorMessage.None? ==> Validate(f, value, parsesUrl) == Pass
  {
  }
}
