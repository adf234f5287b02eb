/** How the two engines relate: which registry class stands for which
    closed-set kind, where their validations agree, and exactly where they do
    not. */
module EngineComparison {
  import opened Common
  import opened FieldRules
  import S = SwitchPattern
  import R = RegistryPattern

  /** The class that the registry builds under a kind's raw value. */
  function ClassFor(t: S.FormFieldType): R.RegKind {
    match t
    case Text => R.TextFormField
    case Email => R.EmailFormField
    case Password => R.PasswordFormField
    case Number => R.NumberFormField
    case Date => R.DateFormField
    case Dropdown => R.DropdownFormField
    case Checkbox => R.CheckboxFormField
    case Radio => R.RadioFormField
    case TextArea => R.TextAreaFormField
    case Phone => R.PhoneFormField
    case CreditCard => R.CreditCardFormField
    case Url => R.URLFormField
    case Slider => R.SliderFormField
    case Toggle => R.ToggleFormField
    case File => R.FileFormField
  }

  /** Both engines support exactly the same fifteen kinds: `ClassFor` pairs
      them one to one. */
  lemma ClassForIsBijective(t: S.FormFieldType, u: S.FormFieldType, k: R.RegKind)
    ensures ClassFor(t) == ClassFor(u) ==> t == u
    ensures exists v :: ClassFor(v) == k
  {
    match k
    case TextFormField => assert ClassFor(S.Text) == k;
    case EmailFormField => assert ClassFor(S.Email) == k;
    case PasswordFormField => assert ClassFor(S.Password) == k;
    case NumberFormField => assert ClassFor(S.Number) == k;
    case DateFormField => assert ClassFor(S.Date) == k;
    case DropdownFormField => assert ClassFor(S.Dropdown) == k;
    case CheckboxFormField => assert ClassFor(S.Checkbox) == k;
    case RadioFormField => assert ClassFor(S.Radio) == k;
    case TextAreaFormField => assert ClassFor(S.TextArea) == k;
    case PhoneFormField => assert ClassFor(S.Phone) == k;
    case CreditCardFormField => assert ClassFor(S.CreditCard) == k;
    case URLFormField => assert ClassFor(S.Url) == k;
    case SliderFormField => assert ClassFor(S.Slider) == k;
    case ToggleFormField => assert ClassFor(S.Toggle) == k;
    case FileFormField => assert ClassFor(S.File) == k;
  }

  /** After `registerAllFields`, every raw value of the enumeration is a key
      of the table, and it maps to the matching class. */
  lemma RawValuesRegistered(t: S.FormFieldType, m: map<string, R.RegKind>)
    ensures S.RawValue(t) in R.StandardKeys
    ensures S.RawValue(t) in R.WithAllFields(m)
    ensures R.WithAllFields(m)[S.RawValue(t)] == ClassFor(t)
  {
    R.RegisterAllFieldsKeys(m);
    R.RegisterAllFieldsLookups(m);
  }

  /** The registry's keys are exactly the raw values: a key the enumeration
      does not know (such as "bogus") finds nothing in a table built only by
      `registerAllFields`. */
  lemma StandardKeysAreRawValues(key: string)
    ensures key in R.StandardKeys <==> S.FromRawValue(key).Some?
    ensures key !in R.WithAllFields(map[]) <==> S.FromRawValue(key).None?
  {
    R.RegisterAllFieldsKeys(map[]);
  }

  /** Both engines' accessors read the same configuration fields. */
  lemma AccessorsAgree(t: S.FormFieldType, config: FieldConfiguration)
    ensures S.GetLabel(S.Create(t, config)) == R.GetLabel(R.RegistryField(ClassFor(t), config))
    ensures S.GetPlaceholder(S.Create(t, config)) == R.GetPlaceholder(R.RegistryField(ClassFor(t), config))
    ensures S.IsRequired(S.Create(t, config)) == R.IsRequired(R.RegistryField(ClassFor(t), config))
  {
  }

  /** The inputs on which the two engines give different verdicts, kind by
      kind, stated independently of either engine's code. */
  predicate Diverge(t: S.FormFieldType, config: FieldConfiguration, value: Value, parsesUrl: UrlParser) {
    var req := config.isRequired;
    match t
    // a present non-string: the closed set wants a non-empty string, the base check lets it through
    case Text => req && !value.Absent? && !value.Str?
    case Email => req && !value.Absent? && !value.Str?
    case TextArea => req && !value.Absent? && !value.Str?
    // "" is "too short" in one engine and "required" in the other, unless the minimum is not positive
    case Password => req && value == Str("") && MinPasswordLength(config) <= 0
    case Number => false
    case Phone => false
    case CreditCard => false
    case Date => req && !value.Absent? && value != Str("") && !value.DateV?
    case Dropdown => req && value == Str("")
    case Radio => req && value == Str("")
    case File => req && value == Str("")
    case Checkbox => req && !value.Absent? && value != Str("") && value != BoolV(true)
    case Url => req && value == Str("") && parsesUrl("")
    case Slider => req && (value.Absent? || value == Str(""))
    case Toggle => req && (value.Absent? || value == Str(""))
  }

  /** The engines disagree on `isValid` exactly on the inputs `Diverge` names. */
  lemma EnginesDisagreeExactly(t: S.FormFieldType, config: FieldConfiguration, value: Value, parsesUrl: UrlParser)
    ensures S.Validate(S.Create(t, config), value, parsesUrl).isValid
            != R.Validate(R.RegistryField(ClassFor(t), config), value, parsesUrl).isValid
            <==> Diverge(t, config, value, parsesUrl)
  {
  }

  /** Number, phone and credit card: the verdicts agree on every value (the
      messages need not: a required number given nothing is "Invalid number"
      in one engine and "Field is required" in the other). */
  lemma VerdictsAgreeForNumberPhoneCard(t: S.FormFieldType, config: FieldConfiguration, value: Value, parsesUrl: UrlParser)
    requires t == S.Number || t == S.Phone || t == S.CreditCard
    ensures S.Validate(S.Create(t, config), value, parsesUrl).isValid
            == R.Validate(R.RegistryField(ClassFor(t), config), value, parsesUrl).isValid
  {
    EnginesDisagreeExactly(t, config, value, parsesUrl);
  }

  /** Text and email: given nothing or a string, the two engines return the
      very same result, message included. */
  lemma TextEmailAgreeOnStrings(t: S.FormFieldType, config: FieldConfiguration, value: Value, parsesUrl: UrlParser)
    requires t == S.Text || t == S.Email
    requires value.Absent? || value.Str?
    ensures S.Validate(S.Create(t, config), value, parsesUrl)
            == R.Validate(R.RegistryField(ClassFor(t), config), value, parsesUrl)
  {
  }

  /** A required text field given a number: invalid in the closed set, valid
      in the registry. */
  lemma RequiredTextGivenNumber(config: FieldConfiguration, parsesUrl: UrlParser)
    requires config.isRequired
    ensures S.Validate(S.TextField(config), IntV(5), parsesUrl) == Fail(RequiredMessage)
    ensures R.Validate(R.RegistryField(R.TextFormField, config), IntV(5), parsesUrl).isValid
  {
  }

  /** A required checkbox given `false`: invalid in the closed set, valid in
      the registry. */
  lemma RequiredCheckboxGivenFalse(config: FieldConfiguration, parsesUrl: UrlParser)
    requires config.isRequired
    ensures S.Validate(S.CheckboxField(config), BoolV(false), parsesUrl) == Fail("Must be checked")
    ensures R.Validate(R.RegistryField(R.CheckboxFormField, config), BoolV(false), parsesUrl) == Pass
  {
  }

  /** A required slider given nothing: valid in the closed set, invalid in the
      registry. */
  lemma RequiredSliderGivenNothing(config: FieldConfiguration, parsesUrl: UrlParser)
    requires config.isRequired
    ensures S.Validate(S.SliderField(config), Absent, parsesUrl) == Pass
    ensures R.Validate(R.RegistryField(R.SliderFormField, config), Absent, parsesUrl) == Fail(RequiredMessage)
  {
  }

  /** A required email: "a@b.com" passes and "abc" is an invalid email, in
      both engines. */
  lemma RequiredEmailExamples(config: FieldConfiguration, parsesUrl: UrlParser)
    requires config.isRequired
    ensures S.Validate(S.EmailField(config), Str("a@b.com"), parsesUrl) == Pass
    ensures R.Validate(R.RegistryField(R.EmailFormField, config), Str("a@b.com"), parsesUrl) == Pass
    ensures S.Validate(S.EmailField(config), Str("abc"), parsesUrl) == Fail("Invalid email")
    ensures R.Validate(R.RegistryField(R.EmailFormField, config), Str("abc"), parsesUrl) == Fail("Invalid email")
  {
    assert '@' in "a@b.com" && '.' in "a@b.com";
    assert '@' !in "abc";
  }
}
