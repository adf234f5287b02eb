# Form-field dispatch engines, modelled in Dafny

The modelled system is a Swift micro-benchmark. It compares two ways of
representing fifteen kinds of form field:

- **Closed set (switch pattern).** A `FormFieldType` enumeration and a
  `FormField` sum type whose fifteen variants each carry a
  `FieldConfiguration`. `create`, `validate` and three accessors are
  exhaustive `switch`es.
- **Open set (registry pattern).** One class per kind over a `BaseFormField`
  whose `validate` is a required-check. Seven classes override it; eight
  inherit it. A `FormFieldRegistry` maps string keys to factory closures.

The benchmark driver (`MemoryAnalyzer`) generates test configurations. It
builds round-robin sweeps of fields through both engines and fills a
standalone factory table. It divides memory deltas by the counts produced and
prints byte counts with a unit chosen by 1024-based thresholds.

Files, one module each:

- `common.dfy` (`Common`): the dynamically typed `Value` (Swift `Any?`),
  `FieldConfiguration`, `ValidationResult`, and the `as? Int` metadata
  cast (`as? String` is a test on the `Str` case).
- `field_rules.dfy` (`FieldRules`): the kind-specific checks that both engines
  write out identically (max length, email shape, min length with default 8,
  phone and card lengths).
- `switch_pattern.dfy` (`SwitchPattern`): the closed-set engine.
- `registry_pattern.dfy` (`RegistryPattern`): the class hierarchy as
  `RegistryField(kind, config)`, plus a `FormFieldRegistry` class whose
  `factories: map<string, RegKind>` is updated in place. A factory closure
  is represented by the tag of the class it builds.
- `engine_comparison.dfy` (`EngineComparison`): the kind-to-class
  correspondence, and exactly where the two engines' verdicts agree and
  where they diverge.
- `decimal.dfy` (`Decimal`): Swift's `"\(n)"` for integers, with a
  round-trip proof.
- `memory_analyser.dfy` (`MemoryAnalyser`): test configurations, the sweeps
  (loops with invariants), the factory table, the division and the
  byte-unit choice.

Notes on the modelling:

- Swift's `String.count` counts grapheme clusters; here it is sequence
  length. `contains("@")` is character membership.
- `URL(string:) != nil` is Foundation code that is not modelled. Every
  validation therefore takes the parser as a parameter `parsesUrl`.
- The configuration field `label` is called `labelText`, because `label` is a
  Dafny keyword.
- Two behaviours of the code worth noting:
  - The closed-set number, date, phone, card and URL rules return
    `isValid == !isRequired` on a value of the wrong type; they do not always
    fail.
  - The password rule's non-string message is "Field is required".

## Model

| member | source | states |
|---|---|---|
| `SwitchPattern.AllCasesEnumeratesKinds` | Registry-pattern-experiments.playground/Sources/SwitchPattern.swift:5-21 | `allCases` has 15 entries, no repeats, and contains every kind |
| `SwitchPattern.RawValueRoundTrip` | Registry-pattern-experiments.playground/Sources/SwitchPattern.swift:5-21 | `FormFieldType(rawValue:)` inverts `rawValue`, and accepts only raw values |
| `SwitchPattern.RawValueInjective` | Registry-pattern-experiments.playground/Sources/SwitchPattern.swift:5-21 | the fifteen raw strings are pairwise distinct |
| `SwitchPattern.CreateKeepsKindAndConfig` | Registry-pattern-experiments.playground/Sources/SwitchPattern.swift:41-74 | `create(type, config)` yields the variant of that kind carrying `config` unchanged; every field is `create` of its own kind and config |
| `SwitchPattern.AccessorsReadConfig` | Registry-pattern-experiments.playground/Sources/SwitchPattern.swift:191-222 | for every kind, `getLabel`/`getPlaceholder`/`isRequired` after `create` return the config's label, placeholder and isRequired |
| `SwitchPattern.TextRule` | Registry-pattern-experiments.playground/Sources/SwitchPattern.swift:78-87 | required and not a non-empty string gives "Field is required"; "Too long" iff that check passes and an Int `maxLength` is exceeded; valid otherwise |
| `SwitchPattern.EmailRule` | Registry-pattern-experiments.playground/Sources/SwitchPattern.swift:89-98 | "Invalid email" iff a non-empty string lacks "@" or "."; valid iff the required check passes and any non-empty string has both; an optional email given a non-string passes; a valid result has no message |
| `SwitchPattern.PasswordRule` | Registry-pattern-experiments.playground/Sources/SwitchPattern.swift:100-110 | a non-string gives `isValid == !isRequired` with "Field is required"; a string is valid iff its length reaches `minLength` (default 8), else "Too short" |
| `SwitchPattern.ValidResultMayCarryMessage` | Registry-pattern-experiments.playground/Sources/SwitchPattern.swift:101-104 | an optional password given a non-string is valid yet carries a message |
| `SwitchPattern.NumberDateRule` | Registry-pattern-experiments.playground/Sources/SwitchPattern.swift:112-124 | number (date) is valid iff the value is a Double (Date) or the field is optional; a wrong type gets the kind's message; a Double (Date) gets the pass result with no message |
| `SwitchPattern.PhoneRule` | Registry-pattern-experiments.playground/Sources/SwitchPattern.swift:150-157 | a non-string gives `isValid == !isRequired`; a string is valid iff its length is at least 10 |
| `SwitchPattern.CreditCardRule` | Registry-pattern-experiments.playground/Sources/SwitchPattern.swift:159-166 | a non-string gives `isValid == !isRequired`; a string is valid iff its length is in [13, 19] |
| `SwitchPattern.UrlRule` | Registry-pattern-experiments.playground/Sources/SwitchPattern.swift:168-175 | a non-string gives `isValid == !isRequired`; a string is valid iff the URL parser accepts it |
| `SwitchPattern.SelectionRule` | Registry-pattern-experiments.playground/Sources/SwitchPattern.swift:126-187 | dropdown, radio and file fail only when required and absent; a required dropdown accepts "" and rejects absent |
| `SwitchPattern.CheckboxRule` | Registry-pattern-experiments.playground/Sources/SwitchPattern.swift:132-136 | valid iff optional or the value is Bool `true`, then with no message; otherwise "Must be checked" |
| `SwitchPattern.TextAreaRule` | Registry-pattern-experiments.playground/Sources/SwitchPattern.swift:144-148 | valid iff optional or the value is a non-empty string, then with no message; otherwise "Field is required" |
| `SwitchPattern.SliderToggleRule` | Registry-pattern-experiments.playground/Sources/SwitchPattern.swift:177-181 | slider and toggle accept every value |
| `SwitchPattern.InvalidCarriesMessage` | Registry-pattern-experiments.playground/Sources/SwitchPattern.swift:76-189 | every invalid result has a message; a result without one is exactly the pass result |
| `RegistryPattern.BaseRule` | Registry-pattern-experiments.playground/Sources/RegistryPattern.swift:20-25 | the base check fails iff required and the value is nil or ""; it fails only with "Field is required"; any present non-string passes |
| `RegistryPattern.BaseFailureIsFinal` | Registry-pattern-experiments.playground/Sources/RegistryPattern.swift:41-149 | every class returns the base check's failure unchanged |
| `RegistryPattern.InheritedValidation` | Registry-pattern-experiments.playground/Sources/RegistryPattern.swift:100-153 | the eight classes without an override (date, dropdown, checkbox, radio, textarea at 100-104; slider, toggle, file at 151-153) validate exactly as the base |
| `RegistryPattern.OverrideRules` | Registry-pattern-experiments.playground/Sources/RegistryPattern.swift:41-149 | once the base check passes, each of the seven overrides returns its own rule's full result, message included (too long, email shape, password type and length, Double, phone length, card length, URL parse) |
| `RegistryPattern.OverridesOnlyNarrow` | Registry-pattern-experiments.playground/Sources/RegistryPattern.swift:41-149 | no class accepts a value the base check rejects |
| `RegistryPattern.AccessorsReadConfig` | Registry-pattern-experiments.playground/Sources/RegistryPattern.swift:27-37 | every class's accessors return the stored config's label, placeholder and isRequired |
| `RegistryPattern.FormFieldRegistry.constructor` | Registry-pattern-experiments.playground/Sources/RegistryPattern.swift:160 | a new registry has no factories |
| `RegistryPattern.FormFieldRegistry.Register` | Registry-pattern-experiments.playground/Sources/RegistryPattern.swift:162-164 | sets the key's entry to the factory, overwriting any earlier one; every other key keeps its entry |
| `RegistryPattern.FormFieldRegistry.CreateFormField` | Registry-pattern-experiments.playground/Sources/RegistryPattern.swift:166-168 | nil iff the key has no factory; otherwise an object of the registered class holding the given config |
| `RegistryPattern.FormFieldRegistry.RegisterAllFields` | Registry-pattern-experiments.playground/Sources/RegistryPattern.swift:170-186 | the new table is the old one after the fifteen registrations in order |
| `RegistryPattern.RegisterAllFieldsKeys` | Registry-pattern-experiments.playground/Sources/RegistryPattern.swift:170-186 | afterwards the keys are the old keys plus the fifteen built-in ones; other keys keep their entries |
| `RegistryPattern.RegisterAllFieldsLookups` | Registry-pattern-experiments.playground/Sources/RegistryPattern.swift:171-185 | afterwards each built-in key maps to its class, whatever the table held before |
| `RegistryPattern.RegisterAllFieldsIdempotent` | Registry-pattern-experiments.playground/Sources/RegistryPattern.swift:170-186 | the effect is a union favouring the built-ins; running it twice leaves the same table as once |
| `RegistryPattern.StandardFactoriesCount` | Registry-pattern-experiments.playground/Sources/RegistryPattern.swift:170-186 | into an empty table the fifteen registrations make fifteen distinct entries |
| `EngineComparison.ClassForIsBijective` | Registry-pattern-experiments.playground/Sources/RegistryPattern.swift:170-186 | kinds and registry classes correspond one to one |
| `EngineComparison.RawValuesRegistered` | Registry-pattern-experiments.playground/Sources/RegistryPattern.swift:170-186 | after `registerAllFields` every raw value is a key and maps to the matching class |
| `EngineComparison.StandardKeysAreRawValues` | Registry-pattern-experiments.playground/Sources/RegistryPattern.swift:166-186 | the registry's built-in keys are exactly the raw values; any other key (e.g. "bogus") finds nothing |
| `EngineComparison.AccessorsAgree` | Registry-pattern-experiments.playground/Sources/RegistryPattern.swift:27-37 | for every kind both engines' accessors return the same values |
| `EngineComparison.EnginesDisagreeExactly` | Registry-pattern-experiments.playground/Sources/RegistryPattern.swift:20-153 | for every kind, config and value the engines' verdicts differ iff `Diverge` holds: the kind-by-kind table of divergent inputs |
| `EngineComparison.VerdictsAgreeForNumberPhoneCard` | Registry-pattern-experiments.playground/Sources/RegistryPattern.swift:87-134 | number, phone and credit card get the same verdict in both engines on every value |
| `EngineComparison.TextEmailAgreeOnStrings` | Registry-pattern-experiments.playground/Sources/RegistryPattern.swift:41-67 | for text and email, absent or string values get identical results, message included |
| `EngineComparison.RequiredTextGivenNumber` | Registry-pattern-experiments.playground/Sources/RegistryPattern.swift:41-53 | a required text field given an Int fails in the closed set and passes in the registry |
| `EngineComparison.RequiredCheckboxGivenFalse` | Registry-pattern-experiments.playground/Sources/RegistryPattern.swift:102 | a required checkbox given `false` fails in the closed set and passes in the registry |
| `EngineComparison.RequiredSliderGivenNothing` | Registry-pattern-experiments.playground/Sources/RegistryPattern.swift:151 | a required slider given nothing passes in the closed set and fails in the registry |
| `EngineComparison.RequiredEmailExamples` | Registry-pattern-experiments.playground/Sources/RegistryPattern.swift:55-67 | "a@b.com" passes and "abc" is "Invalid email" in both engines |
| `Common.MetaInt` | Registry-pattern-experiments.playground/Sources/SwitchPattern.swift:82-84 | an Int metadata lookup succeeds iff the key is present with an Int; a missing key and a wrong type both give nil |
| `FieldRules.MinPasswordLength` | Registry-pattern-experiments.playground/Sources/SwitchPattern.swift:105 | the minimum is the Int `minLength` when set, 8 otherwise |
| `Decimal.NatDigitsRoundTrip` | Registry-pattern-experiments.playground/Sources/MemoryAnalyser.swift:69-70 | reading back the digits that interpolation writes gives the number |
| `Decimal.DecimalStringInjective` | Registry-pattern-experiments.playground/Sources/MemoryAnalyser.swift:69-70 | distinct integers interpolate to distinct strings |
| `MemoryAnalyser.TestConfigShape` | Registry-pattern-experiments.playground/Sources/MemoryAnalyser.swift:67-80 | a test config has no value, is required iff the index is even, and has maxLength 100, minLength 8 and three options |
| `MemoryAnalyser.TestConfigIdentifiersDistinct` | Registry-pattern-experiments.playground/Sources/MemoryAnalyser.swift:67-72 | distinct indices give distinct identifiers and labels |
| `MemoryAnalyser.SwitchSweep` | Registry-pattern-experiments.playground/Sources/MemoryAnalyser.swift:86-95 | exactly `iterations` fields; field i is `create(allCases[i % 15], createTestConfig(i, rawValue))` |
| `MemoryAnalyser.SweepCoversAllKinds` | Registry-pattern-experiments.playground/Sources/MemoryAnalyser.swift:89-93 | a sweep of at least 15 iterations contains every kind, and kinds repeat with period 15 |
| `MemoryAnalyser.RegistrySweepOf` | Registry-pattern-experiments.playground/Sources/MemoryAnalyser.swift:118-128 | a registry sweep never yields more fields than iterations |
| `MemoryAnalyser.RegistrySweep` | Registry-pattern-experiments.playground/Sources/MemoryAnalyser.swift:118-128 | the loop appends, in order, one field per iteration whose key is found |
| `MemoryAnalyser.RegistrySweepComplete` | Registry-pattern-experiments.playground/Sources/MemoryAnalyser.swift:121-126 | when every raw value is registered, the sweep yields exactly `iterations` fields, field i from the registered factory |
| `MemoryAnalyser.RegistryMemorySweep` | Registry-pattern-experiments.playground/Sources/MemoryAnalyser.swift:108-128 | after `registerAllFields`, exactly `iterations` fields; field i has the class matching the round-robin kind and the i-th config |
| `MemoryAnalyser.FactoryTableSize` | Registry-pattern-experiments.playground/Sources/MemoryAnalyser.swift:141-162 | the standalone factory table ends with 15 entries |
| `MemoryAnalyser.DebugMemoryMeasurement` | Registry-pattern-experiments.playground/Sources/MemoryAnalyser.swift:174-189 | `iterations` configs, and exactly as many enum and class text fields, each carrying the config at its position |
| `MemoryAnalyser.MemoryDelta` | Registry-pattern-experiments.playground/Sources/MemoryAnalyser.swift:45-49 | the conversion traps iff a reading exceeds `Int64.max`; otherwise the difference fits in an Int64 and adds back to the after reading |
| `MemoryAnalyser.PerItem` | Registry-pattern-experiments.playground/Sources/MemoryAnalyser.swift:100 | dividing by a zero count traps; otherwise the quotient is truncated toward zero |
| `MemoryAnalyser.PerItemDivisionSafety` | Registry-pattern-experiments.playground/Sources/MemoryAnalyser.swift:100-166 | per-field division (by the closed-set sweep's `iterations` fields or the registry sweep's length) is safe iff `iterations > 0`; per-factory division (by 15) is always safe |
| `MemoryAnalyser.FormatBytes` | Registry-pattern-experiments.playground/Sources/MemoryAnalyser.swift:53-62 | bytes iff abs < 1024 (text is the integer and " bytes"); KB iff abs in [1024, 1024²); MB otherwise; `abs(Int64.min)` traps |
| `MemoryAnalyser.FormatBytesUnitOrder` | Registry-pattern-experiments.playground/Sources/MemoryAnalyser.swift:53-62 | a delta and its negation get the same unit; a larger magnitude never gets a smaller unit |
| `MemoryAnalyser.SmallCountsRenderDistinctly` | Registry-pattern-experiments.playground/Sources/MemoryAnalyser.swift:55-56 | two different small byte counts are never printed alike |

## Left out

- Memory sampling (`getMemoryUsage` via `task_info`) and the `autoreleasepool`
  flush are operating-system services. Readings enter `MemoryDelta` only as
  numbers.
- The timing harness (`PerformanceTester.swift`) is left out: wall-clock time
  and `Double` averages and ratios. It repeats the same sweeps, adding a
  `validate("test value")` call and the three accessor calls per field.
- The floating-point `%.1f KB` / `%.1f MB` text of `formatBytes` is not
  modelled, and neither is any `print` output. Only the unit choice and the
  exact integer "bytes" text are.
- The entry point (`Contents.swift`) only sets an iteration count and calls
  the two reports.
- `URL(string:)` is a parameter (`parsesUrl`), so nothing is proved about
  which strings it accepts. `EnginesDisagreeExactly` therefore keeps
  `parsesUrl("")` as a condition.
- Identity and heap allocation of the registry field objects are not modelled.
  Each object only ever holds its class and an immutable configuration, so
  it is a value here.
- Swift `Any` can hold many more types than `Value` lists. Any type that no
  rule tests for is `Other`. Swift's bridging of numbers is not modelled:
  only `Dbl` counts as a `Double`.
- `index` in `createTestConfig` is an unbounded `int`. It agrees with Swift's
  `Int` on every index that `0..<iterations` produces.
- SwitchSweep, RegistrySweep, RegistryMemorySweep and DebugMemoryMeasurement
  take `iterations` as a `nat`. Swift's `0..<iterations` traps on a negative
  count (MemoryAnalyser.swift lines 89, 121, 175), and the model does not
  represent that trap.
