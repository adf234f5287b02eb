/** The deterministic part of the memory benchmark: the configurations it
    generates, the round-robin sweeps that build fields through each engine,
    the standalone factory table, the per-item division and the choice of
    unit when a byte count is printed. Memory readings themselves come from
    the operating system and enter only as numbers. */
module MemoryAnalyser {
  import opened Common
  import opened FieldRules
  import opened Decimal
  import S = SwitchPattern
  import R = RegistryPattern
  import E = EngineComparison

  const Int64Min: int := -0x8000_0000_0000_0000
  const Int64Max: int := 0x7FFF_FFFF_FFFF_FFFF
  const UInt64Bound: int := 0x1_0000_0000_0000_0000

  // ---------------------------------------------------------------------
  // Test configurations

  const TestOptions: seq<string> := ["Option1", "Option2", "Option3"]

  /** `createTestConfig(index:type:)`. Swift's `index % 2` truncates, Dafny's
      is Euclidean, but both are zero for exactly the even indices. */
  function CreateTestConfig(index: int, typeName: string): FieldConfiguration {
    FieldConfiguration(
      "field_" + DecimalString(index),
      "Field " + DecimalString(index),
      "Enter " + typeName,
      Absent,
      index % 2 == 0,
      map["maxLength" := IntV(100), "minLength" := IntV(8), "options" := StrList(TestOptions)])
  }

  /** What the rules read from a test configuration: no value, required on even
      indices, a maximum length of 100, a minimum length of 8, three options. */
  lemma TestConfigShape(index: int, typeName: string, value: Value)
    ensures var c := CreateTestConfig(index, typeName);
      && c.value == Absent
      && (c.isRequired <==> index % 2 == 0)
      && c.metadata.Keys == {"maxLength", "minLength", "options"}
      && MetaInt(c.metadata, "maxLength") == Some(100)
      && MinPasswordLength(c) == 8
      && (ExceedsMaxLength(c, value) <==> value.Str? && |value.s| > 100)
      && c.metadata["options"] == StrList(["Option1", "Option2", "Option3"])
      && c.placeholder == "Enter " + typeName
  {
  }

  /** Different indices give different identifiers and labels, whatever the
      type names. */
  lemma TestConfigIdentifiersDistinct(i: int, j: int, t1: string, t2: string)
    requires i != j
    ensures CreateTestConfig(i, t1).identifier != CreateTestConfig(j, t2).identifier
    ensures CreateTestConfig(i, t1).labelText != CreateTestConfig(j, t2).labelText
  {
    var di, dj := DecimalString(i), DecimalString(j);
    DecimalStringInjective(i, j);
    assert ("field_" + di)[6..] == di;
    assert ("field_" + dj)[6..] == dj;
    assert ("Field " + di)[6..] == di;
    assert ("Field " + dj)[6..] == dj;
  }

  // ---------------------------------------------------------------------
  // Round-robin sweeps

  /** The kind used for the `i`-th field: `types[i % types.count]`. */
  function SweepType(i: nat): S.FormFieldType {
    S.AllCases[i % |S.AllCases|]
  }

  /** The configuration used for the `i`-th field of a sweep. */
  function SweepConfig(i: nat): FieldConfiguration {
    CreateTestConfig(i, S.RawValue(SweepType(i)))
  }

  /** The fields built by the closed-set sweep of `analyzeSwitchStatementMemory`:
      one per iteration, the `i`-th made by `create` from the `i`-th kind in
      round-robin order. (`0..<iterations` traps on a negative count, so the
      count is a `nat`.) */
  method SwitchSweep(iterations: nat) returns (fields: seq<S.FormField>)
    ensures |fields| == iterations
    ensures forall i :: 0 <= i < iterations ==> fields[i] == S.Create(SweepType(i), SweepConfig(i))
  {
    fields := [];
    var types := S.AllCases;
    for i := 0 to iterations
      invariant |fields| == i
      invariant forall k :: 0 <= k < i ==> fields[k] == S.Create(SweepType(k), SweepConfig(k))
    {
      var t := types[i % |types|];
      var config := CreateTestConfig(i, S.RawValue(t));
      var field := S.Create(t, config);
      fields := fields + [field];
    }
  }

  /** Every kind occurs in a sweep of at least fifteen iterations, and the
      kinds repeat with period fifteen. */
  lemma SweepCoversAllKinds(fields: seq<S.FormField>, t: S.FormFieldType)
    requires |fields| >= 15
    requires forall i :: 0 <= i < |fields| ==> fields[i] == S.Create(SweepType(i), SweepConfig(i))
    ensures exists i :: 0 <= i < 15 && S.KindOf(fields[i]) == t
    ensures forall i :: 0 <= i < |fields| - 15 ==> S.KindOf(fields[i]) == S.KindOf(fields[i + 15])
  {
    S.AllCasesEnumeratesKinds();
    var j := S.IndexOf(t);
    assert j % 15 == j;
    S.CreateKeepsKindAndConfig(SweepType(j), SweepConfig(j), fields[j]);
    assert S.KindOf(fields[j]) == t;
    forall i | 0 <= i < |fields| - 15
      ensures S.KindOf(fields[i]) == S.KindOf(fields[i + 15])
    {
      assert SweepType(i + 15) == SweepType(i) by {
        assert (i + 15) % 15 == i % 15;
      }
      S.CreateKeepsKindAndConfig(SweepType(i), SweepConfig(i), fields[i]);
      S.CreateKeepsKindAndConfig(SweepType(i + 15), SweepConfig(i + 15), fields[i + 15]);
    }
  }

  /** The fields a registry sweep collects from a factory table: one for each
      iteration whose key is found, in order. */
  function RegistrySweepOf(factories: map<string, R.RegKind>, n: nat): (fields: seq<R.RegistryField>)
    ensures |fields| <= n
  {
    if n == 0 then []
    else
      var key := S.RawValue(SweepType(n - 1));
      RegistrySweepOf(factories, n - 1)
        + (if key in factories then [R.RegistryField(factories[key], SweepConfig(n - 1))] else [])
  }

  /** The loop of `analyzeRegistryMemory`: look each key up, append on
      success. */
  method RegistrySweep(registry: R.FormFieldRegistry, iterations: nat) returns (fields: seq<R.RegistryField>)
    ensures fields == RegistrySweepOf(registry.factories, iterations)
  {
    fields := [];
    var types := S.AllCases;
    for i := 0 to iterations
      invariant fields == RegistrySweepOf(registry.factories, i)
    {
      var key := S.RawValue(types[i % |types|]);
      var config := CreateTestConfig(i, key);
      var field := registry.CreateFormField(key, config);
      if field.Some? {
        fields := fields + [field.value];
      }
    }
  }

  /** When every raw value is registered, no lookup misses: the sweep yields
      one field per iteration, built by the registered factory. */
  lemma {:induction false} RegistrySweepComplete(factories: map<string, R.RegKind>, n: nat)
    requires forall t :: S.RawValue(t) in factories
    ensures |RegistrySweepOf(factories, n)| == n
    ensures forall i :: 0 <= i < n ==>
      RegistrySweepOf(factories, n)[i] == R.RegistryField(factories[S.RawValue(SweepType(i))], SweepConfig(i))
  {
    if n > 0 {
      RegistrySweepComplete(factories, n - 1);
      assert S.RawValue(SweepType(n - 1)) in factories;
    }
  }

  /** `analyzeRegistryMemory`: a fresh registry, `registerAllFields`, then the
      sweep; every lookup succeeds, so there is one field per iteration, of the
      class matching the round-robin kind. */
  method RegistryMemorySweep(iterations: nat) returns (fields: seq<R.RegistryField>)
    ensures |fields| == iterations
    ensures forall i :: 0 <= i < iterations ==>
      fields[i] == R.RegistryField(E.ClassFor(SweepType(i)), SweepConfig(i))
  {
    var registry := new R.FormFieldRegistry();
    registry.RegisterAllFields();
    forall t ensures S.RawValue(t) in registry.factories && registry.factories[S.RawValue(t)] == E.ClassFor(t) {
      E.RawValuesRegistered(t, map[]);
    }
    fields := RegistrySweep(registry, iterations);
    RegistrySweepComplete(registry.factories, iterations);
  }

  /** `analyzeRegistryFactoryMemory`: fill a bare factory table with the fifteen
      built-in entries and count them. */
  method FactoryTableSize() returns (factorySize: nat)
    ensures factorySize == 15
  {
    var factories: map<string, R.RegKind> := map[];
    factories := factories["text" := R.TextFormField];
    factories := factories["email" := R.EmailFormField];
    factories := factories["password" := R.PasswordFormField];
    factories := factories["number" := R.NumberFormField];
    factories := factories["date" := R.DateFormField];
    factories := factories["dropdown" := R.DropdownFormField];
    factories := factories["checkbox" := R.CheckboxFormField];
    factories := factories["radio" := R.RadioFormField];
    factories := factories["textarea" := R.TextAreaFormField];
    factories := factories["phone" := R.PhoneFormField];
    factories := factories["creditCard" := R.CreditCardFormField];
    factories := factories["url" := R.URLFormField];
    factories := factories["slider" := R.SliderFormField];
    factories := factories["toggle" := R.ToggleFormField];
    factories := factories["file" := R.FileFormField];
    R.StandardFactoriesCount();
    factorySize := |factories|;
  }

  /** `debugMemoryMeasurement`: `iterations` configurations of type "text",
      and, from them, as many closed-set text fields and as many registry text
      objects, each carrying the configuration at the same position. */
  method DebugMemoryMeasurement(iterations: nat)
    returns (configs: seq<FieldConfiguration>, enumFields: seq<S.FormField>, classFields: seq<R.RegistryField>)
    ensures |configs| == iterations && |enumFields| == iterations && |classFields| == iterations
    ensures forall i :: 0 <= i < iterations ==> configs[i] == CreateTestConfig(i, "text")
    ensures forall i :: 0 <= i < iterations ==>
      enumFields[i] == S.TextField(configs[i]) && classFields[i] == R.RegistryField(R.TextFormField, configs[i])
  {
    configs := seq(iterations, i requires 0 <= i < iterations => CreateTestConfig(i, "text"));
    enumFields := seq(|configs|, i requires 0 <= i < |configs| => S.TextField(configs[i]));
    classFields := seq(|configs|, i requires 0 <= i < |configs| => R.RegistryField(R.TextFormField, configs[i]));
  }

  // ---------------------------------------------------------------------
  // Arithmetic on readings

  /** `Int64(afterMemory) - Int64(beforeMemory)` for two `UInt64` readings:
      a reading above `Int64.max` makes the conversion trap (None); otherwise
      the difference always fits in an `Int64`. */
  function MemoryDelta(before: nat, after: nat): (delta: Option<int>)
    requires before < UInt64Bound && after < UInt64Bound
    ensures delta.None? <==> before > Int64Max || after > Int64Max
    ensures delta.Some? ==> Int64Min < delta.value <= Int64Max
    ensures delta.Some? ==> before + delta.value == after
  {
    if before > Int64Max || after > Int64Max then None else Some(after - before)
  }

  /** `delta / Int64(count)`: Swift traps when the count is zero (None) and
      otherwise truncates toward zero. */
  function PerItem(delta: int, count: nat): (r: Option<int>)
    ensures r.None? <==> count == 0
    ensures r.Some? && delta >= 0 ==> 0 <= r.value * count <= delta < r.value * count + count
    ensures r.Some? && delta < 0 ==> r.value * count - count < delta <= r.value * count <= 0
  {
    if count == 0 then None
    else if delta >= 0 then Some(delta / count)
    else Some(-((-delta) / count))
  }

  /** The per-field figures divide by the number of fields a sweep produced
      (`iterations` for the closed set, by `SwitchSweep`'s contract, and the
      registry sweep's length): safe exactly when `iterations` is positive. The per-factory figure
      divides by fifteen and is always safe. */
  lemma PerItemDivisionSafety(iterations: nat, delta: int)
    ensures PerItem(delta, iterations).Some? <==> iterations > 0
    ensures PerItem(delta, |RegistrySweepOf(R.WithAllFields(map[]), iterations)|).Some? <==> iterations > 0
    ensures PerItem(delta, |R.WithAllFields(map[])|).Some?
  {
    forall t ensures S.RawValue(t) in R.WithAllFields(map[]) {
      E.RawValuesRegistered(t, map[]);
    }
    RegistrySweepComplete(R.WithAllFields(map[]), iterations);
    R.StandardFactoriesCount();
  }

  // ---------------------------------------------------------------------
  // formatBytes

  datatype ByteUnit = Kilobytes | Megabytes

  /** How `formatBytes` renders an `Int64`: the exact count with " bytes", or
      a scaled figure in KB or MB (whose floating-point text is not modelled). */
  datatype Rendering = InBytes(text: string) | Scaled(unit: ByteUnit)

  function Abs(n: int): nat {
    if n < 0 then -n else n
  }

  /** `formatBytes(_:)`: the unit follows `abs(bytes)` with 1024-based
      thresholds; `abs(Int64.min)` overflows and traps (None). */
  function FormatBytes(bytes: int): (r: Option<Rendering>)
    requires Int64Min <= bytes <= Int64Max
    ensures r.None? <==> bytes == Int64Min
    ensures r.Some? ==> (r.value.InBytes? <==> Abs(bytes) < 1024)
    ensures r.Some? && r.value.InBytes? ==> r.value.text == DecimalString(bytes) + " bytes"
    ensures r == Some(Scaled(Kilobytes)) <==> 1024 <= Abs(bytes) < 1024 * 1024
    ensures r == Some(Scaled(Megabytes)) <==> 1024 * 1024 <= Abs(bytes) && bytes != Int64Min
  {
    if bytes == Int64Min then None
    else if Abs(bytes) < 1024 then Some(InBytes(DecimalString(bytes) + " bytes"))
    else if Abs(bytes) < 1024 * 1024 then Some(Scaled(Kilobytes))
    else Some(Scaled(Megabytes))
  }

  function UnitRank(r: Rendering): nat {
    match r
    case InBytes(_) => 0
    case Scaled(Kilobytes) => 1
    case Scaled(Megabytes) => 2
  }

  /** A delta and its negation get the same unit, and a larger magnitude never
      gets a smaller unit. */
  lemma FormatBytesUnitOrder(a: int, b: int)
    requires Int64Min < a <= Int64Max && Int64Min < b <= Int64Max
    ensures FormatBytes(a).Some? && FormatBytes(-a).Some?
    ensures UnitRank(FormatBytes(-a).value) == UnitRank(FormatBytes(a).value)
    ensures Abs(a) <= Abs(b) ==> UnitRank(FormatBytes(a).value) <= UnitRank(FormatBytes(b).value)
  {
  }

  /** Two different byte counts below 1024 in magnitude are never printed the
      same way. */
  lemma SmallCountsRenderDistinctly(a: int, b: int)
    requires Int64Min <= a <= Int64Max && Int64Min <= b <= Int64Max
    requires FormatBytes(a).Some? && FormatBytes(a).value.InBytes?
    requires FormatBytes(a) == FormatBytes(b)
    ensures a == b
  {
    var da, db := DecimalString(a), DecimalString(b);
    assert (da + " bytes")[..|da|] == da;
    assert |da + " bytes"| == |db + " bytes"|;
    assert (db + " bytes")[..|db|] == db;
    DecimalStringInjective(a, b);
  }
}
