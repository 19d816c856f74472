/**
 * The creation-form validator of the car table. Each of the thirteen fields
 * has its own rule; the form is accepted only when every rule passes, and
 * otherwise every failing field is reported with its own issues. Accepted
 * values are normalised: numbers are rounded to their field's decimals and an
 * empty string in a nullable text field becomes null.
 */
module CarSchema {
  import opened Wrappers
  import CarTypes
  import opened CarConstants
  import opened Rounding

  // ---------------------------------------------------------------------------
  // Raw input: what the form hands to the validator.

  /** A JavaScript number. */
  datatype JsNumber = Finite(value: real) | NaN | PositiveInfinity | NegativeInfinity

  /** The JavaScript values a form field can hold. */
  datatype JsValue = Undefined | Null | Bool(b: bool) | Number(n: JsNumber) | Str(s: string)

  /** What a field rule can report. */
  datatype Issue =
    | Required                // no value at all (undefined)
    | InvalidType             // a value of the wrong type, NaN included
    | TooShort(minLength: nat) // a string shorter than the minimum length
    | TooLong(maxLength: nat)  // a string longer than the maximum length
    | TooSmall(minimum: real) // a number below the inclusive minimum
    | TooBig(maximum: real)   // a number above the inclusive maximum
    | NotAllowed              // a string outside the field's list of values

  /** The outcome of one field rule. */
  datatype FieldResult<T> = Pass(value: T) | Fail(issues: seq<Issue>)

  function IssuesOf<T>(r: FieldResult<T>): seq<Issue> {
    if r.Pass? then [] else r.issues
  }

  /** The issue a value of the wrong type gets. */
  function TypeIssue(v: JsValue): Issue {
    if v.Undefined? then Required else InvalidType
  }

  // ---------------------------------------------------------------------------
  // Rule building blocks.

  /** The length checks of a string rule, in the order they are declared. */
  function LengthIssues(s: string, lo: nat, hi: nat): seq<Issue> {
    (if |s| < lo then [TooShort(lo)] else []) + (if |s| > hi then [TooLong(hi)] else [])
  }

  predicate Below(n: JsNumber, lo: real) {
    n.NegativeInfinity? || (n.Finite? && n.value < lo)
  }

  predicate Above(n: JsNumber, hi: real) {
    n.PositiveInfinity? || (n.Finite? && n.value > hi)
  }

  predicate InRange(n: JsNumber, lo: real, hi: real) {
    n.Finite? && lo <= n.value <= hi
  }

  /** The range checks of a number rule, in the order they are declared. */
  function RangeIssues(n: JsNumber, lo: real, hi: real): seq<Issue> {
    (if Below(n, lo) then [TooSmall(lo)] else []) + (if Above(n, hi) then [TooBig(hi)] else [])
  }

  /**
   * A required string of bounded length (make, model, color). The string is
   * kept as it is: an empty string is a too-short string, never null.
   */
  function CheckText(v: JsValue, lo: nat, hi: nat): (r: FieldResult<string>)
    ensures r.Pass? <==> v.Str? && lo <= |v.s| <= hi
    ensures r.Pass? ==> r.value == v.s
    ensures r.Fail? ==> r.issues != []
    ensures v.Str? && |v.s| < lo <= hi ==> r == Fail([TooShort(lo)])
    ensures v.Str? && lo <= hi < |v.s| ==> r == Fail([TooLong(hi)])
    ensures !v.Str? ==> r == Fail([TypeIssue(v)])
  {
    match v
    case Str(s) =>
      var issues := LengthIssues(s, lo, hi);
      if issues == [] then Pass(s) else Fail(issues)
    case _ => Fail([TypeIssue(v)])
  }

  /** A required number within inclusive bounds, not transformed. */
  function CheckNumber(v: JsValue, lo: real, hi: real): (r: FieldResult<real>)
    ensures r.Pass? <==> v.Number? && InRange(v.n, lo, hi)
    ensures r.Pass? ==> r.value == v.n.value
    ensures r.Fail? ==> r.issues != []
    ensures v == Number(NaN) || !v.Number? ==> r == Fail([TypeIssue(v)])
    ensures v.Number? && Below(v.n, lo) && lo <= hi ==> r == Fail([TooSmall(lo)])
    ensures v.Number? && Above(v.n, hi) && lo <= hi ==> r == Fail([TooBig(hi)])
  {
    match v
    case Number(n) =>
      if n.NaN? then Fail([InvalidType])
      else
        var issues := RangeIssues(n, lo, hi);
        if issues == [] then Pass(n.value) else Fail(issues)
    case _ => Fail([TypeIssue(v)])
  }

  /** The newest model year the form accepts. */
  function MaxYear(currentYear: int): int {
    currentYear + 1
  }

  /**
   * The year: a number from 1900 to the year after the current one. It need
   * not be an integer and it is not rounded.
   */
  function CheckYear(v: JsValue, currentYear: int): (r: FieldResult<real>)
    ensures r.Pass? <==> v.Number? && v.n.Finite? && 1900.0 <= v.n.value <= MaxYear(currentYear) as real
    ensures r.Pass? ==> r.value == v.n.value
    ensures r.Fail? ==> r.issues != []
  {
    CheckNumber(v, 1900.0, MaxYear(currentYear) as real)
  }

  /** The bounds and the precision of an optional numeric field. */
  datatype NumberRule = NumberRule(min: real, max: real, decimals: nat) {
    function Grid(): Steps {
      Pow10(decimals)
    }
  }

  const EngineCapacityRule: NumberRule := NumberRule(1.0, 10.0, 1)
  const EnginePowerRule: NumberRule := NumberRule(30.0, 3000.0, 2)
  const PriceRule: NumberRule := NumberRule(1000.0, 100000.0, 0)
  const FuelConsumptionRule: NumberRule := NumberRule(1.0, 100.0, 1)

  /**
   * An optional number: null passes as null; anything else must be a number
   * within the rule's bounds, and only then is it rounded; an accepted number
   * always comes out as a number, never null.
   */
  function CheckOptionalNumber(v: JsValue, rule: NumberRule): (r: FieldResult<Option<real>>)
    ensures v.Null? ==> r == Pass(None)
    ensures !v.Null? ==> (r.Pass? <==> v.Number? && InRange(v.n, rule.min, rule.max))
    ensures r.Pass? && r.value.Some? ==> !v.Null? && r.value.value == RoundTo(v.n.value, rule.Grid())
    ensures !v.Null? && r.Pass? ==> r.value == Some(RoundTo(v.n.value, rule.Grid()))
    ensures r.Fail? ==> r.issues == IssuesOf(CheckNumber(v, rule.min, rule.max)) && r.issues != []
  {
    if v.Null? then Pass(None)
    else
      match CheckNumber(v, rule.min, rule.max)
      case Pass(x) => Pass(Some(RoundTo(x, rule.Grid())))
      case Fail(issues) => Fail(issues)
  }

  /** The list the source's membership test runs over: the allowed labels and null. */
  function WithNull(allowed: seq<string>): (r: seq<Option<string>>)
    ensures None in r
    ensures forall s :: Some(s) in r <==> s in allowed
  {
    var some := seq(|allowed|, i requires 0 <= i < |allowed| => Some(allowed[i]));
    forall s | s in allowed ensures Some(s) in some {
      var i :| 0 <= i < |allowed| && allowed[i] == s;
      assert some[i] == Some(s);
    }
    some + [None]
  }

  /**
   * An enumerated field: null passes; a string is first turned into null when
   * it is empty and then must be null or one of the allowed labels.
   */
  function CheckChoice(v: JsValue, allowed: seq<string>): (r: FieldResult<Option<string>>)
    ensures v.Null? || v == Str("") ==> r == Pass(None)
    ensures v.Str? && v.s != "" ==> (r.Pass? <==> v.s in allowed)
    ensures v.Str? && v.s != "" && r.Pass? ==> r.value == Some(v.s)
    ensures v.Str? && r.Fail? ==> r.issues == [NotAllowed]
    ensures !v.Null? && !v.Str? ==> r == Fail([TypeIssue(v)])
  {
    match v
    case Null => Pass(None)
    case Str(s) =>
      var t := if s == "" then None else Some(s);
      if t in WithNull(allowed) then Pass(t) else Fail([NotAllowed])
    case _ => Fail([TypeIssue(v)])
  }

  function ParseEngineType(s: string): (r: Option<CarTypes.EngineType>)
    ensures r.Some? <==> s in EngineTypeArray
    ensures r.Some? ==> r.value.Label() == s
  {
    EngineTypeArrayIsTheEnumeration();
    if s == CarTypes.EngineType.Gasoline.Label() then Some(CarTypes.EngineType.Gasoline)
    else if s == CarTypes.EngineType.Gas.Label() then Some(CarTypes.EngineType.Gas)
    else if s == CarTypes.EngineType.Diesel.Label() then Some(CarTypes.EngineType.Diesel)
    else if s == CarTypes.EngineType.Electric.Label() then Some(CarTypes.EngineType.Electric)
    else None
  }

  function ParseTransmissionType(s: string): (r: Option<CarTypes.TransmissionType>)
    ensures r.Some? <==> s in TransmissionTypeArray
    ensures r.Some? ==> r.value.Label() == s
  {
    TransmissionTypeArrayIsTheEnumeration();
    if s == CarTypes.TransmissionType.Manual.Label() then Some(CarTypes.TransmissionType.Manual)
    else if s == CarTypes.TransmissionType.Automatic.Label() then Some(CarTypes.TransmissionType.Automatic)
    else None
  }

  function ParseDriveType(s: string): (r: Option<CarTypes.DriveType>)
    ensures r.Some? <==> s in DriveTypeArray
    ensures r.Some? ==> r.value.Label() == s
  {
    DriveTypeArrayIsTheEnumeration();
    if s == CarTypes.DriveType.AllWheel.Label() then Some(CarTypes.DriveType.AllWheel)
    else if s == CarTypes.DriveType.RearWheel.Label() then Some(CarTypes.DriveType.RearWheel)
    else if s == CarTypes.DriveType.FrontWheel.Label() then Some(CarTypes.DriveType.FrontWheel)
    else None
  }

  /** The engine type: a choice over the engine list, read as an engine kind. */
  function CheckEngineType(v: JsValue): (r: FieldResult<Option<CarTypes.EngineType>>)
    ensures r.Pass? <==> CheckChoice(v, EngineTypeArray).Pass?
    ensures IssuesOf(r) == IssuesOf(CheckChoice(v, EngineTypeArray))
    ensures r.Pass? ==> EngineLabel(r.value) == CheckChoice(v, EngineTypeArray).value
  {
    match CheckChoice(v, EngineTypeArray)
    case Pass(None) => Pass(None)
    case Pass(Some(s)) => Pass(ParseEngineType(s))
    case Fail(issues) => Fail(issues)
  }

  /** The transmission type: a choice over the transmission list. */
  function CheckTransmissionType(v: JsValue): (r: FieldResult<Option<CarTypes.TransmissionType>>)
    ensures r.Pass? <==> CheckChoice(v, TransmissionTypeArray).Pass?
    ensures IssuesOf(r) == IssuesOf(CheckChoice(v, TransmissionTypeArray))
    ensures r.Pass? ==> TransmissionLabel(r.value) == CheckChoice(v, TransmissionTypeArray).value
  {
    match CheckChoice(v, TransmissionTypeArray)
    case Pass(None) => Pass(None)
    case Pass(Some(s)) => Pass(ParseTransmissionType(s))
    case Fail(issues) => Fail(issues)
  }

  /** The drive type: a choice over the drive list. */
  function CheckDriveType(v: JsValue): (r: FieldResult<Option<CarTypes.DriveType>>)
    ensures r.Pass? <==> CheckChoice(v, DriveTypeArray).Pass?
    ensures IssuesOf(r) == IssuesOf(CheckChoice(v, DriveTypeArray))
    ensures r.Pass? ==> DriveLabel(r.value) == CheckChoice(v, DriveTypeArray).value
  {
    match CheckChoice(v, DriveTypeArray)
    case Pass(None) => Pass(None)
    case Pass(Some(s)) => Pass(ParseDriveType(s))
    case Fail(issues) => Fail(issues)
  }

  /** The labels of optional enumerated values. */
  function EngineLabel(o: Option<CarTypes.EngineType>): Option<string> {
    if o.None? then None else Some(o.value.Label())
  }

  function TransmissionLabel(o: Option<CarTypes.TransmissionType>): Option<string> {
    if o.None? then None else Some(o.value.Label())
  }

  function DriveLabel(o: Option<CarTypes.DriveType>): Option<string> {
    if o.None? then None else Some(o.value.Label())
  }

  /** Availability: a boolean, nothing else. */
  function CheckAvailable(v: JsValue): (r: FieldResult<bool>)
    ensures r.Pass? <==> v.Bool?
    ensures r.Pass? ==> r.value == v.b
    ensures r.Fail? ==> r.issues == [TypeIssue(v)]
  {
    if v.Bool? then Pass(v.b) else Fail([TypeIssue(v)])
  }

  const DescriptionMax: nat := 1000

  /**
   * The description: null passes; a string must be at most 1000 characters,
   * and is checked before an empty string turns into null.
   */
  function CheckDescription(v: JsValue): (r: FieldResult<Option<string>>)
    ensures v.Null? ==> r == Pass(None)
    ensures v.Str? ==> (r.Pass? <==> |v.s| <= DescriptionMax)
    ensures v.Str? && r.Pass? ==> r.value == (if v.s == "" then None else Some(v.s))
    ensures v.Str? && r.Fail? ==> r.issues == [TooLong(DescriptionMax)]
    ensures !v.Null? && !v.Str? ==> r == Fail([TypeIssue(v)])
  {
    match v
    case Null => Pass(None)
    case Str(s) =>
      var issues := LengthIssues(s, 0, DescriptionMax);
      if issues != [] then Fail(issues)
      else if s == "" then Pass(None)
      else Pass(Some(s))
    case _ => Fail([TypeIssue(v)])
  }

  // ---------------------------------------------------------------------------
  // The whole form.

  datatype Field =
    | Make | Model | Year | Color | EngineCapacity | EngineType | EnginePower
    | TransmissionType | DriveType | Price | FuelConsumption | IsAvailable | Description

  /** Every field, in the order the schema declares them. */
  const AllFields: seq<Field> := [
    Make, Model, Year, Color, EngineCapacity, EngineType, EnginePower,
    TransmissionType, DriveType, Price, FuelConsumption, IsAvailable, Description]

  /** The raw form: one JavaScript value per field. */
  datatype FormInput = FormInput(
    make: JsValue,
    model: JsValue,
    year: JsValue,
    color: JsValue,
    engineCapacity: JsValue,
    engineType: JsValue,
    enginePower: JsValue,
    transmissionType: JsValue,
    driveType: JsValue,
    price: JsValue,
    fuelConsumption: JsValue,
    isAvailable: JsValue,
    description: JsValue)

  /** The validated, normalised form. */
  datatype FormValues = FormValues(
    make: string,
    model: string,
    year: real,
    color: string,
    engineCapacity: Option<real>,
    engineType: Option<CarTypes.EngineType>,
    enginePower: Option<real>,
    transmissionType: Option<CarTypes.TransmissionType>,
    driveType: Option<CarTypes.DriveType>,
    price: Option<real>,
    fuelConsumption: Option<real>,
    isAvailable: bool,
    description: Option<string>)

  /** One failing field and what its rule reported. */
  datatype FieldError = FieldError(field: Field, issues: seq<Issue>)

  /** Whether one field's rule accepts its raw value. */
  predicate FieldPasses(input: FormInput, f: Field, currentYear: int) {
    match f
    case Make => CheckText(input.make, 2, 20).Pass?
    case Model => CheckText(input.model, 2, 20).Pass?
    case Year => CheckYear(input.year, currentYear).Pass?
    case Color => CheckText(input.color, 2, 20).Pass?
    case EngineCapacity => CheckOptionalNumber(input.engineCapacity, EngineCapacityRule).Pass?
    case EngineType => CheckEngineType(input.engineType).Pass?
    case EnginePower => CheckOptionalNumber(input.enginePower, EnginePowerRule).Pass?
    case TransmissionType => CheckTransmissionType(input.transmissionType).Pass?
    case DriveType => CheckDriveType(input.driveType).Pass?
    case Price => CheckOptionalNumber(input.price, PriceRule).Pass?
    case FuelConsumption => CheckOptionalNumber(input.fuelConsumption, FuelConsumptionRule).Pass?
    case IsAvailable => CheckAvailable(input.isAvailable).Pass?
    case Description => CheckDescription(input.description).Pass?
  }

  /** The issues of one field's rule: empty exactly when the rule accepts the field. */
  function FieldIssues(input: FormInput, f: Field, currentYear: int): (r: seq<Issue>)
    ensures r == [] <==> FieldPasses(input, f, currentYear)
  {
    match f
    case Make => IssuesOf(CheckText(input.make, 2, 20))
    case Model => IssuesOf(CheckText(input.model, 2, 20))
    case Year => IssuesOf(CheckYear(input.year, currentYear))
    case Color => IssuesOf(CheckText(input.color, 2, 20))
    case EngineCapacity => IssuesOf(CheckOptionalNumber(input.engineCapacity, EngineCapacityRule))
    case EngineType => IssuesOf(CheckEngineType(input.engineType))
    case EnginePower => IssuesOf(CheckOptionalNumber(input.enginePower, EnginePowerRule))
    case TransmissionType => IssuesOf(CheckTransmissionType(input.transmissionType))
    case DriveType => IssuesOf(CheckDriveType(input.driveType))
    case Price => IssuesOf(CheckOptionalNumber(input.price, PriceRule))
    case FuelConsumption => IssuesOf(CheckOptionalNumber(input.fuelConsumption, FuelConsumptionRule))
    case IsAvailable => IssuesOf(CheckAvailable(input.isAvailable))
    case Description => IssuesOf(CheckDescription(input.description))
  }

  /** The errors of the given fields, in their order, one per failing field. */
  function ErrorsFor(input: FormInput, currentYear: int, fields: seq<Field>): seq<FieldError> {
    if fields == [] then []
    else
      var issues := FieldIssues(input, fields[0], currentYear);
      (if issues == [] then [] else [FieldError(fields[0], issues)])
      + ErrorsFor(input, currentYear, fields[1..])
  }

  /**
   * The reported errors are exactly the failing fields among those checked,
   * each with its own rule's issues.
   */
  lemma {:induction false} ErrorsForExactly(input: FormInput, currentYear: int, fields: seq<Field>)
    ensures forall e :: e in ErrorsFor(input, currentYear, fields) ==>
      e.field in fields && e.issues != [] && e.issues == FieldIssues(input, e.field, currentYear)
    ensures forall f :: f in fields && FieldIssues(input, f, currentYear) != [] ==>
      FieldError(f, FieldIssues(input, f, currentYear)) in ErrorsFor(input, currentYear, fields)
  {
    if fields != [] {
      ErrorsForExactly(input, currentYear, fields[1..]);
      forall f | f in fields && FieldIssues(input, f, currentYear) != []
        ensures FieldError(f, FieldIssues(input, f, currentYear)) in ErrorsFor(input, currentYear, fields)
      {
        if f != fields[0] {
          assert f in fields[1..];
        }
      }
    }
  }

  lemma AllFieldsListed(f: Field)
    ensures f in AllFields
  {}

  /** The validated form: normalised values, or the errors of every failing field. */
  function Validate(input: FormInput, currentYear: int): (r: Result<FormValues, seq<FieldError>>)
    ensures r.Ok? <==> forall f: Field :: FieldIssues(input, f, currentYear) == []
    ensures r.Err? ==> r.error != []
    ensures r.Err? ==> forall e :: e in r.error ==>
      e.issues != [] && e.issues == FieldIssues(input, e.field, currentYear)
    ensures r.Err? ==> forall f: Field :: FieldIssues(input, f, currentYear) != [] ==>
      FieldError(f, FieldIssues(input, f, currentYear)) in r.error
    ensures r.Ok? ==> WellFormed(r.value, currentYear) && Normalises(input, r.value)
  {
    var errors := ErrorsFor(input, currentYear, AllFields);
    ErrorsForExactly(input, currentYear, AllFields);
    if errors != [] then
      assert errors[0] in errors;
      Err(errors)
    else
      AllFieldsPass(input, currentYear);
      Ok(AcceptedValues(input, currentYear))
  }

  /** The values of a form whose every rule passes. */
  function AcceptedValues(input: FormInput, currentYear: int): (v: FormValues)
    requires forall f: Field :: FieldIssues(input, f, currentYear) == []
    ensures WellFormed(v, currentYear) && Normalises(input, v)
  {
    EveryRulePasses(input, currentYear);
    var v := FormValues(
      make := CheckText(input.make, 2, 20).value,
      model := CheckText(input.model, 2, 20).value,
      year := CheckYear(input.year, currentYear).value,
      color := CheckText(input.color, 2, 20).value,
      engineCapacity := CheckOptionalNumber(input.engineCapacity, EngineCapacityRule).value,
      engineType := CheckEngineType(input.engineType).value,
      enginePower := CheckOptionalNumber(input.enginePower, EnginePowerRule).value,
      transmissionType := CheckTransmissionType(input.transmissionType).value,
      driveType := CheckDriveType(input.driveType).value,
      price := CheckOptionalNumber(input.price, PriceRule).value,
      fuelConsumption := CheckOptionalNumber(input.fuelConsumption, FuelConsumptionRule).value,
      isAvailable := CheckAvailable(input.isAvailable).value,
      description := CheckDescription(input.description).value);
    AcceptedIsWellFormed(input, currentYear, v);
    v
  }

  lemma EveryRulePasses(input: FormInput, currentYear: int)
    requires forall f: Field :: FieldIssues(input, f, currentYear) == []
    ensures CheckText(input.make, 2, 20).Pass? && CheckText(input.model, 2, 20).Pass?
    ensures CheckYear(input.year, currentYear).Pass? && CheckText(input.color, 2, 20).Pass?
    ensures CheckOptionalNumber(input.engineCapacity, EngineCapacityRule).Pass?
    ensures CheckEngineType(input.engineType).Pass?
    ensures CheckOptionalNumber(input.enginePower, EnginePowerRule).Pass?
    ensures CheckTransmissionType(input.transmissionType).Pass?
    ensures CheckDriveType(input.driveType).Pass?
    ensures CheckOptionalNumber(input.price, PriceRule).Pass?
    ensures CheckOptionalNumber(input.fuelConsumption, FuelConsumptionRule).Pass?
    ensures CheckAvailable(input.isAvailable).Pass?
    ensures CheckDescription(input.description).Pass?
  {
    forall f: Field ensures FieldPasses(input, f, currentYear) {
      assert FieldIssues(input, f, currentYear) == [];
    }
    assert FieldPasses(input, Make, currentYear) && FieldPasses(input, Model, currentYear);
    assert FieldPasses(input, Year, currentYear) && FieldPasses(input, Color, currentYear);
    assert FieldPasses(input, EngineCapacity, currentYear) && FieldPasses(input, EngineType, currentYear);
    assert FieldPasses(input, EnginePower, currentYear) && FieldPasses(input, TransmissionType, currentYear);
    assert FieldPasses(input, DriveType, currentYear) && FieldPasses(input, Price, currentYear);
    assert FieldPasses(input, FuelConsumption, currentYear) && FieldPasses(input, IsAvailable, currentYear);
    assert FieldPasses(input, Description, currentYear);
  }

  /** When no field of AllFields is reported, no field has issues. */
  lemma NoErrorsNoIssues(input: FormInput, currentYear: int, f: Field)
    requires ErrorsFor(input, currentYear, AllFields) == []
    ensures FieldIssues(input, f, currentYear) == []
  {
    ErrorsForExactly(input, currentYear, AllFields);
    AllFieldsListed(f);
  }

  lemma AllFieldsPass(input: FormInput, currentYear: int)
    requires ErrorsFor(input, currentYear, AllFields) == []
    ensures forall f: Field :: FieldIssues(input, f, currentYear) == []
  {
    forall f: Field ensures FieldIssues(input, f, currentYear) == [] {
      NoErrorsNoIssues(input, currentYear, f);
    }
  }

  // ---------------------------------------------------------------------------
  // What an accepted form looks like.

  /** An optional number that satisfies its rule: absent, or in range and on the rule's grid. */
  predicate FitsRule(o: Option<real>, rule: NumberRule) {
    o.Some? ==> rule.min <= o.value <= rule.max && OnGrid(o.value, rule.Grid())
  }

  /** The invariant of a validated form: every field within its constraints. */
  predicate WellFormed(v: FormValues, currentYear: int) {
    && 2 <= |v.make| <= 20
    && 2 <= |v.model| <= 20
    && 1900.0 <= v.year <= MaxYear(currentYear) as real
    && 2 <= |v.color| <= 20
    && FitsRule(v.engineCapacity, EngineCapacityRule)
    && FitsRule(v.enginePower, EnginePowerRule)
    && FitsRule(v.price, PriceRule)
    && FitsRule(v.fuelConsumption, FuelConsumptionRule)
    && (v.description.Some? ==> 1 <= |v.description.value| <= DescriptionMax)
  }

  /** An optional number taken from its raw value: null stays null, a number is rounded. */
  predicate RoundedFrom(raw: JsValue, o: Option<real>, rule: NumberRule) {
    if o.None? then raw == Null
    else raw.Number? && raw.n.Finite? && o.value == RoundTo(raw.n.value, rule.Grid())
  }

  /** An optional string taken from its raw value: null and the empty string become null. */
  predicate NullableFrom(raw: JsValue, o: Option<string>) {
    if o.None? then raw == Null || raw == Str("") else raw == Str(o.value)
  }

  /** The accepted values are the raw input, normalised and otherwise unchanged. */
  predicate Normalises(input: FormInput, v: FormValues) {
    && input.make == Str(v.make)
    && input.model == Str(v.model)
    && input.year == Number(Finite(v.year))
    && input.color == Str(v.color)
    && RoundedFrom(input.engineCapacity, v.engineCapacity, EngineCapacityRule)
    && NullableFrom(input.engineType, EngineLabel(v.engineType))
    && RoundedFrom(input.enginePower, v.enginePower, EnginePowerRule)
    && NullableFrom(input.transmissionType, TransmissionLabel(v.transmissionType))
    && NullableFrom(input.driveType, DriveLabel(v.driveType))
    && RoundedFrom(input.price, v.price, PriceRule)
    && RoundedFrom(input.fuelConsumption, v.fuelConsumption, FuelConsumptionRule)
    && input.isAvailable == Bool(v.isAvailable)
    && NullableFrom(input.description, v.description)
  }

  /** The four numeric rules have integer bounds, which lie on every grid. */
  lemma RuleBoundsOnGrid(rule: NumberRule)
    requires rule in {EngineCapacityRule, EnginePowerRule, PriceRule, FuelConsumptionRule}
    ensures OnGrid(rule.min, rule.Grid()) && OnGrid(rule.max, rule.Grid())
  {
    var lo, hi := rule.min.Floor, rule.max.Floor;
    IntegerOnGrid(lo, rule.Grid());
    IntegerOnGrid(hi, rule.Grid());
  }

  /**
   * An accepted optional number satisfies its rule: null stays null, and a
   * number that passed the range check still lies in the range once rounded.
   */
  lemma OptionalNumberFitsRule(v: JsValue, rule: NumberRule)
    requires rule in {EngineCapacityRule, EnginePowerRule, PriceRule, FuelConsumptionRule}
    requires CheckOptionalNumber(v, rule).Pass?
    ensures FitsRule(CheckOptionalNumber(v, rule).value, rule)
    ensures RoundedFrom(v, CheckOptionalNumber(v, rule).value, rule)
  {
    if !v.Null? {
      RuleBoundsOnGrid(rule);
      RoundStaysInRange(rule.min, rule.max, v.n.value, rule.Grid());
    }
  }

  lemma AcceptedIsWellFormed(input: FormInput, currentYear: int, v: FormValues)
    requires CheckText(input.make, 2, 20) == Pass(v.make)
    requires CheckText(input.model, 2, 20) == Pass(v.model)
    requires CheckYear(input.year, currentYear) == Pass(v.year)
    requires CheckText(input.color, 2, 20) == Pass(v.color)
    requires CheckOptionalNumber(input.engineCapacity, EngineCapacityRule) == Pass(v.engineCapacity)
    requires CheckEngineType(input.engineType) == Pass(v.engineType)
    requires CheckOptionalNumber(input.enginePower, EnginePowerRule) == Pass(v.enginePower)
    requires CheckTransmissionType(input.transmissionType) == Pass(v.transmissionType)
    requires CheckDriveType(input.driveType) == Pass(v.driveType)
    requires CheckOptionalNumber(input.price, PriceRule) == Pass(v.price)
    requires CheckOptionalNumber(input.fuelConsumption, FuelConsumptionRule) == Pass(v.fuelConsumption)
    requires CheckAvailable(input.isAvailable) == Pass(v.isAvailable)
    requires CheckDescription(input.description) == Pass(v.description)
    ensures WellFormed(v, currentYear) && Normalises(input, v)
  {
    OptionalNumberFitsRule(input.engineCapacity, EngineCapacityRule);
    OptionalNumberFitsRule(input.enginePower, EnginePowerRule);
    OptionalNumberFitsRule(input.price, PriceRule);
    OptionalNumberFitsRule(input.fuelConsumption, FuelConsumptionRule);
  }

  // ---------------------------------------------------------------------------
  // Re-validation: accepted values, handed back to the form, are accepted unchanged.

  function NumberOrNull(o: Option<real>): JsValue {
    if o.None? then Null else Number(Finite(o.value))
  }

  function StringOrNull(o: Option<string>): JsValue {
    if o.None? then Null else Str(o.value)
  }

  /** The raw form that holds exactly the given values. */
  function ToInput(v: FormValues): FormInput {
    FormInput(
      make := Str(v.make),
      model := Str(v.model),
      year := Number(Finite(v.year)),
      color := Str(v.color),
      engineCapacity := NumberOrNull(v.engineCapacity),
      engineType := StringOrNull(EngineLabel(v.engineType)),
      enginePower := NumberOrNull(v.enginePower),
      transmissionType := StringOrNull(TransmissionLabel(v.transmissionType)),
      driveType := StringOrNull(DriveLabel(v.driveType)),
      price := NumberOrNull(v.price),
      fuelConsumption := NumberOrNull(v.fuelConsumption),
      isAvailable := Bool(v.isAvailable),
      description := StringOrNull(v.description))
  }

  lemma ChoiceOfLabelPasses(name: string, allowed: seq<string>)
    requires name in allowed && name != ""
    ensures CheckChoice(Str(name), allowed) == Pass(Some(name))
  {}

  /** Every rule passes on the raw form of well-formed values. */
  lemma WellFormedPasses(v: FormValues, currentYear: int)
    requires WellFormed(v, currentYear)
    ensures forall f: Field :: FieldIssues(ToInput(v), f, currentYear) == []
  {
    var input := ToInput(v);
    EngineTypeArrayIsTheEnumeration();
    TransmissionTypeArrayIsTheEnumeration();
    DriveTypeArrayIsTheEnumeration();
    if v.engineType.Some? {
      ChoiceOfLabelPasses(v.engineType.value.Label(), EngineTypeArray);
    }
    if v.transmissionType.Some? {
      ChoiceOfLabelPasses(v.transmissionType.value.Label(), TransmissionTypeArray);
    }
    if v.driveType.Some? {
      ChoiceOfLabelPasses(v.driveType.value.Label(), DriveTypeArray);
    }
    forall f: Field ensures FieldIssues(input, f, currentYear) == [] {
      match f
      case EngineType =>
      case TransmissionType =>
      case DriveType =>
      case _ =>
    }
  }

  lemma RoundedFromItself(o: Option<real>, w: Option<real>, rule: NumberRule)
    requires FitsRule(o, rule) && RoundedFrom(NumberOrNull(o), w, rule)
    ensures w == o
  {
    if o.Some? {
      RoundFixesGrid(o.value, rule.Grid());
    }
  }

  /** Normalising the raw form of well-formed values gives those values back. */
  lemma NormalisedIsOriginal(v: FormValues, w: FormValues, currentYear: int)
    requires WellFormed(v, currentYear) && Normalises(ToInput(v), w)
    ensures w == v
  {
    RoundedFromItself(v.engineCapacity, w.engineCapacity, EngineCapacityRule);
    RoundedFromItself(v.enginePower, w.enginePower, EnginePowerRule);
    RoundedFromItself(v.price, w.price, PriceRule);
    RoundedFromItself(v.fuelConsumption, w.fuelConsumption, FuelConsumptionRule);
    LabelsAreInjective();
    EngineTypeArrayIsTheEnumeration();
    TransmissionTypeArrayIsTheEnumeration();
    DriveTypeArrayIsTheEnumeration();
    assert w.engineType == v.engineType;
    assert w.transmissionType == v.transmissionType;
    assert w.driveType == v.driveType;
  }

  /**
   * Re-validating well-formed values accepts them unchanged: rounding and the
   * empty-string-to-null step do nothing the second time, and null passes
   * every nullable rule.
   */
  lemma RevalidateWellFormed(v: FormValues, currentYear: int)
    requires WellFormed(v, currentYear)
    ensures Validate(ToInput(v), currentYear) == Ok(v)
  {
    WellFormedPasses(v, currentYear);
    var r := Validate(ToInput(v), currentYear);
    NormalisedIsOriginal(v, r.value, currentYear);
  }

  /** Validation is idempotent: what it accepts it accepts again, unchanged. */
  lemma RevalidateAccepted(input: FormInput, currentYear: int)
    requires Validate(input, currentYear).Ok?
    ensures var v := Validate(input, currentYear).value;
      Validate(ToInput(v), currentYear) == Ok(v)
  {
    RevalidateWellFormed(Validate(input, currentYear).value, currentYear);
  }

  // ---------------------------------------------------------------------------
  // No cross-field rules.

  /** The raw form with one field replaced. */
  function WithField(input: FormInput, g: Field, x: JsValue): FormInput {
    match g
    case Make => input.(make := x)
    case Model => input.(model := x)
    case Year => input.(year := x)
    case Color => input.(color := x)
    case EngineCapacity => input.(engineCapacity := x)
    case EngineType => input.(engineType := x)
    case EnginePower => input.(enginePower := x)
    case TransmissionType => input.(transmissionType := x)
    case DriveType => input.(driveType := x)
    case Price => input.(price := x)
    case FuelConsumption => input.(fuelConsumption := x)
    case IsAvailable => input.(isAvailable := x)
    case Description => input.(description := x)
  }

  /** Changing one field never changes what another field's rule reports. */
  lemma FieldsAreIndependent(input: FormInput, g: Field, x: JsValue, f: Field, currentYear: int)
    requires f != g
    ensures FieldIssues(WithField(input, g, x), f, currentYear) == FieldIssues(input, f, currentYear)
  {
    match g
    case Make =>
    case Model =>
    case Year =>
    case Color =>
    case EngineCapacity =>
    case EngineType =>
    case EnginePower =>
    case TransmissionType =>
    case DriveType =>
    case Price =>
    case FuelConsumption =>
    case IsAvailable =>
    case Description =>
  }

  // ---------------------------------------------------------------------------
  // Single-field cases: capacity 2 and 15, engine type "" and "Unknown",
  // description "" and 1001 characters, make "".

  lemma RuleExamples()
    ensures CheckOptionalNumber(Number(Finite(2.0)), EngineCapacityRule) == Pass(Some(2.0))
    ensures CheckOptionalNumber(Number(Finite(15.0)), EngineCapacityRule) == Fail([TooBig(10.0)])
    ensures CheckEngineType(Str("")) == Pass(None)
    ensures CheckEngineType(Str("Unknown")) == Fail([NotAllowed])
    ensures CheckDescription(Str("")) == Pass(None)
    ensures CheckDescription(Str(seq(1001, _ => 'a'))) == Fail([TooLong(1000)])
    ensures CheckText(Str(""), 2, 20) == Fail([TooShort(2)])
  {
    IntegerOnGrid(2, Pow10(1));
    RoundFixesGrid(2.0, Pow10(1));
    EngineTypeArrayIsTheEnumeration();
  }
}
