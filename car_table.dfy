/**
 * The car table's create flow. Submitting the form validates it; a form that
 * fails keeps its values and shows one message per failing field. A form that
 * passes marks the table busy and sends the store a new record, built from
 * the values, the id `String(totalCountCar + 1)` and the creation time. When
 * the store's reply settles, the busy flag is cleared; on success the record
 * goes to the top of the list, the known total grows by one and the form is
 * reset to its defaults, and on failure nothing else changes.
 */
module CarTable {
  import opened Wrappers
  import opened CarTypes
  import opened CarSchema
  import CarApi

  /**
   * The form's default values: year 2025, availability false, every optional
   * field null. Make, model and color are plain inputs with no default, and a
   * mounted input holds the empty string, which their rule reports as too
   * short. Every other default passes its rule, the year as long as 2025 is
   * at most the year after the current one.
   */
  function DefaultForm(): (r: FormInput)
    ensures CheckText(r.make, 2, 20) == Fail([TooShort(2)])
    ensures CheckText(r.model, 2, 20) == Fail([TooShort(2)])
    ensures CheckText(r.color, 2, 20) == Fail([TooShort(2)])
    ensures CheckYear(r.year, 2024) == Pass(2025.0) && CheckYear(r.year, 2023).Fail?
    ensures CheckOptionalNumber(r.engineCapacity, EngineCapacityRule) == Pass(None)
    ensures CheckOptionalNumber(r.enginePower, EnginePowerRule) == Pass(None)
    ensures CheckOptionalNumber(r.price, PriceRule) == Pass(None)
    ensures CheckOptionalNumber(r.fuelConsumption, FuelConsumptionRule) == Pass(None)
    ensures CheckEngineType(r.engineType) == Pass(None)
    ensures CheckTransmissionType(r.transmissionType) == Pass(None)
    ensures CheckDriveType(r.driveType) == Pass(None)
    ensures CheckAvailable(r.isAvailable) == Pass(false)
    ensures CheckDescription(r.description) == Pass(None)
  {
    FormInput(
      make := Str(""),
      model := Str(""),
      year := Number(Finite(2025.0)),
      color := Str(""),
      engineCapacity := Null,
      engineType := Null,
      enginePower := Null,
      transmissionType := Null,
      driveType := Null,
      price := Null,
      fuelConsumption := Null,
      isAvailable := Bool(false),
      description := Null)
  }

  /** The state the table's create flow reads and writes, as one value. */
  datatype Table = Table(
    data: seq<Car>,
    totalCountCar: nat,
    isCreatingCar: bool,
    form: FormInput,
    errors: seq<FieldError>)

  // ---------------------------------------------------------------------------
  // The buttons.

  /**
   * The load-more button: disabled on the last page and while a page is
   * loading, and enabled only when neither holds.
   */
  function LoadMoreDisabled(isLastPage: bool, isLoadingCars: bool): (b: bool)
    ensures isLastPage ==> b
    ensures isLoadingCars ==> b
    ensures !b <==> !isLastPage && !isLoadingCars
  {
    isLastPage || isLoadingCars
  }

  /**
   * The add-car button: disabled while loading and while the list is empty,
   * and enabled only when the list has a record and nothing is loading.
   */
  function AddCarDisabled(isLoadingCars: bool, data: seq<Car>): (b: bool)
    ensures |data| == 0 ==> b
    ensures isLoadingCars ==> b
    ensures !b <==> !isLoadingCars && |data| > 0
  {
    isLoadingCars || |data| == 0
  }

  /** The form's submit button: disabled while a create is in flight. */
  predicate SubmitDisabled(t: Table) {
    t.isCreatingCar
  }

  // ---------------------------------------------------------------------------
  // The transitions, as functions on the state.

  /**
   * A submit: an invalid form records its errors and sends nothing; a valid
   * one clears the errors, sets the busy flag and sends the new record.
   */
  function Submit(t: Table, currentYear: int, now: int): (Table, Option<Car>) {
    match Validate(t.form, currentYear)
    case Err(errors) => (t.(errors := errors), None)
    case Ok(values) =>
      (t.(isCreatingCar := true, errors := []), Some(CarApi.NewCarRecord(values, t.totalCountCar, now)))
  }

  /**
   * The reply to a create settles: the busy flag is cleared either way; a
   * success puts the record first, counts it and resets the form.
   */
  function Settle(t: Table, reply: Result<Car, CarApi.StoreFailure>): Table {
    match reply
    case Ok(car) =>
      t.(data := [car] + t.data, totalCountCar := t.totalCountCar + 1,
         isCreatingCar := false, form := DefaultForm(), errors := [])
    case Err(_) => t.(isCreatingCar := false)
  }

  // ---------------------------------------------------------------------------
  // The component's state, updated in place.

  class CarTableState {
    var data: seq<Car>
    var totalCountCar: nat
    var isCreatingCar: bool
    var form: FormInput
    var errors: seq<FieldError>

    function State(): Table
      reads this
    {
      Table(data, totalCountCar, isCreatingCar, form, errors)
    }

    /** Mounting with the list and total the parent holds: idle, default form, no errors. */
    constructor(initialData: seq<Car>, initialTotal: nat)
      ensures data == initialData && totalCountCar == initialTotal
      ensures !isCreatingCar && form == DefaultForm() && errors == []
    {
      data := initialData;
      totalCountCar := initialTotal;
      isCreatingCar := false;
      form := DefaultForm();
      errors := [];
    }

    /** The user edits the form. */
    method Edit(input: FormInput)
      modifies this
      ensures form == input
      ensures data == old(data) && totalCountCar == old(totalCountCar)
      ensures isCreatingCar == old(isCreatingCar) && errors == old(errors)
    {
      form := input;
    }

    /**
     * `onSubmit` behind the form's validation: an invalid form only shows
     * its errors; a valid one sets `isCreatingCar` and returns the record
     * `createCar` sends, numbered from the total known at submission.
     */
    method SubmitForm(currentYear: int, now: int) returns (sent: Option<Car>)
      modifies this
      ensures sent.Some? <==> Validate(old(form), currentYear).Ok?
      ensures Validate(old(form), currentYear).Err? ==>
        errors == Validate(old(form), currentYear).error && isCreatingCar == old(isCreatingCar)
      ensures Validate(old(form), currentYear).Ok? ==>
        isCreatingCar && errors == [] &&
        sent.value == CarApi.NewCarRecord(Validate(old(form), currentYear).value, old(totalCountCar), now)
      ensures data == old(data) && totalCountCar == old(totalCountCar) && form == old(form)
      ensures (State(), sent) == Submit(old(State()), currentYear, now)
    {
      var result := Validate(form, currentYear);
      if result.Err? {
        errors := result.error;
        sent := None;
        return;
      }
      isCreatingCar := true;
      errors := [];
      sent := Some(CarApi.NewCarRecord(result.value, totalCountCar, now));
    }

    /**
     * The create settles. Success: count it, put it first and reset the
     * form. Failure: leave list, count and form alone. The busy flag is
     * cleared in both cases.
     */
    method SettleCreate(reply: Result<Car, CarApi.StoreFailure>)
      modifies this
      ensures !isCreatingCar
      ensures reply.Ok? ==> totalCountCar == old(totalCountCar) + 1 && data == [reply.value] + old(data)
      ensures reply.Ok? ==> form == DefaultForm() && errors == []
      ensures reply.Err? ==> totalCountCar == old(totalCountCar) && data == old(data)
      ensures reply.Err? ==> form == old(form) && errors == old(errors)
      ensures State() == Settle(old(State()), reply)
    {
      if reply.Ok? {
        totalCountCar := totalCountCar + 1;
        data := [reply.value] + data;
        form := DefaultForm();
        errors := [];
      }
      isCreatingCar := false;
    }

    /** `disabled={isCreatingCar}` on the submit button. */
    function SubmitButtonDisabled(): (b: bool)
      reads this
      ensures b <==> SubmitDisabled(State())
    {
      isCreatingCar
    }
  }

  // ---------------------------------------------------------------------------
  // Properties.

  /**
   * The default form is not submittable as it is: make, model and color are
   * reported too short, and every other field passes as long as 2025 is at most
   * the year after the current one.
   */
  lemma DefaultFormNeedsText(currentYear: int)
    ensures FieldIssues(DefaultForm(), Make, currentYear) == [TooShort(2)]
    ensures FieldIssues(DefaultForm(), Model, currentYear) == [TooShort(2)]
    ensures FieldIssues(DefaultForm(), Color, currentYear) == [TooShort(2)]
    ensures FieldIssues(DefaultForm(), Year, currentYear) == [] <==> currentYear >= 2024
    ensures forall f: Field :: f !in {Make, Model, Color, Year} ==> FieldIssues(DefaultForm(), f, currentYear) == []
    ensures Validate(DefaultForm(), currentYear).Err?
  {
    assert FieldIssues(DefaultForm(), Make, currentYear) != [];
  }

  /**
   * Filling in make, model and color with between 2 and 20 characters is
   * enough: the default form then yields year 2025, not available, and every
   * optional field null.
   */
  lemma FilledDefaultFormPasses(make: string, model: string, color: string, currentYear: int)
    requires 2 <= |make| <= 20 && 2 <= |model| <= 20 && 2 <= |color| <= 20
    requires currentYear >= 2024
    ensures Validate(DefaultForm().(make := Str(make), model := Str(model), color := Str(color)), currentYear)
      == Ok(FormValues(make, model, 2025.0, color, None, None, None, None, None, None, None, false, None))
  {
    var input := DefaultForm().(make := Str(make), model := Str(model), color := Str(color));
    forall f: Field
      ensures FieldIssues(input, f, currentYear) == []
    {
    }
  }

  /**
   * A valid submit sends the form's values with id `String(totalCountCar + 1)`
   * and the given creation time, and disables the submit button; the list,
   * the count and the form stay as they are until the store replies.
   */
  lemma ValidSubmitSends(t: Table, currentYear: int, now: int)
    requires Validate(t.form, currentYear).Ok?
    ensures Submit(t, currentYear, now).1.Some?
    ensures Submit(t, currentYear, now).1.value.id == CarApi.NatToString(t.totalCountCar + 1)
    ensures CarApi.DecimalValue(Submit(t, currentYear, now).1.value.id) == t.totalCountCar + 1
    ensures Submit(t, currentYear, now).1.value.createdAt == now
    ensures CarApi.FormOf(Submit(t, currentYear, now).1.value) == Validate(t.form, currentYear).value
    ensures SubmitDisabled(Submit(t, currentYear, now).0)
    ensures Submit(t, currentYear, now).0.data == t.data
    ensures Submit(t, currentYear, now).0.totalCountCar == t.totalCountCar
    ensures Submit(t, currentYear, now).0.form == t.form
  {
    var car := CarApi.NewCarRecord(Validate(t.form, currentYear).value, t.totalCountCar, now);
    assert Submit(t, currentYear, now) == (t.(isCreatingCar := true, errors := []), Some(car));
    CarApi.DecimalRoundTrip(t.totalCountCar + 1);
  }

  /**
   * A successful reply ends up first in the list and counted, the form is
   * reset, the button re-enabled, and adding is possible again.
   */
  lemma SuccessfulSettle(t: Table, car: Car)
    ensures Settle(t, Ok(car)).data == [car] + t.data
    ensures Settle(t, Ok(car)).data[1..] == t.data
    ensures Settle(t, Ok(car)).totalCountCar == t.totalCountCar + 1
    ensures !SubmitDisabled(Settle(t, Ok(car)))
    ensures Settle(t, Ok(car)).form == DefaultForm() && Settle(t, Ok(car)).errors == []
    ensures !AddCarDisabled(false, Settle(t, Ok(car)).data)
  {}

  /** A round whose create fails leaves the list, the count and the typed form as they were. */
  lemma FailedCreate(t: Table, currentYear: int, now: int, failure: CarApi.StoreFailure)
    requires Validate(t.form, currentYear).Ok?
    ensures var (busy, sent) := Submit(t, currentYear, now);
      && sent.Some?
      && var done := Settle(busy, Err(failure));
      && done.data == t.data
      && done.totalCountCar == t.totalCountCar
      && done.form == t.form
      && !done.isCreatingCar
  {}

  /** An invalid form sends nothing and changes nothing but the shown errors, which name every failing field. */
  lemma InvalidSubmit(t: Table, currentYear: int, now: int)
    requires Validate(t.form, currentYear).Err?
    ensures var (after, sent) := Submit(t, currentYear, now);
      && sent.None?
      && after == t.(errors := Validate(t.form, currentYear).error)
      && after.errors != []
      && forall f: Field :: FieldIssues(t.form, f, currentYear) != [] ==>
           FieldError(f, FieldIssues(t.form, f, currentYear)) in after.errors
  {}

  /** Every settle clears the busy flag, whatever the reply. */
  lemma SettleClearsBusy(t: Table, reply: Result<Car, CarApi.StoreFailure>)
    ensures !SubmitDisabled(Settle(t, reply))
    ensures Settle(t, reply).totalCountCar == t.totalCountCar + (if reply.Ok? then 1 else 0)
    ensures |Settle(t, reply).data| == |t.data| + (if reply.Ok? then 1 else 0)
  {}

  /**
   * The list never holds more records than the known total, if it did not
   * before: a success adds one to each.
   */
  lemma SettleKeepsCountBound(t: Table, reply: Result<Car, CarApi.StoreFailure>)
    requires |t.data| <= t.totalCountCar
    ensures |Settle(t, reply).data| <= Settle(t, reply).totalCountCar
  {}

  /**
   * Two successful rounds in a row send different ids: after the first one
   * the form is reset, the user fills in `next`, and the second record is
   * numbered from the total the first one raised.
   */
  lemma SuccessiveCreatesGetDistinctIds(t: Table, next: FormInput, currentYear: int, now1: int, now2: int)
    requires Validate(t.form, currentYear).Ok? && Validate(next, currentYear).Ok?
    ensures var (busy, sent) := Submit(t, currentYear, now1);
      var done := Settle(busy, Ok(sent.value));
      var (_, sent2) := Submit(done.(form := next), currentYear, now2);
      sent.Some? && sent2.Some? && sent.value.id != sent2.value.id
  {
    var (busy, sent) := Submit(t, currentYear, now1);
    var done := Settle(busy, Ok(sent.value));
    var v1 := Validate(t.form, currentYear).value;
    var v2 := Validate(next, currentYear).value;
    CarApi.CreateIdsDistinct(v1, t.totalCountCar, now1, v2, done.totalCountCar, now2);
  }

  /**
   * How a create reply's status decides the settle: a status in [200, 300)
   * puts the record first and counts it, any other status leaves list and
   * count alone, and the busy flag is cleared either way.
   */
  lemma SettleByStatus(t: Table, status: int, car: Car)
    ensures Settle(t, CarApi.ReadReply(status, car)).data ==
      (if 200 <= status < 300 then [car] + t.data else t.data)
    ensures Settle(t, CarApi.ReadReply(status, car)).totalCountCar ==
      (if 200 <= status < 300 then t.totalCountCar + 1 else t.totalCountCar)
    ensures Settle(t, CarApi.ReadReply(status, car)).form ==
      (if 200 <= status < 300 then DefaultForm() else t.form)
    ensures !Settle(t, CarApi.ReadReply(status, car)).isCreatingCar
  {}

  /** Adding is blocked while the list is empty, and allowed after any successful create unless loading. */
  lemma AddCarAfterCreate(t: Table, car: Car, isLoadingCars: bool)
    ensures AddCarDisabled(isLoadingCars, [])
    ensures !AddCarDisabled(isLoadingCars, Settle(t, Ok(car)).data) <==> !isLoadingCars
  {}
}
