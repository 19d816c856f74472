/**
 * What the car table sees of the store. The two calls, list and create, are
 * I/O; they are modelled by what a caller can observe of them: the record a
 * create submits, how a reply's status decides success, and (as a ghost
 * model of the mock backend) what one page of a listing holds.
 */
module CarApi {
  import opened Wrappers
  import opened CarTypes
  import CarSchema
  import CarConstants

  // ---------------------------------------------------------------------------
  // Decimal rendering of ids.

  predicate IsDigit(c: char) {
    '0' <= c <= '9'
  }

  predicate AllDigits(s: string) {
    forall i :: 0 <= i < |s| ==> IsDigit(s[i])
  }

  function DigitChar(d: nat): (c: char)
    requires d < 10
    ensures IsDigit(c) && c as int - '0' as int == d
  {
    ('0' as int + d) as char
  }

  /** `String(n)` for a non-negative integer: its decimal digits, most significant first. */
  function NatToString(n: nat): (s: string)
    ensures |s| >= 1 && AllDigits(s)
    ensures |s| > 1 ==> s[0] != '0'
    decreases n
  {
    if n < 10 then [DigitChar(n)] else NatToString(n / 10) + [DigitChar(n % 10)]
  }

  /** The number a string of decimal digits denotes. */
  function DecimalValue(s: string): nat
    requires AllDigits(s)
  {
    if s == [] then 0
    else DecimalValue(s[..|s| - 1]) * 10 + (s[|s| - 1] as int - '0' as int)
  }

  /** Reading back a rendered number gives the number. */
  lemma {:induction false} DecimalRoundTrip(n: nat)
    ensures DecimalValue(NatToString(n)) == n
    decreases n
  {
    if n >= 10 {
      var s := NatToString(n);
      DecimalRoundTrip(n / 10);
      assert s[..|s| - 1] == NatToString(n / 10);
    }
  }

  /** Distinct numbers render as distinct strings. */
  lemma NatToStringInjective(a: nat, b: nat)
    requires NatToString(a) == NatToString(b)
    ensures a == b
  {
    DecimalRoundTrip(a);
    DecimalRoundTrip(b);
  }

  // ---------------------------------------------------------------------------
  // Create.

  /**
   * The record a create submits: the validated form values, the candidate id
   * `String(totalCount + 1)` and the creation timestamp.
   */
  function NewCarRecord(values: CarSchema.FormValues, totalCount: nat, createdAt: int): (car: Car)
    ensures car.id == NatToString(totalCount + 1) && car.createdAt == createdAt
    ensures FormOf(car) == values
  {
    Car(
      id := NatToString(totalCount + 1),
      make := values.make,
      model := values.model,
      year := values.year,
      color := values.color,
      engineCapacity := values.engineCapacity,
      engineType := values.engineType,
      enginePower := values.enginePower,
      transmissionType := values.transmissionType,
      driveType := values.driveType,
      price := values.price,
      fuelConsumption := values.fuelConsumption,
      isAvailable := values.isAvailable,
      description := values.description,
      createdAt := createdAt)
  }

  /** The form fields of a record: everything except its id and timestamp. */
  function FormOf(car: Car): CarSchema.FormValues {
    CarSchema.FormValues(
      make := car.make,
      model := car.model,
      year := car.year,
      color := car.color,
      engineCapacity := car.engineCapacity,
      engineType := car.engineType,
      enginePower := car.enginePower,
      transmissionType := car.transmissionType,
      driveType := car.driveType,
      price := car.price,
      fuelConsumption := car.fuelConsumption,
      isAvailable := car.isAvailable,
      description := car.description)
  }

  /**
   * Creates made at different known totals submit different ids, and the id
   * read back as a number is the total plus one.
   */
  lemma CreateIdsDistinct(v1: CarSchema.FormValues, c1: nat, t1: int, v2: CarSchema.FormValues, c2: nat, t2: int)
    ensures DecimalValue(NewCarRecord(v1, c1, t1).id) == c1 + 1
    ensures c1 != c2 ==> NewCarRecord(v1, c1, t1).id != NewCarRecord(v2, c2, t2).id
  {
    DecimalRoundTrip(c1 + 1);
    if NatToString(c1 + 1) == NatToString(c2 + 1) {
      NatToStringInjective(c1 + 1, c2 + 1);
    }
  }

  // ---------------------------------------------------------------------------
  // Replies.

  /** Why a store call failed: the request never completed, or the store refused it. */
  datatype StoreFailure = TransportError(url: string) | StoreError(status: int)

  /** A completed reply succeeds exactly when its status is in [200, 300). */
  function ReadReply<T>(status: int, body: T): (r: Result<T, StoreFailure>)
    ensures r.Ok? <==> 200 <= status < 300
    ensures r.Ok? ==> r.value == body
    ensures r.Err? ==> r.error == StoreError(status)
  {
    if 200 <= status < 300 then Ok(body) else Err(StoreError(status))
  }

  // ---------------------------------------------------------------------------
  // The mock backend's listing, as a ghost model.

  /** The number of pages `items` records fill, `perPage` to a page. */
  function PageCount(items: nat, perPage: nat): (p: nat)
    requires perPage >= 1
    ensures (p - 1) * perPage < items <= p * perPage || (items == 0 && p == 0)
  {
    (items + perPage - 1) / perPage
  }

  /** Where page `page` starts: the records of the pages before it. */
  function PageStart(page: nat, perPage: nat): nat
    requires page >= 1
  {
    (page - 1) * perPage
  }

  /**
   * Page `page` of a listing of `all`, in the order the store lists it;
   * the page requests carry no sort parameter.
   */
  ghost function ServePage<T>(all: seq<T>, page: nat, perPage: nat): (r: APIResponse<T>)
    requires page >= 1 && perPage >= 1
    ensures r.items == |all| && r.pages == PageCount(|all|, perPage)
    ensures |r.data| <= perPage
    ensures PageStart(page, perPage) < |all| ==>
      r.data == all[PageStart(page, perPage) .. Min(PageStart(page, perPage) + perPage, |all|)]
  {
    var start := PageStart(page, perPage);
    var end := Min(start + perPage, |all|);
    var pages := PageCount(|all|, perPage);
    APIResponse(
      data := if start < |all| then all[start..end] else [],
      first := 1,
      items := |all|,
      last := pages,
      next := if page < pages then Some(page + 1) else None,
      pages := pages,
      prev := if page > 1 then Some(page - 1) else None)
  }

  function Min(a: int, b: int): int {
    if a < b then a else b
  }

  /** Against 45 records, the first page of 20 holds 20 records out of 3 pages. */
  lemma FirstPageOf45(all: seq<Car>)
    requires |all| == 45
    ensures |ServePage(all, 1, CarConstants.Limit).data| == 20
    ensures ServePage(all, 1, CarConstants.Limit).pages == 3
    ensures ServePage(all, 1, CarConstants.Limit).items == 45
  {}
}
