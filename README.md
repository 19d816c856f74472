# Vehicle catalogue client: a verified model

This project models the logic of a small React client for a vehicle catalogue.
It has three parts.

- **The create-form validator.** Thirteen per-field rules that compose into one object rule:
  - three length-bounded strings;
  - a year bounded by the current year;
  - four optional numbers that are range-checked and then rounded;
  - three enumerations whose empty string means "none";
  - a boolean;
  - a bounded description.

  The validator returns either the normalised values or one error per failing field.
- **The application shell's pagination.** A list is filled page by page:
  - the load effect replaces the list with page 1 while it is empty;
  - a guarded "load more" click requests the next page and moves the cursor on at once;
  - each reply appends its records and refreshes the page count.
- **The car table's create flow.** A valid submit sets a busy flag and sends a record numbered `String(totalCountCar + 1)`. When the reply settles, the busy flag is cleared. A success puts the record first, counts it and resets the form. A failure changes nothing else.

Modules, one file each:

| file | module | models |
|---|---|---|
| `wrappers.dfy` | `Wrappers` | `Option` and `Result` |
| `car_types.dfy` | `CarTypes` | the `Car` record, the `APIResponse<T>` page, and the three enumerations with their labels |
| `car_constants.dfy` | `CarConstants` | the page size, the delay, and the three label arrays |
| `rounding.dfy` | `Rounding` | `Number(x.toFixed(d))` as exact rounding to a grid of `10^d` steps per unit, with ties away from zero |
| `car_schema.dfy` | `CarSchema` | the form schema: raw JavaScript values in, normalised values or field errors out |
| `car_api.dfy` | `CarApi` | the record a create submits, how a reply's status decides success, and a ghost model of the mock store's paging |
| `app.dfy` | `App` | the shell's `data`/`page`/`totalPage` state machine, as a class and as pure transitions |
| `car_table.dfy` | `CarTable` | the create flow's state (`data`, `totalCountCar`, `isCreatingCar`, form, errors), the form defaults and the three button predicates |

How inputs are modelled:

- **Form fields.** A raw field is a `JsValue`: undefined, null, boolean, number (finite, NaN or infinite) or string.
- **Clock and time.**
  - The current year and the creation timestamp are parameters.
  - The delay is a wait with no effect on state, so it is only declared.
- **Network calls.**
  - A step that sends something returns what it sends, as an `Option` of the request or record.
  - The reply is an argument of a separate step.
  - For the create, the reply is a `Result` whose error is a transport or status failure.

## Model

| member | source | states |
|---|---|---|
| CarConstants.EngineTypeArrayIsTheEnumeration | src/components/my-components-app/carTable/constants.ts:12-17 | the engine array has exactly 4 distinct labels, none of them null; they are exactly the labels of the four engine types |
| CarConstants.TransmissionTypeArrayIsTheEnumeration | src/components/my-components-app/carTable/constants.ts:19-21 | the transmission array has exactly 2 distinct labels; they are exactly the labels of the two transmission types |
| CarConstants.DriveTypeArrayIsTheEnumeration | src/components/my-components-app/carTable/constants.ts:23-27 | the drive array has exactly 3 distinct labels; they are exactly the labels of the three drive types |
| CarConstants.LabelsAreInjective | src/components/my-components-app/carTable/types.ts:8-11 | distinct enumeration members have distinct labels, so an enum field stands for exactly one string of its union type |
| Rounding.RoundTo | src/components/my-components-app/carTable/createCarShema.ts:31 | `Number(x.toFixed(d))`, as used for capacity (1 decimal), power (2, line 48), price (0, line 76) and fuel consumption (1, line 82): the result always has at most d decimals |
| Rounding.RoundMonotone | src/components/my-components-app/carTable/createCarShema.ts:31 | rounding to a fixed number of decimals never puts two values out of order |
| Rounding.RoundFixesGrid | src/components/my-components-app/carTable/createCarShema.ts:31 | a value that already has at most d decimals is left unchanged |
| Rounding.RoundIdempotent | src/components/my-components-app/carTable/createCarShema.ts:76 | rounding twice gives the same as rounding once |
| Rounding.RoundIsNearest | src/components/my-components-app/carTable/createCarShema.ts:82 | the rounded value is within half a step of 10^-d of the input |
| Rounding.IntegerOnGrid | src/components/my-components-app/carTable/createCarShema.ts:29-30 | every integer bound has at most d decimals for every d |
| Rounding.RoundStaysInRange | src/components/my-components-app/carTable/createCarShema.ts:27-32 | a value within bounds that lie on the grid stays within them after rounding |
| CarSchema.CheckText | src/components/my-components-app/carTable/createCarShema.ts:9-16 | a string passes unchanged iff its length is in [lo, hi]; a short string gives only TooShort, a long one only TooLong; a missing value gives Required and a non-string InvalidType; no empty-string-to-null step |
| CarSchema.CheckNumber | src/components/my-components-app/carTable/createCarShema.ts:28-30 | a number passes unchanged iff it is finite and in [lo, hi]; NaN and non-numbers give a type issue; too small and too big give their own issue |
| CarSchema.CheckYear | src/components/my-components-app/carTable/createCarShema.ts:17-22 | the year passes iff it is a finite number with 1900 <= year <= currentYear + 1; it is not required to be an integer and is not rounded |
| CarSchema.CheckOptionalNumber | src/components/my-components-app/carTable/createCarShema.ts:27-32 | null passes as null; otherwise it passes iff it is in range, and only then is the value rounded, and an accepted number is returned (never null) as its rounded value; a failure reports exactly the range check's issues |
| CarSchema.WithNull | src/components/my-components-app/carTable/createCarShema.ts:37 | the membership list holds null and exactly the allowed labels |
| CarSchema.CheckChoice | src/components/my-components-app/carTable/createCarShema.ts:33-43 | null and the empty string pass as null; a non-empty string passes iff it is one of the allowed labels; any other string fails with NotAllowed |
| CarSchema.ParseEngineType | src/components/my-components-app/carTable/types.ts:8 | a string names an engine type iff it is in the engine array, and the type's label is that string |
| CarSchema.ParseTransmissionType | src/components/my-components-app/carTable/types.ts:10 | a string names a transmission type iff it is in the transmission array, and the type's label is that string |
| CarSchema.ParseDriveType | src/components/my-components-app/carTable/types.ts:11 | a string names a drive type iff it is in the drive array, and the type's label is that string |
| CarSchema.CheckEngineType | src/components/my-components-app/carTable/createCarShema.ts:33-43 | the rule passes exactly when the choice rule over the engine array passes, reports the same issues, and an accepted value's label is the accepted string |
| CarSchema.CheckTransmissionType | src/components/my-components-app/carTable/createCarShema.ts:50-60 | the rule passes exactly when the choice rule over the transmission array passes, reports the same issues, and an accepted value's label is the accepted string |
| CarSchema.CheckDriveType | src/components/my-components-app/carTable/createCarShema.ts:61-71 | the rule passes exactly when the choice rule over the drive array passes, reports the same issues, and an accepted value's label is the accepted string |
| CarSchema.CheckAvailable | src/components/my-components-app/carTable/createCarShema.ts:84 | availability passes iff it is a boolean, which is kept |
| CarSchema.CheckDescription | src/components/my-components-app/carTable/createCarShema.ts:85-89 | null passes; a string passes iff it has at most 1000 characters, and the length check runs before the empty string becomes null; a failure is TooLong(1000) |
| CarSchema.ErrorsForExactly | src/components/my-components-app/carTable/createCarShema.ts:8-90 | the collected errors are exactly the failing fields among those checked, each with its own rule's issues |
| CarSchema.FieldIssues | src/components/my-components-app/carTable/createCarShema.ts:8-90 | a field's issue list is empty exactly when that field's own rule accepts its raw value |
| CarSchema.Validate | src/components/my-components-app/carTable/createCarShema.ts:8-90 | the form is accepted iff every field's rule passes; otherwise the error list is non-empty, and each failing field gets its own entry with its rule's issues; accepted values are well-formed and are the input normalised |
| CarSchema.AcceptedValues | src/components/my-components-app/carTable/createCarShema.ts:8-90 | values built from a form whose every rule passes satisfy every field's constraint and are the input normalised |
| CarSchema.RuleBoundsOnGrid | src/components/my-components-app/carTable/createCarShema.ts:29-31 | the bounds of the four numeric rules lie on their rounding grids (1, 2, 0 and 1 decimals) |
| CarSchema.OptionalNumberFitsRule | src/components/my-components-app/carTable/createCarShema.ts:44-49 | an accepted optional number is null or within its bounds and on its grid after rounding |
| CarSchema.AcceptedIsWellFormed | src/components/my-components-app/carTable/createCarShema.ts:8-90 | every accepted form satisfies the well-formedness invariant, including rounded values staying within range |
| CarSchema.WellFormedPasses | src/components/my-components-app/carTable/createCarShema.ts:8-90 | a well-formed value, written back as a form, passes every field's rule |
| CarSchema.NormalisedIsOriginal | src/components/my-components-app/carTable/createCarShema.ts:31-35 | revalidating a well-formed value's form yields that same value |
| CarSchema.RevalidateWellFormed | src/components/my-components-app/carTable/createCarShema.ts:31-32 | every well-formed value is accepted again and returned unchanged |
| CarSchema.RevalidateAccepted | src/components/my-components-app/carTable/createCarShema.ts:88-89 | validation is idempotent: an accepted output revalidates to itself |
| CarSchema.FieldsAreIndependent | src/components/my-components-app/carTable/createCarShema.ts:8-90 | changing one field never changes what another field's rule reports |
| CarSchema.RuleExamples | src/components/my-components-app/carTable/createCarShema.ts:27-89 | concrete cases: capacity 2 passes and 15 is too big; engine type '' is null and 'Unknown' is refused; description '' is null and 1001 characters is too long; make '' is too short |
| CarApi.NatToString | src/tests/CarApi.test.tsx:69 | the decimal rendering of a count is a non-empty digit string with no leading zero |
| CarApi.DecimalRoundTrip | src/tests/CarApi.test.tsx:69 | reading a rendered count back gives the count |
| CarApi.NatToStringInjective | src/tests/CarApi.test.tsx:69 | distinct counts render as distinct ids |
| CarApi.NewCarRecord | src/tests/CarApi.test.tsx:67-71 | the submitted record is the form values plus id String(totalCount + 1) and the given created_at |
| CarApi.CreateIdsDistinct | src/tests/CarApi.test.tsx:82-95 | the submitted id reads back as total + 1, and creates at different totals submit different ids |
| CarApi.ReadReply | src/tests/CarApi.test.tsx:73-77 | a reply is a success iff its status is in [200, 300), the range the mock reply marks `ok`, and then carries its body; any other status is a store error with that status (see Left out) |
| CarApi.PageCount | src/tests/CarApi.test.tsx:25 | the page count is ceil(items / perPage): the last page is non-empty and holds the last record |
| CarApi.ServePage | src/tests/CarApi.test.tsx:18-30 | a page reports the total item count and page count, holds at most perPage records, and is the matching slice of the ordered listing |
| CarApi.FirstPageOf45 | src/tests/CarApi.test.tsx:16-30 | against 45 records, the first page of `limit` holds 20 records out of 3 pages |
| App.Initial | src/App.tsx:22-24 | the mounted state is an empty list, page 1, and an unbounded page count |
| App.LoadRequest | src/App.tsx:26-28 | the load effect requests page 1 at 10 per page iff the list is empty |
| App.AppState.constructor | src/App.tsx:22-24 | a new page state is empty, at page 1, with an unbounded page count |
| App.AppState.LoadMoreDisabled | src/App.tsx:125 | the load-more button is disabled iff a page count is known and page >= totalPage |
| App.AppState.RunLoadEffect | src/App.tsx:26-35 | the effect requests page 1 exactly when the list is empty, and changes nothing itself |
| App.AppState.ReceiveFirstPage | src/App.tsx:30-33 | the first reply replaces the list wholesale and sets totalPage to its page count; the cursor is untouched |
| App.AppState.ClickHandle | src/App.tsx:37-49 | at or past the last page: no request and no change; otherwise request page + 1 and advance the cursor by one at once; list and page count untouched |
| App.AppState.ReceiveNextPage | src/App.tsx:44-47 | a click's reply appends its records after the existing ones and refreshes totalPage |
| App.InitialLoadsAndClicks | src/App.tsx:22-42 | on mount page 1 is requested, and the first click is not blocked and requests page 2 |
| App.ClickRefusedIffDisabled | src/App.tsx:37-40 | a click is refused iff the button is disabled, and a refused click changes nothing |
| App.ClickAdvancesByOne | src/App.tsx:42-48 | an accepted click requests page + 1, advances the cursor by exactly one, and leaves the list and page count alone |
| App.NextPageAppends | src/App.tsx:44-46 | appending j records to k gives k + j records, with the old prefix unchanged and the new records after it in order |
| App.FirstPageReplaces | src/App.tsx:30-33 | the first reply sets list and page count and leaves the cursor; a non-empty reply stops the effect from requesting again |
| App.SessionShowsPrefix | src/App.tsx:26-49 | against a store served in pages of 10, after k accepted clicks and replies the cursor is k + 1 and the list is exactly the first 10(k + 1) records, with none skipped or repeated |
| App.LastPageCovers | src/tests/CarApi.test.tsx:25 | the last of ceil(n / 10) pages reaches the end of a non-empty listing |
| App.SessionEndsWithAll | src/App.tsx:125 | on the last page the button is disabled and the list is the whole listing |
| App.SessionStops | src/App.tsx:38-40 | once on the last page, further clicks change nothing |
| App.EmptyStoreReloads | src/App.tsx:26-35 | against an empty store the first reply leaves the list empty, so the load condition holds again; the page count is 0 and the button is disabled |
| App.EmptyStoreNeverSettles | src/App.tsx:26-35 | against an empty store, after any number of load replies the list is still empty, the cursor is still page 1 and page 1 is requested again: the loads never end; the load-more button is enabled before the first reply and disabled after every later one |
| App.LostReplySkipsPage | src/App.tsx:42-48 | the cursor moves on when the click is made, not when its reply arrives, so if a reply is lost the next click asks for the page after it and the lost page is never requested again |
| CarTable.CarTableState.constructor | src/components/my-components-app/carTable/CarTable.tsx:50-72 | the table starts idle, with the form at its defaults and no errors |
| CarTable.CarTableState.Edit | src/components/my-components-app/carTable/CarTable.tsx:52-57 | editing changes the form and nothing else |
| CarTable.CarTableState.SubmitForm | src/components/my-components-app/carTable/CarTable.tsx:74-78 | an invalid form only records its errors; a valid one sets isCreatingCar and sends the values numbered from the total at submission; the list, the count and the form are untouched |
| CarTable.CarTableState.SettleCreate | src/components/my-components-app/carTable/CarTable.tsx:80-86 | the busy flag is cleared either way; success adds one to the count, prepends the record and resets the form; failure leaves list, count and form alone |
| CarTable.CarTableState.SubmitButtonDisabled | src/components/my-components-app/carTable/CarTable.tsx:579-582 | the submit button is disabled iff a create is in flight |
| CarTable.DefaultFormNeedsText | src/components/my-components-app/carTable/CarTable.tsx:256-260 | make, model and color are registered inputs with no default, so they hold the empty string and each is reported too short (fewer than 2 characters); the default form is refused; the default year 2025 passes iff the current year is at least 2024; every other default passes |
| CarTable.DefaultForm | src/components/my-components-app/carTable/CarTable.tsx:60-71 | the defaults make each rule give a fixed outcome: make, model and color (empty inputs) fail as too short; year 2025 passes when the current year is 2024 and fails when it is 2023; every optional number, every enumerated field and the description pass as null; availability passes as false |
| CarTable.FilledDefaultFormPasses | src/components/my-components-app/carTable/CarTable.tsx:60-71 | filling in only make, model and color gives year 2025, not available, every optional field null |
| CarTable.ValidSubmitSends | src/components/my-components-app/carTable/CarTable.tsx:75-78 | a valid submit sends the values with id String(totalCountCar + 1) and the given created_at, and disables the submit button until the reply |
| CarTable.SuccessfulSettle | src/components/my-components-app/carTable/CarTable.tsx:81-84 | a success puts the record first with the old list after it, raises the count by one, resets the form, re-enables submit and enables adding when nothing is loading |
| CarTable.FailedCreate | src/components/my-components-app/carTable/CarTable.tsx:80-86 | a round whose create fails leaves the list, the count and the typed form as they were, and clears the busy flag |
| CarTable.InvalidSubmit | src/components/my-components-app/carTable/CarTable.tsx:74 | an invalid form sends nothing, changes only the shown errors, and names every failing field |
| CarTable.SettleClearsBusy | src/components/my-components-app/carTable/CarTable.tsx:86 | every settle clears the busy flag, and count and list grow by one on success and not at all on failure |
| CarTable.SettleKeepsCountBound | src/components/my-components-app/carTable/CarTable.tsx:82-83 | if the list held no more records than the known total, it still does after a settle |
| CarTable.SuccessiveCreatesGetDistinctIds | src/components/my-components-app/carTable/CarTable.tsx:78-82 | two successful creates in a row send different ids |
| CarTable.SettleByStatus | src/components/my-components-app/carTable/CarTable.tsx:80-86 | a create reply with status in [200, 300) puts the record first, counts it and resets the form; any other status leaves list, count and form alone; the busy flag is cleared either way |
| CarTable.LoadMoreDisabled | src/components/my-components-app/carTable/CarTable.tsx:207 | load-more is disabled on the last page and while a page is loading, and enabled exactly when neither holds |
| CarTable.AddCarDisabled | src/components/my-components-app/carTable/CarTable.tsx:223 | adding is disabled while loading and while the list is empty, and enabled exactly when the list has a record and nothing is loading |
| CarTable.AddCarAfterCreate | src/components/my-components-app/carTable/CarTable.tsx:223 | adding is blocked while the list is empty; after a successful create it is enabled iff nothing is loading |

## Left out

- Rendering: the JSX, the layout, the table's height arithmetic and the toaster messages. They have no effect on state.
- Form and library wiring: react-hook-form and the zod resolver are modelled by what they mean.
  - Submit runs `onSubmit` only when validation passes, and otherwise shows the errors.
  - `reset()` returns the form to its defaults and clears the errors.
  - A registered input with no default value holds the empty string once it is mounted, so the default form carries `""` for make, model and color.
  - Zod's message texts are left out; each issue keeps its kind and bound.
- Network and store calls: the `fetch` calls, URLs, JSON decoding, and the bodies of `getCars` and `createCar`.
  - The `getCars` and `createCar` bodies are not part of this model.
  - Their observable behaviour is taken from `src/tests/CarApi.test.tsx`.
  - The mock store's paging is a ghost model, used only to state pagination completeness.
- Timing and clocks.
  - `delay` is only a wait before the create request. It is declared and changes no state.
  - `new Date().getFullYear()` and `Date.now()` are parameters.
- Concurrency: overlapping clicks and replies arriving out of order. The shell has no loading guard, so the model takes replies one at a time, in request order.
- The shell's failure paths. The source does not handle a failed `fetch` in the shell, and the model has no step for it, so such a failure itself changes no state. Because `clickHandle` advances the cursor when the click is made, a load-more whose reply never arrives has still moved `page` on. The next click then asks for the page after the lost one, and the lost page is never shown (`App.LostReplySkipsPage`).
- CarTable's parent: the component's props (`isLastPage`, `isLoadingCars`, the list and the total) come from a parent that is not part of this model.
  - The button predicates take them as arguments.
  - The state object holds `data` and `totalCountCar`.
- Rounding.RoundTo: models `Number(x.toFixed(d))` as exact decimal rounding, with ties away from zero. It does not model binary floating point, where a value like 1.005 is stored slightly below the tie and rounds down.
- CarSchema.CheckText: counts a string's length in characters. It does not model JavaScript's UTF-16 code units, which differ only outside the Basic Multilingual Plane.
- CarApi.NatToString: renders every count in plain decimal. It does not model JavaScript's exponent notation for counts of 10^21 and above.
- Where the code differs from what its tests and types suggest, the model follows the code.
  - The shell requests 10 records a page, not `limit`.
  - The shell's `Car` is its own older type: availability may be null, and there is no creation timestamp.
- The empty-store case. The shell's load effect depends on `data`. Every reply's `data` is a fresh array from `res.json()`, so each reply changes `data` and the effect runs again. Against an empty store the list stays empty, so the shell requests page 1 again after every reply, without end (`App.EmptyStoreReloads`, `App.EmptyStoreNeverSettles`). The model states this; it does not model React's scheduling of the effect.
- CarTable.CarTableState.Edit: does not model react-hook-form's re-validation on change. After the first submit, each edit re-runs the schema and updates the shown errors. The model keeps `errors` as they were until the next submit, so a corrected field still shows its old error there.
- CarApi.ReadReply: the failure half is not taken from a test. The tests only show a reply being `ok` for statuses in [200, 300). The body of `createCar` is not part of this model, so a non-`ok` status being a failed create is an assumption of the model.
