# Pomodoro timer configuration engine, in Dafny

This project models the backend's Pomodoro timer configuration engine and the
frontend copy of its validation rule:

- the **defaults and limits table** (`defaults.dfy`, module `PomodoroConfigDefaults`):
  work 25 in [1,60], short break 5 in [1,10], long break 15 in [15,30],
  cycles 4 in [2,8], advanced mode off;
- the **backend request schema** (`validation.dfy`, module `PomodoroConfigValidation`):
  an untyped JSON body becomes either a typed, defaulted `ConfigValues` or a
  list of violations. The durations are mandatory integers within their
  limits; the cycle count and the advanced flag are optional and defaulted;
  the long break must exceed the short break, a violation reported on
  `longBreakDuration`;
- the **single-record store** (`store.dfy`, module `PomodoroConfigStore`): class
  `ConfigStore` with the field `config: Option<ConfigRecord>`, reassigned by
  `Get` (lazy default), `Update` (shallow merge and a new `dateModified`),
  `Reset` and `Clear`, and read by `Exists`;
- the **service** (`service.dfy`, module `PomodoroConfigService`): it validates
  first and never touches the store on failure. It derives `customized` with
  the classifier `IsCustomized`, writes through the store, and projects
  records to the response shape, which has no `dateCreated`. It also renders
  the three preview strings;
- the **frontend form schema** (`form_schema.dfy`, module `PomodoroConfigForm`):
  the same bounds, defaults and cross-field rule over real numbers, without
  the integer check;
- two helper modules: `Wrappers` (`Option`, `Result`) and `Decimal` (the
  decimal text a template literal gives a whole number, and its parse back).

Fresh identifiers and clock readings are parameters. A store operation gets
them only where the source generates them: `Get` when the slot is empty,
`Update` with two clock readings when the slot is empty, `Reset` always.
The module-level singleton store becomes a `ConfigStore` object passed to
each service method. The asynchronous service functions become synchronous
methods. Each service method's new store state is stated by the pure
transition function `Apply`. The system lemmas are proved about `Apply` and
its iteration `Run`.

Both schemas use the Zod library, but two major versions of it, and each
model follows its own. The backend schema is modelled as Zod 3 behaves. The
service reads the violations through `validation.error.errors`, which is a
Zod 3 interface. Its behaviour is modelled by its effect:

- each field runs its checks in the declared order: integer, then minimum,
  then maximum;
- a missing mandatory key or a value of the wrong JSON type aborts the
  object, and the cross-field refinement is then not evaluated;
- a failed integer or range check does not abort, and the refinement still
  runs on the raw numbers;
- keys other than the five fields are stripped;
- `.optional().default(4)` replaces an absent cycle count by 4, which is
  then checked like a supplied one.

The frontend schema passes its message directly to `z.number('…')`, which
is Zod 4 syntax, so it is modelled as Zod 4 behaves. It has no integer
check. A range violation leaves the refinement running. A missing key or a
wrong type stops the refinement. A default replaces an absent value and is
not checked again. (Under Zod 4 a failed `.int()` would also stop the
refinement, but the frontend schema has no `.int()`.)

Two behaviours of the code are easy to miss:

- The store's `update` accepts any subset of the record's keys. A caller of
  the store can therefore set `customized`, `id` or `dateCreated` directly
  (`Patch` has all nine keys). Only the service restricts itself to the five
  fields and the derived flag.
- The cross-field refinement is not evaluated only after the per-field rules
  pass. It also runs when a duration is out of range or fractional, and then
  adds its violation to the range violations. It is skipped only when a key
  is missing or has the wrong type.

## Model

| member | source | states |
|---|---|---|
| PomodoroConfigDefaults.Limits | backend/src/constants/pomodoroConfig/pomodoroConfigDefaults.ts:49-58 | every limit pair has min <= max, and every minimum is at least 1 |
| PomodoroConfigDefaults.Default | backend/src/constants/pomodoroConfig/pomodoroConfigDefaults.ts:20-31 | every default lies within its field's limits |
| PomodoroConfigDefaults.TableValues | backend/src/constants/pomodoroConfig/pomodoroConfigDefaults.ts:20-58 | the defaults are exactly 25/5/15/4/false and the limits exactly [1,60], [1,10], [15,30], [2,8] |
| PomodoroConfigDefaults.DefaultsKeepLongAboveShort | backend/src/constants/pomodoroConfig/pomodoroConfigDefaults.ts:24-27 | the default long break exceeds the default short break |
| PomodoroConfigDefaults.RangesSeparateBreaks | backend/src/constants/pomodoroConfig/pomodoroConfigDefaults.ts:52-55 | any in-range short break is below any in-range long break |
| PomodoroConfigValidation.RangeIssues | backend/src/services/pomodoroConfig/pomodoroConfigValidation.ts:20-36 | the `.min().max()` checks report nothing exactly when the number lies within [lo, hi] |
| PomodoroConfigValidation.IntegerField | backend/src/services/pomodoroConfig/pomodoroConfigValidation.ts:17-38 | an aborted numeric field carries a violation; one parsed without violation is a whole number within its limits; the parsed value is the supplied number, or the default when the key is absent |
| PomodoroConfigValidation.BooleanField | backend/src/services/pomodoroConfig/pomodoroConfigValidation.ts:39 | the advanced flag aborts exactly when present and not a boolean; otherwise it carries no violation |
| PomodoroConfigValidation.LongBreakRefinement | backend/src/services/pomodoroConfig/pomodoroConfigValidation.ts:41-44 | the refinement reports nothing exactly when the long break exceeds the short break |
| PomodoroConfigValidation.Validate | backend/src/services/pomodoroConfig/pomodoroConfigValidation.ts:15-44 | every accepted value is within all limits with long > short; every rejection carries at least one violation |
| PomodoroConfigValidation.ValidateAcceptsExactly | backend/src/services/pomodoroConfig/pomodoroConfigValidation.ts:15-44 | the schema accepts a body if and only if the rule stated independently in `Acceptable` holds |
| PomodoroConfigValidation.ValidateKeepsSuppliedValues | backend/src/services/pomodoroConfig/pomodoroConfigValidation.ts:15-40 | an accepted body's values come out unchanged; an absent cycle count becomes 4 and an absent advanced flag false |
| PomodoroConfigValidation.DurationsAreMandatory | backend/src/services/pomodoroConfig/pomodoroConfigValidation.ts:17-31 | omitting work, short or long break is rejected with a Required violation on that key |
| PomodoroConfigValidation.NonIntegersRejected | backend/src/services/pomodoroConfig/pomodoroConfigValidation.ts:19-34 | a fractional number in any of the four numeric fields is rejected with a NotInteger violation on that key |
| PomodoroConfigValidation.RefinementRejects | backend/src/services/pomodoroConfig/pomodoroConfigValidation.ts:41-44 | with well-typed fields and long <= short, the rejection holds the violation at path ["longBreakDuration"] with the message "Long break duration must be greater than short break duration", in range or not |
| PomodoroConfigValidation.RefinementNeverAlone | backend/src/services/pomodoroConfig/pomodoroConfigValidation.ts:22-44 | the refinement's violation only ever comes with a range violation on the short or the long break |
| PomodoroConfigValidation.DurationsAccepted | backend/src/services/pomodoroConfig/pomodoroConfigValidation.ts:17-44 | a body of whole-number durations and cycles is accepted iff each lies in its range and long > short |
| PomodoroConfigValidation.BoundaryValues | backend/src/services/pomodoroConfig/pomodoroConfigValidation.ts:17-38 | work 1 and 60, short 1 and 10, long 15 and 30, cycles 2 and 8 are accepted; one unit beyond each is rejected |
| PomodoroConfigValidation.OtherKeysIgnored | backend/src/services/pomodoroConfig/pomodoroConfigValidation.ts:15-40 | keys other than the five fields, such as a client-sent `customized`, never change the outcome |
| PomodoroConfigForm.NumberField | frontend/src/domain/pomodoroConfig/validations/pomodoroConfig.ts:13-29 | an aborted form number carries a violation; one parsed without violation lies within its bounds, whole or not; the parsed value is the supplied number, or the default when the key is absent |
| PomodoroConfigForm.FormValidate | frontend/src/domain/pomodoroConfig/validations/pomodoroConfig.ts:11-35 | every value the form accepts is within the bounds with long > short; every rejection carries a violation |
| PomodoroConfigForm.FormAcceptsExactly | frontend/src/domain/pomodoroConfig/validations/pomodoroConfig.ts:11-35 | the form accepts iff the durations are present numbers in range, cycles is absent or in [2,8], advanced is absent or boolean, and long > short |
| PomodoroConfigForm.FormKeepsSuppliedValues | frontend/src/domain/pomodoroConfig/validations/pomodoroConfig.ts:11-31 | an accepted body's numbers come out unchanged, fractional ones included; an absent cycle count becomes 4 and an absent advanced flag false |
| PomodoroConfigForm.FormAgreesWithBackend | frontend/src/domain/pomodoroConfig/validations/pomodoroConfig.ts:11-35 | whatever the backend schema accepts, the form accepts with the same values |
| PomodoroConfigForm.BackendIsFormWithWholeNumbers | frontend/src/domain/pomodoroConfig/validations/pomodoroConfig.ts:13-28 | the backend accepts exactly what the form accepts when the numeric fields hold whole numbers |
| PomodoroConfigForm.FormAcceptsFractions | frontend/src/domain/pomodoroConfig/validations/pomodoroConfig.ts:13-16 | a work duration of 2.5 passes the form, with its value kept, and fails the backend |
| PomodoroConfigForm.FormRefinementRejects | frontend/src/domain/pomodoroConfig/validations/pomodoroConfig.ts:32-35 | long <= short is rejected at path ["longBreakDuration"] with the message "O intervalo longo deve ser maior que o intervalo curto" |
| PomodoroConfigStore.CreateDefault | backend/src/instances/pomodoroConfig/pomodoroConfigStore.ts:86-99 | a fresh default record carries the new id and the default values, is not customized, and has dateCreated == dateModified == now |
| PomodoroConfigStore.Current | backend/src/instances/pomodoroConfig/pomodoroConfigStore.ts:37-42 | get returns the held record, or a fresh default when the slot is empty |
| PomodoroConfigStore.ConfigStore.constructor | backend/src/instances/pomodoroConfig/pomodoroConfigStore.ts:32 | a new store holds no record |
| PomodoroConfigStore.ConfigStore.Get | backend/src/instances/pomodoroConfig/pomodoroConfigStore.ts:37-42 | an empty slot gets the default record, which is returned; a held record is returned and the slot is unchanged |
| PomodoroConfigStore.ConfigStore.Update | backend/src/instances/pomodoroConfig/pomodoroConfigStore.ts:47-59 | the slot afterwards holds, and the method returns, the patch merged over the current (or freshly created) record with dateModified = now |
| PomodoroConfigStore.ConfigStore.Reset | backend/src/instances/pomodoroConfig/pomodoroConfigStore.ts:64-67 | the slot afterwards holds, and the method returns, a fresh default record |
| PomodoroConfigStore.ConfigStore.Exists | backend/src/instances/pomodoroConfig/pomodoroConfigStore.ts:72-74 | true iff a record is held; changes nothing |
| PomodoroConfigStore.ConfigStore.Clear | backend/src/instances/pomodoroConfig/pomodoroConfigStore.ts:79-81 | the slot is empty afterwards |
| PomodoroConfigStore.Merge | backend/src/instances/pomodoroConfig/pomodoroConfigStore.ts:52-56 | the spread `{ ...config, ...data }`; what it keeps and overwrites is stated by UpdateOverwritesOnlySupplied and EmptyUpdateOnlyStamps |
| PomodoroConfigStore.Updated | backend/src/instances/pomodoroConfig/pomodoroConfigStore.ts:47-59 | the record `update` leaves; UpdateOverwritesOnlySupplied, EmptyUpdateOnlyStamps and UpdateOnEmptyStartsFromDefault state it key by key |
| PomodoroConfigStore.UpdateOverwritesOnlySupplied | backend/src/instances/pomodoroConfig/pomodoroConfigStore.ts:52-56 | update overwrites exactly the supplied keys, keeps every other one (id and dateCreated included) and sets dateModified to now |
| PomodoroConfigStore.EmptyUpdateOnlyStamps | backend/src/instances/pomodoroConfig/pomodoroConfigStore.ts:52-56 | an update with no keys changes only dateModified |
| PomodoroConfigStore.UpdateOnEmptyStartsFromDefault | backend/src/instances/pomodoroConfig/pomodoroConfigStore.ts:47-56 | on an empty slot the merge starts from a freshly created default record |
| PomodoroConfigStore.GetIsIdempotent | backend/src/instances/pomodoroConfig/pomodoroConfigStore.ts:37-42 | a second get returns the same record as the first: same id, dateCreated and dateModified |
| PomodoroConfigStore.StoreScenario | backend/src/instances/pomodoroConfig/pomodoroConfigStore.ts:37-81 | on a new store, get after update returns the updated record, and after clear exists reports false |
| PomodoroConfigValidation.DefaultValues | backend/src/constants/pomodoroConfig/pomodoroConfigDefaults.ts:20-31 | the defaults table's five values, the ones the classifier compares against, pass the schema's limits |
| PomodoroConfigService.IsCustomized | backend/src/services/pomodoroConfig/pomodoroConfigService.ts:82-87 | customized is true iff the five validated values differ from the default values |
| PomodoroConfigService.ClassifierExamples | backend/src/services/pomodoroConfig/pomodoroConfigService.ts:61-87 | {25,5,15,4,false} is not customized; the documented update example {30,5,20}, with cycles and advanced defaulted, is customized, and so is advanced=true alone |
| PomodoroConfigService.ToResponse | backend/src/services/pomodoroConfig/pomodoroConfigService.ts:37-46 | the projection to `PomodoroConfigResponse`, repeated at lines 98-107 and 126-135; ResponseDropsOnlyDateCreated states what it keeps |
| PomodoroConfigService.ValidationFailed | backend/src/services/pomodoroConfig/pomodoroConfigService.ts:73 | the error a rejected update raises, code VALIDATION_ERROR, message "Validation failed", status 400, with the violations as details; PomodoroConfigUpdate's contract states when it is raised |
| PomodoroConfigService.ValuesPatch | backend/src/services/pomodoroConfig/pomodoroConfigService.ts:89-96 | the patch supplies the five validated values and the derived flag, and never id, dateCreated or dateModified; merged over any record it sets exactly those values |
| PomodoroConfigService.FormatPreview | backend/src/services/pomodoroConfig/pomodoroConfigService.ts:158-162 | the three preview templates; PreviewRoundTrip shows they keep all four numbers and DefaultPreview gives their text for the defaults |
| PomodoroConfigService.ResponseDropsOnlyDateCreated | backend/src/services/pomodoroConfig/pomodoroConfigService.ts:37-46 | two records give the same response iff they differ at most in dateCreated |
| PomodoroConfigService.PreviewRoundTrip | backend/src/services/pomodoroConfig/pomodoroConfigService.ts:155-162 | the three preview strings can be parsed back to the record's work, short, long and cycles values |
| PomodoroConfigService.DefaultPreview | backend/src/services/pomodoroConfig/pomodoroConfigService.ts:148-153 | a default record previews as "25 minutes of work", the intervals text with 5 and 15 minutes, and "Long break every 4 cycles" |
| PomodoroConfigService.Apply | backend/src/services/pomodoroConfig/pomodoroConfigService.ts:34-163 | the store's slot after each of the four service functions; ApplyKeepsInvariant, UpdateWritesValidated, RejectedUpdateChangesNothing and ResetYieldsDefaults state its effect |
| PomodoroConfigService.UpdateWritesValidated | backend/src/services/pomodoroConfig/pomodoroConfigService.ts:81-96 | a successful update stores exactly the validated values and the classifier's flag, keeps id and dateCreated, and stamps now |
| PomodoroConfigService.ApplyKeepsInvariant | backend/src/services/pomodoroConfig/pomodoroConfigService.ts:35-96 | from a consistent (or empty) slot, get, update, reset and preview each keep the stored record within limits with customized equal to the classifier |
| PomodoroConfigService.RunKeepsInvariant | backend/src/services/pomodoroConfig/pomodoroConfigService.ts:34-163 | over any sequence of operations the stored record stays within limits, with long > short and customized equal to the classifier |
| PomodoroConfigService.ReadAfterWrite | backend/src/services/pomodoroConfig/pomodoroConfigService.ts:89-96 | a get right after a successful update returns the values just written |
| PomodoroConfigService.RejectedUpdateChangesNothing | backend/src/services/pomodoroConfig/pomodoroConfigService.ts:70-74 | an update whose body fails validation leaves the slot as it was |
| PomodoroConfigService.ResetYieldsDefaults | backend/src/services/pomodoroConfig/pomodoroConfigService.ts:123-136 | reset yields 25/5/15/4/false, not customized, with the fresh id and both timestamps at now, whatever was held |
| PomodoroConfigService.PomodoroConfigGet | backend/src/services/pomodoroConfig/pomodoroConfigService.ts:34-47 | the store is read, or its default created; the response is that record's projection; consistency is kept |
| PomodoroConfigService.PomodoroConfigUpdate | backend/src/services/pomodoroConfig/pomodoroConfigService.ts:69-108 | a rejected body gives VALIDATION_ERROR, status 400, with the violations and an untouched store; otherwise the store holds the merged record and the response is its projection |
| PomodoroConfigService.PomodoroConfigReset | backend/src/services/pomodoroConfig/pomodoroConfigService.ts:123-136 | the store holds a fresh default record, the response is its projection, and the store is consistent |
| PomodoroConfigService.PomodoroConfigPreview | backend/src/services/pomodoroConfig/pomodoroConfigService.ts:155-163 | the record is read, or its default created, and rendered by the three templates |
| Decimal.NatText | backend/src/services/pomodoroConfig/pomodoroConfigService.ts:159-161 | the text of a natural number is a non-empty string of digits with no leading zero |
| Decimal.IntText | backend/src/services/pomodoroConfig/pomodoroConfigService.ts:159-161 | the text of a whole number is non-empty and has no space |
| Decimal.IntTextRoundTrip | backend/src/services/pomodoroConfig/pomodoroConfigService.ts:159-161 | parsing the text of a whole number gives the number back |

## Left out

- HTTP transport: the controller's mapping of results and `ServiceError` to status codes and JSON, and the Express routes.
- The frontend UI and network code: the form component, the preview component, the pages, the query hook and the HTTP client.
- Identifier and clock generation: the fresh id and the clock readings are opaque parameters. The UUID format and ISO-8601 rendering are not modelled.
- The schema library's exact issue objects: field-level violations are modelled by their kind (Required, InvalidType, NotInteger, TooSmall, TooBig), not by the library's message texts. The frontend's Portuguese field messages are also not modelled. The refinement's path and message are modelled exactly in both schemas.
- Floating point: JSON numbers are exact reals. NaN and infinities cannot occur in a JSON body, so they are not represented. Rounding of decimal literals is not modelled.
- Decimal.IntText: renders whole numbers only. Exponent notation for magnitudes of 10^21 and above is not modelled; the service only renders values within the limits.
- An explicitly `undefined` value in the store's partial update: `Patch` models each key as supplied or absent. The service never passes `undefined`.
- Asynchrony and concurrency: the service functions await nothing real, so they are synchronous methods. Atomicity of the single-threaded store is implicit.
- The type-only and re-export modules are not modelled; they only shape the datatypes.
