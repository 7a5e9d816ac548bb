# Lead-form store and validation, modelled in Dafny

This project models the lead-capture form of an energy-brokerage landing page:

- the reducer-driven form store (`formReducer`, `setField`, `submitForm` and the mount-time initial-data fetch);
- the form service, which turns gateway responses into values or thrown errors and checks required fields;
- the declarative field schema, applied to one field or to a whole record;
- the form component's non-rendering logic: the monthly-bill sanitiser, the per-field error-map update, the fold of submit-time errors into the map, and navigation only after a successful submission.

Modules, one per source file:

| module | file | models |
|---|---|---|
| `JsValues` | js_values.dfy | JavaScript truthiness of possibly-missing strings, `a \|\| b`, a string's `.length`, thrown values, promise settlement |
| `Api` | api.dfy | the `{ data, error }` response shape of the HTTP gateway |
| `FormTypes` | form_types.dfy | `FormState`, the `FormAction` alphabet, records as `map<string, string>` |
| `FormService` | form_service.dfy | `fetchInitialData`, `submit`, `validateFormData` |
| `FormProvider` | form_provider.dfy | `initialState`, `formReducer` (`Reduce`), dispatch sequences (`Run`), class `FormStore` |
| `ValidationSchema` | validation_schema.dfy | `US_STATES`, the rules of `formSchema` as data, `validate`, `validateAt`, `validateForm` |
| `FormComponent` | form_component.dfy | the bill sanitiser, `validateField`'s updater, the error fold, class `FormView` (`handleChange`, `handleSubmit`) |

The reducer and the service are pure functions. The provider and the form component change state step by step, so they are classes:

- `FormStore` holds the reducer state. Its methods dispatch the same action sequence as the source, and each method's contract ties the new state to `Reduce(old state, action)` or `Run(old state, actions)`.
- `FormView` holds the component's error map and a reference to the store.

Network results are inputs:
- the mount fetch takes the `GET` response as a parameter;
- submission takes the gateway as a function from the posted record to its response, so the contract can say which record was posted.

JavaScript truthiness is explicit. An empty `response.error`, an empty `message` and an empty field value all count as missing, as `if (x)`, `x || y` and `!data[field]` treat them in the source.

The schema's behaviour comes from the yup validation library, whose source is not part of this model. The model assumes the following about it.
- Whole-record validation (`validate`, in `handleSubmit` and `validateForm`) runs under the object's `.strict()`, and every field inherits it: nothing is cast and no transform runs (`Mode.Strict`).
  - A present string in the `date()` or `number()` field is therefore always a type error, whatever it says.
  - `stripUnknown` is a cast option, so it has no effect: a record that passes comes back unchanged, unknown keys included.
- `validateAt` (in `validateField`) validates a record holding the one field with that field's own schema, which is not strict (`Mode.Cast`).
  - The string is cast to a date or a number. A string that is no valid date is a type error.
  - A string that reads as no number is NaN, which the bill's `transform` turns into an absent value, and an absent bill passes.
- The type check and `oneOf` are initial tests. They run before the field's other tests, and when one fails the others do not run. An absent value skips `oneOf`. The empty string is present and off the list, so it fails `oneOf`, and `required`'s non-empty test never runs: an empty state gives only "Please select a valid state".
- `min` compares a string's `.length`, which counts UTF-16 code units (`Utf16Length`): a character outside the Basic Multilingual Plane, such as an emoji, counts twice.
- A required string that is absent fails with only its required message.
- A present string that passes the initial tests runs `required`'s non-empty test and its `min` test. An empty business name, address or city fails both.
- `validate` with `abortEarly: false` reports every failing test of every field.
- `validateAt` reports the first failure only.
- Casting a string to a date or a number, and the instant `new Date()` was evaluated, are injected through `Environment`:
  - `new Date()` sits in the schema literal, so `schemaCreatedAt` is the moment the module was loaded, not the moment of validation;
  - `min` is inclusive: a date equal to that instant passes.

## Behaviour of the code as written

- The store starts from `initialState` and fetches initial data on mount. No session-storage draft is loaded or saved: `FormService.ts` has no such methods.
- `submitForm` does not clear `error` when it starts. Only `SET_LOADING` is dispatched, so the previous error stays visible while the request is in flight (`SubmitInFlight`).
- `US_STATES` holds only "AL" and "AK", so a state such as "TX" is rejected (`TexasRejectedAsWritten`).
- The date rule accepts a date equal to the schema's creation instant; it does not demand a strictly later one.
- The form values are strings and the object schema is strict. So once a monthly bill or a contract end date has been entered, submit-time validation always fails with a type error for that field. This holds even when checking the field while typing passed (`DateOrBillNeverValid`, `DateOrBillBlocksSubmit`).
- There is no single-flight guard on submission; none is added.

## Model

| member | source | states |
|---|---|---|
| `JsValues.Utf16Length` | src/utils/validationSchema.ts:13 | `.length` lies between the character count and twice it, and equals the character count iff every character lies in the Basic Multilingual Plane |
| `FormService.FetchInitialData` | src/services/FormService.ts:18-26 | rejects with an `Error` carrying exactly `response.error` iff that is truthy; otherwise resolves to `response.data`, or `{}` when data is null |
| `FormService.Submit` | src/services/FormService.ts:28-38 | resolves iff there is no truthy transport error and the payload exists with `success` true; every rejection is an `Error` |
| `FormService.SubmitIgnoresPayloadOnTransportError` | src/services/FormService.ts:31-33 | a truthy transport error decides the rejection, whatever the payload holds |
| `FormService.SubmitRejectedPayload` | src/services/FormService.ts:35-37 | `success: false` rejects with the payload message, or "Submission failed" when it is empty or absent |
| `FormService.SubmitEmptyResponse` | src/services/FormService.ts:28-38 | null data without a truthy error rejects with "Submission failed" |
| `FormService.FirstMissing` | src/services/FormService.ts:45-51 | None iff every listed field is present and non-empty; otherwise "<field> is required" for the first missing field, all earlier ones being filled |
| `FormService.ValidateFormData` | src/services/FormService.ts:41-52 | null iff `name` and `email` are both present and non-empty; `name` is checked before `email` |
| `FormTypes.Lookup` | src/services/FormService.ts:46 | reading a key of a record: present iff the key is in the record, and then its value |
| `FormProvider.Reduce` | src/context/FormProvider.tsx:11-30 | RESET_FORM yields `initialState`; only SET_LOADING changes `loading`, only SET_FIELD and SET_ERROR change `error`, only SET_FIELD and SET_INITIAL_DATA change the record, and only SET_INITIAL_DATA drops keys (besides RESET_FORM) |
| `FormProvider.Run` | src/context/FormProvider.tsx:35 | a run without SET_LOADING or RESET_FORM keeps `loading`; a run ending in SET_LOADING(false) ends not loading; a run of SET_FIELDs keeps every key |
| `FormProvider.FailureMessage` | src/context/FormProvider.tsx:65 | an `Error`'s own message, and "Submission failed" for any other thrown value |
| `FormProvider.SubmitActions` | src/context/FormProvider.tsx:58-71 | three dispatches, loading on first and off last; RESET_FORM iff the call resolved, SET_ERROR with the failure message when it rejected; no record writes |
| `FormProvider.MountActions` | src/context/FormProvider.tsx:37-52 | three dispatches, loading on first and off last; SET_INITIAL_DATA with the record on success, SET_ERROR with "Failed to load initial data" iff the fetch failed; no field writes or resets |
| `FormProvider.SetFieldFrame` | src/context/FormProvider.tsx:13-18 | SET_FIELD writes the named key, keeps every other key, clears `error`, keeps `loading` |
| `FormProvider.LoadingAndErrorFrame` | src/context/FormProvider.tsx:19-22 | SET_LOADING changes only `loading`; SET_ERROR changes only `error` |
| `FormProvider.SetInitialDataFrame` | src/context/FormProvider.tsx:23-24 | SET_INITIAL_DATA replaces the record wholesale and keeps `loading` and `error` |
| `FormProvider.ResetFromAnyState` | src/context/FormProvider.tsx:25-26 | RESET_FORM yields `{formData: {}, loading: false, error: null}` from any state and is idempotent |
| `FormProvider.SetFieldLastWins` | src/context/FormProvider.tsx:13-18 | of two SET_FIELDs on one key the last value wins |
| `FormProvider.SetFieldsCommute` | src/context/FormProvider.tsx:13-18 | SET_FIELDs on distinct keys commute |
| `FormProvider.RunConcat` | src/context/FormProvider.tsx:35 | dispatching a concatenation of actions is dispatching each part in turn |
| `FormProvider.SubmitSucceeded` | src/context/FormProvider.tsx:58-63 | a successful submission ends with an empty record, `loading` false and `error` null |
| `FormProvider.SubmitFailed` | src/context/FormProvider.tsx:64-69 | a failed submission keeps the record, stores the `Error`'s message ("Submission failed" for a non-Error) and ends with `loading` false |
| `FormProvider.SubmitInFlight` | src/context/FormProvider.tsx:58-59 | while the submission is pending `loading` is true and the previous error is still set |
| `FormProvider.MountOutcome` | src/context/FormProvider.tsx:37-52 | the mount fetch ends with the fetched record, or with "Failed to load initial data" and the record untouched; `loading` false either way |
| `FormProvider.MountFromResponse` | src/context/FormProvider.tsx:37-52 | the same, stated directly in terms of the gateway response (a null-data success sets `{}`) |
| `FormProvider.SubmitFromResponse` | src/context/FormProvider.tsx:58-69 | from the gateway response: success returns the store to its initial state; failure keeps the record and stores the service's message |
| `FormProvider.FormStore.constructor` | src/context/FormProvider.tsx:35 | the store starts in `initialState` |
| `FormProvider.FormStore.Dispatch` | src/context/FormProvider.tsx:35 | one dispatch is one reducer step |
| `FormProvider.FormStore.SetField` | src/context/FormProvider.tsx:54-56 | `setField` dispatches SET_FIELD: the key is written, the error cleared, `loading` kept |
| `FormProvider.FormStore.FetchInitialDataOnMount` | src/context/FormProvider.tsx:37-52 | the effect's dispatch sequence; ends with `loading` false and, on failure, the load-failure message and the record untouched |
| `FormProvider.FormStore.SubmitForm` | src/context/FormProvider.tsx:58-71 | posts the record held at the start; settles as the service call did; the final state is the reset state or the kept record with the failure message |
| `ValidationSchema.CheckFailures` | src/utils/validationSchema.ts:10-23 | no failure messages iff the value's `.length` (UTF-16 code units) reaches every `min` of the rule |
| `ValidationSchema.RuleOf` | src/utils/validationSchema.ts:9-43 | five string fields and a date and a number field; exactly business name, address, city and state are required; only state has a `oneOf` list, `US_STATES` with "Please select a valid state" |
| `ValidationSchema.TextFailures` | src/utils/validationSchema.ts:10-32 | an absent value fails iff required; a value off the list fails with the list's message alone; otherwise it passes iff it is on the list, non-empty when required and of sufficient `.length` |
| `ValidationSchema.RuleFailures` | src/utils/validationSchema.ts:9-44 | an absent value fails only a required rule; a strict date or number rule gives a type error for any present string; a cast amount that reads as NaN passes |
| `ValidationSchema.FieldErrors` | src/utils/validationSchema.ts:9-44 | under `.strict()` the date and bill fields pass iff absent; an absent field fails iff it is required |
| `ValidationSchema.SingleFieldErrors` | src/utils/validationSchema.ts:34-43 | string fields fail exactly as inside the record; an unreadable bill passes once the transform has made it absent |
| `ValidationSchema.StringFieldsIgnoreMode` | src/utils/validationSchema.ts:10-32 | string fields give the same failures field by field and inside the record |
| `ValidationSchema.BusinessNameRule` | src/utils/validationSchema.ts:10-13 | absent gives only the required message; empty gives both messages; `.length` 1 gives "Business name must be at least 2 characters"; valid iff `.length` is at least 2 |
| `ValidationSchema.AddressRule` | src/utils/validationSchema.ts:15-18 | absent gives only "Address is required"; empty gives both messages; `.length` 1 to 4 gives "Please enter a valid address"; valid iff `.length` is at least 5 |
| `ValidationSchema.CityRule` | src/utils/validationSchema.ts:20-23 | absent gives only "City is required"; empty gives both messages; `.length` 1 gives "Please enter a valid city name"; valid iff `.length` is at least 2 |
| `ValidationSchema.StateRule` | src/utils/validationSchema.ts:25-28 | absent gives only "State is required"; any present value off `US_STATES`, the empty string included, gives only "Please select a valid state"; valid iff "AL" or "AK" |
| `ValidationSchema.CurrentProviderRule` | src/utils/validationSchema.ts:30-32 | never fails |
| `ValidationSchema.ContractEndDateRule` | src/utils/validationSchema.ts:34-44 | inside the strict record: absent passes and any present string is a `date` type error. On its own: passes iff absent or cast to a valid date not before the schema's creation instant; an invalid date is a type error, an earlier one gives "Date cannot be in the past" |
| `ValidationSchema.EstimatedMonthlyBillRule` | src/utils/validationSchema.ts:39-44 | inside the strict record: absent passes and any present string is a `number` type error. On its own: passes iff absent, NaN (made absent by the transform) or positive; a non-positive number gives "Amount must be positive" |
| `ValidationSchema.ValidateAt` | src/components/form/Form.tsx:19 | the first failure of the one field under its own, casting schema; None iff it passes |
| `ValidationSchema.ErrorsOfMembership` | src/utils/validationSchema.ts:47-51 | an error appears iff its field is listed and its message is one of that field's failures |
| `ValidationSchema.ErrorsOf` | src/utils/validationSchema.ts:47-51 | every error produced names a listed field and one of that field's own failures |
| `ValidationSchema.ValidateAll` | src/components/form/Form.tsx:71 | every reported error is a real failure of its field |
| `ValidationSchema.ValidateAllReportsEveryFailure` | src/utils/validationSchema.ts:47-51 | with `abortEarly: false` every failure of every field is reported, and nothing else |
| `ValidationSchema.ValidateAllEmptyIff` | src/utils/validationSchema.ts:47-51 | a record passes iff every field passes |
| `ValidationSchema.FailingPaths` | src/utils/validationSchema.ts:47-51 | the fields named by the errors are exactly the failing fields |
| `ValidationSchema.ValidateForm` | src/utils/validationSchema.ts:47-51 | fails iff some field fails, with every error; on success yields the record unchanged, since a strict schema casts nothing and strips nothing |
| `ValidationSchema.UnknownKeysIgnored` | src/utils/validationSchema.ts:44-51 | keys outside the schema never cause or change an error |
| `ValidationSchema.RequiredFieldsSuffice` | src/utils/validationSchema.ts:9-51 | required fields of sufficient `.length` and on the list, with absent date and bill, make `validateForm` succeed with the record itself |
| `ValidationSchema.SurrogatePairsCountTwice` | src/utils/validationSchema.ts:10-18 | a one-emoji business name (`.length` 2) and an address of a letter and two emoji (`.length` 5) pass |
| `ValidationSchema.DateOrBillNeverValid` | src/utils/validationSchema.ts:34-51 | a record holding a contract end date or a bill never validates; each such field reports its type error |
| `ValidationSchema.ShortBusinessNameReported` | src/utils/validationSchema.ts:10-13 | `{businessName: "A"}` reports the length message for `businessName` |
| `ValidationSchema.TexasRejectedAsWritten` | src/utils/validationSchema.ts:3-28 | a record with state "TX", "ZZ" or "" reports "Please select a valid state" and no other message for the state |
| `FormComponent.SanitizeBill` | src/components/form/Form.tsx:53 | the result holds only digits and '.', and is no longer than the input |
| `FormComponent.SanitizeKeepsClean` | src/components/form/Form.tsx:53 | a string of digits and dots is left unchanged |
| `FormComponent.SanitizeIdempotent` | src/components/form/Form.tsx:53 | sanitising twice equals sanitising once |
| `FormComponent.SanitizeFixedPointIff` | src/components/form/Form.tsx:53 | a string is unchanged iff it is already clean |
| `FormComponent.SanitizeConcat` | src/components/form/Form.tsx:53 | the sanitiser distributes over concatenation |
| `FormComponent.SanitizeOneChar` | src/components/form/Form.tsx:53 | a single character is kept iff it is a digit or '.' |
| `FormComponent.ProcessedValue` | src/components/form/Form.tsx:47-53 | the bill field's value is clean; every other field's value is passed through unchanged |
| `FormComponent.AfterFieldValidation` | src/components/form/Form.tsx:17-26 | only the field's entry changes: removed when the field alone passes, set to its first failure otherwise |
| `FormComponent.FoldErrors` | src/components/form/Form.tsx:76-79 | every entry of the folded map is the path and message of one of the errors |
| `FormComponent.FoldErrorsKeys` | src/components/form/Form.tsx:76-79 | the folded map has an entry for exactly the paths that occur |
| `FormComponent.FoldErrorsConcat` | src/components/form/Form.tsx:76-79 | folding a concatenation: later errors override earlier ones |
| `FormComponent.FoldErrorsLastWins` | src/components/form/Form.tsx:76-79 | each path's entry is the message of its last occurrence |
| `FormComponent.FoldErrorsOf` | src/components/form/Form.tsx:75-81 | over distinct fields, the fold names exactly the failing fields, each with its last failure |
| `FormComponent.SubmitErrorMap` | src/components/form/Form.tsx:75-81 | after a failed submit-time validation the map names exactly the failing fields, each with the last message its rule reports |
| `FormComponent.EmptyBusinessNameShowsLengthMessage` | src/components/form/Form.tsx:75-81 | an empty business name shows the length message, the later of its two failures |
| `FormComponent.EmptyStateShowsListMessage` | src/components/form/Form.tsx:75-81 | an empty state shows "Please select a valid state", on submit and while typing |
| `FormComponent.DateOrBillBlocksSubmit` | src/components/form/Form.tsx:67-81 | once an end date or a bill is in the record, submit-time validation fails and the map shows that field's type error |
| `FormComponent.UnreadableBillClearsEntry` | src/components/form/Form.tsx:47-53 | while typing, a sanitised bill that reads as no number clears the bill's entry |
| `FormComponent.FormView.constructor` | src/components/form/Form.tsx:15 | the error map starts empty |
| `FormComponent.FormView.ValidateField` | src/components/form/Form.tsx:17-26 | the error map becomes the updater applied to it |
| `FormComponent.FormView.HandleChange` | src/components/form/Form.tsx:47-65 | `setField` receives the processed value and the field is re-checked with that value |
| `FormComponent.FormView.HandleSubmit` | src/components/form/Form.tsx:67-84 | a failed validation replaces the map by the fold and leaves the store alone; otherwise the store runs the submission and the map is kept; navigation to "/thank-you" iff validation passes and the submission resolves |

## Left out

- `ApiService.fetchWithTimeout`, `get` and `post` (src/services/api.ts): these are network I/O with an abort timer. Only their `{ data, error }` result shape is modelled, as an input.
- The mock service and fixtures (src/services/mockHandlers.ts, src/services/mockData.ts): they depend on randomness and timers and hold constant data.
- `formatCurrency` and the write to the bill input's `value` (src/components/form/Form.tsx:28-45, 54-60): these use floating-point parsing, `Intl.NumberFormat` and the DOM.
- How yup casts a string to a date or a number (src/utils/validationSchema.ts:35, 40): the casts are the `parseDate` and `parseAmount` parameters of `Environment`. The transform on `estimatedMonthlyBill` (line 43) is modelled by a NaN amount passing as absent, and only field by field, since `.strict()` skips it for the whole record.
- Type-error messages keep the library's prefix only, without the offending value it appends.
- Cross-field error order: errors of different fields are listed in the schema's declaration order. The actual order is the library's; the error map built from them does not depend on it.
- The reducer's `default` branch (src/context/FormProvider.tsx:27-28): the typed action alphabet cannot reach it.
- Asynchrony and interleaving: `submitForm`, the mount fetch and `validateField` each run as one uninterrupted sequence. A field change that lands while a request is pending, or a late validation result, is not modelled.
- `e.preventDefault()`, the disabled submit button, the `console.error` call, React context wiring (src/context/useFormContext.ts), rendering, routing beyond the navigation target, and session-storage drafts. The storage methods appear only in the tests, not in the code.
- Promise objects: only how a promise settles is modelled. A rejection's reason is the service's thrown value.
