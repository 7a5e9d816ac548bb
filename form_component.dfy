/** The lead form's non-rendering logic: the monthly-bill sanitiser, the
    per-field error-map update, the fold of submit-time errors into the
    map, and the change and submit handlers that drive the store. */
module FormComponent {
  import opened JsValues
  import opened FormTypes
  import opened ValidationSchema
  import opened Api
  import FormService
  import FormProvider

  /** The characters `/[^0-9.]/g` keeps. */
  predicate IsBillChar(c: char)
  {
    '0' <= c <= '9' || c == '.'
  }

  predicate IsClean(s: string)
  {
    forall i :: 0 <= i < |s| ==> IsBillChar(s[i])
  }

  /** The bill sanitiser: drops every character that is not a digit or a dot. */
  function SanitizeBill(s: string): (r: string)
    ensures IsClean(r)
    ensures |r| <= |s|
  {
    if s == [] then []
    else
      var rest := SanitizeBill(s[1..]);
      if IsBillChar(s[0]) then [s[0]] + rest else rest
  }

  /** A string already made of digits and dots passes through unchanged. */
  lemma {:induction false} SanitizeKeepsClean(s: string)
    requires IsClean(s)
    ensures SanitizeBill(s) == s
  {
    if s != [] {
      assert IsClean(s[1..]) by {
        forall i | 0 <= i < |s[1..]| ensures IsBillChar(s[1..][i]) { assert s[1..][i] == s[i + 1]; }
      }
      SanitizeKeepsClean(s[1..]);
      assert s == [s[0]] + s[1..];
    }
  }

  /** The sanitiser is idempotent. */
  lemma SanitizeIdempotent(s: string)
    ensures SanitizeBill(SanitizeBill(s)) == SanitizeBill(s)
  {
    SanitizeKeepsClean(SanitizeBill(s));
  }

  /** A string is left unchanged exactly when it is already clean. */
  lemma SanitizeFixedPointIff(s: string)
    ensures SanitizeBill(s) == s <==> IsClean(s)
  {
    if IsClean(s) { SanitizeKeepsClean(s); }
  }

  /** The sanitiser works character by character: it distributes over
      concatenation, and keeps a single character iff it is a digit or a dot. */
  lemma {:induction false} SanitizeConcat(a: string, b: string)
    ensures SanitizeBill(a + b) == SanitizeBill(a) + SanitizeBill(b)
    decreases |a|
  {
    if a == [] {
      assert a + b == b;
    } else {
      assert (a + b)[0] == a[0];
      assert (a + b)[1..] == a[1..] + b;
      SanitizeConcat(a[1..], b);
    }
  }

  lemma SanitizeOneChar(c: char)
    ensures SanitizeBill([c]) == if IsBillChar(c) then [c] else []
  {
    assert [c][1..] == [];
  }

  /** The value `handleChange` hands to `setField` and to the field check. */
  function ProcessedValue(field: Field, value: string): (r: string)
    ensures field == EstimatedMonthlyBill ==> IsClean(r)
    ensures field != EstimatedMonthlyBill ==> r == value
  {
    if field == EstimatedMonthlyBill then SanitizeBill(value) else value
  }

  /** The component's `validationErrors`: field to its shown message. */
  type ErrorMap = map<Field, string>

  /** The updater `validateField` applies: the field's entry is cleared when
      it passes and set to its first failure otherwise; no other entry moves.
      (An entry set to `undefined` reads as no error; here it is removed.) */
  function AfterFieldValidation(errors: ErrorMap, field: Field, value: string, env: Environment): (r: ErrorMap)
    ensures forall g :: g != field ==> (g in r <==> g in errors)
    ensures forall g :: g in r && g != field ==> r[g] == errors[g]
    ensures field in r <==> SingleFieldErrors(field, Some(value), env) != []
    ensures field in r ==> r[field] == SingleFieldErrors(field, Some(value), env)[0]
  {
    match ValidateAt(field, value, env)
    case None => errors - {field}
    case Some(message) => errors[field := message]
  }

  /** The fold of a validation error's leaf errors, left to right, into a map
      from path to message; a later entry for a path overwrites an earlier one. */
  function FoldErrors(inner: seq<FieldError>): (r: ErrorMap)
    ensures forall p :: p in r ==> FieldError(p, r[p]) in inner
    decreases |inner|
  {
    if inner == [] then map[]
    else
      var last := inner[|inner| - 1];
      FoldErrors(inner[..|inner| - 1])[last.path := last.message]
  }

  /** The fold has an entry for exactly the paths that occur. */
  lemma {:induction false} FoldErrorsKeys(inner: seq<FieldError>)
    ensures FoldErrors(inner).Keys == set e | e in inner :: e.path
    decreases |inner|
  {
    if inner != [] {
      var init := inner[..|inner| - 1];
      FoldErrorsKeys(init);
      assert inner == init + [inner[|inner| - 1]];
      assert (set e | e in inner :: e.path) == (set e | e in init :: e.path) + {inner[|inner| - 1].path};
    }
  }

  /** Folding a concatenation: the second part's entries override the first's. */
  lemma {:induction false} FoldErrorsConcat(first: seq<FieldError>, second: seq<FieldError>)
    ensures FoldErrors(first + second) == FoldErrors(first) + FoldErrors(second)
    decreases |second|
  {
    if second == [] {
      assert first + second == first;
    } else {
      var init := second[..|second| - 1];
      var last := second[|second| - 1];
      assert (first + second)[..|first + second| - 1] == first + init;
      assert (first + second)[|first + second| - 1] == last;
      FoldErrorsConcat(first, init);
      calc {
        FoldErrors(first + second);
        FoldErrors(first + init)[last.path := last.message];
        (FoldErrors(first) + FoldErrors(init))[last.path := last.message];
        FoldErrors(first) + FoldErrors(init)[last.path := last.message];
        FoldErrors(first) + FoldErrors(second);
      }
    }
  }

  /** For each path, the entry is the message of its last occurrence: a later
      error for the same path overwrites an earlier one. */
  lemma {:induction false} FoldErrorsLastWins(inner: seq<FieldError>, i: nat)
    requires i < |inner|
    requires forall j :: i < j < |inner| ==> inner[j].path != inner[i].path
    ensures inner[i].path in FoldErrors(inner) && FoldErrors(inner)[inner[i].path] == inner[i].message
    decreases |inner|
  {
    var init := inner[..|inner| - 1];
    if i < |inner| - 1 {
      assert init[i] == inner[i];
      forall j | i < j < |init| ensures init[j].path != init[i].path {
        assert init[j] == inner[j];
      }
      FoldErrorsLastWins(init, i);
    }
  }

  /** The fold of one field's block of errors. */
  lemma {:induction false} FoldErrorsTag(f: Field, messages: seq<string>)
    ensures messages == [] ==> FoldErrors(Tag(f, messages)) == map[]
    ensures messages != [] ==> FoldErrors(Tag(f, messages)) == map[f := messages[|messages| - 1]]
    decreases |messages|
  {
    if messages != [] {
      var init := messages[..|messages| - 1];
      assert Tag(f, messages)[..|messages| - 1] == Tag(f, init);
      FoldErrorsTag(f, init);
    }
  }

  /** The fold over a list of distinct fields' error blocks: an entry for
      exactly the failing fields, each holding that field's last failure. */
  lemma {:induction false} FoldErrorsOf(fields: seq<Field>, data: FormRecord)
    requires forall i, j :: 0 <= i < j < |fields| ==> fields[i] != fields[j]
    ensures forall f :: f in FoldErrors(ErrorsOf(fields, data))
                    <==> f in fields && FieldErrors(f, Lookup(data, Key(f))) != []
    ensures forall f :: f in FoldErrors(ErrorsOf(fields, data)) ==>
              var messages := FieldErrors(f, Lookup(data, Key(f)));
              messages != [] && FoldErrors(ErrorsOf(fields, data))[f] == messages[|messages| - 1]
    decreases |fields|
  {
    if fields != [] {
      var f0 := fields[0];
      var rest := fields[1..];
      var head := Tag(f0, FieldErrors(f0, Lookup(data, Key(f0))));
      forall i, j | 0 <= i < j < |rest| ensures rest[i] != rest[j] {
        assert rest[i] == fields[i + 1] && rest[j] == fields[j + 1];
      }
      FoldErrorsOf(rest, data);
      FoldErrorsConcat(head, ErrorsOf(rest, data));
      FoldErrorsTag(f0, FieldErrors(f0, Lookup(data, Key(f0))));
      assert f0 !in rest;
      forall f ensures f in fields <==> f == f0 || f in rest { }
    }
  }

  /** After a failed submit-time validation, the error map names exactly the
      failing fields, each with the last message its rule reports. */
  lemma SubmitErrorMap(data: FormRecord)
    ensures forall f :: f in FoldErrors(ValidateAll(data)) <==> FieldErrors(f, Lookup(data, Key(f))) != []
    ensures forall f :: f in FoldErrors(ValidateAll(data)) ==>
              var messages := FieldErrors(f, Lookup(data, Key(f)));
              messages != [] && FoldErrors(ValidateAll(data))[f] == messages[|messages| - 1]
  {
    FoldErrorsOf(Fields, data);
    forall f ensures f in Fields { AllFieldsListed(f); }
  }

  /** An empty business name fails twice, and the map shows the later
      (length) message rather than the required message. */
  lemma EmptyBusinessNameShowsLengthMessage(data: FormRecord)
    requires "businessName" in data && data["businessName"] == ""
    ensures BusinessName in FoldErrors(ValidateAll(data))
    ensures FoldErrors(ValidateAll(data))[BusinessName] == "Business name must be at least 2 characters"
  {
    SubmitErrorMap(data);
    BusinessNameRule(Lookup(data, Key(BusinessName)));
  }

  /** An empty state is off the list: the map shows the list's message,
      both on submit and while typing. */
  lemma EmptyStateShowsListMessage(data: FormRecord, errors: ErrorMap, env: Environment)
    requires "state" in data && data["state"] == ""
    ensures State in FoldErrors(ValidateAll(data))
    ensures FoldErrors(ValidateAll(data))[State] == "Please select a valid state"
    ensures AfterFieldValidation(errors, State, "", env) == errors[State := "Please select a valid state"]
  {
    SubmitErrorMap(data);
    StateRule(Lookup(data, Key(State)));
  }

  /** `SubmitErrorMap` for one field. */
  lemma SubmitErrorMapAt(data: FormRecord, f: Field)
    ensures f in FoldErrors(ValidateAll(data)) <==> FieldErrors(f, Lookup(data, Key(f))) != []
    ensures f in FoldErrors(ValidateAll(data)) ==>
              var messages := FieldErrors(f, Lookup(data, Key(f)));
              messages != [] && FoldErrors(ValidateAll(data))[f] == messages[|messages| - 1]
  {
    SubmitErrorMap(data);
  }

  /** Once a monthly bill or an end date has been entered, submit-time
      validation always fails and the map names the type error, even though
      checking the same field while typing may have passed. */
  lemma DateOrBillBlocksSubmit(data: FormRecord)
    requires "contractEndDate" in data || "estimatedMonthlyBill" in data
    ensures ValidateAll(data) != []
    ensures "contractEndDate" in data ==>
              ContractEndDate in FoldErrors(ValidateAll(data))
              && FoldErrors(ValidateAll(data))[ContractEndDate] == TypeErrorMessage("contractEndDate", "date")
    ensures "estimatedMonthlyBill" in data ==>
              EstimatedMonthlyBill in FoldErrors(ValidateAll(data))
              && FoldErrors(ValidateAll(data))[EstimatedMonthlyBill] == TypeErrorMessage("estimatedMonthlyBill", "number")
  {
    DateOrBillNeverValid(data);
    if "contractEndDate" in data {
      assert FieldErrors(ContractEndDate, Lookup(data, Key(ContractEndDate))) == [TypeErrorMessage("contractEndDate", "date")];
      SubmitErrorMapAt(data, ContractEndDate);
    }
    if "estimatedMonthlyBill" in data {
      assert FieldErrors(EstimatedMonthlyBill, Lookup(data, Key(EstimatedMonthlyBill))) == [TypeErrorMessage("estimatedMonthlyBill", "number")];
      SubmitErrorMapAt(data, EstimatedMonthlyBill);
    }
  }

  /** While typing, a bill that reads as no number clears the bill's entry:
      the cast turns it into an absent value, which passes. */
  lemma UnreadableBillClearsEntry(errors: ErrorMap, value: string, env: Environment)
    requires env.parseAmount(SanitizeBill(value)).None?
    ensures AfterFieldValidation(errors, EstimatedMonthlyBill, ProcessedValue(EstimatedMonthlyBill, value), env)
         == errors - {EstimatedMonthlyBill}
  {
  }

  const ThankYouPath: string := "/thank-you"

  /** The form component: the store it drives and its own error map. */
  class FormView {
    const store: FormProvider.FormStore
    var validationErrors: ErrorMap

    constructor(store: FormProvider.FormStore)
      ensures this.store == store && validationErrors == map[]
    {
      this.store := store;
      validationErrors := map[];
    }

    /** `validateField`. */
    method ValidateField(field: Field, value: string, env: Environment)
      modifies this
      ensures validationErrors == AfterFieldValidation(old(validationErrors), field, value, env)
    {
      validationErrors := AfterFieldValidation(validationErrors, field, value, env);
    }

    /** `handleChange`: the bill is sanitised, every other value passes
        through; the store is set and the field re-checked with that value. */
    method HandleChange(field: Field, value: string, env: Environment)
      modifies this, store
      ensures store.state == FormProvider.Reduce(old(store.state), FormAction.SetField(Key(field), ProcessedValue(field, value)))
      ensures validationErrors == AfterFieldValidation(old(validationErrors), field, ProcessedValue(field, value), env)
    {
      var processed := ProcessedValue(field, value);
      store.SetField(Key(field), processed);
      ValidateField(field, processed, env);
    }

    /** `handleSubmit`: validate the record, and only if it passes submit it;
        navigate only when the submission resolves. A validation failure
        replaces the error map by the fold of its errors; a rejected
        submission leaves the map alone. */
    method HandleSubmit(post: FormRecord -> ApiResponse<FormService.FormResponse>)
      returns (navigatedTo: Option<string>)
      modifies this, store
      ensures var errors := ValidateAll(old(store.state.formData));
        errors != [] ==> validationErrors == FoldErrors(errors) && store.state == old(store.state)
      ensures ValidateAll(old(store.state.formData)) == [] ==> validationErrors == old(validationErrors)
      ensures ValidateAll(old(store.state.formData)) == [] ==>
        store.state == FormProvider.Run(old(store.state), FormProvider.SubmitActions(FormService.Submit(post(old(store.state.formData)))))
      ensures navigatedTo.None? || navigatedTo == Some(ThankYouPath)
      ensures navigatedTo.Some? <==>
        (ValidateAll(old(store.state.formData)) == [] && FormService.Submit(post(old(store.state.formData))).Resolved?)
    {
      var errors := ValidateAll(store.state.formData);
      if errors != [] {
        validationErrors := FoldErrors(errors);
        navigatedTo := None;
      } else {
        var settled := store.SubmitForm(post);
        navigatedTo := if settled.Resolved? then Some(ThankYouPath) else None;
      }
    }
  }
}
