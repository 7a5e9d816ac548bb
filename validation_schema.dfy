/** The field rules of the lead form, declared as data the way the schema
    declares them, and the two ways they are applied: one field at a time
    (first failure only) and to a whole record (every failure collected,
    unknown keys ignored). */
module ValidationSchema {
  import opened JsValues
  import opened FormTypes

  datatype Field = BusinessName | Address | City | State | CurrentProvider | ContractEndDate | EstimatedMonthlyBill

  /** The record key of each field. */
  function Key(f: Field): string
  {
    match f
    case BusinessName => "businessName"
    case Address => "address"
    case City => "city"
    case State => "state"
    case CurrentProvider => "currentProvider"
    case ContractEndDate => "contractEndDate"
    case EstimatedMonthlyBill => "estimatedMonthlyBill"
  }

  /** The schema's fields in declaration order. */
  const Fields: seq<Field> := [BusinessName, Address, City, State, CurrentProvider, ContractEndDate, EstimatedMonthlyBill]

  const SchemaKeys: set<string> := set f | f in Fields :: Key(f)

  /** The values of `US_STATES`, as the list stands. */
  const UsStates: seq<string> := ["AL", "AK"]

  /** A regular test on a present string value, with the message it reports. */
  datatype Check = MinLength(min: nat, message: string)

  /** A `oneOf` list and its message. The library runs it as an initial
      test, beside the type check: an absent value skips it, and when it
      fails the regular tests of the field do not run. */
  datatype Whitelist = Whitelist(values: seq<string>, message: string)

  /** A field's rule:
      - Text: a string, optionally required (absent or empty fails with the
        message), optionally limited to a list, then regular checks;
      - Date: an optional date that must not lie before the instant the
        schema was built;
      - Amount: an optional number that must be positive; a value that
        reads as no number at all is turned into an absent one. */
  datatype Rule =
    | Text(required: Option<string>, allowed: Option<Whitelist>, checks: seq<Check>)
    | Date(pastMessage: string)
    | Amount(positiveMessage: string)

  /** `formSchema`, field by field. */
  function RuleOf(f: Field): (r: Rule)
    ensures r.Text? <==> f != ContractEndDate && f != EstimatedMonthlyBill
    ensures r.Text? && r.required.Some? <==> f == BusinessName || f == Address || f == City || f == State
    ensures r.Text? && r.allowed.Some? <==> f == State
    ensures f == State ==> r.allowed == Some(Whitelist(UsStates, "Please select a valid state"))
  {
    match f
    case BusinessName => Text(Some("Business name is required"), None, [MinLength(2, "Business name must be at least 2 characters")])
    case Address => Text(Some("Address is required"), None, [MinLength(5, "Please enter a valid address")])
    case City => Text(Some("City is required"), None, [MinLength(2, "Please enter a valid city name")])
    case State => Text(Some("State is required"), Some(Whitelist(UsStates, "Please select a valid state")), [])
    case CurrentProvider => Text(None, None, [])
    case ContractEndDate => Date("Date cannot be in the past")
    case EstimatedMonthlyBill => Amount("Amount must be positive")
  }

  /** What the validation library brings that the schema does not state: the
      instant `new Date()` was evaluated (when the schema module was loaded),
      and how a string is cast to a date (a timestamp, None for an invalid
      date) or to a number (None for NaN). */
  datatype Environment = Environment(schemaCreatedAt: int, parseDate: string -> Option<int>, parseAmount: string -> Option<real>)

  /** How values reach the rules. Whole-record validation runs under the
      object's `.strict()`, which no field escapes: nothing is cast or
      transformed, so a string is only ever a string. Validation of a single
      field uses that field's own schema, which is not strict: the string is
      cast, and transforms run. */
  datatype Mode = Strict | Cast(env: Environment)

  /** The library's type-error message, without the offending value it appends. */
  function TypeErrorMessage(key: string, typeName: string): string
  {
    key + " must be a `" + typeName + "` type"
  }

  /** `min` compares the string's `.length`, counted in UTF-16 code units. */
  predicate Fails(c: Check, s: string)
  {
    Utf16Length(s) < c.min
  }

  /** The messages of the checks that `s` fails, in declaration order. */
  function CheckFailures(checks: seq<Check>, s: string): (r: seq<string>)
    ensures r == [] <==> forall i :: 0 <= i < |checks| ==> !Fails(checks[i], s)
    ensures |r| <= |checks|
  {
    if checks == [] then []
    else
      var rest := CheckFailures(checks[1..], s);
      assert (forall i :: 0 <= i < |checks[1..]| ==> !Fails(checks[1..][i], s))
         <==> (forall i :: 1 <= i < |checks| ==> !Fails(checks[i], s)) by {
        forall i | 1 <= i < |checks| ensures checks[i] == checks[1..][i - 1] { }
      }
      (if Fails(checks[0], s) then [checks[0].message] else []) + rest
  }

  /** Every failure message of a string rule. Initial tests first: an absent
      value fails only `required`, a value off the list fails only the list;
      otherwise the non-empty test of `required` and the regular checks all run. */
  function TextFailures(required: Option<string>, allowed: Option<Whitelist>, checks: seq<Check>, value: Option<string>): (r: seq<string>)
    ensures value.None? ==> (r == [] <==> required.None?)
    ensures value.Some? && allowed.Some? && value.value !in allowed.value.values ==> r == [allowed.value.message]
    ensures value.Some? ==>
              (r == [] <==> (allowed.None? || value.value in allowed.value.values)
                            && !(required.Some? && value.value == "")
                            && forall i :: 0 <= i < |checks| ==> !Fails(checks[i], value.value))
  {
    if value.None? then (if required.Some? then [required.value] else [])
    else if allowed.Some? && value.value !in allowed.value.values then [allowed.value.message]
    else (if required.Some? && value.value == "" then [required.value] else []) + CheckFailures(checks, value.value)
  }

  /** Every failure message of one rule, for a value that may be absent. */
  function RuleFailures(rule: Rule, key: string, mode: Mode, value: Option<string>): (r: seq<string>)
    ensures value.None? ==> (r != [] <==> rule.Text? && rule.required.Some?)
    ensures rule.Text? ==> r == TextFailures(rule.required, rule.allowed, rule.checks, value)
    ensures mode.Strict? && value.Some? && rule.Date? ==> r == [TypeErrorMessage(key, "date")]
    ensures mode.Strict? && value.Some? && rule.Amount? ==> r == [TypeErrorMessage(key, "number")]
    ensures mode.Cast? && value.Some? && rule.Amount? && mode.env.parseAmount(value.value).None? ==> r == []
  {
    match rule
    case Text(required, allowed, checks) => TextFailures(required, allowed, checks, value)
    case Date(pastMessage) =>
      if value.None? then []
      else if mode.Strict? then [TypeErrorMessage(key, "date")]
      else (
        match mode.env.parseDate(value.value)
        case None => [TypeErrorMessage(key, "date")]
        case Some(d) => if d < mode.env.schemaCreatedAt then [pastMessage] else [])
    case Amount(positiveMessage) =>
      if value.None? then []
      else if mode.Strict? then [TypeErrorMessage(key, "number")]
      else (
        match mode.env.parseAmount(value.value)
        case None => []
        case Some(x) => if x <= 0.0 then [positiveMessage] else [])
  }

  /** The failure messages of field `f` inside whole-record validation. */
  function FieldErrors(f: Field, value: Option<string>): (r: seq<string>)
    ensures f == ContractEndDate || f == EstimatedMonthlyBill ==> (r == [] <==> value.None?)
    ensures value.None? ==> (r == [] <==> f == CurrentProvider || f == ContractEndDate || f == EstimatedMonthlyBill)
  {
    RuleFailures(RuleOf(f), Key(f), Strict, value)
  }

  /** The failure messages of field `f` validated on its own. */
  function SingleFieldErrors(f: Field, value: Option<string>, env: Environment): (r: seq<string>)
    ensures RuleOf(f).Text? ==> r == FieldErrors(f, value)
    ensures f == EstimatedMonthlyBill && value.Some? && env.parseAmount(value.value).None? ==> r == []
  {
    RuleFailures(RuleOf(f), Key(f), Cast(env), value)
  }

  /** One leaf of a validation error: the field it is about and its message. */
  datatype FieldError = FieldError(path: Field, message: string)

  function Tag(f: Field, messages: seq<string>): (r: seq<FieldError>)
    ensures |r| == |messages|
    ensures forall i :: 0 <= i < |r| ==> r[i] == FieldError(f, messages[i])
  {
    seq(|messages|, i requires 0 <= i < |messages| => FieldError(f, messages[i]))
  }

  /** The errors of `fields` for `data`, field after field; each one is a
      real failure of a listed field. */
  function ErrorsOf(fields: seq<Field>, data: FormRecord): (r: seq<FieldError>)
    ensures forall e :: e in r ==> e.path in fields && e.message in FieldErrors(e.path, Lookup(data, Key(e.path)))
  {
    if fields == [] then []
    else
      var head := Tag(fields[0], FieldErrors(fields[0], Lookup(data, Key(fields[0]))));
      var rest := ErrorsOf(fields[1..], data);
      assert forall e :: e in head ==> e.path == fields[0] && e.message in FieldErrors(fields[0], Lookup(data, Key(fields[0]))) by {
        forall e | e in head
          ensures e.path == fields[0] && e.message in FieldErrors(fields[0], Lookup(data, Key(fields[0])))
        {
          var i :| 0 <= i < |head| && head[i] == e;
        }
      }
      head + rest
  }

  /** Whole-record validation with early abort switched off: the leaf
      errors, every failing test of every field. */
  function ValidateAll(data: FormRecord): (r: seq<FieldError>)
    ensures forall e :: e in r ==> e.message in FieldErrors(e.path, Lookup(data, Key(e.path)))
  {
    ErrorsOf(Fields, data)
  }

  /** Validation of one field given a record holding only that field: the
      first failure, or None when it passes. */
  function ValidateAt(f: Field, value: string, env: Environment): (r: Option<string>)
    ensures r.None? <==> SingleFieldErrors(f, Some(value), env) == []
    ensures r.Some? ==> r.value == SingleFieldErrors(f, Some(value), env)[0]
  {
    var errors := SingleFieldErrors(f, Some(value), env);
    if errors == [] then None else Some(errors[0])
  }

  /** How `validateForm` settles: the validated record, or the leaf errors. */
  datatype Validated = Valid(value: FormRecord) | Invalid(inner: seq<FieldError>)

  /** `validateForm`: collect every error; a strict schema casts nothing, so
      a record that passes comes back as it went in, unknown keys included. */
  function ValidateForm(data: FormRecord): (r: Validated)
    ensures r.Valid? <==> ValidateAll(data) == []
    ensures r.Invalid? ==> r.inner == ValidateAll(data)
    ensures r.Valid? ==> r.value == data
  {
    var errors := ValidateAll(data);
    if errors == [] then Valid(data) else Invalid(errors)
  }

  // ---- The rule of each field ----

  /** String values are never cast, so the string fields do not depend on
      how they are validated. */
  lemma StringFieldsIgnoreMode(f: Field, value: Option<string>, env: Environment)
    requires f != ContractEndDate && f != EstimatedMonthlyBill
    ensures SingleFieldErrors(f, value, env) == FieldErrors(f, value)
  {
  }

  lemma BusinessNameRule(value: Option<string>)
    ensures value.None? ==> FieldErrors(BusinessName, value) == ["Business name is required"]
    ensures value == Some("") ==> FieldErrors(BusinessName, value)
                                  == ["Business name is required", "Business name must be at least 2 characters"]
    ensures value.Some? && Utf16Length(value.value) == 1 ==> FieldErrors(BusinessName, value) == ["Business name must be at least 2 characters"]
    ensures FieldErrors(BusinessName, value) == [] <==> value.Some? && Utf16Length(value.value) >= 2
  {
  }

  lemma AddressRule(value: Option<string>)
    ensures value.None? ==> FieldErrors(Address, value) == ["Address is required"]
    ensures value == Some("") ==> FieldErrors(Address, value) == ["Address is required", "Please enter a valid address"]
    ensures value.Some? && 0 < Utf16Length(value.value) < 5 ==> FieldErrors(Address, value) == ["Please enter a valid address"]
    ensures FieldErrors(Address, value) == [] <==> value.Some? && Utf16Length(value.value) >= 5
  {
  }

  lemma CityRule(value: Option<string>)
    ensures value.None? ==> FieldErrors(City, value) == ["City is required"]
    ensures value == Some("") ==> FieldErrors(City, value) == ["City is required", "Please enter a valid city name"]
    ensures value.Some? && Utf16Length(value.value) == 1 ==> FieldErrors(City, value) == ["Please enter a valid city name"]
    ensures FieldErrors(City, value) == [] <==> value.Some? && Utf16Length(value.value) >= 2
  {
  }

  /** The list is checked before `required`'s non-empty test, so an empty
      state reports only the list's message. As the list stands only "AL"
      and "AK" pass. */
  lemma StateRule(value: Option<string>)
    ensures value.None? ==> FieldErrors(State, value) == ["State is required"]
    ensures value.Some? && value.value !in UsStates ==> FieldErrors(State, value) == ["Please select a valid state"]
    ensures value == Some("") ==> FieldErrors(State, value) == ["Please select a valid state"]
    ensures FieldErrors(State, value) == [] <==> value == Some("AL") || value == Some("AK")
  {
  }

  lemma CurrentProviderRule(value: Option<string>)
    ensures FieldErrors(CurrentProvider, value) == []
  {
  }

  /** Inside the record any present date string is a type error. On its own
      the string is cast: an invalid date is a type error, and a valid one
      must be no earlier than the schema's creation instant. */
  lemma ContractEndDateRule(value: Option<string>, env: Environment)
    ensures FieldErrors(ContractEndDate, value) == (if value.None? then [] else [TypeErrorMessage("contractEndDate", "date")])
    ensures SingleFieldErrors(ContractEndDate, value, env) == []
        <==> value.None? || (env.parseDate(value.value).Some? && env.parseDate(value.value).value >= env.schemaCreatedAt)
    ensures value.Some? && env.parseDate(value.value).None?
        ==> SingleFieldErrors(ContractEndDate, value, env) == [TypeErrorMessage("contractEndDate", "date")]
    ensures value.Some? && env.parseDate(value.value).Some? && env.parseDate(value.value).value < env.schemaCreatedAt
        ==> SingleFieldErrors(ContractEndDate, value, env) == ["Date cannot be in the past"]
  {
  }

  /** Inside the record any present amount string is a type error. On its
      own the string is cast, NaN is turned into an absent value (which
      passes), and a number must be positive. */
  lemma EstimatedMonthlyBillRule(value: Option<string>, env: Environment)
    ensures FieldErrors(EstimatedMonthlyBill, value) == (if value.None? then [] else [TypeErrorMessage("estimatedMonthlyBill", "number")])
    ensures SingleFieldErrors(EstimatedMonthlyBill, value, env) == []
        <==> value.None? || env.parseAmount(value.value).None? || env.parseAmount(value.value).value > 0.0
    ensures value.Some? && env.parseAmount(value.value).Some? && env.parseAmount(value.value).value <= 0.0
        ==> SingleFieldErrors(EstimatedMonthlyBill, value, env) == ["Amount must be positive"]
  {
  }

  // ---- Whole-record validation ----

  lemma AllFieldsListed(f: Field)
    ensures f in Fields && Key(f) in SchemaKeys
  {
  }

  /** Exactly the errors of the listed fields' own failures appear. */
  lemma {:induction false} ErrorsOfMembership(fields: seq<Field>, data: FormRecord, e: FieldError)
    ensures e in ErrorsOf(fields, data)
        <==> e.path in fields && e.message in FieldErrors(e.path, Lookup(data, Key(e.path)))
    decreases |fields|
  {
    if fields != [] {
      ErrorsOfMembership(fields[1..], data, e);
      var messages := FieldErrors(fields[0], Lookup(data, Key(fields[0])));
      var head := Tag(fields[0], messages);
      if e.path == fields[0] && e.message in messages {
        var i :| 0 <= i < |messages| && messages[i] == e.message;
        assert head[i] == e;
      }
      assert e.path in fields <==> e.path == fields[0] || e.path in fields[1..];
    }
  }

  /** Collect-all: every failure of every field is reported, and nothing else. */
  lemma ValidateAllReportsEveryFailure(data: FormRecord)
    ensures forall e :: e in ValidateAll(data) <==> e.message in FieldErrors(e.path, Lookup(data, Key(e.path)))
  {
    forall e: FieldError
      ensures e in ValidateAll(data) <==> e.message in FieldErrors(e.path, Lookup(data, Key(e.path)))
    {
      ErrorsOfMembership(Fields, data, e);
      AllFieldsListed(e.path);
    }
  }

  /** A record passes iff every field passes. */
  lemma ValidateAllEmptyIff(data: FormRecord)
    ensures ValidateAll(data) == [] <==> forall f :: FieldErrors(f, Lookup(data, Key(f))) == []
  {
    ValidateAllReportsEveryFailure(data);
    if ValidateAll(data) != [] {
      var e := ValidateAll(data)[0];
      assert e in ValidateAll(data);
    }
    if exists f :: FieldErrors(f, Lookup(data, Key(f))) != [] {
      var f :| FieldErrors(f, Lookup(data, Key(f))) != [];
      assert FieldError(f, FieldErrors(f, Lookup(data, Key(f)))[0]) in ValidateAll(data);
    }
  }

  /** The fields named by the errors are exactly the failing fields, so
      there are as many of them as there are failing fields. */
  lemma FailingPaths(data: FormRecord)
    ensures (set e | e in ValidateAll(data) :: e.path)
         == (set f | f in Fields && FieldErrors(f, Lookup(data, Key(f))) != [])
  {
    ValidateAllReportsEveryFailure(data);
    forall f | f in Fields && FieldErrors(f, Lookup(data, Key(f))) != []
      ensures f in (set e | e in ValidateAll(data) :: e.path)
    {
      assert FieldError(f, FieldErrors(f, Lookup(data, Key(f)))[0]) in ValidateAll(data);
    }
    forall e | e in ValidateAll(data)
      ensures e.path in Fields && FieldErrors(e.path, Lookup(data, Key(e.path))) != []
    {
      AllFieldsListed(e.path);
    }
  }

  /** Records that agree on the listed fields' keys have the same errors. */
  lemma {:induction false} ErrorsOfDependOnlyOnFields(fields: seq<Field>, d1: FormRecord, d2: FormRecord)
    requires forall i :: 0 <= i < |fields| ==> Lookup(d1, Key(fields[i])) == Lookup(d2, Key(fields[i]))
    ensures ErrorsOf(fields, d1) == ErrorsOf(fields, d2)
    decreases |fields|
  {
    if fields != [] {
      forall i | 0 <= i < |fields[1..]| ensures Lookup(d1, Key(fields[1..][i])) == Lookup(d2, Key(fields[1..][i])) {
        assert fields[1..][i] == fields[i + 1];
      }
      ErrorsOfDependOnlyOnFields(fields[1..], d1, d2);
    }
  }

  /** Keys outside the schema never cause or change an error (they are not
      stripped either: a valid record comes back whole). */
  lemma UnknownKeysIgnored(data: FormRecord, extra: FormRecord)
    requires extra.Keys !! SchemaKeys
    ensures ValidateAll(data + extra) == ValidateAll(data)
    ensures ValidateAll(data) == ValidateAll(map k | k in data && k in SchemaKeys :: data[k])
  {
    var stripped := map k | k in data && k in SchemaKeys :: data[k];
    forall i | 0 <= i < |Fields|
      ensures Lookup(data + extra, Key(Fields[i])) == Lookup(data, Key(Fields[i]))
      ensures Lookup(stripped, Key(Fields[i])) == Lookup(data, Key(Fields[i]))
    {
      AllFieldsListed(Fields[i]);
    }
    ErrorsOfDependOnlyOnFields(Fields, data + extra, data);
    ErrorsOfDependOnlyOnFields(Fields, data, stripped);
  }

  /** Valid required fields and absent optional fields: no errors at all. */
  lemma RequiredFieldsSuffice(data: FormRecord)
    requires "businessName" in data && Utf16Length(data["businessName"]) >= 2
    requires "address" in data && Utf16Length(data["address"]) >= 5
    requires "city" in data && Utf16Length(data["city"]) >= 2
    requires "state" in data && data["state"] in UsStates
    requires "contractEndDate" !in data && "estimatedMonthlyBill" !in data
    ensures ValidateForm(data) == Valid(data)
  {
    forall f ensures FieldErrors(f, Lookup(data, Key(f))) == [] {
      match f
      case BusinessName => BusinessNameRule(Lookup(data, Key(f)));
      case Address => AddressRule(Lookup(data, Key(f)));
      case City => CityRule(Lookup(data, Key(f)));
      case State => StateRule(Lookup(data, Key(f)));
      case CurrentProvider => CurrentProviderRule(Lookup(data, Key(f)));
      case ContractEndDate =>
      case EstimatedMonthlyBill =>
    }
    ValidateAllEmptyIff(data);
  }

  /** Under `.strict()` a record holding a contract end date or a monthly bill
      is never valid, whatever the string says: each is a type error. */
  lemma DateOrBillNeverValid(data: FormRecord)
    requires "contractEndDate" in data || "estimatedMonthlyBill" in data
    ensures ValidateForm(data).Invalid?
    ensures "contractEndDate" in data ==> FieldError(ContractEndDate, TypeErrorMessage("contractEndDate", "date")) in ValidateAll(data)
    ensures "estimatedMonthlyBill" in data
        ==> FieldError(EstimatedMonthlyBill, TypeErrorMessage("estimatedMonthlyBill", "number")) in ValidateAll(data)
  {
    ValidateAllReportsEveryFailure(data);
    ContractEndDateRule(Lookup(data, "contractEndDate"), Environment(0, s => None, s => None));
    EstimatedMonthlyBillRule(Lookup(data, "estimatedMonthlyBill"), Environment(0, s => None, s => None));
    if "contractEndDate" in data {
      assert FieldError(ContractEndDate, TypeErrorMessage("contractEndDate", "date")) in ValidateAll(data);
    } else {
      assert FieldError(EstimatedMonthlyBill, TypeErrorMessage("estimatedMonthlyBill", "number")) in ValidateAll(data);
    }
  }

  /** `{ businessName: "A" }` reports the length message for `businessName`. */
  lemma ShortBusinessNameReported()
    ensures FieldError(BusinessName, "Business name must be at least 2 characters") in ValidateAll(map["businessName" := "A"])
  {
    var data := map["businessName" := "A"];
    ValidateAllReportsEveryFailure(data);
    BusinessNameRule(Lookup(data, "businessName"));
  }

  /** A one-emoji business name has `.length` 2 and passes; so does an
      address of one letter and two emoji, whose `.length` is 5. */
  lemma SurrogatePairsCountTwice()
    ensures Utf16Length("\U{1F600}") == 2 && FieldErrors(BusinessName, Some("\U{1F600}")) == []
    ensures Utf16Length("a\U{1F600}\U{1F600}") == 5 && FieldErrors(Address, Some("a\U{1F600}\U{1F600}")) == []
  {
    assert "\U{1F600}"[1..] == [];
    assert "a\U{1F600}\U{1F600}"[1..] == "\U{1F600}\U{1F600}";
    assert "\U{1F600}\U{1F600}"[1..] == "\U{1F600}";
    BusinessNameRule(Some("\U{1F600}"));
    AddressRule(Some("a\U{1F600}\U{1F600}"));
  }

  /** As the list stands, "TX" is reported as an invalid state, like "ZZ"
      and like the empty string, and with no other message for the field. */
  lemma TexasRejectedAsWritten(data: FormRecord)
    requires "state" in data && (data["state"] == "TX" || data["state"] == "ZZ" || data["state"] == "")
    ensures FieldError(State, "Please select a valid state") in ValidateAll(data)
    ensures forall e :: e in ValidateAll(data) && e.path == State ==> e.message == "Please select a valid state"
  {
    ValidateAllReportsEveryFailure(data);
    StateRule(Lookup(data, "state"));
  }
}
