/** The form store: a reducer over the five actions, and the provider that
    holds the reducer's state and drives it with fixed sequences of
    dispatches for the mount-time fetch and for submission. */
module FormProvider {
  import opened JsValues
  import opened Api
  import opened FormTypes
  import FormService

  /** The state the store starts in and `RESET_FORM` returns to. */
  const InitialState: FormState := FormState(map[], false, None)

  const LoadFailedMessage: string := "Failed to load initial data"

  /** `formReducer`. */
  function Reduce(state: FormState, action: FormAction): (r: FormState)
    ensures action.ResetForm? ==> r == InitialState
    ensures r.loading != state.loading ==> action.SetLoading? || action.ResetForm?
    ensures r.error != state.error ==> action.SetField? || action.SetError? || action.ResetForm?
    ensures r.formData != state.formData ==> action.SetField? || action.SetInitialData? || action.ResetForm?
    ensures state.formData.Keys <= r.formData.Keys || action.SetInitialData? || action.ResetForm?
  {
    match action
    case SetField(field, value) => state.(formData := state.formData[field := value], error := None)
    case SetLoading(on) => state.(loading := on)
    case SetError(message) => state.(error := message)
    case SetInitialData(data) => state.(formData := data)
    case ResetForm => InitialState
  }

  /** The state after dispatching `actions` in order. */
  function Run(state: FormState, actions: seq<FormAction>): (r: FormState)
    ensures (forall i :: 0 <= i < |actions| ==> !actions[i].SetLoading? && !actions[i].ResetForm?) ==> r.loading == state.loading
    ensures actions != [] && actions[|actions| - 1] == SetLoading(false) ==> !r.loading
    ensures (forall i :: 0 <= i < |actions| ==> actions[i].SetField?) ==> state.formData.Keys <= r.formData.Keys
    decreases |actions|
  {
    if actions == [] then state
    else
      assert forall i :: 1 <= i < |actions| ==> actions[1..][i - 1] == actions[i];
      Run(Reduce(state, actions[0]), actions[1..])
  }

  /** The message the provider stores for a rejected submission: an
      `Error`'s own message, and the generic failure message for anything else. */
  function FailureMessage(reason: Thrown): (r: string)
    ensures reason.ErrorObject? ==> r == reason.message
    ensures reason.OtherValue? ==> r == FormService.SubmissionFailed
  {
    match reason
    case ErrorObject(message) => message
    case OtherValue => FormService.SubmissionFailed
  }

  /** The dispatches `submitForm` makes for a given outcome of the service call:
      loading on, then reset or the error, then (finally) loading off. */
  function SubmitActions(outcome: Settled<()>): (r: seq<FormAction>)
    ensures |r| == 3 && r[0] == SetLoading(true) && r[|r| - 1] == SetLoading(false)
    ensures ResetForm in r <==> outcome.Resolved?
    ensures outcome.Rejected? ==> SetError(Some(FailureMessage(outcome.reason))) in r
    ensures forall a :: a in r ==> !a.SetField? && !a.SetInitialData?
  {
    [SetLoading(true)]
    + (if outcome.Resolved? then [ResetForm] else [SetError(Some(FailureMessage(outcome.reason)))])
    + [SetLoading(false)]
  }

  /** The dispatches of the mount-time `fetchInitialData` effect. */
  function MountActions(outcome: Settled<FormRecord>): (r: seq<FormAction>)
    ensures |r| == 3 && r[0] == SetLoading(true) && r[|r| - 1] == SetLoading(false)
    ensures outcome.Resolved? ==> SetInitialData(outcome.value) in r
    ensures SetError(Some(LoadFailedMessage)) in r <==> outcome.Rejected?
    ensures forall a :: a in r ==> !a.SetField? && !a.ResetForm?
  {
    [SetLoading(true)]
    + (if outcome.Resolved? then [SetInitialData(outcome.value)] else [SetError(Some(LoadFailedMessage))])
    + [SetLoading(false)]
  }

  // ---- Frame conditions of the reducer, action by action ----

  /** SET_FIELD writes the one key, keeps every other key, clears the error
      and leaves `loading` alone. */
  lemma SetFieldFrame(state: FormState, field: string, value: string)
    ensures var next := Reduce(state, SetField(field, value));
      && field in next.formData && next.formData[field] == value
      && next.formData.Keys == state.formData.Keys + {field}
      && (forall k :: k in state.formData && k != field ==> next.formData[k] == state.formData[k])
      && next.error == None
      && next.loading == state.loading
  {
  }

  /** SET_LOADING changes only `loading`; SET_ERROR changes only `error`. */
  lemma LoadingAndErrorFrame(state: FormState, on: bool, message: Option<string>)
    ensures Reduce(state, SetLoading(on)) == FormState(state.formData, on, state.error)
    ensures Reduce(state, SetError(message)) == FormState(state.formData, state.loading, message)
  {
  }

  /** SET_INITIAL_DATA replaces the record wholesale and keeps the flags. */
  lemma SetInitialDataFrame(state: FormState, data: FormRecord)
    ensures Reduce(state, SetInitialData(data)) == FormState(data, state.loading, state.error)
  {
  }

  /** RESET_FORM reaches the initial state from anywhere, and is idempotent. */
  lemma ResetFromAnyState(state: FormState)
    ensures Reduce(state, ResetForm) == FormState(map[], false, None)
    ensures Reduce(Reduce(state, ResetForm), ResetForm) == Reduce(state, ResetForm)
  {
  }

  /** Of two SET_FIELDs on one key, the last value wins. */
  lemma SetFieldLastWins(state: FormState, field: string, first: string, second: string)
    ensures Reduce(Reduce(state, SetField(field, first)), SetField(field, second))
         == Reduce(state, SetField(field, second))
  {
  }

  /** SET_FIELDs on distinct keys commute. */
  lemma SetFieldsCommute(state: FormState, k1: string, v1: string, k2: string, v2: string)
    requires k1 != k2
    ensures Reduce(Reduce(state, SetField(k1, v1)), SetField(k2, v2))
         == Reduce(Reduce(state, SetField(k2, v2)), SetField(k1, v1))
  {
  }

  // ---- Dispatch sequences ----

  /** Dispatching a concatenation is dispatching its halves in turn. */
  lemma {:induction false} RunConcat(state: FormState, first: seq<FormAction>, second: seq<FormAction>)
    ensures Run(state, first + second) == Run(Run(state, first), second)
    decreases |first|
  {
    if first == [] {
      assert first + second == second;
    } else {
      assert (first + second)[0] == first[0];
      assert (first + second)[1..] == first[1..] + second;
      RunConcat(Reduce(state, first[0]), first[1..], second);
    }
  }

  /** Three dispatches in a row. */
  lemma RunThree(state: FormState, a: FormAction, b: FormAction, c: FormAction)
    ensures Run(state, [a] + [b] + [c]) == Reduce(Reduce(Reduce(state, a), b), c)
  {
    var s := [a] + [b] + [c];
    assert s[0] == a && s[1..] == [b, c] && [b, c][1..] == [c] && [c][1..] == [];
    var s1 := Reduce(state, a);
    var s2 := Reduce(s1, b);
    assert Run(s2, [c]) == Reduce(s2, c);
    assert Run(s1, [b, c]) == Run(s2, [c]);
    assert Run(state, s) == Run(s1, [b, c]);
  }

  /** A successful submission ends in exactly the initial state. */
  lemma SubmitSucceeded(state: FormState)
    ensures Run(state, SubmitActions(Resolved(()))) == FormState(map[], false, None)
  {
    RunThree(state, SetLoading(true), ResetForm, SetLoading(false));
  }

  /** A failed submission keeps the record, stores the failure message and
      ends with `loading` off. */
  lemma SubmitFailed(state: FormState, reason: Thrown)
    ensures Run(state, SubmitActions(Rejected(reason)))
         == FormState(state.formData, false, Some(FailureMessage(reason)))
    ensures reason.OtherValue? ==> Run(state, SubmitActions(Rejected(reason))).error == Some("Submission failed")
  {
    RunThree(state, SetLoading(true), SetError(Some(FailureMessage(reason))), SetLoading(false));
  }

  /** While the submission is in flight, `loading` is on and the previous
      error is still shown: nothing clears it before the outcome is known. */
  lemma SubmitInFlight(state: FormState)
    ensures Run(state, SubmitActions(Resolved(()))[..1]) == FormState(state.formData, true, state.error)
  {
    assert SubmitActions(Resolved(()))[..1] == [SetLoading(true)];
  }

  /** The mount fetch: the fetched record on success, the load-failure
      message and an untouched record on failure; `loading` off either way. */
  lemma MountOutcome(state: FormState, outcome: Settled<FormRecord>)
    ensures outcome.Resolved? ==> Run(state, MountActions(outcome)) == FormState(outcome.value, false, state.error)
    ensures outcome.Rejected? ==> Run(state, MountActions(outcome)) == FormState(state.formData, false, Some("Failed to load initial data"))
  {
    if outcome.Resolved? {
      RunThree(state, SetLoading(true), SetInitialData(outcome.value), SetLoading(false));
    } else {
      RunThree(state, SetLoading(true), SetError(Some(LoadFailedMessage)), SetLoading(false));
    }
  }

  /** The whole-provider view of the mount fetch, response to final state. */
  lemma MountFromResponse(state: FormState, response: ApiResponse<FormRecord>)
    ensures var final := Run(state, MountActions(FormService.FetchInitialData(response)));
      && !final.loading
      && (Truthy(response.error) ==> final.formData == state.formData && final.error == Some("Failed to load initial data"))
      && (!Truthy(response.error) && response.data.Some? ==> final.formData == response.data.value && final.error == state.error)
      && (!Truthy(response.error) && response.data.None? ==> final.formData == map[] && final.error == state.error)
  {
    MountOutcome(state, FormService.FetchInitialData(response));
  }

  /** Every rejection `FormService.submit` produces is an `Error`, so the
      stored message is the transport or payload message, never the
      provider's own non-Error fallback by that route. */
  lemma SubmitFromResponse(state: FormState, response: ApiResponse<FormService.FormResponse>)
    ensures var outcome := FormService.Submit(response);
            var final := Run(state, SubmitActions(outcome));
      && !final.loading
      && (outcome.Resolved? ==> final == InitialState)
      && (outcome.Rejected? ==> final.formData == state.formData && final.error == Some(outcome.reason.message))
  {
    var outcome := FormService.Submit(response);
    if outcome.Resolved? { SubmitSucceeded(state); } else { SubmitFailed(state, outcome.reason); }
  }

  /** The provider: the state `useReducer` holds, and the operations that
      dispatch into it. */
  class FormStore {
    var state: FormState

    constructor()
      ensures state == InitialState
    {
      state := InitialState;
    }

    /** `dispatch`: one reducer step. */
    method Dispatch(action: FormAction)
      modifies this
      ensures state == Reduce(old(state), action)
    {
      state := Reduce(state, action);
    }

    /** `setField`. */
    method SetField(field: string, value: string)
      modifies this
      ensures state == Reduce(old(state), FormAction.SetField(field, value))
      ensures state.formData == old(state.formData)[field := value] && state.error == None
      ensures state.loading == old(state.loading)
    {
      Dispatch(FormAction.SetField(field, value));
    }

    /** The mount-time effect, given the response of `GET /form/initial-data`. */
    method FetchInitialDataOnMount(response: ApiResponse<FormRecord>)
      modifies this
      ensures state == Run(old(state), MountActions(FormService.FetchInitialData(response)))
      ensures !state.loading
      ensures Truthy(response.error) ==> state.formData == old(state.formData) && state.error == Some(LoadFailedMessage)
      ensures !Truthy(response.error) ==> state.error == old(state.error)
    {
      ghost var start := state;
      Dispatch(SetLoading(true));
      var outcome := FormService.FetchInitialData(response);
      match outcome {
        case Resolved(data) => Dispatch(SetInitialData(data));
        case Rejected(_) => Dispatch(SetError(Some(LoadFailedMessage)));
      }
      Dispatch(SetLoading(false));
      MountOutcome(start, outcome);
    }

    /** `submitForm`, given the gateway as a function from the posted record
        to its response: the record posted is the one held when the
        submission starts, and the promise settles as the service call did. */
    method SubmitForm(post: FormRecord -> ApiResponse<FormService.FormResponse>) returns (settled: Settled<()>)
      modifies this
      ensures settled == FormService.Submit(post(old(state.formData)))
      ensures state == Run(old(state), SubmitActions(settled))
      ensures settled.Resolved? ==> state == InitialState
      ensures settled.Rejected? ==> state == FormState(old(state.formData), false, Some(FailureMessage(settled.reason)))
    {
      ghost var start := state;
      var body := state.formData;
      Dispatch(SetLoading(true));
      var outcome := FormService.Submit(post(body));
      if outcome.Resolved? {
        Dispatch(ResetForm);
      } else {
        Dispatch(SetError(Some(FailureMessage(outcome.reason))));
      }
      Dispatch(SetLoading(false));
      settled := outcome;
      if settled.Resolved? { SubmitSucceeded(start); } else { SubmitFailed(start, settled.reason); }
    }
  }
}
