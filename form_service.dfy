/** The form service: how a gateway response becomes a value or a thrown
    error, and the client-side required-field check. The network calls
    themselves are inputs (their responses), not modelled. */
module FormService {
  import opened JsValues
  import opened Api
  import opened FormTypes

  /** The submission endpoint's payload `{ success, message }`; the message
      may be absent from the JSON body. */
  datatype FormResponse = FormResponse(success: bool, message: Option<string>)

  const SubmissionFailed: string := "Submission failed"

  /** The fields `validateFormData` requires, in the order it checks them. */
  const RequiredFields: seq<string> := ["name", "email"]

  /** `fetchInitialData`: a truthy transport error is rethrown as an `Error`
      with that message; otherwise the fetched record, or `{}` for null data. */
  function FetchInitialData(response: ApiResponse<FormRecord>): (r: Settled<FormRecord>)
    ensures r.Rejected? <==> Truthy(response.error)
    ensures r.Rejected? ==> r.reason == ErrorObject(response.error.value)
    ensures r.Resolved? && response.data.Some? ==> r.value == response.data.value
    ensures r.Resolved? && response.data.None? ==> r.value == map[]
  {
    if Truthy(response.error) then Rejected(ErrorObject(response.error.value))
    else if response.data.Some? then Resolved(response.data.value)
    else Resolved(map[])
  }

  /** `submit`: the transport error first, then the payload's `success` flag. */
  function Submit(response: ApiResponse<FormResponse>): (r: Settled<()>)
    ensures r.Resolved? <==> !Truthy(response.error) && response.data.Some? && response.data.value.success
    ensures r.Rejected? ==> r.reason.ErrorObject?
  {
    if Truthy(response.error) then
      Rejected(ErrorObject(response.error.value))
    else if !(response.data.Some? && response.data.value.success) then
      var message := if response.data.Some? then response.data.value.message else None;
      Rejected(ErrorObject(OrElse(message, SubmissionFailed)))
    else
      Resolved(())
  }

  /** The first field of `fields` that `data` leaves missing or empty, as
      "<field> is required", or None when every field is filled in. */
  function FirstMissing(data: FormRecord, fields: seq<string>): (r: Option<string>)
    ensures r.None? <==> forall i :: 0 <= i < |fields| ==> Truthy(Lookup(data, fields[i]))
    ensures r.Some? ==> exists i :: 0 <= i < |fields| && !Truthy(Lookup(data, fields[i]))
                                    && r.value == fields[i] + " is required"
                                    && forall j :: 0 <= j < i ==> Truthy(Lookup(data, fields[j]))
  {
    if fields == [] then None
    else if !Truthy(Lookup(data, fields[0])) then Some(fields[0] + " is required")
    else
      var rest := FirstMissing(data, fields[1..]);
      assert rest.Some? ==> exists i :: 1 <= i < |fields| && !Truthy(Lookup(data, fields[i]))
                                        && rest.value == fields[i] + " is required"
                                        && forall j :: 0 <= j < i ==> Truthy(Lookup(data, fields[j])) by {
        if rest.Some? {
          var k :| 0 <= k < |fields[1..]| && !Truthy(Lookup(data, fields[1..][k]))
                   && rest.value == fields[1..][k] + " is required"
                   && forall j :: 0 <= j < k ==> Truthy(Lookup(data, fields[1..][j]));
          assert fields[k + 1] == fields[1..][k];
          forall j | 0 <= j < k + 1 ensures Truthy(Lookup(data, fields[j])) {
            if j > 0 { assert fields[j] == fields[1..][j - 1]; }
          }
        }
      }
      rest
  }

  /** `validateFormData`: null iff `name` and `email` are both present and
      non-empty; otherwise the message for the first one missing. */
  function ValidateFormData(data: FormRecord): (r: Option<string>)
    ensures r.None? <==> Truthy(Lookup(data, "name")) && Truthy(Lookup(data, "email"))
    ensures !Truthy(Lookup(data, "name")) ==> r == Some("name is required")
    ensures Truthy(Lookup(data, "name")) && !Truthy(Lookup(data, "email")) ==> r == Some("email is required")
  {
    var r := FirstMissing(data, RequiredFields);
    assert |RequiredFields| == 2 && RequiredFields[0] == "name" && RequiredFields[1] == "email";
    assert r.Some? ==> r.value == if Truthy(Lookup(data, "name")) then "email is required" else "name is required" by {
      if r.Some? {
        var i :| 0 <= i < |RequiredFields| && !Truthy(Lookup(data, RequiredFields[i]))
                 && r.value == RequiredFields[i] + " is required"
                 && forall j :: 0 <= j < i ==> Truthy(Lookup(data, RequiredFields[j]));
        if i == 1 { assert Truthy(Lookup(data, RequiredFields[0])); }
      }
    }
    r
  }

  /** A truthy transport error decides the outcome whatever the payload says. */
  lemma SubmitIgnoresPayloadOnTransportError(first: Option<FormResponse>, second: Option<FormResponse>, error: Option<string>)
    requires Truthy(error)
    ensures Submit(ApiResponse(first, error)) == Submit(ApiResponse(second, error)) == Rejected(ErrorObject(error.value))
  {
  }

  /** A `success: false` payload fails with its message, or with the generic
      message when that is empty or absent. */
  lemma SubmitRejectedPayload(response: ApiResponse<FormResponse>)
    requires !Truthy(response.error) && response.data.Some? && !response.data.value.success
    ensures Truthy(response.data.value.message) ==> Submit(response) == Rejected(ErrorObject(response.data.value.message.value))
    ensures !Truthy(response.data.value.message) ==> Submit(response) == Rejected(ErrorObject(SubmissionFailed))
  {
  }

  /** No payload and no (truthy) error: the generic failure. */
  lemma SubmitEmptyResponse(response: ApiResponse<FormResponse>)
    requires !Truthy(response.error) && response.data.None?
    ensures Submit(response) == Rejected(ErrorObject(SubmissionFailed))
  {
  }
}
