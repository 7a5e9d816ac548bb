/** The form store's state and its action alphabet. */
module FormTypes {
  import opened JsValues

  /** A form record: field name to string value. */
  type FormRecord = map<string, string>

  /** `{ formData, loading, error }` */
  datatype FormState = FormState(formData: FormRecord, loading: bool, error: Option<string>)

  /** The five reducer actions, each with its payload. */
  datatype FormAction =
    | SetField(field: string, value: string)
    | SetLoading(on: bool)
    | SetError(message: Option<string>)
    | SetInitialData(data: FormRecord)
    | ResetForm

  /** `data[key]`: the value stored under `key`, or undefined. */
  function Lookup(data: FormRecord, key: string): (r: Option<string>)
    ensures r.Some? <==> key in data
    ensures r.Some? ==> r.value == data[key]
  {
    if key in data then Some(data[key]) else None
  }
}
