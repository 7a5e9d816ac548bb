/** The uniform result shape of the HTTP gateway (`ApiResponse<T>`). The
    request itself, its timeout and its transport are not modelled: a
    response is an input to the operations that consume it. */
module Api {
  import opened JsValues

  /** A nullable payload and a nullable error message. */
  datatype ApiResponse<+T> = ApiResponse(data: Option<T>, error: Option<string>)
}
