/** The result of one axios request, given to the model as an input. */
module Http {
  import opened Js

  /** The body of an error response: `error.response.data`, whose `message` may be absent. */
  datatype ErrorBody = ErrorBody(message: Option<string>)

  /** A rejected request: `error.message`, and `error.response` when the server answered. */
  datatype HttpError = HttpError(message: string, response: Option<ErrorBody>)

  /** A resolved request carries `response.data`; a rejected one carries the error. */
  datatype Outcome<+T> = Ok(data: T) | Fail(error: HttpError)
}
