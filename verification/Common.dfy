/** Types every table module shares. */
module Common {

  type Id = nat

  datatype Option<+T> = None | Some(value: T)

  /** What a view answers: 2xx, or the exception the service raised. */
  datatype Reply = Accepted | Refused(error: Error)

  datatype Error =
    | Invalid             // 400
    | NotFound            // 404
    | Unauthorized        // 401
    | Forbidden           // 403
    | Conflict            // 409
    | PreconditionFailed  // 412
    | Unprocessable       // 422
    | ServerError         // an exception nobody maps: 500
}
