/** What the Express handlers receive from the authentication middleware and send back. */
module Http {
  import opened Store

  /** The caller as the authentication middleware resolves it from the bearer token (`req.user`). */
  datatype Caller = Caller(userId: UserId, role: Role)

  /** The request fields the validator checks. */
  datatype Field = TitleField | DescriptionField | CategoryField | PriorityField | StatusField | NameField

  /** One entry of the validator's `errors.array()`: the offending field and its message. */
  datatype FieldError = FieldError(field: Field, msg: string)

  /** A JSON response body. */
  datatype Body<T> =
    | Data(value: T)                      // the value itself, `res.json(value)`
    | Done(message: string, value: T)     // `{ message, complaint }` or `{ message, user }`
    | Errors(errors: seq<FieldError>)     // `{ errors: [...] }`
    | Message(text: string)               // `{ message }`

  datatype Response<T> = Response(status: int, body: Body<T>)

  const InternalError: string := "Internal server error"
}
