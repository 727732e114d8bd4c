/** What a handler writes: one status and one JSON object. Request binding is
    reduced to its outcome, and a handler's call into its service is recorded
    next to the response, so that contracts can say whether the service was
    called and with what. */
module Http {
  import opened Common
  import opened Models

  /** The JSON bodies the handlers and the middleware write, by their one
      key. */
  datatype Body =
    | ErrorBody(error: string)
    | UserBody(user: UserResponse)
    | UsersBody(users: seq<UserResponse>)
    | MessageBody(message: string)
    | TokenBody(token: string)

  datatype Response = Response(status: int, body: Body)

  /** The outcome of `ShouldBindJSON`: the bound value or the binding
      error's message. */
  datatype Bind<T> = Bound(value: T) | BindError(error: string)

  /** A handler's response and the argument its service was called with;
      `None` when the service was not called. */
  datatype Exchange<A> = Exchange(response: Response, call: Option<A>)

  const StatusOK: int := 200
  const StatusCreated: int := 201
  const StatusNoContent: int := 204
  const StatusBadRequest: int := 400
  const StatusUnauthorized: int := 401
  const StatusNotFound: int := 404
  const StatusInternalServerError: int := 500
}
