/** The two handlers of handlers/auth.go. */
module AuthHandler {
  import opened Common
  import opened Models
  import opened Http

  /** `POST /auth/register`. */
  function RegisterUser(body: Bind<RegisterForm>, service: RegisterForm -> Outcome): (x: Exchange<RegisterForm>)
    ensures body.BindError? ==>
      x == Exchange(Response(StatusBadRequest, ErrorBody("Invalid input: " + body.error)), None)
    ensures body.Bound? ==> x.call == Some(body.value)
    ensures x.response.status == StatusCreated <==> body.Bound? && service(body.value).Pass?
    ensures x.response.status == StatusCreated ==> x.response.body == MessageBody("User registered successfully")
    ensures body.Bound? && service(body.value).Fail? ==>
      x.response == Response(StatusInternalServerError, ErrorBody("Failed to register user: " + service(body.value).error))
  {
    match body
    case BindError(e) => Exchange(Response(StatusBadRequest, ErrorBody("Invalid input: " + e)), None)
    case Bound(form) =>
      match service(form)
      case Fail(e) => Exchange(Response(StatusInternalServerError, ErrorBody("Failed to register user: " + e)), Some(form))
      case Pass => Exchange(Response(StatusCreated, MessageBody("User registered successfully")), Some(form))
  }

  /** `POST /auth/login`: every service error is a 401, whatever its cause. */
  function AuthenticateUser(body: Bind<UserAuthenticate>, service: UserAuthenticate -> Result<string>): (x: Exchange<UserAuthenticate>)
    ensures body.BindError? ==>
      x == Exchange(Response(StatusBadRequest, ErrorBody("Invalid input: " + body.error)), None)
    ensures body.Bound? ==> x.call == Some(body.value)
    ensures x.response.status == StatusOK <==> body.Bound? && service(body.value).Ok?
    ensures x.response.status == StatusOK ==> x.response.body == TokenBody(service(body.value).value)
    ensures body.Bound? && service(body.value).Err? ==>
      x.response == Response(StatusUnauthorized, ErrorBody("Authentication failed: " + service(body.value).error))
  {
    match body
    case BindError(e) => Exchange(Response(StatusBadRequest, ErrorBody("Invalid input: " + e)), None)
    case Bound(input) =>
      match service(input)
      case Err(e) => Exchange(Response(StatusUnauthorized, ErrorBody("Authentication failed: " + e)), Some(input))
      case Ok(token) => Exchange(Response(StatusOK, TokenBody(token)), Some(input))
  }
}
