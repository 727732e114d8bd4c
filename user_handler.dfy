/** The five handlers of handlers/user.go. Each is an early-return chain:
    path id, then request body, then the service's result. The service is a
    parameter; only its result is seen here. */
module UserHandler {
  import opened Common
  import opened Models
  import opened Strconv
  import opened Http

  /** The `:id` path parameter: present, then an `int` by `strconv.Atoi`.
      Accepted ids are exactly the decimal literals with an optional sign
      whose value fits in an `int64`, and the id is that value. */
  function ParseId(idStr: string): (r: Result<int>)
    ensures idStr == [] ==> r == Err("User ID is required")
    ensures r.Ok? <==> IsIntegerLiteral(idStr) && MinInt64 <= LiteralValue(idStr) <= MaxInt64
    ensures r.Ok? ==> r.value == LiteralValue(idStr)
    ensures idStr != [] && r.Err? ==> Atoi(idStr).Err? && r.error == "Invalid user ID: " + Atoi(idStr).error
    ensures idStr != [] && r.Err? ==> "Invalid user ID: " + AtoiPrefix(idStr) <= r.error
  {
    AtoiSpec(idStr);
    if idStr == [] then Err("User ID is required")
    else match Atoi(idStr)
      case Err(e) => Err("Invalid user ID: " + e)
      case Ok(n) => Ok(n)
  }

  /** Every `int64` printed in decimal is read back as itself. */
  lemma ParseIdFormatInt(n: int)
    requires MinInt64 <= n <= MaxInt64
    ensures ParseId(FormatInt(n)) == Ok(n)
  {
    AtoiFormatInt(n);
  }

  /** `POST /users`. */
  function CreateUser(body: Bind<RegisterForm>, service: RegisterForm -> Result<UserResponse>): (x: Exchange<RegisterForm>)
    ensures body.BindError? ==>
      x == Exchange(Response(StatusBadRequest, ErrorBody("Invalid input: " + body.error)), None)
    ensures body.Bound? ==> x.call == Some(body.value)
    ensures x.response.status == StatusCreated <==> body.Bound? && service(body.value).Ok?
    ensures x.response.status == StatusCreated ==> x.response.body == UserBody(service(body.value).value)
    ensures body.Bound? && service(body.value).Err? ==>
      x.response == Response(StatusInternalServerError, ErrorBody("Failed to create user: " + service(body.value).error))
  {
    match body
    case BindError(e) => Exchange(Response(StatusBadRequest, ErrorBody("Invalid input: " + e)), None)
    case Bound(form) =>
      match service(form)
      case Err(e) => Exchange(Response(StatusInternalServerError, ErrorBody("Failed to create user: " + e)), Some(form))
      case Ok(user) => Exchange(Response(StatusCreated, UserBody(user)), Some(form))
  }

  /** `GET /users/:id`: every service error is a 404. */
  function GetUserByID(idStr: string, service: int -> Result<UserResponse>): (x: Exchange<int>)
    ensures ParseId(idStr).Err? ==> x == Exchange(Response(StatusBadRequest, ErrorBody(ParseId(idStr).error)), None)
    ensures ParseId(idStr).Ok? ==> x.call == Some(LiteralValue(idStr))
    ensures x.response.status == StatusOK <==> ParseId(idStr).Ok? && service(ParseId(idStr).value).Ok?
    ensures x.response.status == StatusOK ==> x.response.body == UserBody(service(ParseId(idStr).value).value)
    ensures ParseId(idStr).Ok? && service(ParseId(idStr).value).Err? ==>
      x.response == Response(StatusNotFound, ErrorBody("User not found: " + service(ParseId(idStr).value).error))
  {
    match ParseId(idStr)
    case Err(e) => Exchange(Response(StatusBadRequest, ErrorBody(e)), None)
    case Ok(id) =>
      match service(id)
      case Err(e) => Exchange(Response(StatusNotFound, ErrorBody("User not found: " + e)), Some(id))
      case Ok(user) => Exchange(Response(StatusOK, UserBody(user)), Some(id))
  }

  /** `GET /users`, given what the service returned. */
  function GetAllUsers(result: Result<seq<UserResponse>>): (r: Response)
    ensures r.status == StatusOK <==> result.Ok?
    ensures result.Ok? ==> r.body == UsersBody(result.value)
    ensures result.Err? ==> r == Response(StatusInternalServerError, ErrorBody("Failed to retrieve users: " + result.error))
  {
    match result
    case Err(e) => Response(StatusInternalServerError, ErrorBody("Failed to retrieve users: " + e))
    case Ok(users) => Response(StatusOK, UsersBody(users))
  }

  /** `PUT /users/:id`: the id is checked before the body. */
  function UpdateUser(idStr: string, body: Bind<UserUpdate>, service: (int, UserUpdate) -> Result<UserResponse>): (x: Exchange<(int, UserUpdate)>)
    ensures ParseId(idStr).Err? ==> x == Exchange(Response(StatusBadRequest, ErrorBody(ParseId(idStr).error)), None)
    ensures ParseId(idStr).Ok? && body.BindError? ==>
      x == Exchange(Response(StatusBadRequest, ErrorBody("Invalid input : " + body.error)), None)
    ensures x.call.Some? <==> ParseId(idStr).Ok? && body.Bound?
    ensures x.call.Some? ==> x.call.value == (LiteralValue(idStr), body.value)
    ensures x.response.status == StatusOK <==>
      ParseId(idStr).Ok? && body.Bound? && service(ParseId(idStr).value, body.value).Ok?
    ensures x.response.status == StatusOK ==> x.response.body == UserBody(service(ParseId(idStr).value, body.value).value)
    ensures ParseId(idStr).Ok? && body.Bound? && service(ParseId(idStr).value, body.value).Err? ==>
      x.response == Response(StatusInternalServerError, ErrorBody("Failed to update user: " + service(ParseId(idStr).value, body.value).error))
  {
    match ParseId(idStr)
    case Err(e) => Exchange(Response(StatusBadRequest, ErrorBody(e)), None)
    case Ok(id) =>
      match body
      case BindError(e) => Exchange(Response(StatusBadRequest, ErrorBody("Invalid input : " + e)), None)
      case Bound(dto) =>
        match service(id, dto)
        case Err(e) => Exchange(Response(StatusInternalServerError, ErrorBody("Failed to update user: " + e)), Some((id, dto)))
        case Ok(user) => Exchange(Response(StatusOK, UserBody(user)), Some((id, dto)))
  }

  /** `DELETE /users/:id`. */
  function DeleteUser(idStr: string, service: int -> Outcome): (x: Exchange<int>)
    ensures ParseId(idStr).Err? ==> x == Exchange(Response(StatusBadRequest, ErrorBody(ParseId(idStr).error)), None)
    ensures ParseId(idStr).Ok? ==> x.call == Some(LiteralValue(idStr))
    ensures x.response.status == StatusNoContent <==> ParseId(idStr).Ok? && service(ParseId(idStr).value).Pass?
    ensures x.response.status == StatusNoContent ==> x.response.body == MessageBody("User deleted successfully")
    ensures ParseId(idStr).Ok? && service(ParseId(idStr).value).Fail? ==>
      x.response == Response(StatusInternalServerError, ErrorBody("Failed to delete user: " + service(ParseId(idStr).value).error))
  {
    match ParseId(idStr)
    case Err(e) => Exchange(Response(StatusBadRequest, ErrorBody(e)), None)
    case Ok(id) =>
      match service(id)
      case Fail(e) => Exchange(Response(StatusInternalServerError, ErrorBody("Failed to delete user: " + e)), Some(id))
      case Pass => Exchange(Response(StatusNoContent, MessageBody("User deleted successfully")), Some(id))
  }

  /** A path holding the decimal form of an `int64` reaches the service with
      exactly that integer, for every handler that takes an id. */
  lemma ServiceGetsPathId(n: int, get: int -> Result<UserResponse>, delete: int -> Outcome,
                          body: UserUpdate, update: (int, UserUpdate) -> Result<UserResponse>)
    requires MinInt64 <= n <= MaxInt64
    ensures GetUserByID(FormatInt(n), get).call == Some(n)
    ensures DeleteUser(FormatInt(n), delete).call == Some(n)
    ensures UpdateUser(FormatInt(n), Bound(body), update).call == Some((n, body))
  {
    ParseIdFormatInt(n);
  }
}
