/** Whole request flows on a fresh database, wired as the program wires its
    layers: both repositories share one database handle, each service wraps
    one repository, and the handlers and the middleware see the services'
    results. Each flow is stated for every registration form, every bcrypt
    and every JWT helper satisfying the stated assumptions. The flows marked
    "as written" show the three defects of the source; the others run the
    corrected operations and show the behaviour the design promises. */
module Scenarios {
  import opened Common
  import opened Models
  import opened Crypto
  import opened Mongo
  import opened Repositories
  import opened Services
  import opened Http
  import opened Middleware
  import UserHandler
  import AuthHandler
  import Strconv

  /** As written: a user registered through `POST /auth/register` can never
      log in with the password they registered with, because what is stored
      is the hash of the hash. */
  method RegisterThenLogin(form: RegisterForm, bc: Bcrypt, jwt: Jwt, now: Time)
    returns (registered: Outcome, token: Result<string>, login: Response)
    requires bc.Binding() && bc.NoFixedPoint()
    ensures registered.Pass? <==> bc.hash(form.password).Ok? && bc.hash(bc.hash(form.password).value).Ok?
    ensures registered.Pass? ==> token.Err? && "authentication failed: " <= token.error
    ensures registered.Pass? ==> login.status == StatusUnauthorized
  {
    var db := new Database();
    var authRepo := new AuthRepository(db);
    var service := new AuthService(authRepo);
    var dto := new UserRegister(form);
    registered := service.RegisterUser(dto, bc, now, None, None);
    if registered.Pass? {
      var twice := bc.hash(bc.hash(form.password).value).value;
      assert db.users == [User(1, form.name, form.email, twice, now)];
      assert IndexOfEmail(db.users, form.email) == Some(0);
      assert bc.compare(twice, form.password).Some?;
    }
    var input := UserAuthenticate(form.email, form.password);
    token := service.AuthenticateUser(input, bc, jwt, None);
    login := AuthHandler.AuthenticateUser(Bound(input), _ => token).response;
  }

  /** Corrected: registration hashes once, so the registered password logs
      in, the token it yields passes the middleware as that user, and the
      user is listed by `GET /users`. */
  method RegisterOnceThenLogin(form: RegisterForm, bc: Bcrypt, jwt: Jwt, now: Time)
    returns (registered: Outcome, login: Response, verdict: Verdict)
    requires bc.Sound() && jwt.RoundTrip() && jwt.SpaceFree()
    ensures registered.Pass? <==> bc.hash(form.password).Ok?
    ensures registered.Pass? && jwt.generate(form.name, form.email).Ok? ==>
      && login == Response(StatusOK, TokenBody(jwt.generate(form.name, form.email).value))
      && verdict == Proceed(form.email, form.name)
  {
    var db := new Database();
    var authRepo := new AuthRepository(db);
    var auth := new AuthService(authRepo);
    var dto := new UserRegister(form);
    registered := auth.RegisterUserHashOnce(dto, bc, now, None, None);
    if registered.Pass? {
      assert db.users == [User(1, form.name, form.email, bc.hash(form.password).value, now)];
      assert IndexOfEmail(db.users, form.email) == Some(0);
    }
    var input := UserAuthenticate(form.email, form.password);
    var token := auth.AuthenticateUser(input, bc, jwt, None);
    if registered.Pass? && jwt.generate(form.name, form.email).Ok? {
      assert token == jwt.generate(form.name, form.email);
      IssuedTokenAccepted(jwt, form.name, form.email);
    }
    login := AuthHandler.AuthenticateUser(Bound(input), _ => token).response;
    verdict := Authenticate(if token.Ok? then "Bearer " + token.value else "", jwt.verify);
  }

  /** A registered user is listed by `GET /users`, without its password. */
  method RegisterThenList(form: RegisterForm, bc: Bcrypt, now: Time)
    returns (registered: Outcome, listed: Response)
    ensures registered.Pass? <==> bc.hash(form.password).Ok?
    ensures registered.Pass? ==> listed == Response(StatusOK, UsersBody([UserResponse(1, form.name, form.email, now)]))
    ensures registered.Fail? ==> listed == Response(StatusOK, UsersBody([]))
  {
    var db := new Database();
    var authRepo := new AuthRepository(db);
    var auth := new AuthService(authRepo);
    var userRepo := new UserRepository(db);
    var users := new UserService(userRepo);
    var dto := new UserRegister(form);
    registered := auth.RegisterUserHashOnce(dto, bc, now, None, None);
    var all := users.GetAllUsers(None);
    listed := UserHandler.GetAllUsers(all);
  }

  /** As written: a user created through `POST /users` cannot log in with
      the password it was created with. */
  method CreateThenLogin(form: RegisterForm, bc: Bcrypt, jwt: Jwt, now: Time)
    returns (created: Response, login: Response)
    requires bc.Binding() && bc.NoFixedPoint()
    ensures created.status == StatusCreated <==> bc.hash(form.password).Ok? && bc.hash(bc.hash(form.password).value).Ok?
    ensures created.status == StatusCreated ==>
      && created.body == UserBody(UserResponse(1, form.name, form.email, now))
      && login.status == StatusUnauthorized
  {
    var db := new Database();
    var userRepo := new UserRepository(db);
    var users := new UserService(userRepo);
    var authRepo := new AuthRepository(db);
    var auth := new AuthService(authRepo);
    var dto := new UserRegister(form);
    var r := users.CreateUser(dto, bc, now, None, None);
    if r.Ok? {
      var twice := bc.hash(bc.hash(form.password).value).value;
      assert db.users == [User(1, form.name, form.email, twice, now)];
      assert IndexOfEmail(db.users, form.email) == Some(0);
      assert bc.compare(twice, form.password).Some?;
    }
    created := UserHandler.CreateUser(Bound(form), _ => r).response;
    var input := UserAuthenticate(form.email, form.password);
    var token := auth.AuthenticateUser(input, bc, jwt, None);
    login := AuthHandler.AuthenticateUser(Bound(input), _ => token).response;
  }

  /** Corrected: a user created with a single hash logs in with its
      password. */
  method CreateOnceThenLogin(form: RegisterForm, bc: Bcrypt, jwt: Jwt, now: Time)
    returns (created: Response, login: Response)
    requires bc.Sound()
    ensures created.status == StatusCreated <==> bc.hash(form.password).Ok?
    ensures created.status == StatusCreated ==>
      && created.body == UserBody(UserResponse(1, form.name, form.email, now))
      && (jwt.generate(form.name, form.email).Ok? ==>
            login == Response(StatusOK, TokenBody(jwt.generate(form.name, form.email).value)))
  {
    var db := new Database();
    var userRepo := new UserRepository(db);
    var users := new UserService(userRepo);
    var authRepo := new AuthRepository(db);
    var auth := new AuthService(authRepo);
    var dto := new UserRegister(form);
    var r := users.CreateUserHashOnce(dto, bc, now, None, None);
    if r.Ok? {
      assert db.users == [User(1, form.name, form.email, bc.hash(form.password).value, now)];
      assert IndexOfEmail(db.users, form.email) == Some(0);
    }
    created := UserHandler.CreateUser(Bound(form), _ => r).response;
    var input := UserAuthenticate(form.email, form.password);
    var token := auth.AuthenticateUser(input, bc, jwt, None);
    login := AuthHandler.AuthenticateUser(Bound(input), _ => token).response;
  }

  /** The path "1" is the id 1. */
  lemma PathOne()
    ensures UserHandler.ParseId("1") == Ok(1)
  {
    UserHandler.ParseIdFormatInt(1);
    assert Strconv.FormatInt(1) == "1";
  }

  /** As written: after `PUT /users/1` the stored password is empty and the
      creation time is the zero time, so the user can no longer log in. */
  method UpdateThenLogin(form: RegisterForm, change: UserUpdate, bc: Bcrypt, jwt: Jwt, now: Time, later: Time)
    returns (updated: Response, fetched: Response, login: Response)
    requires bc.Sound() && bc.RejectsEmptyHash()
    ensures bc.hash(form.password).Ok? ==>
      && updated == Response(StatusOK, UserBody(UserResponse(1, change.name, change.email, later)))
      && fetched == Response(StatusOK, UserBody(UserResponse(1, change.name, change.email, ZeroTime)))
      && login.status == StatusUnauthorized
  {
    var db := new Database();
    var authRepo := new AuthRepository(db);
    var auth := new AuthService(authRepo);
    var userRepo := new UserRepository(db);
    var users := new UserService(userRepo);
    var dto := new UserRegister(form);
    var registered := auth.RegisterUserHashOnce(dto, bc, now, None, None);
    if registered.Pass? {
      assert IndexOfId(db.users, 1) == Some(0);
    }
    var r := users.UpdateUser(1, change, later, None);
    if registered.Pass? {
      assert db.users == [User(1, change.name, change.email, "", ZeroTime)];
      assert IndexOfEmail(db.users, change.email) == Some(0);
      assert bc.compare("", form.password).Some?;
    }
    PathOne();
    updated := UserHandler.UpdateUser("1", Bound(change), (_, _) => r).response;
    var got := users.GetUserByID(1, None);
    fetched := UserHandler.GetUserByID("1", _ => got).response;
    var input := UserAuthenticate(change.email, form.password);
    var token := auth.AuthenticateUser(input, bc, jwt, None);
    login := AuthHandler.AuthenticateUser(Bound(input), _ => token).response;
  }

  /** Corrected: updating name and email keeps the password and the
      creation time, so the user logs in with the new email. */
  method UpdateFieldsThenLogin(form: RegisterForm, change: UserUpdate, bc: Bcrypt, jwt: Jwt, now: Time, later: Time)
    returns (updated: Response, fetched: Response, login: Response)
    requires bc.Sound()
    ensures bc.hash(form.password).Ok? ==>
      && updated == Response(StatusOK, UserBody(UserResponse(1, change.name, change.email, later)))
      && fetched == Response(StatusOK, UserBody(UserResponse(1, change.name, change.email, now)))
      && (jwt.generate(change.name, change.email).Ok? ==>
            login == Response(StatusOK, TokenBody(jwt.generate(change.name, change.email).value)))
  {
    var db := new Database();
    var authRepo := new AuthRepository(db);
    var auth := new AuthService(authRepo);
    var userRepo := new UserRepository(db);
    var users := new UserService(userRepo);
    var dto := new UserRegister(form);
    var registered := auth.RegisterUserHashOnce(dto, bc, now, None, None);
    if registered.Pass? {
      assert IndexOfId(db.users, 1) == Some(0);
    }
    var r := users.UpdateUserFields(1, change, later, None);
    if registered.Pass? {
      assert db.users == [User(1, change.name, change.email, bc.hash(form.password).value, now)];
      assert IndexOfEmail(db.users, change.email) == Some(0);
    }
    PathOne();
    updated := UserHandler.UpdateUser("1", Bound(change), (_, _) => r).response;
    var got := users.GetUserByID(1, None);
    fetched := UserHandler.GetUserByID("1", _ => got).response;
    var input := UserAuthenticate(change.email, form.password);
    var token := auth.AuthenticateUser(input, bc, jwt, None);
    login := AuthHandler.AuthenticateUser(Bound(input), _ => token).response;
  }

  /** Three registrations on an empty store, the second repeating the
      first one's email: the second is refused but its id is consumed. */
  lemma DuplicateConsumesId(first: RegisterForm, again: RegisterForm, other: RegisterForm, bc: Bcrypt, now: Time)
    requires again.email == first.email && other.email != first.email
    requires bc.hash(first.password).Ok? && bc.hash(again.password).Ok? && bc.hash(other.password).Ok?
    ensures var r1 := RegisterStep(Store([], map[]), first, bc, now, None, None);
            var r2 := RegisterStep(r1.store, again, bc, now, None, None);
            var r3 := RegisterStep(r2.store, other, bc, now, None, None);
            && r1.outcome == Pass && r3.outcome == Pass
            && r2.outcome.Fail? && "failed to create user: " <= r2.outcome.error
            && |r3.store.users| == 2 && r3.store.users[0].id == 1 && r3.store.users[1].id == 3
  {
    var u1 := User(1, first.name, first.email, bc.hash(first.password).value, now);
    var r1 := RegisterStep(Store([], map[]), first, bc, now, None, None);
    assert r1.store == Store([u1], map[UserSequence := 1]);
    var r2 := RegisterStep(r1.store, again, bc, now, None, None);
    assert r2.store.users == [u1] && SeqValue(r2.store.counters, UserSequence) == 2;
    var r3 := RegisterStep(r2.store, other, bc, now, None, None);
    assert r3.store.users == [u1, User(3, other.name, other.email, bc.hash(other.password).value, now)];
  }

  /** The same three registrations through the service, then `GET /users`:
      the listed ids are 1 and 3. */
  method DuplicateLeavesGap(first: RegisterForm, again: RegisterForm, other: RegisterForm, bc: Bcrypt, now: Time)
    returns (b: Outcome, listed: seq<UserResponse>)
    requires again.email == first.email && other.email != first.email
    requires bc.hash(first.password).Ok? && bc.hash(again.password).Ok? && bc.hash(other.password).Ok?
    ensures b.Fail? && "failed to create user: " <= b.error
    ensures |listed| == 2 && listed[0].id == 1 && listed[1].id == 3
  {
    var db := new Database();
    var authRepo := new AuthRepository(db);
    var auth := new AuthService(authRepo);
    var userRepo := new UserRepository(db);
    var users := new UserService(userRepo);
    DuplicateConsumesId(first, again, other, bc, now);
    var d1 := new UserRegister(first);
    var a := auth.RegisterUserHashOnce(d1, bc, now, None, None);
    var d2 := new UserRegister(again);
    b := auth.RegisterUserHashOnce(d2, bc, now, None, None);
    var d3 := new UserRegister(other);
    var c := auth.RegisterUserHashOnce(d3, bc, now, None, None);
    var all := users.GetAllUsers(None);
    listed := all.value;
  }
}
