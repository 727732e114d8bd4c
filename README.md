# A verified model of the user service

This project models a small Go web service in Dafny. The service uses Gin and
MongoDB to register and authenticate users and to create, read, update and
delete them. The model follows the program's layers.

- **Store** (`mongo.dfy`): the `users` collection and the `counters`
  collection. Each driver call the program makes is a function of the
  collection's contents and of an injected transport fault. The unique index
  on `email`, which the program creates at startup, is part of what `InsertOne`
  and `UpdateOne` refuse. `Database` is the shared handle whose two fields the
  repositories update.
- **Repositories** (`repositories.dfy`): `UserRepository` and
  `AuthRepository` are classes over that handle. Every operation that writes
  is stated as a transition function on the store (`...Step`), and the method
  that performs the program's steps in the program's order is proved to make
  that transition and to keep the store consistent. Consistent means unique
  ids, unique emails, and every id handed out by the sequence.
- **Services** (`services.dfy`): `UserService` and `AuthService`. They
  overwrite the caller's DTO password with its hash and otherwise pass results
  through.
- **Handlers and middleware** (`user_handler.dfy`, `auth_handler.dfy`,
  `middleware.dfy`): pure decision chains. Each turns a path string, a
  binding outcome and a service result into a status and a JSON body. Each
  also records the argument its service was called with. The middleware
  turns an `Authorization` header and a token verifier into a rejection or the
  `email`/`name` pair it sets.
- **Library behaviour the program relies on**: `strconv.Atoi` on 64 bits
  (`strconv.dfy`), `strings.Split` on a space (`strings.dfy`), `fmt.Errorf`
  with `%w` (`common.dfy`). bcrypt and the JWT helpers are abstract
  (`crypto.dfy`); what a proof needs of them is an explicit precondition
  (`Sound`, `Binding`, `NoFixedPoint`, `RejectsEmptyHash`, `RoundTrip`,
  `SpaceFree`).
- **Flows** (`scenarios.dfy`): whole request sequences on a fresh database,
  wired as the program wires them.

Where the design description and the code disagree, the model follows the
code. The design says an update overwrites only name and email and keeps the
password and the creation time. The code `$set`s the whole `models.User`, so
`Repositories.UpdateUserStep` wipes both fields. The design also lists double
hashing on registration as an open question. The code does hash twice, and
the model does the same. Both are listed under Findings, each with a
corrected version.

## Model

| member | source | states |
|---|---|---|
| Common.Wrap | repositories/user.go:36 | `fmt.Errorf("ctx: %w", err)`: the message starts with the context and ": " and continues with the cause unchanged |
| Mongo.DuplicateKey | utils/index.go:16-21 | the write error from the unique email index is the driver's "write exception: write errors: [" wrapper around the E11000 duplicate-key code |
| Mongo.IndexOfId | repositories/user.go:71-72 | position of the first document with the id; every earlier document has another id; `None` exactly when no document has it |
| Mongo.IndexOfEmail | repositories/auth.go:60-61 | position of the first document with the email; `None` exactly when no document has it |
| Mongo.FindOneById | repositories/user.go:71-72 | with no fault: a stored document with that id when one exists, otherwise `ErrNoDocuments`; a fault is returned as it is |
| Mongo.FindOneByEmail | repositories/auth.go:59-61 | with no fault: a stored document with that email when one exists, otherwise `ErrNoDocuments` |
| Mongo.Find | repositories/user.go:89-101 | with no fault: every document, in store order |
| Mongo.InsertOne | repositories/user.go:52-56 | succeeds exactly when there is no fault and no stored document has the email; it then appends the document; an email already present gives a duplicate-key error |
| Mongo.UpdateOne | repositories/user.go:128-134 | matching no id succeeds and changes nothing; otherwise it changes only the first match, unless the new email is used by another document |
| Mongo.DeleteOne | repositories/user.go:150-157 | succeeds whenever there is no fault; removes the first match, or nothing when no id matches |
| Mongo.FindOneAndIncrement | repositories/user.go:172-183 | upsert-increment: the named counter goes up by exactly 1, an absent counter counts as 0, every other counter is unchanged |
| Mongo.CountDocuments | repositories/user.go:162 | the number of stored documents |
| Mongo.UniqueIdFound | repositories/user.go:169-188 | while ids are unique, looking up a stored user's id finds exactly that user |
| Mongo.UniqueEmailFound | utils/index.go:16-21 | while emails are unique, looking up a stored user's email finds exactly that user |
| Mongo.IncrementKeepsConsistent | repositories/user.go:169-188 | advancing the sequence keeps ids unique and within the range handed out |
| Mongo.InsertFreshKeepsConsistent | repositories/user.go:34-56 | inserting a user numbered with the freshly drawn id keeps ids and emails unique |
| Mongo.UpdateKeepsConsistent | repositories/user.go:121-134 | an update that keeps the id (`$set` of the same `id`) keeps ids and emails unique |
| Mongo.DeleteKeepsConsistent | repositories/user.go:149-158 | a delete keeps the store consistent and leaves no user with that id |
| Repositories.NextSequence | repositories/user.go:169-188 | returns the counter's old value plus 1, which is its new value; the users and every other counter are unchanged; a driver error is returned unwrapped |
| Repositories.GetNextSequence | repositories/user.go:169-188 | performs the upsert-increment on the database and makes exactly the `NextSequence` transition |
| Repositories.DrawsConsecutive | repositories/user.go:172-177 | successive calls on one name return consecutive values, each one above the previous |
| Repositories.FreshCounterDraws | repositories/user.go:169-188 | on a counter that does not exist yet, n calls return 1, 2, ..., n |
| Repositories.CreateUserStep | repositories/user.go:33-66 | the id is allocated first, and an allocation failure stores nothing; after allocation the counter stays advanced even when hashing or insert fails, leaving a gap; success appends the user with the new id and the hashed password; the response carries id, name and email, never a password |
| Repositories.RegisterStep | repositories/auth.go:31-54 | hashes first, so a hash failure consumes no id and leaves the DTO alone; after hashing, the DTO holds the hash even if a later step fails; success appends the new id, name, email and hash |
| Repositories.UpdateDocument | repositories/user.go:122-126 | the document handed to `$set` carries the id, name and email, an empty password and the zero creation time |
| Repositories.UpdateUserStep | repositories/user.go:121-147 | no existence check: an unknown id succeeds and changes nothing; a matched id is updated unless another user already has the new email; a fault gives "failed to update user: " + the fault; the response echoes id, name and email, stamped with now; the matched user's password becomes "" and its creation time the zero time |
| Repositories.UpdateFieldsStep | repositories/user.go:121-147 | the corrected update: the same success and error conditions, but only name and email change, and password and creation time are kept |
| Repositories.DeleteUserStep | repositories/user.go:149-158 | no error when nothing matched; otherwise the matched user is removed and nothing else changes |
| Repositories.CreateUserKeepsConsistent | repositories/user.go:33-66 | creation keeps the store consistent, whatever step fails |
| Repositories.RegisterKeepsConsistent | repositories/auth.go:31-54 | registration keeps the store consistent |
| Repositories.UpdateUserKeepsConsistent | repositories/user.go:121-134 | the whole-document update keeps the store consistent |
| Repositories.UpdateFieldsKeepsConsistent | repositories/user.go:121-134 | the name-and-email update keeps the store consistent |
| Repositories.DeleteUserRemovesId | repositories/user.go:149-158 | after a successful delete no user with that id is left, and the store stays consistent |
| Repositories.UserRepository.CreateUser | repositories/user.go:33-66 | allocates, hashes and inserts in that order; makes exactly the `CreateUserStep` transition; keeps the database valid |
| Repositories.UserRepository.GetUserByID | repositories/user.go:68-84 | succeeds exactly when a user has the id, and returns that user's projection; an absent id gives "user not found: " + `ErrNoDocuments`; every failure is reported as "user not found" |
| Repositories.UserRepository.GetAllUsers | repositories/user.go:86-119 | one projection per stored user, in store order; an empty store gives an empty list and no error; a `Find` failure is wrapped with "failed to retrieve users" |
| Repositories.UserRepository.UpdateUser | repositories/user.go:121-147 | makes exactly the `UpdateUserStep` transition on the database |
| Repositories.UserRepository.UpdateUserFields | repositories/user.go:121-147 | the corrected update; makes exactly the `UpdateFieldsStep` transition |
| Repositories.UserRepository.DeleteUser | repositories/user.go:149-158 | makes exactly the `DeleteUserStep` transition |
| Repositories.UserRepository.CountUsers | repositories/user.go:160-167 | the number of stored users, or "failed to count users: " + the driver error |
| Repositories.AuthRepository.RegisterUser | repositories/auth.go:31-54 | hashes into the caller's DTO, then allocates, then inserts; makes exactly the `RegisterStep` transition on both the database and the DTO |
| Repositories.AuthRepository.AuthenticateUser | repositories/auth.go:56-76 | a token only for a stored user with that email whose hash matches, generated from that user's name and email; an unknown email gives "user not found: " + `ErrNoDocuments`; a mismatch gives "authentication failed: " + the compare error; a generation failure gives "failed to generate token: "; a matching password with a token that generates gives exactly that token |
| Services.ServiceCreateStep | services/user_service.go:28-40 | a first hash failure is returned unwrapped, before any id is taken; otherwise the repository's result, error and store change (the advanced counter included) pass through unchanged for the hashed form; on success the stored password is the hash of the hash of the plaintext |
| Services.ServiceRegisterStep | services/auth_service.go:25-37 | a first hash failure is returned unwrapped and the repository is not reached; otherwise the repository's registration of the hashed form passes through unchanged; on success both the stored password and the DTO hold the hash of the hash |
| Services.UserService.CreateUser | services/user_service.go:28-40 | replaces the DTO password with its hash before calling the repository, or keeps it when hashing fails; makes exactly the `ServiceCreateStep` transition |
| Services.UserService.CreateUserHashOnce | services/user_service.go:28-40 | the corrected creation: one hash, in the repository |
| Services.UserService.GetUserByID | services/user_service.go:42-48 | the repository's result or error, unchanged |
| Services.UserService.GetAllUsers | services/user_service.go:50-56 | exactly the repository's list: same length, one projection per stored user |
| Services.UserService.UpdateUser | services/user_service.go:58-64 | the repository's update and result, unchanged |
| Services.UserService.UpdateUserFields | services/user_service.go:58-64 | the same pass-through over the corrected update |
| Services.UserService.DeleteUser | services/user_service.go:66-72 | the repository's delete and error, unchanged |
| Services.AuthService.RegisterUser | services/auth_service.go:25-37 | replaces the DTO password with its hash, then delegates; makes exactly the `ServiceRegisterStep` transition |
| Services.AuthService.RegisterUserHashOnce | services/auth_service.go:25-37 | the corrected registration: one hash, in the repository |
| Services.AuthService.AuthenticateUser | services/auth_service.go:39-45 | the repository's token or error, unchanged |
| Models.Project | repositories/user.go:77-82 | the response keeps the stored id, name, email and creation time, and has no password field |
| Strconv.ScanDigits | handlers/user.go:43 | the left-to-right digit loop of `ParseUint`: a value it returns is at least the value read so far and fits in 64 unsigned bits |
| Strconv.ParseInt | handlers/user.go:43 | a parsed value is always within the int64 range; an empty string or a lone sign is a syntax error |
| Strconv.Atoi | handlers/user.go:43 | succeeds exactly when `ParseInt` parses, with an int64 value; every error message starts with `strconv.Atoi: parsing "<s>": ` |
| Strconv.AtoiSpec | handlers/user.go:43 | `strconv.Atoi` accepts exactly an optional sign and one or more decimal digits with a value in the int64 range, and returns that value |
| Strconv.AtoiFormatInt | handlers/user.go:43 | every int64 written in decimal is parsed back to itself |
| Strconv.AtoiOutOfRange | handlers/user.go:43 | a well-formed literal outside int64 is refused with "value out of range" |
| Strconv.ScanValue | handlers/user.go:43 | the digit loop yields the decimal value of a digit string, or a range error once it exceeds 64 bits |
| Strings.Split | middleware/auth.go:20 | `strings.Split(s, " ")` always gives at least one part |
| Strings.JoinSplit | middleware/auth.go:20 | splitting on " " loses nothing: joining the parts with " " gives the header back, and no part has a space |
| Strings.BearerSplit | middleware/auth.go:20-25 | the split is exactly `["Bearer", t]` when the header is "Bearer " followed by a space-free `t` |
| UserHandler.ParseId | handlers/user.go:37-47 | an empty id gives "User ID is required"; accepted ids are exactly the int64 decimal literals, and the id is their value; any other id gives exactly "Invalid user ID: " + the Atoi error |
| UserHandler.ParseIdFormatInt | handlers/user.go:43 | the decimal form of any int64 is accepted as that integer |
| UserHandler.CreateUser | handlers/user.go:21-35 | a body that fails to bind gives 400 and no service call; a service error gives 500 "Failed to create user: "; success gives 201 with the user |
| UserHandler.GetUserByID | handlers/user.go:36-56 | a bad id gives 400 and no service call; the service gets the parsed id; any service error gives 404, never 500; success gives 200 |
| UserHandler.GetAllUsers | handlers/user.go:58-66 | 200 with the list exactly when the service succeeds, otherwise 500 "Failed to retrieve users: " |
| UserHandler.UpdateUser | handlers/user.go:68-94 | the id is checked before the body; either failure gives 400 and no service call ("Invalid input : " for the body); a service error gives 500; success gives 200 |
| UserHandler.DeleteUser | handlers/user.go:96-116 | a bad id gives 400; a service error gives 500; success gives 204 "User deleted successfully" |
| UserHandler.ServiceGetsPathId | handlers/user.go:43-49 | each id-taking handler calls its service with exactly the integer written in the path |
| AuthHandler.RegisterUser | handlers/auth.go:20-34 | a body that fails to bind gives 400 and no service call; a service error gives 500 "Failed to register user: " + cause; success gives 201 "User registered successfully" |
| AuthHandler.AuthenticateUser | handlers/auth.go:36-50 | a body that fails to bind gives 400 and no service call; every service error gives 401 "Authentication failed: "; success gives 200 with the token |
| Middleware.ClaimsVerdict | middleware/auth.go:27-52 | proceeds with the email and name claims exactly when the token verifies and has both; a verify error, then a missing email, then a missing name, each give their own 401 |
| Middleware.Authenticate | middleware/auth.go:11-54 | every rejection is 401; an empty header gives "Missing authorization token"; anything but "Bearer " plus a space-free token gives the format error; the verifier sees exactly the text after "Bearer "; it proceeds exactly when that verifies with both claims |
| Middleware.DoubleSpaceRejected | middleware/auth.go:20-25 | "Bearer  t" (two spaces) is refused as badly formatted, before verification |
| Middleware.SchemeMustBeBearer | middleware/auth.go:20-25 | any scheme word other than "Bearer" is refused as badly formatted |
| Middleware.IssuedTokenAccepted | middleware/auth.go:27-52 | a token issued for a name and email passes, and the middleware sets that email and name |
| Scenarios.RegisterThenLogin | services/auth_service.go:25-37 | as written: after registering, logging in with the same password fails with "authentication failed" and gives 401 |
| Scenarios.RegisterOnceThenLogin | repositories/auth.go:31-76 | with one hash: the registered password logs in (200 with the token), and the token passes the middleware as that user |
| Scenarios.RegisterThenList | repositories/user.go:86-119 | after the corrected registration (`AuthService.RegisterUserHashOnce`), a registered user is listed by `GET /users` with id 1 and no password; a failed registration leaves the list empty |
| Scenarios.CreateThenLogin | services/user_service.go:28-40 | as written: a user created through `POST /users` gets 201 but cannot log in with its password |
| Scenarios.CreateOnceThenLogin | repositories/user.go:33-66 | with one hash: the created user logs in with its password |
| Scenarios.UpdateThenLogin | repositories/user.go:121-134 | as written: after `PUT /users/1` the stored creation time is the zero time and logging in fails |
| Scenarios.UpdateFieldsThenLogin | repositories/user.go:121-134 | corrected: after the update, `GET /users/1` shows the original creation time and the user logs in with the new email |
| Scenarios.PathOne | handlers/user.go:43 | the path "1" is the id 1 |
| Scenarios.DuplicateConsumesId | repositories/auth.go:37-52 | a registration refused for a duplicate email still consumes its id, so the next user gets 3, not 2 |
| Scenarios.DuplicateLeavesGap | repositories/auth.go:37-52 | through the corrected registration (`AuthService.RegisterUserHashOnce`, whose id allocation is the repository's, unchanged): the duplicate fails with "failed to create user: ", and `GET /users` lists ids 1 and 3 |

## Findings

| source | as written | input that shows it | evidently intended | confidence | as-written member | corrected member |
|---|---|---|---|---|---|---|
| services/auth_service.go:26-32 | the service hashes the password into the DTO, then `repositories/auth.go:32` hashes that hash again and stores it | register any email with a password p whose hash succeeds, then log in with p | hash once, and store the hash of p | high (not executed) | Scenarios.RegisterThenLogin | Scenarios.RegisterOnceThenLogin |
| services/user_service.go:29-35 | the service hashes the password into the DTO, then `repositories/user.go:39` hashes it again | `POST /users` with password p, then log in with p | hash once | high (not executed) | Scenarios.CreateThenLogin | Scenarios.CreateOnceThenLogin |
| repositories/user.go:122-134 | `$set` of a whole `models.User` whose `password` and `createdAt` have no `omitempty` (models/user.go:14-15), so both are overwritten with "" and the zero time | register, then `PUT /users/1` with any name and email, then log in | `$set` name and email only | high (not executed) | Scenarios.UpdateThenLogin | Scenarios.UpdateFieldsThenLogin |

The corrected scenarios run the corrected operations:
`Services.AuthService.RegisterUserHashOnce`,
`Services.UserService.CreateUserHashOnce` and
`Repositories.UserRepository.UpdateUserFields` (specified by
`Repositories.UpdateFieldsStep`).

## Left out

- Startup wiring (main.go, the router files, database/mongo.go) is not modelled. It is environment loading, connection and route registration. The periodic user-count task is also left out, as concurrency.
- Index creation (utils/index.go) is only modelled through its effect. The email uniqueness that `InsertOne` and `UpdateOne` enforce stands for it.
- bcrypt salts and JWT signatures are not modelled. `hash` is one fixed function, so two hashes of one password are equal in the model. The assumptions a proof needs are stated as predicates.
- `utils.GenerateToken` and `utils.VerifyToken` are not part of this model. They are abstract functions.
- `time.Now` is a parameter. The RFC 3339 rendering of `createdAt` is left out, and a `UserResponse` carries the time value itself.
- Gin's JSON binding and rendering are left out. Binding is its outcome (`Bind`). Gin sends no body with a 204, while the model records the body the handler writes.
- The model returns an empty sequence from `GetAllUsers` on an empty store. The Go code returns a nil slice, which Gin renders as JSON `null`.
- Decode errors and cursor errors in the middle of iteration are not modelled. A driver failure is one injected fault per call.
- The datastore's own `_id` (`ObjectID`) is not modelled, since it is never read or exposed.
- The error text of `strconv.Atoi` shows the input without Go's quote escaping.
- Repositories.NextSequence: the counter is an unbounded integer; the `int`/int64 wrap-around after 2^63 - 1 users is not modelled.
- Concurrent requests are not modelled, including the atomicity of `FindOneAndUpdate`. The model is sequential.
- Mongo.DuplicateKey: the driver's text is approximated. The server names the collection as `<database>.users`, and the database name comes from the environment, so the model writes `users` alone. The handlers' 500 bodies for a duplicate email differ from the program's by that qualification.
