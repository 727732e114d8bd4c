/** The two repositories (repositories/user.go, repositories/auth.go) over
    the shared database handle, and the sequence generator they number users
    with. Every operation that writes is given twice: as a transition
    function on the store (`...Step`), whose contract states what the
    operation promises, and as a method that performs the source's steps in
    the source's order and is proved to make that transition. */
module Repositories {
  import opened Common
  import opened Models
  import opened Crypto
  import opened Mongo

  /** The store after an operation, and what the operation returned. */
  datatype Step<T> = Step(store: Store, result: T)

  /** A registration: the store afterwards, the returned error, and the
      password field of the caller's DTO afterwards. */
  datatype Registration = Registration(store: Store, outcome: Outcome, dtoPassword: string)

  // ---------------------------------------------------------------------
  // The sequence generator

  /** `GetNextSequence`: one upsert-increment of the named counter, returning
      the value after the increment. A missing counter counts as 0, so its
      first value is 1. */
  function NextSequence(s: Store, name: string, fault: Option<string>): (st: Step<Result<int>>)
    ensures st.store.users == s.users
    ensures fault.Some? ==> st == Step(s, Err(fault.value))
    ensures fault.None? ==> st.result == Ok(SeqValue(s.counters, name) + 1)
    ensures fault.None? ==> SeqValue(st.store.counters, name) == st.result.value
    ensures fault.None? ==> forall k :: k != name ==> SeqValue(st.store.counters, k) == SeqValue(s.counters, k)
  {
    match FindOneAndIncrement(s.counters, name, fault)
    case Err(e) => Step(s, Err(e))
    case Ok(c) => Step(s.(counters := c), Ok(SeqValue(c, name)))
  }

  method GetNextSequence(db: Database, name: string, fault: Option<string>) returns (r: Result<int>)
    modifies db
    ensures Step(db.State(), r) == NextSequence(old(db.State()), name, fault)
  {
    var updated := FindOneAndIncrement(db.counters, name, fault);
    if updated.Err? {
      return Err(updated.error);
    }
    db.counters := updated.value;
    r := Ok(SeqValue(db.counters, name));
  }

  /** The values that `n` successive fault-free calls return. */
  function Draws(s: Store, name: string, n: nat): seq<int>
    decreases n
  {
    if n == 0 then []
    else
      var st := NextSequence(s, name, None);
      [st.result.value] + Draws(st.store, name, n - 1)
  }

  /** Successive calls return consecutive values, one above the other. */
  lemma {:induction false} DrawsConsecutive(s: Store, name: string, n: nat)
    ensures |Draws(s, name, n)| == n
    ensures forall k :: 0 <= k < n ==> Draws(s, name, n)[k] == SeqValue(s.counters, name) + k + 1
    decreases n
  {
    if n > 0 {
      var st := NextSequence(s, name, None);
      DrawsConsecutive(st.store, name, n - 1);
    }
  }

  /** On a counter that does not exist yet, `n` calls return 1, 2, ..., n:
      no value twice and none skipped. */
  lemma FreshCounterDraws(s: Store, name: string, n: nat)
    requires name !in s.counters
    ensures Draws(s, name, n) == seq(n, k => k + 1)
  {
    DrawsConsecutive(s, name, n);
  }

  // ---------------------------------------------------------------------
  // Transitions

  /** `userRepository.CreateUser`: allocate an id, then hash, then insert. */
  function CreateUserStep(s: Store, form: RegisterForm, bc: Bcrypt, now: Time,
                          seqFault: Option<string>, insertFault: Option<string>): (st: Step<Result<UserResponse>>)
    // an id that cannot be allocated stops everything
    ensures seqFault.Some? ==> st == Step(s, Err(Wrap("failed to get new user ID", seqFault.value)))
    // once allocated, the id stays consumed whatever happens next
    ensures seqFault.None? ==> st.store.counters == NextSequence(s, UserSequence, None).store.counters
    ensures seqFault.None? && bc.hash(form.password).Err? ==>
      st.result == Err(Wrap("failed to hash password", bc.hash(form.password).error))
    ensures seqFault.None? && bc.hash(form.password).Ok? && st.result.Err? ==> "failed to create user: " <= st.result.error
    ensures st.result.Err? ==> st.store.users == s.users
    ensures st.result.Ok? <==>
      seqFault.None? && bc.hash(form.password).Ok? && insertFault.None? &&
      forall j :: 0 <= j < |s.users| ==> s.users[j].email != form.email
    // the new user is appended with the new id and the hashed password;
    // the response carries the id, name and email, never a password
    ensures st.result.Ok? ==>
      var id := SeqValue(s.counters, UserSequence) + 1;
      && st.result.value == UserResponse(id, form.name, form.email, now)
      && st.store.users == s.users + [User(id, form.name, form.email, bc.hash(form.password).value, now)]
  {
    var next := NextSequence(s, UserSequence, seqFault);
    if next.result.Err? then Step(s, Err(Wrap("failed to get new user ID", next.result.error)))
    else
      var hashed := bc.hash(form.password);
      if hashed.Err? then Step(next.store, Err(Wrap("failed to hash password", hashed.error)))
      else
        var user := User(next.result.value, form.name, form.email, hashed.value, now);
        match InsertOne(next.store.users, user, insertFault)
        case Err(e) => Step(next.store, Err(Wrap("failed to create user", e)))
        case Ok(users) => Step(next.store.(users := users), Ok(Project(user)))
  }

  /** `authRepository.RegisterUser`: hash (into the caller's DTO), then
      allocate an id, then insert. */
  function RegisterStep(s: Store, form: RegisterForm, bc: Bcrypt, now: Time,
                        seqFault: Option<string>, insertFault: Option<string>): (r: Registration)
    // a hash failure consumes no id, stores nothing and leaves the DTO alone
    ensures bc.hash(form.password).Err? ==>
      r == Registration(s, Fail(Wrap("failed to hash password", bc.hash(form.password).error)), form.password)
    // once hashed, the DTO holds the hash even if a later step fails
    ensures bc.hash(form.password).Ok? ==> r.dtoPassword == bc.hash(form.password).value
    ensures bc.hash(form.password).Ok? && seqFault.Some? ==>
      r.store == s && r.outcome == Fail(Wrap("failed to get new user ID", seqFault.value))
    ensures bc.hash(form.password).Ok? && seqFault.None? ==>
      r.store.counters == NextSequence(s, UserSequence, None).store.counters
    ensures bc.hash(form.password).Ok? && seqFault.None? && r.outcome.Fail? ==> "failed to create user: " <= r.outcome.error
    ensures r.outcome.Fail? ==> r.store.users == s.users
    ensures r.outcome.Pass? <==>
      bc.hash(form.password).Ok? && seqFault.None? && insertFault.None? &&
      forall j :: 0 <= j < |s.users| ==> s.users[j].email != form.email
    ensures r.outcome.Pass? ==>
      r.store.users == s.users + [User(SeqValue(s.counters, UserSequence) + 1, form.name, form.email, bc.hash(form.password).value, now)]
  {
    var hashed := bc.hash(form.password);
    if hashed.Err? then Registration(s, Fail(Wrap("failed to hash password", hashed.error)), form.password)
    else
      var next := NextSequence(s, UserSequence, seqFault);
      if next.result.Err? then Registration(s, Fail(Wrap("failed to get new user ID", next.result.error)), hashed.value)
      else
        var user := User(next.result.value, form.name, form.email, hashed.value, now);
        match InsertOne(next.store.users, user, insertFault)
        case Err(e) => Registration(next.store, Fail(Wrap("failed to create user", e)), hashed.value)
        case Ok(users) => Registration(next.store.(users := users), Pass, hashed.value)
  }

  /** The document that `userRepository.UpdateUser` hands to `$set`: the
      whole `models.User`, so its password and creation time are the zero
      values. */
  function UpdateDocument(id: int, dto: UserUpdate): (u: User)
    ensures u.id == id && u.name == dto.name && u.email == dto.email
    ensures u.password == "" && u.createdAt == ZeroTime
  {
    User(id, dto.name, dto.email, "", ZeroTime)
  }

  /** `userRepository.UpdateUser` as written: no existence check, the whole
      document overwritten, and the input echoed back stamped with now. */
  function UpdateUserStep(s: Store, id: int, dto: UserUpdate, now: Time, fault: Option<string>): (st: Step<Result<UserResponse>>)
    ensures st.store.counters == s.counters
    ensures |st.store.users| == |s.users|
    ensures st.result.Ok? ==> st.result.value == UserResponse(id, dto.name, dto.email, now)
    ensures st.result.Err? ==> st.store == s && "failed to update user: " <= st.result.error
    ensures fault.Some? ==> st == Step(s, Err(Wrap("failed to update user", fault.value)))
    // a matched update succeeds unless another user already has the new email
    ensures fault.None? && IndexOfId(s.users, id).Some? ==>
      (st.result.Ok? <==> !UsedElsewhere(s.users, dto.email, IndexOfId(s.users, id).value))
    // updating an id nobody has succeeds and changes nothing
    ensures fault.None? && IndexOfId(s.users, id).None? ==> st == Step(s, Ok(UserResponse(id, dto.name, dto.email, now)))
    // the matched user loses its password and its creation time
    ensures st.result.Ok? && IndexOfId(s.users, id).Some? ==>
      var i := IndexOfId(s.users, id).value;
      && st.store.users[i] == User(id, dto.name, dto.email, "", ZeroTime)
      && forall j :: 0 <= j < |s.users| && j != i ==> st.store.users[j] == s.users[j]
  {
    var user := UpdateDocument(id, dto);
    match UpdateOne(s.users, id, ReplaceAll(user), fault)
    case Err(e) => Step(s, Err(Wrap("failed to update user", e)))
    case Ok(users) => Step(s.(users := users), Ok(UserResponse(user.id, user.name, user.email, now)))
  }

  /** The update the design describes: only name and email are `$set`, so
      the password and the creation time survive. */
  function UpdateFieldsStep(s: Store, id: int, dto: UserUpdate, now: Time, fault: Option<string>): (st: Step<Result<UserResponse>>)
    ensures st.store.counters == s.counters
    ensures |st.store.users| == |s.users|
    ensures st.result.Ok? ==> st.result.value == UserResponse(id, dto.name, dto.email, now)
    ensures st.result.Err? ==> st.store == s && "failed to update user: " <= st.result.error
    ensures fault.Some? ==> st == Step(s, Err(Wrap("failed to update user", fault.value)))
    // a matched update succeeds unless another user already has the new email
    ensures fault.None? && IndexOfId(s.users, id).Some? ==>
      (st.result.Ok? <==> !UsedElsewhere(s.users, dto.email, IndexOfId(s.users, id).value))
    ensures fault.None? && IndexOfId(s.users, id).None? ==> st == Step(s, Ok(UserResponse(id, dto.name, dto.email, now)))
    ensures st.result.Ok? && IndexOfId(s.users, id).Some? ==>
      var i := IndexOfId(s.users, id).value;
      && st.store.users[i] == s.users[i].(name := dto.name, email := dto.email)
      && st.store.users[i].password == s.users[i].password
      && st.store.users[i].createdAt == s.users[i].createdAt
      && forall j :: 0 <= j < |s.users| && j != i ==> st.store.users[j] == s.users[j]
  {
    match UpdateOne(s.users, id, SetNameEmail(dto.name, dto.email), fault)
    case Err(e) => Step(s, Err(Wrap("failed to update user", e)))
    case Ok(users) => Step(s.(users := users), Ok(UserResponse(id, dto.name, dto.email, now)))
  }

  /** `userRepository.DeleteUser`: deleting an id nobody has is not an
      error. */
  function DeleteUserStep(s: Store, id: int, fault: Option<string>): (st: Step<Outcome>)
    ensures st.store.counters == s.counters
    ensures fault.Some? ==> st == Step(s, Fail(Wrap("failed to delete user", fault.value)))
    ensures fault.None? ==> st.result == Pass
    ensures fault.None? && IndexOfId(s.users, id).None? ==> st.store == s
    ensures fault.None? && IndexOfId(s.users, id).Some? ==>
      var i := IndexOfId(s.users, id).value;
      |st.store.users| == |s.users| - 1 && st.store.users == s.users[..i] + s.users[i + 1..]
  {
    match DeleteOne(s.users, id, fault)
    case Err(e) => Step(s, Fail(Wrap("failed to delete user", e)))
    case Ok(users) => Step(s.(users := users), Pass)
  }

  // ---------------------------------------------------------------------
  // The transitions keep the store consistent

  lemma CreateUserKeepsConsistent(s: Store, form: RegisterForm, bc: Bcrypt, now: Time,
                                  seqFault: Option<string>, insertFault: Option<string>)
    requires Consistent(s)
    ensures Consistent(CreateUserStep(s, form, bc, now, seqFault, insertFault).store)
  {
    if seqFault.None? {
      var next := NextSequence(s, UserSequence, None);
      IncrementKeepsConsistent(s, UserSequence);
      var hashed := bc.hash(form.password);
      if hashed.Ok? {
        var user := User(next.result.value, form.name, form.email, hashed.value, now);
        if InsertOne(s.users, user, insertFault).Ok? {
          InsertFreshKeepsConsistent(s, next.store.counters, user);
        }
      }
    }
  }

  lemma RegisterKeepsConsistent(s: Store, form: RegisterForm, bc: Bcrypt, now: Time,
                                seqFault: Option<string>, insertFault: Option<string>)
    requires Consistent(s)
    ensures Consistent(RegisterStep(s, form, bc, now, seqFault, insertFault).store)
  {
    var hashed := bc.hash(form.password);
    if hashed.Ok? && seqFault.None? {
      var next := NextSequence(s, UserSequence, None);
      IncrementKeepsConsistent(s, UserSequence);
      var user := User(next.result.value, form.name, form.email, hashed.value, now);
      if InsertOne(s.users, user, insertFault).Ok? {
        InsertFreshKeepsConsistent(s, next.store.counters, user);
      }
    }
  }

  lemma UpdateUserKeepsConsistent(s: Store, id: int, dto: UserUpdate, now: Time, fault: Option<string>)
    requires Consistent(s)
    ensures Consistent(UpdateUserStep(s, id, dto, now, fault).store)
  {
    if UpdateOne(s.users, id, ReplaceAll(UpdateDocument(id, dto)), fault).Ok? {
      UpdateKeepsConsistent(s, id, ReplaceAll(UpdateDocument(id, dto)));
    }
  }

  lemma UpdateFieldsKeepsConsistent(s: Store, id: int, dto: UserUpdate, now: Time, fault: Option<string>)
    requires Consistent(s)
    ensures Consistent(UpdateFieldsStep(s, id, dto, now, fault).store)
  {
    if UpdateOne(s.users, id, SetNameEmail(dto.name, dto.email), fault).Ok? {
      UpdateKeepsConsistent(s, id, SetNameEmail(dto.name, dto.email));
    }
  }

  /** After a successful delete no user with that id is left. */
  lemma DeleteUserRemovesId(s: Store, id: int, fault: Option<string>)
    requires Consistent(s)
    ensures Consistent(DeleteUserStep(s, id, fault).store)
    ensures fault.None? ==> forall j :: 0 <= j < |DeleteUserStep(s, id, fault).store.users| ==>
      DeleteUserStep(s, id, fault).store.users[j].id != id
  {
    DeleteKeepsConsistent(s, id);
  }

  // ---------------------------------------------------------------------
  // The repositories

  class UserRepository {
    const db: Database

    constructor (db: Database)
      ensures this.db == db
    {
      this.db := db;
    }

    method CreateUser(dto: UserRegister, bc: Bcrypt, now: Time,
                      seqFault: Option<string>, insertFault: Option<string>) returns (r: Result<UserResponse>)
      requires db.Valid()
      modifies db
      ensures db.Valid()
      ensures Step(db.State(), r) == CreateUserStep(old(db.State()), dto.Form(), bc, now, seqFault, insertFault)
    {
      ghost var s := db.State();
      CreateUserKeepsConsistent(s, dto.Form(), bc, now, seqFault, insertFault);
      var newId := GetNextSequence(db, UserSequence, seqFault);
      if newId.Err? {
        return Err(Wrap("failed to get new user ID", newId.error));
      }
      var hashed := bc.hash(dto.password);
      if hashed.Err? {
        return Err(Wrap("failed to hash password", hashed.error));
      }
      var user := User(newId.value, dto.name, dto.email, hashed.value, now);
      var inserted := InsertOne(db.users, user, insertFault);
      if inserted.Err? {
        return Err(Wrap("failed to create user", inserted.error));
      }
      db.users := inserted.value;
      r := Ok(UserResponse(user.id, user.name, user.email, user.createdAt));
    }

    /** Any failed lookup, a transport failure included, is reported as
        "user not found". */
    function GetUserByID(id: int, fault: Option<string>): (r: Result<UserResponse>)
      reads db
      ensures r.Err? ==> "user not found: " <= r.error
      ensures fault.None? ==> (r.Ok? <==> exists j :: 0 <= j < |db.users| && db.users[j].id == id)
      ensures fault.None? && r.Err? ==> r.error == Wrap("user not found", ErrNoDocuments)
      ensures r.Ok? ==> exists j :: 0 <= j < |db.users| && db.users[j].id == id && r.value == Project(db.users[j])
    {
      match FindOneById(db.users, id, fault)
      case Err(e) => Err(Wrap("user not found", e))
      case Ok(user) => Ok(Project(user))
    }

    /** One projection per stored user, in store order; an empty store gives
        an empty list and no error. */
    method GetAllUsers(fault: Option<string>) returns (r: Result<seq<UserResponse>>)
      ensures fault.Some? ==> r == Err(Wrap("failed to retrieve users", fault.value))
      ensures fault.None? ==> r.Ok? && |r.value| == |db.users|
      ensures fault.None? ==> forall i :: 0 <= i < |db.users| ==> r.value[i] == Project(db.users[i])
    {
      var cursor := Find(db.users, fault);
      if cursor.Err? {
        return Err(Wrap("failed to retrieve users", cursor.error));
      }
      var docs := cursor.value;
      var users: seq<User> := [];
      var i := 0;
      while i < |docs|
        invariant 0 <= i <= |docs|
        invariant users == docs[..i]
      {
        users := users + [docs[i]];
        i := i + 1;
      }
      var responses: seq<UserResponse> := [];
      for k := 0 to |users|
        invariant |responses| == k
        invariant forall j :: 0 <= j < k ==> responses[j] == Project(users[j])
      {
        responses := responses + [Project(users[k])];
      }
      return Ok(responses);
    }

    method UpdateUser(id: int, dto: UserUpdate, now: Time, fault: Option<string>) returns (r: Result<UserResponse>)
      requires db.Valid()
      modifies db
      ensures db.Valid()
      ensures Step(db.State(), r) == UpdateUserStep(old(db.State()), id, dto, now, fault)
    {
      UpdateUserKeepsConsistent(db.State(), id, dto, now, fault);
      var user := UpdateDocument(id, dto);
      var updated := UpdateOne(db.users, id, ReplaceAll(user), fault);
      if updated.Err? {
        return Err(Wrap("failed to update user", updated.error));
      }
      db.users := updated.value;
      r := Ok(UserResponse(user.id, user.name, user.email, now));
    }

    /** The corrected update: only name and email change. */
    method UpdateUserFields(id: int, dto: UserUpdate, now: Time, fault: Option<string>) returns (r: Result<UserResponse>)
      requires db.Valid()
      modifies db
      ensures db.Valid()
      ensures Step(db.State(), r) == UpdateFieldsStep(old(db.State()), id, dto, now, fault)
    {
      UpdateFieldsKeepsConsistent(db.State(), id, dto, now, fault);
      var updated := UpdateOne(db.users, id, SetNameEmail(dto.name, dto.email), fault);
      if updated.Err? {
        return Err(Wrap("failed to update user", updated.error));
      }
      db.users := updated.value;
      r := Ok(UserResponse(id, dto.name, dto.email, now));
    }

    method DeleteUser(id: int, fault: Option<string>) returns (err: Outcome)
      requires db.Valid()
      modifies db
      ensures db.Valid()
      ensures Step(db.State(), err) == DeleteUserStep(old(db.State()), id, fault)
    {
      DeleteUserRemovesId(db.State(), id, fault);
      var deleted := DeleteOne(db.users, id, fault);
      if deleted.Err? {
        return Fail(Wrap("failed to delete user", deleted.error));
      }
      db.users := deleted.value;
      err := Pass;
    }

    function CountUsers(fault: Option<string>): (r: Result<int>)
      reads db
      ensures fault.None? ==> r == Ok(|db.users|)
      ensures fault.Some? ==> r == Err(Wrap("failed to count users", fault.value))
    {
      match CountDocuments(db.users, fault)
      case Err(e) => Err(Wrap("failed to count users", e))
      case Ok(n) => Ok(n)
    }
  }

  class AuthRepository {
    const db: Database

    constructor (db: Database)
      ensures this.db == db
    {
      this.db := db;
    }

    method RegisterUser(dto: UserRegister, bc: Bcrypt, now: Time,
                        seqFault: Option<string>, insertFault: Option<string>) returns (err: Outcome)
      requires db.Valid()
      modifies db, dto
      ensures db.Valid()
      ensures var r := RegisterStep(old(db.State()), old(dto.Form()), bc, now, seqFault, insertFault);
        db.State() == r.store && err == r.outcome && dto.Form() == old(dto.Form()).(password := r.dtoPassword)
    {
      RegisterKeepsConsistent(db.State(), dto.Form(), bc, now, seqFault, insertFault);
      var hashed := bc.hash(dto.password);
      if hashed.Err? {
        return Fail(Wrap("failed to hash password", hashed.error));
      }
      dto.password := hashed.value;
      var newId := GetNextSequence(db, UserSequence, seqFault);
      if newId.Err? {
        return Fail(Wrap("failed to get new user ID", newId.error));
      }
      var user := User(newId.value, dto.name, dto.email, dto.password, now);
      var inserted := InsertOne(db.users, user, insertFault);
      if inserted.Err? {
        return Fail(Wrap("failed to create user", inserted.error));
      }
      db.users := inserted.value;
      err := Pass;
    }

    /** Find the user by email, check the password against the stored hash,
        then issue a token from the stored name and email. */
    function AuthenticateUser(input: UserAuthenticate, bc: Bcrypt, jwt: Jwt, fault: Option<string>): (r: Result<string>)
      reads db
      // a token is issued only for a stored user whose hash matches, and is
      // made from that user's name and email
      ensures r.Ok? ==> exists j :: 0 <= j < |db.users| && db.users[j].email == input.email
                                  && bc.compare(db.users[j].password, input.password) == None
                                  && jwt.generate(db.users[j].name, db.users[j].email) == Ok(r.value)
      ensures fault.Some? ==> r == Err(Wrap("user not found", fault.value))
      ensures fault.None? && (forall j :: 0 <= j < |db.users| ==> db.users[j].email != input.email) ==>
        r == Err(Wrap("user not found", ErrNoDocuments))
      ensures fault.None? && IndexOfEmail(db.users, input.email).Some? ==>
        var u := db.users[IndexOfEmail(db.users, input.email).value];
        && (bc.compare(u.password, input.password).Some? ==>
              r == Err(Wrap("authentication failed", bc.compare(u.password, input.password).value)))
        && (bc.compare(u.password, input.password).None? && jwt.generate(u.name, u.email).Err? ==>
              r == Err(Wrap("failed to generate token", jwt.generate(u.name, u.email).error)))
        // the right password for a stored email gets that user's token
        && (bc.compare(u.password, input.password).None? && jwt.generate(u.name, u.email).Ok? ==>
              r == Ok(jwt.generate(u.name, u.email).value))
    {
      match FindOneByEmail(db.users, input.email, fault)
      case Err(e) => Err(Wrap("user not found", e))
      case Ok(user) =>
        match bc.compare(user.password, input.password)
        case Some(e) => Err(Wrap("authentication failed", e))
        case None =>
          match jwt.generate(user.name, user.email)
          case Err(e) => Err(Wrap("failed to generate token", e))
          case Ok(token) => Ok(token)
    }
  }
}
