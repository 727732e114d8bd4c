/** The service layer (services/user_service.go, services/auth_service.go).
    Apart from registration and creation, every service operation hands its
    arguments to the repository and its result back unchanged. Registration
    and creation hash the password into the caller's DTO first; as the
    repositories hash it again, what they store is the hash of the hash. The
    `...HashOnce` methods are the evidently intended versions, which leave
    the hashing to the repository alone. */
module Services {
  import opened Common
  import opened Models
  import opened Crypto
  import opened Mongo
  import opened Repositories

  /** `userService.CreateUser` as a transition: hash into the DTO, then the
      repository's create, which hashes once more. */
  function ServiceCreateStep(s: Store, form: RegisterForm, bc: Bcrypt, now: Time,
                             seqFault: Option<string>, insertFault: Option<string>): (st: Step<Result<UserResponse>>)
    // the first hash failure is returned as it is, before any id is taken
    ensures bc.hash(form.password).Err? ==> st == Step(s, Err(bc.hash(form.password).error))
    // after the first hash, the repository's result and store change pass through unchanged
    ensures bc.hash(form.password).Ok? ==>
      st == CreateUserStep(s, form.(password := bc.hash(form.password).value), bc, now, seqFault, insertFault)
    ensures st.result.Err? ==> st.store.users == s.users
    ensures st.result.Ok? <==>
      && bc.hash(form.password).Ok? && bc.hash(bc.hash(form.password).value).Ok?
      && seqFault.None? && insertFault.None?
      && forall j :: 0 <= j < |s.users| ==> s.users[j].email != form.email
    // the stored password is the hash of the hash of what the caller sent
    ensures st.result.Ok? ==>
      var id := SeqValue(s.counters, UserSequence) + 1;
      && st.result.value == UserResponse(id, form.name, form.email, now)
      && st.store.users == s.users + [User(id, form.name, form.email, bc.hash(bc.hash(form.password).value).value, now)]
  {
    var hashed := bc.hash(form.password);
    if hashed.Err? then Step(s, Err(hashed.error))
    else CreateUserStep(s, form.(password := hashed.value), bc, now, seqFault, insertFault)
  }

  /** `authService.RegisterUser` as a transition: hash into the DTO, then
      the repository's registration, which hashes once more. */
  function ServiceRegisterStep(s: Store, form: RegisterForm, bc: Bcrypt, now: Time,
                               seqFault: Option<string>, insertFault: Option<string>): (r: Registration)
    ensures bc.hash(form.password).Err? ==> r == Registration(s, Fail(bc.hash(form.password).error), form.password)
    ensures bc.hash(form.password).Ok? ==>
      r == RegisterStep(s, form.(password := bc.hash(form.password).value), bc, now, seqFault, insertFault)
    ensures r.outcome.Fail? ==> r.store.users == s.users
    ensures r.outcome.Pass? <==>
      && bc.hash(form.password).Ok? && bc.hash(bc.hash(form.password).value).Ok?
      && seqFault.None? && insertFault.None?
      && forall j :: 0 <= j < |s.users| ==> s.users[j].email != form.email
    ensures r.outcome.Pass? ==>
      var twice := bc.hash(bc.hash(form.password).value).value;
      && r.dtoPassword == twice
      && r.store.users == s.users + [User(SeqValue(s.counters, UserSequence) + 1, form.name, form.email, twice, now)]
  {
    var hashed := bc.hash(form.password);
    if hashed.Err? then Registration(s, Fail(hashed.error), form.password)
    else RegisterStep(s, form.(password := hashed.value), bc, now, seqFault, insertFault)
  }

  class UserService {
    const repo: UserRepository

    constructor (repo: UserRepository)
      ensures this.repo == repo
    {
      this.repo := repo;
    }

    method CreateUser(dto: UserRegister, bc: Bcrypt, now: Time,
                      seqFault: Option<string>, insertFault: Option<string>) returns (r: Result<UserResponse>)
      requires repo.db.Valid()
      modifies repo.db, dto
      ensures repo.db.Valid()
      ensures Step(repo.db.State(), r) == ServiceCreateStep(old(repo.db.State()), old(dto.Form()), bc, now, seqFault, insertFault)
      ensures dto.name == old(dto.name) && dto.email == old(dto.email)
      ensures bc.hash(old(dto.password)).Ok? ==> dto.password == bc.hash(old(dto.password)).value
      ensures bc.hash(old(dto.password)).Err? ==> dto.password == old(dto.password)
    {
      var hashed := bc.hash(dto.password);
      if hashed.Err? {
        return Err(hashed.error);
      }
      dto.password := hashed.value;
      r := repo.CreateUser(dto, bc, now, seqFault, insertFault);
    }

    /** The intended creation: the password is hashed once, by the
        repository. */
    method CreateUserHashOnce(dto: UserRegister, bc: Bcrypt, now: Time,
                              seqFault: Option<string>, insertFault: Option<string>) returns (r: Result<UserResponse>)
      requires repo.db.Valid()
      modifies repo.db
      ensures repo.db.Valid()
      ensures Step(repo.db.State(), r) == CreateUserStep(old(repo.db.State()), dto.Form(), bc, now, seqFault, insertFault)
    {
      r := repo.CreateUser(dto, bc, now, seqFault, insertFault);
    }

    function GetUserByID(id: int, fault: Option<string>): (r: Result<UserResponse>)
      reads repo.db
      ensures r == repo.GetUserByID(id, fault)
    {
      repo.GetUserByID(id, fault)
    }

    method GetAllUsers(fault: Option<string>) returns (r: Result<seq<UserResponse>>)
      ensures fault.Some? ==> r == Err(Wrap("failed to retrieve users", fault.value))
      ensures fault.None? ==> r.Ok? && |r.value| == |repo.db.users|
      ensures fault.None? ==> forall i :: 0 <= i < |repo.db.users| ==> r.value[i] == Project(repo.db.users[i])
    {
      r := repo.GetAllUsers(fault);
    }

    method UpdateUser(id: int, dto: UserUpdate, now: Time, fault: Option<string>) returns (r: Result<UserResponse>)
      requires repo.db.Valid()
      modifies repo.db
      ensures repo.db.Valid()
      ensures Step(repo.db.State(), r) == UpdateUserStep(old(repo.db.State()), id, dto, now, fault)
    {
      r := repo.UpdateUser(id, dto, now, fault);
    }

    /** The intended update: name and email only. */
    method UpdateUserFields(id: int, dto: UserUpdate, now: Time, fault: Option<string>) returns (r: Result<UserResponse>)
      requires repo.db.Valid()
      modifies repo.db
      ensures repo.db.Valid()
      ensures Step(repo.db.State(), r) == UpdateFieldsStep(old(repo.db.State()), id, dto, now, fault)
    {
      r := repo.UpdateUserFields(id, dto, now, fault);
    }

    method DeleteUser(id: int, fault: Option<string>) returns (err: Outcome)
      requires repo.db.Valid()
      modifies repo.db
      ensures repo.db.Valid()
      ensures Step(repo.db.State(), err) == DeleteUserStep(old(repo.db.State()), id, fault)
    {
      err := repo.DeleteUser(id, fault);
    }
  }

  class AuthService {
    const repo: AuthRepository

    constructor (repo: AuthRepository)
      ensures this.repo == repo
    {
      this.repo := repo;
    }

    method RegisterUser(dto: UserRegister, bc: Bcrypt, now: Time,
                        seqFault: Option<string>, insertFault: Option<string>) returns (err: Outcome)
      requires repo.db.Valid()
      modifies repo.db, dto
      ensures repo.db.Valid()
      ensures var r := ServiceRegisterStep(old(repo.db.State()), old(dto.Form()), bc, now, seqFault, insertFault);
        repo.db.State() == r.store && err == r.outcome && dto.Form() == old(dto.Form()).(password := r.dtoPassword)
    {
      var hashed := bc.hash(dto.password);
      if hashed.Err? {
        return Fail(hashed.error);
      }
      dto.password := hashed.value;
      err := repo.RegisterUser(dto, bc, now, seqFault, insertFault);
    }

    /** The intended registration: the password is hashed once, by the
        repository. */
    method RegisterUserHashOnce(dto: UserRegister, bc: Bcrypt, now: Time,
                                seqFault: Option<string>, insertFault: Option<string>) returns (err: Outcome)
      requires repo.db.Valid()
      modifies repo.db, dto
      ensures repo.db.Valid()
      ensures var r := RegisterStep(old(repo.db.State()), old(dto.Form()), bc, now, seqFault, insertFault);
        repo.db.State() == r.store && err == r.outcome && dto.Form() == old(dto.Form()).(password := r.dtoPassword)
    {
      err := repo.RegisterUser(dto, bc, now, seqFault, insertFault);
    }

    function AuthenticateUser(input: UserAuthenticate, bc: Bcrypt, jwt: Jwt, fault: Option<string>): (r: Result<string>)
      reads repo.db
      ensures r == repo.AuthenticateUser(input, bc, jwt, fault)
    {
      repo.AuthenticateUser(input, bc, jwt, fault)
    }
  }
}
