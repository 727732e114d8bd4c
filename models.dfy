/** The stored user document (models/user.go) and the request and response
    records that travel between the layers (dtos/user.go). */
module Models {
  import opened Common

  /** A document of the `users` collection. The datastore's own `_id` is left
      out: it is never read, never exposed and omitted when zero. */
  datatype User = User(id: int, name: string, email: string, password: string, createdAt: Time)

  /** The public projection of a user: it has no password field at all. */
  datatype UserResponse = UserResponse(id: int, name: string, email: string, createdAt: Time)

  /** Body of a login request. */
  datatype UserAuthenticate = UserAuthenticate(email: string, password: string)

  /** Body of an update request. */
  datatype UserUpdate = UserUpdate(name: string, email: string)

  /** The value of a registration body, as bound from JSON. */
  datatype RegisterForm = RegisterForm(name: string, email: string, password: string)

  /** A registration request as the layers share it: one record passed by
      pointer, whose `password` the services and repositories overwrite. */
  class UserRegister {
    var name: string
    var email: string
    var password: string

    constructor (form: RegisterForm)
      ensures Form() == form
    {
      name, email, password := form.name, form.email, form.password;
    }

    function Form(): RegisterForm
      reads this
    {
      RegisterForm(name, email, password)
    }
  }

  /** The `UserResponse` built from a stored user (the timestamp's RFC 3339
      rendering is left out). */
  function Project(u: User): (r: UserResponse)
    ensures r.id == u.id && r.name == u.name && r.email == u.email && r.createdAt == u.createdAt
  {
    UserResponse(u.id, u.name, u.email, u.createdAt)
  }
}
