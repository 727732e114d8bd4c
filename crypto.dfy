/** The two cryptographic collaborators, kept abstract: bcrypt for passwords
    and the JWT helpers for bearer tokens. Neither salts nor signatures are
    modelled; what the rest of the model may rely on is stated as predicates
    that callers must assume explicitly. */
module Crypto {
  import opened Common

  /** The claims carried by a verified token. */
  type Claims = map<string, string>

  /** `bcrypt.GenerateFromPassword` (which can fail) and
      `bcrypt.CompareHashAndPassword(hashed, plain)` (`None` when they match,
      otherwise the error it reports). */
  datatype Bcrypt = Bcrypt(hash: string -> Result<string>, compare: (string, string) -> Option<string>)
  {
    /** A password always matches its own hash. */
    ghost predicate Sound()
    {
      forall p :: hash(p).Ok? ==> compare(hash(p).value, p) == None
    }

    /** A hash matches no password but the one it was made from. */
    ghost predicate Binding()
    {
      forall x, p :: hash(x).Ok? && compare(hash(x).value, p) == None ==> p == x
    }

    /** No password is its own hash. */
    ghost predicate NoFixedPoint()
    {
      forall p :: hash(p).Ok? ==> hash(p).value != p
    }

    /** An empty stored hash matches nothing (bcrypt reports it too short). */
    ghost predicate RejectsEmptyHash()
    {
      forall p :: compare("", p).Some?
    }
  }

  /** `utils.GenerateToken(name, email)` and `utils.VerifyToken(token)`. */
  datatype Jwt = Jwt(generate: (string, string) -> Result<string>, verify: string -> Result<Claims>)
  {
    /** Verifying an issued token gives back its name and email claims. */
    ghost predicate RoundTrip()
    {
      forall name, email :: generate(name, email).Ok? ==>
        var v := verify(generate(name, email).value);
        v.Ok? && "name" in v.value && v.value["name"] == name && "email" in v.value && v.value["email"] == email
    }

    /** Issued tokens contain no space (a signed JWT is three base64url
        segments joined by dots). */
    ghost predicate SpaceFree()
    {
      forall name, email :: generate(name, email).Ok? ==> ' ' !in generate(name, email).value
    }
  }
}
