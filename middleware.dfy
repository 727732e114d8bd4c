/** `AuthenticationMiddleware` (middleware/auth.go): the checks on the
    `Authorization` header and on the claims of its token, in order. */
module Middleware {
  import opened Common
  import opened Crypto
  import opened Strings
  import opened Http

  /** `Reject`: the 401 written before the chain is aborted. `Proceed`: the
      values set under "email" and "name" before the next handler runs. */
  datatype Verdict = Reject(response: Response) | Proceed(email: string, name: string)

  function Unauthorized(message: string): Response
  {
    Response(StatusUnauthorized, ErrorBody(message))
  }

  /** A header of the form `"Bearer " + token`, the token without spaces. */
  predicate WellFormed(header: string)
  {
    |header| >= 7 && header[..7] == "Bearer " && SpaceFree(header[7..])
  }

  /** The checks after the token is verified: the email claim first, then
      the name claim. */
  function ClaimsVerdict(verified: Result<Claims>): (v: Verdict)
    ensures v.Proceed? <==> verified.Ok? && "email" in verified.value && "name" in verified.value
    ensures v.Proceed? ==> v.email == verified.value["email"] && v.name == verified.value["name"]
    ensures verified.Err? ==> v == Reject(Unauthorized("Invalid authorization token"))
    ensures verified.Ok? && "email" !in verified.value ==> v == Reject(Unauthorized("email not found in token"))
    ensures verified.Ok? && "email" in verified.value && "name" !in verified.value ==>
      v == Reject(Unauthorized("name not found in token"))
  {
    match verified
    case Err(_) => Reject(Unauthorized("Invalid authorization token"))
    case Ok(claims) =>
      if "email" !in claims then Reject(Unauthorized("email not found in token"))
      else if "name" !in claims then Reject(Unauthorized("name not found in token"))
      else Proceed(claims["email"], claims["name"])
  }

  /** The whole middleware, given the header value ("" when absent) and the
      token verifier. */
  function Authenticate(header: string, verify: string -> Result<Claims>): (v: Verdict)
    ensures v.Reject? ==> v.response.status == StatusUnauthorized
    ensures header == [] ==> v == Reject(Unauthorized("Missing authorization token"))
    ensures header != [] && !WellFormed(header) ==> v == Reject(Unauthorized("Invalid authorization token format"))
    // the verifier sees exactly the text after "Bearer "
    ensures WellFormed(header) ==> v == ClaimsVerdict(verify(header[7..]))
    ensures v.Proceed? <==> WellFormed(header) && verify(header[7..]).Ok? &&
                            "email" in verify(header[7..]).value && "name" in verify(header[7..]).value
  {
    if header == [] then Reject(Unauthorized("Missing authorization token"))
    else
      var parts := Split(header);
      BearerSplit(header);
      if |parts| != 2 || parts[0] != "Bearer" then Reject(Unauthorized("Invalid authorization token format"))
      else ClaimsVerdict(verify(parts[1]))
  }

  /** Two spaces after "Bearer" make three parts: the header is refused
      before any token is verified. */
  lemma DoubleSpaceRejected(token: string, verify: string -> Result<Claims>)
    ensures Authenticate("Bearer  " + token, verify) == Reject(Unauthorized("Invalid authorization token format"))
  {
    var h := "Bearer  " + token;
    assert h[7] == ' ';
    assert !SpaceFree(h[7..]) by {
      assert h[7..][0] == ' ';
    }
  }

  /** Any other scheme word is refused, however good the token. */
  lemma SchemeMustBeBearer(scheme: string, token: string, verify: string -> Result<Claims>)
    requires SpaceFree(scheme) && scheme != "Bearer"
    ensures Authenticate(scheme + " " + token, verify) == Reject(Unauthorized("Invalid authorization token format"))
  {
    var h := scheme + " " + token;
    SplitAfterPart(scheme, token);
    BearerSplit(h);
  }

  /** A token that the JWT helper issued passes the middleware, which then
      proceeds with the name and email it was issued for. */
  lemma IssuedTokenAccepted(jwt: Jwt, name: string, email: string)
    requires jwt.RoundTrip() && jwt.SpaceFree()
    requires jwt.generate(name, email).Ok?
    ensures Authenticate("Bearer " + jwt.generate(name, email).value, jwt.verify) == Proceed(email, name)
  {
    var token := jwt.generate(name, email).value;
    var h := "Bearer " + token;
    assert h[7..] == token;
    assert h[..7] == "Bearer ";
    assert SpaceFree(token) by {
      assert ' ' !in token;
    }
  }
}
