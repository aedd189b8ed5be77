/** The /api/users router: list, signup (with validation) and login, none behind `checkAuth`. */
module UserRoutes {
  import opened HttpErrors

  const SignupPasswordMinLength: nat := 6

  /** express-validator's `normalizeEmail` sanitizer and `isEmail` check, left abstract. */
  datatype EmailRules = EmailRules(normalize: string -> string, isEmail: string -> bool)

  /** Name present, password of at least six characters, and the email well-formed after it
      was normalized (the sanitizer runs first and rewrites the body's email). */
  predicate SignupInputsValid(name: string, email: string, password: string, rules: EmailRules): (ok: bool)
    ensures ok ==> name != "" && password != ""
  {
    name != "" && |password| >= SignupPasswordMinLength && rules.isEmail(rules.normalize(email))
  }

  datatype Target = GetUsers | Signup | Login

  /** Matching below /api/users; no route consults a token, and HEAD / is served by the GET
      handler. */
  function Route(verb: string, path: seq<string>): (t: Option<Target>)
    ensures t == Some(GetUsers) <==> (verb == "GET" || verb == "HEAD") && path == []
    ensures t == Some(Signup) <==> verb == "POST" && path == ["signup"]
    ensures t == Some(Login) <==> verb == "POST" && path == ["login"]
  {
    if (verb == "GET" || verb == "HEAD") && path == [] then Some(GetUsers)
    else if verb == "POST" && path == ["signup"] then Some(Signup)
    else if verb == "POST" && path == ["login"] then Some(Login)
    else None
  }
}
