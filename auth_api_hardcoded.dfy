/**
 * The document-store variant of the admin login route: no lookup at all,
 * one hard-coded pair of credentials earns a one-day token.
 */
module AuthApiHardcoded {
  import opened Js
  import opened Json

  const AdminName: string := "admin"
  const AdminPassword: string := "admin123"

  const InvalidCredentials: string := "Invalid credentials"
  const AuthenticationFailed: string := "Authentication failed"

  datatype Claims = Claims(username: string, role: string)
  datatype TokenRequest = TokenRequest(claims: Claims, secret: string, expiresIn: string)

  /** The signing secret when `JWT_SECRET` is unset or empty: `process.env.JWT_SECRET || "secret"`. */
  const FallbackSecret: string := "secret"

  /** `username === "admin" && password === "admin123"` on the destructured body. */
  predicate Accepted(body: JsValue)
  {
    Member(body, "username") == Some(Str(AdminName)) && Member(body, "password") == Some(Str(AdminPassword))
  }

  /** `POST /api/auth`: `body` is the parsed request body, `None` when it is not JSON. */
  function Post(body: Option<JsValue>, env: Option<string>): (r: Response<TokenRequest>)
    ensures body.None? || body == Some(Null) ==> r == Error(500, AuthenticationFailed)
    ensures r.Ok? <==> body.Some? && Accepted(body.value)
    ensures r.Ok? ==> r.body == TokenRequest(Claims(AdminName, "admin"), OrElse(env, FallbackSecret), "1d")
    ensures r.Error? && r.status != 500 ==> r == Error(401, InvalidCredentials)
  {
    if body.None? || body.value.Null? then Error(500, AuthenticationFailed)
    else if Member(body.value, "username") == Some(Str(AdminName)) && Member(body.value, "password") == Some(Str(AdminPassword)) then
      Ok(TokenRequest(Claims(AdminName, "admin"), OrElse(env, FallbackSecret), "1d"))
    else Error(401, InvalidCredentials)
  }

  /** For a submitted pair of strings: a token exactly for "admin" / "admin123", 401 for every other pair. */
  lemma OnlyTheHardcodedPair(username: string, password: string, env: Option<string>)
    ensures var r := Post(Some(Obj(map["username" := Str(username), "password" := Str(password)])), env);
            (r.Ok? <==> username == AdminName && password == AdminPassword) &&
            (r.Error? ==> r == Error(401, InvalidCredentials))
  {
    var body := Obj(map["username" := Str(username), "password" := Str(password)]);
    assert Member(body, "username") == Some(Str(username));
    assert Member(body, "password") == Some(Str(password));
  }

  /** The answer depends on the two submitted members only: other members of the body make no difference. */
  lemma OnlyTheTwoMembersCount(fields: map<string, JsValue>, key: string, v: JsValue, env: Option<string>)
    requires key != "username" && key != "password"
    ensures Post(Some(Obj(fields[key := v])), env) == Post(Some(Obj(fields)), env)
  {
    assert Member(Obj(fields[key := v]), "username") == Member(Obj(fields), "username");
    assert Member(Obj(fields[key := v]), "password") == Member(Obj(fields), "password");
  }

  /** A password that is not a string, or a name differing only in case, is refused. */
  lemma StrictComparison(env: Option<string>)
    ensures Post(Some(Obj(map["username" := Str("admin"), "password" := Num(Int(123))])), env) == Error(401, InvalidCredentials)
    ensures Post(Some(Obj(map["username" := Str("Admin"), "password" := Str("admin123")])), env) == Error(401, InvalidCredentials)
  {
    assert Member(Obj(map["username" := Str("admin"), "password" := Num(Int(123))]), "password") == Some(Num(Int(123)));
    assert Member(Obj(map["username" := Str("Admin"), "password" := Str("admin123")]), "username") == Some(Str("Admin"));
    assert "Admin" != "admin" by { assert "Admin"[0] != "admin"[0]; }
  }
}
