/**
 * The relational admin login route: the admins table is searched for the
 * submitted user name, and a row whose `password_hash` is non-empty earns a
 * one-day token. The submitted password is read but never compared: any
 * password is accepted for a user that exists.
 */
module AuthApi {
  import opened Js
  import opened JsArray
  import opened Postgrest
  import opened Json

  /** A row of the admins table; a missing or null `password_hash` is `None`. */
  datatype AdminRow = AdminRow(username: string, password_hash: Option<string>)

  const InvalidCredentials: string := "Invalid credentials"
  const AuthenticationFailed: string := "Authentication failed"

  /** The claims signed into the token and its lifetime. */
  datatype Claims = Claims(username: string, role: string)
  datatype TokenRequest = TokenRequest(claims: Claims, secret: string, expiresIn: string)

  /**
   * `select("*").eq("username", username).single()` over the table, where
   * `failed` says the database reports an error: the row exactly when no
   * error occurs and exactly one row carries the name.
   */
  function AdminLookup(admins: seq<AdminRow>, username: string, failed: bool): (r: Option<AdminRow>)
    ensures r.Some? ==> !failed && r.value in admins && r.value.username == username
    ensures r.Some? <==> !failed && |Filter(admins, (a: AdminRow) => a.username == username)| == 1
  {
    if failed then None else Single(admins, (a: AdminRow) => a.username == username)
  }

  /** `process.env.JWT_SECRET || "fallback_secret"`. */
  function Secret(env: Option<string>): (s: string)
    ensures StringTruthy(env) ==> s == env.value
    ensures !StringTruthy(env) ==> s == "fallback_secret"
  {
    OrElse(env, "fallback_secret")
  }

  /** The submitted `username` when it is a string; any other value matches no row. */
  function SubmittedName(body: JsValue): (r: Option<string>)
    ensures r.Some? <==> Member(body, "username").Some? && Member(body, "username").value.Str?
    ensures r.Some? ==> Member(body, "username") == Some(Str(r.value))
  {
    var name := Member(body, "username");
    if name.Some? && name.value.Str? then Some(name.value.s) else None
  }

  /**
   * `POST /api/auth`. `body` is the parsed request body (`None` when it is
   * not JSON). The answer is the token to sign, or an error; a body that
   * cannot be destructured is a thrown error, answered with 500.
   */
  function Post(body: Option<JsValue>, admins: seq<AdminRow>, failed: bool, env: Option<string>): (r: Response<TokenRequest>)
    ensures body.None? || body == Some(Null) ==> r == Error(500, AuthenticationFailed)
    ensures body.Some? && body.value != Null ==>
      var row := if SubmittedName(body.value).Some? then AdminLookup(admins, SubmittedName(body.value).value, failed) else None;
      (row.None? ==> r == Error(401, InvalidCredentials)) &&
      (row.Some? && !StringTruthy(row.value.password_hash) ==> r == Error(401, InvalidCredentials)) &&
      (row.Some? && StringTruthy(row.value.password_hash) ==>
         r == Ok(TokenRequest(Claims(row.value.username, "admin"), Secret(env), "1d")))
  {
    if body.None? || body.value.Null? then Error(500, AuthenticationFailed)
    else
      var name := SubmittedName(body.value);
      var row := if name.Some? then AdminLookup(admins, name.value, failed) else None;
      if row.None? then Error(401, InvalidCredentials)
      else if StringTruthy(row.value.password_hash) then
        Ok(TokenRequest(Claims(name.value, "admin"), Secret(env), "1d"))
      else Error(401, InvalidCredentials)
  }

  /**
   * A token names the user it was asked for, as the admin role, for one day:
   * every token issued is for the one row holding the submitted name, and
   * that row has a non-empty hash.
   */
  lemma TokenOnlyForStoredAdmin(body: JsValue, admins: seq<AdminRow>, failed: bool, env: Option<string>)
    requires Post(Some(body), admins, failed, env).Ok?
    ensures var t := Post(Some(body), admins, failed, env).body;
            !failed && Member(body, "username") == Some(Str(t.claims.username)) &&
            t.claims.role == "admin" && t.expiresIn == "1d" &&
            (exists row :: row in admins && row.username == t.claims.username && StringTruthy(row.password_hash)) &&
            |Filter(admins, (a: AdminRow) => a.username == t.claims.username)| == 1
  {
    var row := AdminLookup(admins, SubmittedName(body).value, failed).value;
    assert row in admins;
  }

  /**
   * The password is never compared: two requests that differ only in the
   * `password` member get the same answer. A user who exists with a hash
   * is let in whatever password is sent.
   */
  lemma PasswordIgnored(fields: map<string, JsValue>, p1: JsValue, p2: JsValue,
                        admins: seq<AdminRow>, failed: bool, env: Option<string>)
    ensures Post(Some(Obj(fields["password" := p1])), admins, failed, env) ==
            Post(Some(Obj(fields["password" := p2])), admins, failed, env)
  {
    assert Member(Obj(fields["password" := p1]), "username") == Member(Obj(fields["password" := p2]), "username");
  }

  /** A stored admin with a non-empty hash gets a token for any password at all. */
  lemma AnyPasswordAccepted(name: string, password: JsValue, admins: seq<AdminRow>, env: Option<string>)
    requires AdminLookup(admins, name, false).Some?
    requires StringTruthy(AdminLookup(admins, name, false).value.password_hash)
    ensures Post(Some(Obj(map["username" := Str(name), "password" := password])), admins, false, env) ==
            Ok(TokenRequest(Claims(name, "admin"), Secret(env), "1d"))
  {
    assert SubmittedName(Obj(map["username" := Str(name), "password" := password])) == Some(name);
  }

  /** A user name no row holds, or a lookup error, is refused with 401. */
  lemma UnknownUserRefused(name: string, password: JsValue, admins: seq<AdminRow>, failed: bool, env: Option<string>)
    requires failed || forall i :: 0 <= i < |admins| ==> admins[i].username != name
    ensures Post(Some(Obj(map["username" := Str(name), "password" := password])), admins, failed, env) ==
            Error(401, InvalidCredentials)
  {
    assert SubmittedName(Obj(map["username" := Str(name), "password" := password])) == Some(name);
    FilterExtremes(admins, (a: AdminRow) => a.username == name);
  }

  /** A stored admin whose hash is empty or missing is refused with 401. */
  lemma EmptyHashRefused(name: string, password: JsValue, admins: seq<AdminRow>, env: Option<string>)
    requires AdminLookup(admins, name, false).Some?
    requires !StringTruthy(AdminLookup(admins, name, false).value.password_hash)
    ensures Post(Some(Obj(map["username" := Str(name), "password" := password])), admins, false, env) ==
            Error(401, InvalidCredentials)
  {
    assert SubmittedName(Obj(map["username" := Str(name), "password" := password])) == Some(name);
  }
}
