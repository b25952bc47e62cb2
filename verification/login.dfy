/** app/api/auth/login/route.ts: sign-in by email and password. The password check is a
    parameter (`verify(password, hash)`, bcrypt's compare); so is token signing. */
module LoginRoute {
  import opened Types
  import opened Json
  import opened Store
  import opened Handler
  import opened Auth
  import opened RegisterRoute

  datatype LoginBody = LoginBody(email: Option<string>, password: Option<string>)

  /** The one answer for an unknown email and for a wrong password alike. */
  const InvalidCredentials: Response := ErrorResponse(401, "Invalid credentials")

  /** Lines 14-48: who the credentials sign in, or why they do not. The account is the
      first row under the normalised email. */
  function LoginOutcome(body: LoginBody, rows: seq<Record<UserFields>>, verify: (string, string) -> bool): (d: Decision<User>)
    ensures !GivenText(body.email) || !GivenText(body.password) ==>
      d == Refuse(ErrorResponse(400, "Email and password are required"))
    ensures GivenText(body.email) && GivenText(body.password) ==>
      (d.Refuse? ==> d.response == InvalidCredentials) &&
      (d.Accept? <==>
        var found := FirstOf(rows, EmailIs(NormalEmail(body.email.value)));
        found.Some? && verify(body.password.value, found.value.fields.passwordHash))
    ensures d.Accept? ==>
      d.value.email == NormalEmail(body.email.value) &&
      exists h :: Record(d.value.id, UserFields(d.value.email, h, d.value.fullName, d.value.role)) in rows &&
        verify(body.password.value, h)
  {
    if !GivenText(body.email) || !GivenText(body.password) then
      Refuse(ErrorResponse(400, "Email and password are required"))
    else
      var email := NormalEmail(body.email.value);
      match FirstOf(rows, EmailIs(email))
      case None => Refuse(InvalidCredentials)
      case Some(rec) =>
        if !verify(body.password.value, rec.fields.passwordHash) then Refuse(InvalidCredentials)
        else
          assert rec.fields.email == email;
          assert Record(rec.id, UserFields(email, rec.fields.passwordHash, rec.fields.fullName, rec.fields.role)) == rec;
          Accept(UserOf(rec))
  }

  /** A refusal says nothing about which check failed: whatever the accounts, every
      refused request with both fields gets the same answer. */
  lemma RefusalsAlike(body: LoginBody, rows1: seq<Record<UserFields>>, rows2: seq<Record<UserFields>>,
                      verify: (string, string) -> bool)
    requires LoginOutcome(body, rows1, verify).Refuse? && LoginOutcome(body, rows2, verify).Refuse?
    ensures LoginOutcome(body, rows1, verify).response == LoginOutcome(body, rows2, verify).response
  {
  }

  /** The first match of an appended row, when no earlier row matches, is that row. */
  lemma {:induction false} FirstOfAppended(rows: seq<Record<UserFields>>, rec: Record<UserFields>, p: UserFields -> bool)
    requires FirstOf(rows, p).None? && p(rec.fields)
    ensures FirstOf(rows + [rec], p) == Some(rec)
  {
    if rows != [] {
      assert (rows + [rec])[1..] == rows[1..] + [rec];
      FirstOfAppended(rows[1..], rec, p);
    }
  }

  /** Signing up and then signing in with the same email and password yields the new
      account, provided the password check accepts a password against its own hash. */
  lemma RegisterThenLogin(body: RegisterBody, rows: seq<Record<UserFields>>, id: nat, hash: string -> string,
                          verify: (string, string) -> bool)
    requires CheckRegistration(body).Accept?
    requires FirstOf(rows, EmailIs(CheckRegistration(body).value.email)).None?
    requires var pw := CheckRegistration(body).value.password; verify(pw, hash(pw))
    ensures var reg := CheckRegistration(body).value;
      var rec := Record(id, UserFields(reg.email, hash(reg.password), reg.fullName, reg.role));
      LoginOutcome(LoginBody(body.email, body.password), rows + [rec], verify) ==
        Accept(User(id, reg.email, reg.fullName, reg.role))
  {
    var reg := CheckRegistration(body).value;
    var rec := Record(id, UserFields(reg.email, hash(reg.password), reg.fullName, reg.role));
    FirstOfAppended(rows, rec, EmailIs(reg.email));
  }

  /** `POST /api/auth/login`. */
  method Login(body: LoginBody, verify: (string, string) -> bool, sign: Claims -> string, jar: CookieJar, db: Database)
    returns (r: Response)
    modifies jar
    ensures !GivenText(body.email) || !GivenText(body.password) ==>
      r == ErrorResponse(400, "Email and password are required") && unchanged(jar)
    ensures GivenText(body.email) && GivenText(body.password) && !db.up ==>
      r == InternalError && unchanged(jar)
    ensures (GivenText(body.email) && GivenText(body.password) && db.up &&
      LoginOutcome(body, db.users.rows, verify).Refuse?) ==>
      r == InvalidCredentials && unchanged(jar)
    ensures (GivenText(body.email) && GivenText(body.password) && db.up &&
      LoginOutcome(body, db.users.rows, verify).Accept?) ==>
      var user := LoginOutcome(body, db.users.rows, verify).value;
      jar.token == Some(Cookie(sign(TokenClaims(user, db.now)), true, jar.production, true, CookieMaxAge, "/")) &&
      r == Response(200, Object(map["message" := Str("Login successful"), "user" := UserJson(user)]))
  {
    if !GivenText(body.email) || !GivenText(body.password) {
      return ErrorResponse(400, "Email and password are required");
    }
    if !db.up {
      return InternalError;
    }
    var outcome := LoginOutcome(body, db.users.rows, verify);
    if outcome.Refuse? {
      return outcome.response;
    }
    var user := outcome.value;
    jar.SetAuthCookie(sign(TokenClaims(user, db.now)));
    r := Response(200, Object(map["message" := Str("Login successful"), "user" := UserJson(user)]));
  }
}
