/** app/api/auth/register/route.ts: open sign-up. The account is stored with a normalised
    email, a hashed password, a sanitised name and a known role, and the new user is
    signed in at once. Hashing and signing are parameters. */
module RegisterRoute {
  import opened Types
  import opened Text
  import opened Json
  import opened Store
  import opened Handler
  import opened Auth
  import opened Security

  /** The request body; a field the client left out is None. */
  datatype RegisterBody = RegisterBody(
    email: Option<string>, password: Option<string>, fullName: Option<string>, role: Option<JsValue>)

  /** What a well-formed request asks to store, before hashing. */
  datatype Registration = Registration(email: string, password: string, fullName: string, role: Role)

  /** `email.trim().toLowerCase()`: the form accounts are stored and looked up under. */
  function NormalEmail(email: string): string
  {
    ToLower(Trim(email))
  }

  /** `WHERE email = ...` on the users table. */
  function EmailIs(email: string): UserFields -> bool
  {
    (f: UserFields) => f.email == email
  }

  /** Lines 12 and 39-40: a role the application knows, otherwise (absent included) tester. */
  function RoleOf(role: Option<JsValue>): (r: Role)
    ensures role.Some? && role.value.Str? && ParseRole(role.value.s).Some? ==> RoleName(r) == role.value.s
    ensures !(role.Some? && role.value.Str? && ParseRole(role.value.s).Some?) ==> r == Tester
  {
    if role.Some? && role.value.Str? && ParseRole(role.value.s).Some? then ParseRole(role.value.s).value else Tester
  }

  /** Lines 14-40: the required fields, the email's shape, the password's length, then the
      stored forms of email, name and role. */
  function CheckRegistration(body: RegisterBody): (d: Decision<Registration>)
    ensures !GivenText(body.email) || !GivenText(body.password) || !GivenText(body.fullName) ==>
      d == Refuse(ErrorResponse(400, "Email, password, and full name are required"))
    ensures (GivenText(body.email) && GivenText(body.password) && GivenText(body.fullName) &&
      !IsValidEmail(body.email.value)) ==>
      d == Refuse(ErrorResponse(400, "Invalid email format"))
    ensures (GivenText(body.email) && GivenText(body.password) && GivenText(body.fullName) &&
      IsValidEmail(body.email.value) && |body.password.value| < 8) ==>
      d == Refuse(ErrorResponse(400, "Password must be at least 8 characters long"))
    ensures d.Accept? <==>
      GivenText(body.email) && GivenText(body.password) && GivenText(body.fullName) &&
      IsValidEmail(body.email.value) && |body.password.value| >= 8
    ensures d.Accept? ==>
      d.value.email == ToLower(body.email.value) && d.value.email == NormalEmail(body.email.value) &&
      d.value.password == body.password.value && |d.value.password| >= 8 &&
      d.value.fullName == SanitizeText(body.fullName.value) && NoAngles(d.value.fullName) &&
      d.value.role == RoleOf(body.role)
  {
    if !GivenText(body.email) || !GivenText(body.password) || !GivenText(body.fullName) then
      Refuse(ErrorResponse(400, "Email, password, and full name are required"))
    else if !IsValidEmail(body.email.value) then
      Refuse(ErrorResponse(400, "Invalid email format"))
    else if |body.password.value| < 8 then
      Refuse(ErrorResponse(400, "Password must be at least 8 characters long"))
    else
      ValidEmailIsTrimmed(body.email.value);
      Accept(Registration(
        NormalEmail(body.email.value), body.password.value, SanitizeText(body.fullName.value), RoleOf(body.role)))
  }

  /** The user object both auth routes answer with: id, email, full_name and role, and
      nothing else (no password hash). */
  function UserJson(u: User): (v: JsValue)
    ensures v.Object? && v.fields.Keys == {"id", "email", "full_name", "role"}
    ensures v.fields["id"] == Num(u.id) && v.fields["email"] == Str(u.email)
    ensures v.fields["full_name"] == Str(u.fullName) && v.fields["role"] == Str(RoleName(u.role))
  {
    Object(map["id" := Num(u.id), "email" := Str(u.email), "full_name" := Str(u.fullName), "role" := Str(RoleName(u.role))])
  }

  /** The user a users row describes. */
  function UserOf(rec: Record<UserFields>): User
  {
    User(rec.id, rec.fields.email, rec.fields.fullName, rec.fields.role)
  }

  /** No two accounts share an email, the invariant the 409 answer keeps. */
  predicate UniqueEmails(rows: seq<Record<UserFields>>)
  {
    forall i, j :: 0 <= i < j < |rows| ==> rows[i].fields.email != rows[j].fields.email
  }

  /** Appending an account whose email no row has keeps the emails unique. */
  lemma AddKeepsUnique(rows: seq<Record<UserFields>>, rec: Record<UserFields>)
    requires UniqueEmails(rows) && FirstOf(rows, EmailIs(rec.fields.email)).None?
    ensures UniqueEmails(rows + [rec])
  {
    var all := rows + [rec];
    forall i, j | 0 <= i < j < |all|
      ensures all[i].fields.email != all[j].fields.email
    {
      if j == |rows| {
        assert !EmailIs(rec.fields.email)(rows[i].fields);
      }
    }
  }

  /** `POST /api/auth/register`. */
  method Register(body: RegisterBody, hash: string -> string, sign: Claims -> string, jar: CookieJar, db: Database)
    returns (r: Response)
    requires db.users.Valid()
    modifies db.users, jar
    ensures db.users.Valid()
    ensures CheckRegistration(body).Refuse? ==>
      r == CheckRegistration(body).response && unchanged(db.users, jar)
    ensures CheckRegistration(body).Accept? && !db.up ==>
      r == InternalError && unchanged(db.users, jar)
    ensures (CheckRegistration(body).Accept? && db.up &&
      FirstOf(old(db.users.rows), EmailIs(CheckRegistration(body).value.email)).Some?) ==>
      r == ErrorResponse(409, "User with this email already exists") && unchanged(db.users, jar)
    ensures (CheckRegistration(body).Accept? && db.up &&
      FirstOf(old(db.users.rows), EmailIs(CheckRegistration(body).value.email)).None?) ==>
      var reg := CheckRegistration(body).value;
      var user := User(old(db.users.nextId), reg.email, reg.fullName, reg.role);
      db.users.rows == old(db.users.rows) + [Record(user.id, UserFields(reg.email, hash(reg.password), reg.fullName, reg.role))] &&
      db.users.nextId == user.id + 1 &&
      jar.token == Some(Cookie(sign(TokenClaims(user, db.now)), true, jar.production, true, CookieMaxAge, "/")) &&
      r == Response(201, Object(map["message" := Str("User registered successfully"), "user" := UserJson(user)]))
    ensures UniqueEmails(old(db.users.rows)) ==> UniqueEmails(db.users.rows)
  {
    var checked := CheckRegistration(body);
    if checked.Refuse? {
      return checked.response;
    }
    if !db.up {
      return InternalError;
    }
    var reg := checked.value;
    var existing := db.users.First(EmailIs(reg.email));
    if existing.Some? {
      return ErrorResponse(409, "User with this email already exists");
    }
    r := Enrol(reg, hash, sign, jar, db);
  }

  /** Lines 53-78: store the account, sign the new user in and answer with the user. */
  method Enrol(reg: Registration, hash: string -> string, sign: Claims -> string, jar: CookieJar, db: Database)
    returns (r: Response)
    requires db.users.Valid() && FirstOf(db.users.rows, EmailIs(reg.email)).None?
    modifies db.users, jar
    ensures db.users.Valid()
    ensures var user := User(old(db.users.nextId), reg.email, reg.fullName, reg.role);
      db.users.rows == old(db.users.rows) + [Record(user.id, UserFields(reg.email, hash(reg.password), reg.fullName, reg.role))] &&
      db.users.nextId == user.id + 1 &&
      jar.token == Some(Cookie(sign(TokenClaims(user, db.now)), true, jar.production, true, CookieMaxAge, "/")) &&
      r == Response(201, Object(map["message" := Str("User registered successfully"), "user" := UserJson(user)]))
    ensures UniqueEmails(old(db.users.rows)) ==> UniqueEmails(db.users.rows)
  {
    ghost var before := db.users.rows;
    var fields := UserFields(reg.email, hash(reg.password), reg.fullName, reg.role);
    var id := db.users.Insert(fields);
    if UniqueEmails(before) {
      AddKeepsUnique(before, Record(id, fields));
    }
    var user := User(id, reg.email, reg.fullName, reg.role);
    jar.SetAuthCookie(sign(TokenClaims(user, db.now)));
    r := Response(201, Object(map["message" := Str("User registered successfully"), "user" := UserJson(user)]));
  }
}
