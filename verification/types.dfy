/** Value types shared by the whole application: the enumerations of lib/types.ts
    and the optional / fallible wrappers used where the source returns null or throws. */
module Types {

  datatype Option<+T> = None | Some(value: T)

  /** Success or a failure carrying the thrown error's message. */
  datatype Result<+T> = Ok(value: T) | Fail(message: string)

  /** The four roles; they form a flat set, no role implies another. */
  datatype Role = Admin | TestLead | Tester | ReadOnly

  function RoleName(r: Role): string
  {
    match r
    case Admin => "admin"
    case TestLead => "test-lead"
    case Tester => "tester"
    case ReadOnly => "read-only"
  }

  /** The role a string names, if any (`validRoles.includes(role)`). */
  function ParseRole(s: string): (r: Option<Role>)
    ensures r.Some? ==> RoleName(r.value) == s
    ensures r.None? ==> forall role :: RoleName(role) != s
  {
    if s == "admin" then Some(Admin)
    else if s == "test-lead" then Some(TestLead)
    else if s == "tester" then Some(Tester)
    else if s == "read-only" then Some(ReadOnly)
    else None
  }

  /** Parsing a role's name gives the role back, so distinct roles have distinct names. */
  lemma RoleNameRoundTrip(r: Role)
    ensures ParseRole(RoleName(r)) == Some(r)
  {
  }

  /** Test-case priority and defect severity share these four levels. */
  datatype Priority = Critical | High | Medium | Low

  function PriorityName(p: Priority): string
  {
    match p
    case Critical => "Critical"
    case High => "High"
    case Medium => "Medium"
    case Low => "Low"
  }

  function ParsePriority(s: string): (r: Option<Priority>)
    ensures r.Some? ==> PriorityName(r.value) == s
    ensures r.None? ==> forall p :: PriorityName(p) != s
  {
    if s == "Critical" then Some(Critical)
    else if s == "High" then Some(High)
    else if s == "Medium" then Some(Medium)
    else if s == "Low" then Some(Low)
    else None
  }

  datatype ExecutionStatus = Pass | Failed | Blocked | Skipped

  function ExecutionStatusName(s: ExecutionStatus): string
  {
    match s
    case Pass => "Pass"
    case Failed => "Fail"
    case Blocked => "Blocked"
    case Skipped => "Skipped"
  }

  /** `["Pass", "Fail", "Blocked", "Skipped"].includes(status)`. */
  function ParseExecutionStatus(s: string): (r: Option<ExecutionStatus>)
    ensures r.Some? ==> ExecutionStatusName(r.value) == s
    ensures r.None? ==> forall st :: ExecutionStatusName(st) != s
  {
    if s == "Pass" then Some(Pass)
    else if s == "Fail" then Some(Failed)
    else if s == "Blocked" then Some(Blocked)
    else if s == "Skipped" then Some(Skipped)
    else None
  }

  /** The authenticated user as the session token carries it (lib/auth.ts `User`). */
  datatype User = User(id: nat, email: string, fullName: string, role: Role)
}
