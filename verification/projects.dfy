/** app/api/projects/route.ts: the projects a user may see, each with its number of test
    cases (GET), and the creation of a project with its creator as first member (POST,
    admins and test leads only). The listing reads the projects and project_members
    tables; the per-project COUNT queries go to the uninterpreted engine. Both listing
    queries order by `created_at DESC`; the model lists the newest insertion first. */
module ProjectsRoute {
  import opened Types
  import opened Text
  import opened Json
  import opened SqlQuery
  import opened Store
  import opened Handler
  import opened Middleware

  /** Whether `project_members` links the user to the project. */
  predicate IsMember(members: seq<Record<MemberFields>>, userId: nat, projectId: nat)
  {
    exists i :: 0 <= i < |members| && members[i].fields == MemberFields(projectId, userId)
  }

  /** Whether the caller sees a project: an admin every one, anybody else those they are a
      member of. */
  predicate Sees(u: User, members: seq<Record<MemberFields>>, projectId: nat)
  {
    u.role == Admin || IsMember(members, u.id, projectId)
  }

  /** Lines 15-51: the projects the caller sees, newest first. */
  function VisibleProjects(u: User, projects: seq<Record<ProjectFields>>, members: seq<Record<MemberFields>>)
    : (vs: seq<Record<ProjectFields>>)
    ensures |vs| <= |projects|
  {
    if projects == [] then []
    else
      var last := projects[|projects| - 1];
      (if Sees(u, members, last.id) then [last] else []) + VisibleProjects(u, projects[..|projects| - 1], members)
  }

  /** A project is listed exactly when it exists and the caller sees it. */
  lemma {:induction false} VisibleExactly(u: User, projects: seq<Record<ProjectFields>>, members: seq<Record<MemberFields>>)
    ensures forall p :: p in VisibleProjects(u, projects, members) <==> p in projects && Sees(u, members, p.id)
  {
    if projects != [] {
      var init := projects[..|projects| - 1];
      VisibleExactly(u, init, members);
      assert projects == init + [projects[|projects| - 1]];
    }
  }

  /** Ids strictly decrease along the list: newest first, none twice. */
  predicate NewestFirst(vs: seq<Record<ProjectFields>>)
  {
    forall i, j :: 0 <= i < j < |vs| ==> vs[i].id > vs[j].id
  }

  /** Over a table whose ids ascend, the list runs from the newest project to the oldest,
      so no project appears twice. */
  lemma {:induction false} VisibleNewestFirst(u: User, projects: seq<Record<ProjectFields>>, members: seq<Record<MemberFields>>, nextId: nat)
    requires Ascending(projects, nextId)
    ensures NewestFirst(VisibleProjects(u, projects, members))
  {
    if projects != [] {
      var init := projects[..|projects| - 1];
      var last := projects[|projects| - 1];
      assert Ascending(init, nextId);
      VisibleNewestFirst(u, init, members, nextId);
      VisibleExactly(u, init, members);
      var rest := VisibleProjects(u, init, members);
      assert NewestFirst(rest);
      forall k | 0 <= k < |rest|
        ensures rest[k].id < last.id
      {
        assert rest[k] in init;
      }
      var vs := VisibleProjects(u, projects, members);
      if Sees(u, members, last.id) {
        assert vs == [last] + rest;
        forall i, j | 0 <= i < j < |vs|
          ensures vs[i].id > vs[j].id
        {
          assert vs[j] == rest[j - 1];
          if i > 0 {
            assert vs[i] == rest[i - 1];
          }
        }
      } else {
        assert vs == rest;
      }
    }
  }

  /** An admin sees the whole table. */
  lemma AdminSeesAll(u: User, projects: seq<Record<ProjectFields>>, members: seq<Record<MemberFields>>)
    requires u.role == Admin
    ensures |VisibleProjects(u, projects, members)| == |projects|
    ensures forall p :: p in projects ==> p in VisibleProjects(u, projects, members)
  {
    VisibleExactly(u, projects, members);
    AdminCount(u, projects, members);
  }

  lemma {:induction false} AdminCount(u: User, projects: seq<Record<ProjectFields>>, members: seq<Record<MemberFields>>)
    requires u.role == Admin
    ensures |VisibleProjects(u, projects, members)| == |projects|
  {
    if projects != [] {
      AdminCount(u, projects[..|projects| - 1], members);
    }
  }

  // ---------------------------------------------------------------------------
  // Test case counts

  const CountText: string := "SELECT COUNT(*) as count FROM test_cases WHERE project_id = "

  /** Lines 59-63: the count query of one project. */
  function CountQuery(projectId: nat): Query
  {
    Query([Sql(CountText), Param(1)], [Num(projectId)])
  }

  /** Lines 56-76: `parseInt(countResult[0]?.count?.toString() || "0")`, and 0 when the
      query throws. */
  function TestCaseCount(engine: Query -> Option<seq<Row>>, projectId: nat): (n: nat)
    ensures engine(CountQuery(projectId)).None? ==> n == 0
    ensures engine(CountQuery(projectId)).Some? ==> n == Count(engine(CountQuery(projectId)).value, "count")
  {
    match engine(CountQuery(projectId))
    case None => 0
    case Some(rows) => Count(rows, "count")
  }

  /** `u.full_name as creator_name` of the LEFT JOIN: null when no user has the id. */
  function CreatorName(users: seq<Record<UserFields>>, id: nat): (v: JsValue)
    ensures v != Null ==> exists i :: 0 <= i < |users| && users[i].id == id && v == Str(users[i].fields.fullName)
    ensures v == Null ==> forall i :: 0 <= i < |users| ==> users[i].id != id
  {
    if users == [] then Null
    else if users[0].id == id then Str(users[0].fields.fullName)
    else
      var v := CreatorName(users[1..], id);
      assert forall i :: 0 < i < |users| ==> users[i] == users[1..][i - 1];
      v
  }

  /** A project as a row of the insert (`RETURNING *`). */
  function ProjectFieldsJson(rec: Record<ProjectFields>): (v: JsValue)
    ensures v.Object? && "id" in v.fields && v.fields["id"] == Num(rec.id)
  {
    var f := rec.fields;
    Object(map[
      "id" := Num(rec.id), "name" := Str(f.name), "description" := TextOrNull(f.description),
      "version" := TextOrNull(f.version), "status" := f.status, "created_by" := Num(f.createdBy),
      "created_at" := Num(f.createdAt), "updated_at" := Num(f.createdAt)])
  }

  /** `{ ...project, test_case_count }` with the creator's name from the join. */
  function ListedJson(rec: Record<ProjectFields>, users: seq<Record<UserFields>>, engine: Query -> Option<seq<Row>>): (v: JsValue)
    ensures v.Object? && "id" in v.fields && v.fields["id"] == Num(rec.id)
    ensures "test_case_count" in v.fields && v.fields["test_case_count"] == Num(TestCaseCount(engine, rec.id))
  {
    var row := ProjectFieldsJson(rec).fields;
    Object(row["creator_name" := CreatorName(users, rec.fields.createdBy)]["test_case_count" := Num(TestCaseCount(engine, rec.id))])
  }

  function WithCounts(vs: seq<Record<ProjectFields>>, users: seq<Record<UserFields>>, engine: Query -> Option<seq<Row>>): (items: seq<JsValue>)
    ensures |items| == |vs|
    ensures forall i :: 0 <= i < |vs| ==> items[i] == ListedJson(vs[i], users, engine)
  {
    seq(|vs|, i requires 0 <= i < |vs| => ListedJson(vs[i], users, engine))
  }

  const SchemaError: string := "Database query failed, please check your database schema"

  /** `GET /api/projects`: the visible projects with their counts, or, when the project
      query fails, an empty list with an explanation and still status 200. */
  function ListProjects(caller: Option<User>, up: bool, projects: seq<Record<ProjectFields>>,
                        members: seq<Record<MemberFields>>, users: seq<Record<UserFields>>,
                        engine: Query -> Option<seq<Row>>): (r: Response)
    ensures caller.None? ==> r == Unauthorized
    ensures caller.Some? ==> r.status == 200 && r.body.Object? && "projects" in r.body.fields
    ensures caller.Some? && !up ==>
      r.body == Object(map["projects" := Array([]), "error" := Str(SchemaError)])
    ensures caller.Some? && up ==>
      var vs := VisibleProjects(caller.value, projects, members);
      r.body.fields.Keys == {"projects"} && r.body.fields["projects"] == Array(WithCounts(vs, users, engine))
  {
    match Authorize(caller, None)
    case Reject(response) => response
    case Admit(u) =>
      if !up then Response(200, Object(map["projects" := Array([]), "error" := Str(SchemaError)]))
      else Response(200, Object(map["projects" := Array(WithCounts(VisibleProjects(u, projects, members), users, engine))]))
  }

  /** Every listed project is one the caller sees, carries its own id and its count,
      and the count is 0 when its query fails. */
  lemma ListedProjectsSeen(u: User, projects: seq<Record<ProjectFields>>, members: seq<Record<MemberFields>>,
                           users: seq<Record<UserFields>>, engine: Query -> Option<seq<Row>>, i: nat)
    requires i < |VisibleProjects(u, projects, members)|
    ensures var vs := VisibleProjects(u, projects, members);
      var item := ListProjects(Some(u), true, projects, members, users, engine).body.fields["projects"].items[i];
      vs[i] in projects && Sees(u, members, vs[i].id) &&
      item.fields["id"] == Num(vs[i].id) &&
      (engine(CountQuery(vs[i].id)).None? ==> item.fields["test_case_count"] == Num(0))
  {
    VisibleExactly(u, projects, members);
    var vs := VisibleProjects(u, projects, members);
    assert vs[i] in vs;
  }

  // ---------------------------------------------------------------------------
  // POST

  datatype NewProject = NewProject(
    name: Option<string>, description: Option<string>, version: Option<string>, status: Option<JsValue>)

  /** Lines 105-117: the default status, the required name and the cleaned texts. */
  function CheckNewProject(u: User, body: NewProject, now: int): (d: Decision<ProjectFields>)
    ensures d.Refuse? <==> !GivenText(body.name)
    ensures d.Refuse? ==> d.response == ErrorResponse(400, "Project name is required")
    ensures d.Accept? ==> d.value.name == SanitizeText(body.name.value) && NoAngles(d.value.name)
    ensures d.Accept? ==> d.value.description == SanitizeOptional(body.description) && NoAnglesOptional(d.value.description)
    ensures d.Accept? ==> d.value.version == TrimOptional(body.version)
    ensures d.Accept? ==> d.value.status == if body.status.None? then Str("active") else body.status.value
    ensures d.Accept? ==> d.value.createdBy == u.id
  {
    if !GivenText(body.name) then Refuse(ErrorResponse(400, "Project name is required"))
    else
      SanitisedHasNoAngles(body.name.value, body.description);
      Accept(ProjectFields(
        SanitizeText(body.name.value), SanitizeOptional(body.description), TrimOptional(body.version),
        Default(body.status, Str("active")), u.id, now))
  }

  /** `POST /api/projects`; memberAdded says whether the project_members insert went through. */
  method CreateProject(caller: Option<User>, body: NewProject, memberAdded: bool, db: Database) returns (r: Response)
    requires db.projects.Valid() && db.members.Valid()
    modifies db.projects, db.members
    ensures db.projects.Valid() && db.members.Valid()
    ensures Authorize(caller, Some(Writers)).Reject? ==>
      r == Authorize(caller, Some(Writers)).response && unchanged(db.projects, db.members)
    ensures Authorize(caller, Some(Writers)).Admit? && CheckNewProject(caller.value, body, db.now).Refuse? ==>
      r == CheckNewProject(caller.value, body, db.now).response && unchanged(db.projects, db.members)
    ensures Authorize(caller, Some(Writers)).Admit? && CheckNewProject(caller.value, body, db.now).Accept? && !db.up ==>
      r == ErrorResponse(500, "Failed to create project: " + db.failure) && unchanged(db.projects, db.members)
    ensures Authorize(caller, Some(Writers)).Admit? && CheckNewProject(caller.value, body, db.now).Accept? && db.up ==>
      var rec := Record(old(db.projects.nextId), CheckNewProject(caller.value, body, db.now).value);
      db.projects.rows == old(db.projects.rows) + [rec] && db.projects.nextId == rec.id + 1 &&
      db.members.nextId == old(db.members.nextId) + (if memberAdded then 1 else 0) &&
      db.members.rows == old(db.members.rows) +
        (if memberAdded then [Record(old(db.members.nextId), MemberFields(rec.id, caller.value.id))] else []) &&
      r == Response(201, Object(map["project" := ProjectFieldsJson(rec)]))
  {
    var gate := Authorize(caller, Some(Writers));
    if gate.Reject? {
      return gate.response;
    }
    var user := gate.user;
    var checked := CheckNewProject(user, body, db.now);
    if checked.Refuse? {
      return checked.response;
    }
    if !db.up {
      return ErrorResponse(500, "Failed to create project: " + db.failure);
    }
    var id := db.projects.Insert(checked.value);
    if memberAdded {
      var _ := db.members.Insert(MemberFields(id, user.id));
    }
    r := Response(201, Object(map["project" := ProjectFieldsJson(Record(id, checked.value))]));
  }

  /** Once the creator has been added as a member, the new project is in their list,
      whatever their role; an admin sees it even when the member insert failed. */
  lemma CreatorSeesProject(u: User, projects: seq<Record<ProjectFields>>, members: seq<Record<MemberFields>>,
                           rec: Record<ProjectFields>, memberId: nat, memberAdded: bool)
    requires memberAdded || u.role == Admin
    ensures var members' := members + (if memberAdded then [Record(memberId, MemberFields(rec.id, u.id))] else []);
      rec in VisibleProjects(u, projects + [rec], members')
  {
    var members' := members + (if memberAdded then [Record(memberId, MemberFields(rec.id, u.id))] else []);
    if memberAdded {
      assert members'[|members|].fields == MemberFields(rec.id, u.id);
    }
    VisibleExactly(u, projects + [rec], members');
  }
}
