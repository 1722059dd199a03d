/** Projects: the member list (`users`, elements `{user, role}`) and the draft edit
    that assigns the descriptive fields of a fetched project one by one. */
module Projects {
  import opened Wrappers
  import opened Ids
  import opened Seqs
  import opened JsValues
  import opened Envelope

  datatype ProjectUser = ProjectUser(user: JsValue, role: JsValue)

  /** The fields `EditsaveProjectDraft` assigns. */
  datatype ProjectDetails = ProjectDetails(
    project_name: JsValue,
    startDate: JsValue,
    endDate: JsValue,
    location: JsValue,
    description: JsValue,
    project_reference_number: JsValue,
    project_manager: JsValue,
    business_unit: JsValue,
    unit: JsValue,
    department: JsValue,
    currency: JsValue,
    project_status: JsValue,
    company_name: JsValue,
    image: JsValue)

  datatype ProjectRecord = ProjectRecord(
    id: Id,
    details: ProjectDetails,
    companyId: JsValue,
    createdBy: JsValue,
    users: seq<ProjectUser>,
    budgets: seq<Id>)

  function WithProjectId(id: Id): ProjectRecord -> bool {
    (p: ProjectRecord) => p.id == id
  }

  /** The element condition `users.user` = userId. */
  function IsUser(userId: string): ProjectUser -> bool {
    (u: ProjectUser) => u.user == Str(userId)
  }

  function OtherUser(userId: string): ProjectUser -> bool {
    (u: ProjectUser) => u.user != Str(userId)
  }

  /** The query `{ _id: projectId, "users.user": userId }`. */
  function HasMember(projectId: Id, userId: string): ProjectRecord -> bool {
    (p: ProjectRecord) => p.id == projectId && exists i :: 0 <= i < |p.users| && p.users[i].user == Str(userId)
  }

  /** `$set: { "users.$.role": role }`: the positional operator updates the first
      element that matched the query, scanning from the front. */
  function SetFirstRole(users: seq<ProjectUser>, userId: string, role: JsValue): (r: seq<ProjectUser>)
    ensures |r| == |users|
    ensures forall i :: 0 <= i < |r| ==> r[i].user == users[i].user
  {
    if |users| == 0 then []
    else if users[0].user == Str(userId) then [users[0].(role := role)] + users[1..]
    else [users[0]] + SetFirstRole(users[1..], userId, role)
  }

  /** With no element for that user the positional update changes nothing. */
  lemma {:induction false} SetFirstRoleMissing(users: seq<ProjectUser>, userId: string, role: JsValue)
    requires forall j :: 0 <= j < |users| ==> users[j].user != Str(userId)
    ensures SetFirstRole(users, userId, role) == users
  {
    if |users| > 0 {
      SetFirstRoleMissing(users[1..], userId, role);
    }
  }

  /** When `i` is the first element for that user, exactly that element's role
      changes. */
  lemma {:induction false} SetFirstRoleFirst(users: seq<ProjectUser>, userId: string, role: JsValue, i: nat)
    requires i < |users| && users[i].user == Str(userId)
    requires forall j :: 0 <= j < i ==> users[j].user != Str(userId)
    ensures SetFirstRole(users, userId, role) == users[i := users[i].(role := role)]
  {
    if i > 0 {
      var rest := users[1..];
      SetFirstRoleFirst(rest, userId, role, i - 1);
      assert [users[0]] + rest[i - 1 := rest[i - 1].(role := role)] == users[i := users[i].(role := role)];
    }
  }

  /** The positional update changes the role of exactly the first element with that
      user, keeps its user, and leaves every other element as it was. */
  lemma SetFirstRoleAt(users: seq<ProjectUser>, userId: string, role: JsValue)
    ensures match FindFirst(users, IsUser(userId))
      case None => SetFirstRole(users, userId, role) == users
      case Some(i) => SetFirstRole(users, userId, role) == users[i := users[i].(role := role)]
  {
    match FindFirst(users, IsUser(userId)) {
      case None =>
        SetFirstRoleMissing(users, userId, role);
      case Some(i) =>
        SetFirstRoleFirst(users, userId, role, i);
    }
  }

  /** `$pull: { users: { user: userId } }`. */
  function WithoutMember(users: seq<ProjectUser>, userId: string): (r: seq<ProjectUser>)
    ensures |r| <= |users|
    ensures forall i :: 0 <= i < |r| ==> r[i].user != Str(userId)
  {
    Filter(users, OtherUser(userId))
  }

  /** The pull removes every element with that user and keeps the others. */
  lemma WithoutMemberSpec(users: seq<ProjectUser>, userId: string)
    ensures forall u :: u in WithoutMember(users, userId) <==> u in users && u.user != Str(userId)
    ensures (forall i :: 0 <= i < |users| ==> users[i].user != Str(userId)) ==>
      WithoutMember(users, userId) == users
  {
    forall u ensures u in WithoutMember(users, userId) <==> u in users && u.user != Str(userId) {
      FilterMembership(users, OtherUser(userId), u);
    }
    if forall i :: 0 <= i < |users| ==> users[i].user != Str(userId) {
      FilterKeepsAll(users, OtherUser(userId));
    }
  }

  /** The pull keeps the survivors in order: pulling from a list split in two is
      pulling from each part and joining the results. */
  lemma WithoutMemberKeepsOrder(users: seq<ProjectUser>, userId: string, before: seq<ProjectUser>, after: seq<ProjectUser>)
    requires users == before + after
    ensures WithoutMember(users, userId) == WithoutMember(before, userId) + WithoutMember(after, userId)
  {
    FilterAppend(before, after, OtherUser(userId));
  }

  /** A project fetched from the store, changed in place and saved. */
  class ProjectDocument {
    var id: Id
    var details: ProjectDetails
    var companyId: JsValue
    var createdBy: JsValue
    var users: seq<ProjectUser>
    var budgets: seq<Id>

    function Value(): ProjectRecord
      reads this
    {
      ProjectRecord(id, details, companyId, createdBy, users, budgets)
    }

    constructor Fetched(r: ProjectRecord)
      ensures Value() == r
    {
      id, details, companyId, createdBy := r.id, r.details, r.companyId, r.createdBy;
      users, budgets := r.users, r.budgets;
    }

    /** `project.users.push({ user, role })`. */
    method PushUser(user: JsValue, role: JsValue)
      modifies this
      ensures Value() == old(Value()).(users := old(users) + [ProjectUser(user, role)])
    {
      users := users + [ProjectUser(user, role)];
    }

    /** `project.budgets.push(budget._id)`. */
    method PushBudget(budgetId: Id)
      modifies this
      ensures Value() == old(Value()).(budgets := old(budgets) + [budgetId])
    {
      budgets := budgets + [budgetId];
    }

    /** The draft edit's assignment of the fourteen descriptive fields. */
    method AssignDetails(d: ProjectDetails)
      modifies this
      ensures Value() == old(Value()).(details := d)
    {
      details := details.(
        project_name := d.project_name,
        startDate := d.startDate,
        endDate := d.endDate,
        location := d.location,
        description := d.description,
        project_reference_number := d.project_reference_number,
        project_manager := d.project_manager,
        business_unit := d.business_unit,
        unit := d.unit,
        department := d.department,
        currency := d.currency,
        project_status := d.project_status,
        company_name := d.company_name,
        image := d.image);
    }
  }

  /** `addProjectUser`: appends exactly one `{user, role}` to the project's members
      and changes nothing else; with no such project the handler never replies. */
  method AddProjectUser(stored: seq<ProjectRecord>, projectId: Id, userId: JsValue, role: JsValue)
    returns (stored': seq<ProjectRecord>, response: Response<ProjectRecord>)
    ensures FindFirst(stored, WithProjectId(projectId)).None? ==>
      stored' == stored && response == NoResponse
    ensures FindFirst(stored, WithProjectId(projectId)).Some? ==>
      var k := FindFirst(stored, WithProjectId(projectId)).value;
      var p := stored[k].(users := stored[k].users + [ProjectUser(userId, role)]);
      stored' == stored[k := p] && response == Success("User added Successfully", p)
  {
    var found := FindFirst(stored, WithProjectId(projectId));
    if found.None? {
      return stored, NoResponse;
    }
    var doc := new ProjectDocument.Fetched(stored[found.value]);
    doc.PushUser(userId, role);
    var saved := doc.Value();
    stored' := stored[found.value := saved];
    response := Success("User added Successfully", saved);
  }

  /** `editProjectUser`: the update finds the project only if it has that member, and
      then sets the role of the first matching element; otherwise nothing is updated
      and saving the missing result throws, so there is no reply. */
  method EditProjectUser(stored: seq<ProjectRecord>, projectId: Id, userId: string, newRole: JsValue)
    returns (stored': seq<ProjectRecord>, response: Response<ProjectRecord>)
    ensures FindFirst(stored, HasMember(projectId, userId)).None? ==>
      stored' == stored && response == NoResponse
    ensures FindFirst(stored, HasMember(projectId, userId)).Some? ==>
      var k := FindFirst(stored, HasMember(projectId, userId)).value;
      && stored' == stored[k := stored[k].(users := SetFirstRole(stored[k].users, userId, newRole))]
      && response == Done("User updated Successfully")
  {
    var found := FindFirst(stored, HasMember(projectId, userId));
    if found.None? {
      return stored, NoResponse;
    }
    var k := found.value;
    stored' := stored[k := stored[k].(users := SetFirstRole(stored[k].users, userId, newRole))];
    response := Done("User updated Successfully");
  }

  /** `deleteProjectUser`: pulls every member element with that user. */
  method DeleteProjectUser(stored: seq<ProjectRecord>, projectId: Id, userId: string)
    returns (stored': seq<ProjectRecord>, response: Response<ProjectRecord>)
    ensures FindFirst(stored, WithProjectId(projectId)).None? ==>
      stored' == stored && response == NoResponse
    ensures FindFirst(stored, WithProjectId(projectId)).Some? ==>
      var k := FindFirst(stored, WithProjectId(projectId)).value;
      && stored' == stored[k := stored[k].(users := WithoutMember(stored[k].users, userId))]
      && response == Done("User removed Successfully")
  {
    var found := FindFirst(stored, WithProjectId(projectId));
    if found.None? {
      return stored, NoResponse;
    }
    var k := found.value;
    stored' := stored[k := stored[k].(users := WithoutMember(stored[k].users, userId))];
    response := Done("User removed Successfully");
  }

  /** `EditsaveProjectDraft`: overwrites the descriptive fields and keeps the company,
      creator, members and budgets; an unknown id gets "99" at the default status. */
  method EditProjectDraft(stored: seq<ProjectRecord>, id: Id, d: ProjectDetails)
    returns (stored': seq<ProjectRecord>, response: Response<ProjectRecord>)
    ensures FindFirst(stored, WithProjectId(id)).None? ==>
      && stored' == stored
      && response == Missing("Project with id " + id + " does not exist")
    ensures FindFirst(stored, WithProjectId(id)).Some? ==>
      var k := FindFirst(stored, WithProjectId(id)).value;
      && stored' == stored[k := stored[k].(details := d)]
      && response == Success("Project updated Successfully", stored[k].(details := d))
  {
    var found := FindFirst(stored, WithProjectId(id));
    if found.None? {
      return stored, Missing("Project with id " + id + " does not exist");
    }
    var doc := new ProjectDocument.Fetched(stored[found.value]);
    doc.AssignDetails(d);
    var saved := doc.Value();
    stored' := stored[found.value := saved];
    response := Success("Project updated Successfully", saved);
  }

  function OfCompany(companyId: string): ProjectRecord -> bool {
    (r: ProjectRecord) => r.companyId == Str(companyId)
  }

  /** `GET /getAllProjects/:companyId`. */
  function ProjectsOfCompany(stored: seq<ProjectRecord>, companyId: string): (r: Response<seq<ProjectRecord>>)
    ensures r.Json?
    ensures r.envelope.responseCode == NotFoundCode <==>
      forall i :: 0 <= i < |stored| ==> stored[i].companyId != Str(companyId)
    ensures r.status == BadRequest <==>
      forall i :: 0 <= i < |stored| ==> stored[i].companyId != Str(companyId)
    ensures r.envelope.responseCode == SuccessCode <==>
      exists i :: 0 <= i < |stored| && stored[i].companyId == Str(companyId)
    ensures r.status == DefaultStatus <==>
      exists i :: 0 <= i < |stored| && stored[i].companyId == Str(companyId)
    ensures r.envelope.responseCode == NotFoundCode ==> r.envelope.data == None
    ensures r.envelope.responseCode == SuccessCode ==>
      r.envelope.data == Some(Filter(stored, OfCompany(companyId)))
  {
    MatchingList(stored, OfCompany(companyId))
  }
}
