/** `addBudget`: the budget is stored first; its id is then appended to the
    project's `budgets` only if that project exists. The two writes are separate. */
module Budgets {
  import opened Wrappers
  import opened Ids
  import opened Seqs
  import opened JsValues
  import opened Envelope
  import opened Projects

  datatype BudgetBody = BudgetBody(budget: JsValue, companyId: JsValue, costCenter: JsValue, userId: JsValue)

  datatype BudgetRecord = BudgetRecord(
    id: Id,
    budget: JsValue,
    companyId: JsValue,
    costCenter: JsValue,
    projectId: Id,
    createdBy: JsValue)

  /** `new Budget({ ..._.pick(body, ["budget", "companyId", "costCenter"]), projectId, createdBy })`. */
  function NewBudget(id: Id, projectId: Id, body: BudgetBody): (r: BudgetRecord)
    ensures r.id == id && r.projectId == projectId && r.createdBy == body.userId
    ensures r.budget == body.budget && r.companyId == body.companyId && r.costCenter == body.costCenter
  {
    BudgetRecord(id, body.budget, body.companyId, body.costCenter, projectId, body.userId)
  }

  /** A rejected body stores nothing. Otherwise the budget is appended to the budgets
      whether or not the project exists; the project with that id, if any, gets the
      budget's id appended to its `budgets` exactly once, and no other project
      changes. The reply carries the budget under "Cost center created Successfully". */
  method AddBudget(budgets: seq<BudgetRecord>, projects: seq<ProjectRecord>, projectId: Id,
                   body: BudgetBody, schemaError: Option<string>, newId: Id)
    returns (budgets': seq<BudgetRecord>, projects': seq<ProjectRecord>, response: Response<BudgetRecord>)
    ensures schemaError.Some? ==>
      budgets' == budgets && projects' == projects && response == Rejected(schemaError.value)
    ensures schemaError.None? ==>
      && budgets' == budgets + [NewBudget(newId, projectId, body)]
      && response == Success("Cost center created Successfully", NewBudget(newId, projectId, body))
      && |projects'| == |projects|
      && match FindFirst(projects, WithProjectId(projectId))
         case None => projects' == projects
         case Some(k) =>
           && projects'[k] == projects[k].(budgets := projects[k].budgets + [newId])
           && forall j :: 0 <= j < |projects| && j != k ==> projects'[j] == projects[j]
  {
    if schemaError.Some? {
      return budgets, projects, Rejected(schemaError.value);
    }
    var budget := NewBudget(newId, projectId, body);
    budgets' := budgets + [budget];
    projects' := projects;
    var found := FindFirst(projects, WithProjectId(projectId));
    if found.Some? {
      var doc := new ProjectDocument.Fetched(projects[found.value]);
      doc.PushBudget(budget.id);
      projects' := projects[found.value := doc.Value()];
    }
    response := Success("Cost center created Successfully", budget);
  }
}
