/**
 Org and task budgets (internal/cost/budget.go): one usage map, with the two kinds of id kept
 apart by prefix.  Amounts are reals; the persistent mirror is not part of the model.
 */
module Budget {

  /** The limits; a limit of zero or less is no limit. */
  datatype Limits = Limits(orgBudgets: map<string, real>, taskBudgets: map<string, real>, defaultOrg: real, defaultTask: real)

  type Usage = map<string, real>

  datatype Kind = Org | Task

  datatype Verdict = Allowed | Exceeded(kind: Kind, usage: real, budget: real)

  function OrgKey(orgID: string): string {
    "org:" + orgID
  }

  function TaskKey(taskID: string): string {
    "task:" + taskID
  }

  function Used(u: Usage, key: string): real {
    if key in u then u[key] else 0.0
  }

  function Plus(u: Usage, key: string, cost: real): Usage {
    u[key := Used(u, key) + cost]
  }

  function Charged(u: Usage, orgID: string, taskID: string, cost: real): Usage {
    Plus(Plus(u, OrgKey(orgID), cost), TaskKey(taskID), cost)
  }

  function OrgBudget(l: Limits, orgID: string): real {
    if orgID in l.orgBudgets then l.orgBudgets[orgID] else l.defaultOrg
  }

  function TaskBudget(l: Limits, taskID: string): real {
    if taskID in l.taskBudgets then l.taskBudgets[taskID] else l.defaultTask
  }

  predicate Over(budget: real, usage: real, proposed: real) {
    budget > 0.0 && usage + proposed > budget
  }

  function Checked(l: Limits, u: Usage, orgID: string, taskID: string, proposed: real): Verdict {
    var org, task := Used(u, OrgKey(orgID)), Used(u, TaskKey(taskID));
    if Over(OrgBudget(l, orgID), org, proposed) then Exceeded(Org, org, OrgBudget(l, orgID))
    else if Over(TaskBudget(l, taskID), task, proposed) then Exceeded(Task, task, TaskBudget(l, taskID))
    else Allowed
  }

  /** No org shares its usage with a task, nor with another org; and likewise for tasks. */
  lemma KeysNeverCollide(a: string, b: string)
    ensures OrgKey(a) != TaskKey(b)
    ensures OrgKey(a) == OrgKey(b) ==> a == b
    ensures TaskKey(a) == TaskKey(b) ==> a == b
  {
    assert OrgKey(a)[0] == 'o' && TaskKey(b)[0] == 't';
    assert OrgKey(a)[4..] == a && OrgKey(b)[4..] == b;
    assert TaskKey(a)[5..] == a && TaskKey(b)[5..] == b;
  }

  /** What usage is kept for: an org or a task. */
  datatype Account = Account(kind: Kind, id: string)

  function KeyOf(a: Account): string {
    if a.kind.Org? then OrgKey(a.id) else TaskKey(a.id)
  }

  function BudgetOf(l: Limits, a: Account): real {
    if a.kind.Org? then OrgBudget(l, a.id) else TaskBudget(l, a.id)
  }

  predicate Pays(a: Account, orgID: string, taskID: string) {
    a.id == if a.kind.Org? then orgID else taskID
  }

  function Balance(u: Usage, a: Account): real {
    Used(u, KeyOf(a))
  }

  /** A charge adds its cost once to its org and once to its task, and moves nothing else. */
  lemma ChargeAddsUp(u: Usage, orgID: string, taskID: string, cost: real, a: Account)
    ensures Balance(Charged(u, orgID, taskID, cost), a) == Balance(u, a) + (if Pays(a, orgID, taskID) then cost else 0.0)
  {
    KeysNeverCollide(a.id, orgID);
    KeysNeverCollide(a.id, taskID);
    KeysNeverCollide(orgID, a.id);
    KeysNeverCollide(orgID, taskID);
    hide OrgKey, TaskKey;
  }

  /** An estimate passes exactly when it keeps both its org and its task within any budget. */
  lemma AllowedIff(l: Limits, u: Usage, orgID: string, taskID: string, proposed: real)
    ensures Checked(l, u, orgID, taskID, proposed).Allowed? <==>
      forall a :: Pays(a, orgID, taskID) ==> !Over(BudgetOf(l, a), Balance(u, a), proposed)
  {
    hide OrgKey, TaskKey, Used, Over;
    assert Pays(Account(Org, orgID), orgID, taskID) && Pays(Account(Task, taskID), orgID, taskID);
    assert Balance(u, Account(Org, orgID)) == Used(u, OrgKey(orgID));
    assert Balance(u, Account(Task, taskID)) == Used(u, TaskKey(taskID));
  }

  /** A refusal names an account that would be overdrawn, with its usage and its budget: the
      org's if that would be, and else the task's. */
  lemma RefusalSaysWhose(l: Limits, u: Usage, orgID: string, taskID: string, proposed: real)
    ensures var v, org, task := Checked(l, u, orgID, taskID, proposed), Account(Org, orgID), Account(Task, taskID);
      v.Exceeded? ==>
        && (v.kind == Org <==> Over(BudgetOf(l, org), Balance(u, org), proposed))
        && (var a := if v.kind == Org then org else task;
            v.usage == Balance(u, a) && v.budget == BudgetOf(l, a) && Over(v.budget, v.usage, proposed))
  {
  }

  class BudgetManager {
    var orgBudgets: map<string, real>
    var taskBudgets: map<string, real>
    var usage: Usage
    const defaultOrg: real
    const defaultTask: real

    function Limit(): Limits
      reads this
    {
      Limits(orgBudgets, taskBudgets, defaultOrg, defaultTask)
    }

    constructor (defaultOrg: real, defaultTask: real)
      ensures usage == map[] && Limit() == Limits(map[], map[], defaultOrg, defaultTask)
    {
      orgBudgets, taskBudgets, usage := map[], map[], map[];
      this.defaultOrg, this.defaultTask := defaultOrg, defaultTask;
    }

    method SetOrgBudget(orgID: string, budget: real)
      modifies this
      ensures usage == old(usage) && Limit() == old(Limit()).(orgBudgets := old(orgBudgets)[orgID := budget])
    {
      orgBudgets := orgBudgets[orgID := budget];
    }

    method SetTaskBudget(taskID: string, budget: real)
      modifies this
      ensures usage == old(usage) && Limit() == old(Limit()).(taskBudgets := old(taskBudgets)[taskID := budget])
    {
      taskBudgets := taskBudgets[taskID := budget];
    }

    /** Passes exactly when neither budget that is set would be exceeded; the org is named
        first. */
    method CheckBudget(orgID: string, taskID: string, proposed: real) returns (v: Verdict)
      ensures v == Checked(Limit(), usage, orgID, taskID, proposed)
    {
      var orgBudget := if orgID in orgBudgets then orgBudgets[orgID] else defaultOrg;
      if orgBudget > 0.0 {
        var orgUsage := Used(usage, OrgKey(orgID));
        if orgUsage + proposed > orgBudget {
          return Exceeded(Org, orgUsage, orgBudget);
        }
      }
      var taskBudget := if taskID in taskBudgets then taskBudgets[taskID] else defaultTask;
      if taskBudget > 0.0 {
        var taskUsage := Used(usage, TaskKey(taskID));
        if taskUsage + proposed > taskBudget {
          return Exceeded(Task, taskUsage, taskBudget);
        }
      }
      return Allowed;
    }

    method RecordCost(orgID: string, taskID: string, cost: real)
      modifies this`usage
      ensures usage == Charged(old(usage), orgID, taskID, cost)
    {
      usage := Plus(usage, OrgKey(orgID), cost);
      usage := Plus(usage, TaskKey(taskID), cost);
    }
  }
}
