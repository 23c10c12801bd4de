/**
 The agent loop (internal/agent/agent.go, ExecuteTask).

 Everything outside the loop's control is an oracle indexed by the iteration: whether the
 tool asks for approval there, what the approval queue answers, whether the step's result
 carries an error, and what the language model proposes after a failure.
 */
module Agent {
  import opened Wrappers
  import opened Verdicts
  import opened TaskState

  /** What `HITLSubmitter.Submit` returns: an error, or an entry with some status. */
  datatype Verdict = SubmitError(message: string) | Status(status: string)

  datatype Env = Env(
    cancelled: bool,
    needsApproval: bool,
    verdict: Verdict,
    ok: bool,
    adjusted: seq<PlanStep>,  // empty when reflection failed
    reflectTokens: nat)

  type World = nat -> Env

  datatype Config = Config(tools: set<string>, queueAttached: bool, maxIter: int)

  /** What the loop does to the outside. */
  datatype Act =
    | Asked(i: nat, step: PlanStep, verdict: Verdict)
    | Ran(i: nat, step: PlanStep, ok: bool)

  datatype Run = Run(task: Task, log: seq<Act>)

  /** How an iteration, and then the call, ends. */
  datatype Next = Continue | Break | Refused | Interrupted

  // One iteration, as the code has it

  function ValidSteps(c: Config, steps: seq<PlanStep>): seq<PlanStep> {
    if steps == [] then []
    else (if steps[0].tool in c.tools then [steps[0]] else []) + ValidSteps(c, steps[1..])
  }

  /** The plan with its slots from `from` on overwritten, as far as both reach. */
  function Replace(plan: seq<PlanStep>, from: nat, valid: seq<PlanStep>): (p: seq<PlanStep>)
    ensures |p| == |plan| && forall k :: 0 <= k < from && k < |plan| ==> p[k] == plan[k]
    ensures forall j :: 0 <= j < |valid| && from + j < |plan| ==> p[from + j] == valid[j]
    ensures forall k :: from + |valid| <= k < |plan| ==> p[k] == plan[k]
  {
    seq(|plan|, k requires 0 <= k < |plan| =>
      if from <= k < from + |valid| then valid[k - from] else plan[k])
  }

  predicate OverBudget(t: Task) {
    t.maxTokens > 0 && t.tokens >= t.maxTokens
  }

  function Execute(c: Config, e: Env, i: nat, step: PlanStep, r: Run): (Run, Next)
    requires r.task.plan.Some? && i < |r.task.plan.value|
  {
    var ok := step.tool in c.tools && e.ok;
    var t := r.task.(steps := r.task.steps + [StepResult(step.tool, ok)]);
    var log := r.log + [Ran(i, step, ok)];
    if OverBudget(t) then (Run(t, log), Break)
    else if ok then (Run(Transition(t, StepComplete).0, log), Continue)
    else
      var t1 := Transition(t, StepFailed).0;
      if i + 1 >= |t.plan.value| then (Run(t1, log), Continue)
      else
        var plan := Replace(t.plan.value, i + 1, ValidSteps(c, e.adjusted));
        (Run(t1.(plan := Some(plan), tokens := t1.tokens + e.reflectTokens), log), Continue)
  }

  /** The approval gate: the run behind it, and how the iteration ends if it ends there. */
  function Gate(c: Config, e: Env, i: nat, step: PlanStep, r: Run): (Run, Option<Next>) {
    if !(step.tool in c.tools && e.needsApproval) then (r, None)
    else
      var (waiting, valid) := Transition(r.task, HitlRequired);
      if !valid then (r, Some(Continue))
      else if !c.queueAttached then (r.(task := Transition(waiting, HitlApproved).0), None)
      else
        var log := r.log + [Asked(i, step, e.verdict)];
        if e.verdict == Status(APPROVE) then (Run(Transition(waiting, HitlApproved).0, log), None)
        else
          var rejected := Transition(waiting, HitlRejected).0.(
            error :=
              if e.verdict.SubmitError? then "HITL failed: " + e.verdict.message
              else if e.verdict.status == "reject" then REJECTED
              else "unknown HITL status: " + e.verdict.status);
          (Run(Transition(rejected, StepFailed).0, log), Some(Refused))
  }

  function Iterate(c: Config, e: Env, i: nat, r: Run): (Run, Next)
    requires r.task.plan.Some? && i < |r.task.plan.value|
  {
    if e.cancelled then (r, Interrupted)
    else
      var step := r.task.plan.value[i];
      var (r1, ended) := Gate(c, e, i, step, r.(task := r.task.(currentStep := i)));
      if ended.Some? then (r1, ended.value) else Execute(c, e, i, step, r1)
  }

  lemma IteratePlan(c: Config, e: Env, i: nat, r: Run)
    requires r.task.plan.Some? && i < |r.task.plan.value|
    ensures var r1 := Iterate(c, e, i, r).0;
      r1.task.plan.Some? && |r1.task.plan.value| == |r.task.plan.value|
  {
  }

  /** The rest of the call from iteration `i` on; the review is a bare transition. */
  function Loop(c: Config, w: World, i: nat, r: Run): (Run, Next)
    requires r.task.plan.Some?
    decreases |r.task.plan.value| - i
  {
    if i >= c.maxIter || i >= |r.task.plan.value| then (r.(task := Transition(r.task, ReviewPassed).0), Continue)
    else
      IteratePlan(c, w(i), i, r);
      var (r1, next) := Iterate(c, w(i), i, r);
      match next
      case Continue => Loop(c, w, i + 1, r1)
      case Break => (r1.(task := Transition(r1.task, ReviewPassed).0), Continue)
      case _ => (r1, next)
  }

  /** The whole call for a task whose planning produced `plan` and used `planTokens`. */
  function ExecuteTask(c: Config, w: World, t: Task, plan: seq<PlanStep>, planTokens: nat): (Run, Next) {
    var (started, valid) := Transition(t, Start);
    if !valid then (Run(t, []), Interrupted)
    else
      var planned := started.(plan := Some(plan), tokens := started.tokens + planTokens);
      Loop(c, w, 0, Run(Transition(planned, PlanReady).0, []))
  }

  // The code's own form

  method FilterValidSteps(c: Config, steps: seq<PlanStep>) returns (filtered: seq<PlanStep>)
    ensures filtered == ValidSteps(c, steps)
  {
    filtered := [];
    for k := 0 to |steps|
      invariant filtered + ValidSteps(c, steps[k..]) == ValidSteps(c, steps)
    {
      if steps[k].tool in c.tools {
        filtered := filtered + [steps[k]];
      }
    }
  }

  method OverwritePlan(plan: seq<PlanStep>, from: nat, valid: seq<PlanStep>) returns (p: seq<PlanStep>)
    requires from <= |plan|
    ensures p == Replace(plan, from, valid)
  {
    p := plan;
    var remaining := |plan| - from;
    if |valid| < remaining {
      remaining := |valid|;
    }
    for j := 0 to remaining
      invariant p == Replace(plan, from, valid[..j])
    {
      p := p[from + j := valid[j]];
    }
  }

  method ExecuteStep(c: Config, e: Env, i: nat, step: PlanStep, task: TaskRecord, ghost log: seq<Act>)
    returns (next: Next, ghost log': seq<Act>)
    requires task.plan.Some? && i < |task.plan.value|
    modifies task
    ensures (Run(task.View(), log'), next) == Execute(c, e, i, step, Run(old(task.View()), log))
  {
    var ok := step.tool in c.tools && e.ok;
    task.steps := task.steps + [StepResult(step.tool, ok)];
    log' := log + [Ran(i, step, ok)];
    if task.maxTokens > 0 && task.tokens >= task.maxTokens {
      return Break, log';
    }
    if ok {
      var _ := task.Apply(StepComplete);
      return Continue, log';
    }
    var _ := task.Apply(StepFailed);
    if i + 1 < |task.plan.value| {
      task.tokens := task.tokens + e.reflectTokens;
      var valid := FilterValidSteps(c, e.adjusted);
      var plan := OverwritePlan(task.plan.value, i + 1, valid);
      task.plan := Some(plan);
    }
    next := Continue;
  }

  method AwaitGate(c: Config, e: Env, i: nat, step: PlanStep, task: TaskRecord, ghost log: seq<Act>)
    returns (ended: Option<Next>, ghost log': seq<Act>)
    modifies task
    ensures (Run(task.View(), log'), ended) == Gate(c, e, i, step, Run(old(task.View()), log))
  {
    log' := log;
    if !(step.tool in c.tools && e.needsApproval) {
      return None, log';
    }
    var valid := task.Apply(HitlRequired);
    if !valid {
      return Some(Continue), log';
    }
    if c.queueAttached {
      log' := log + [Asked(i, step, e.verdict)];
      if e.verdict != Status(APPROVE) {
        var _ := task.Apply(HitlRejected);
        task.error :=
          if e.verdict.SubmitError? then "HITL failed: " + e.verdict.message
          else if e.verdict.status == "reject" then REJECTED
          else "unknown HITL status: " + e.verdict.status;
        var _ := task.Apply(StepFailed);
        return Some(Refused), log';
      }
    }
    var _ := task.Apply(HitlApproved);
    ended := None;
  }

  method RunIteration(c: Config, e: Env, i: nat, task: TaskRecord, ghost log: seq<Act>)
    returns (next: Next, ghost log': seq<Act>)
    requires task.plan.Some? && i < |task.plan.value|
    modifies task
    ensures (Run(task.View(), log'), next) == Iterate(c, e, i, Run(old(task.View()), log))
  {
    log' := log;
    if e.cancelled {
      return Interrupted, log';
    }
    var step := task.plan.value[i];
    task.currentStep := i;
    var ended: Option<Next>;
    ended, log' := AwaitGate(c, e, i, step, task, log');
    if ended.Some? {
      return ended.value, log';
    }
    next, log' := ExecuteStep(c, e, i, step, task, log');
  }

  /** One iteration of the loop against its specification. */
  lemma LoopStep(c: Config, w: World, i: nat, r: Run, r1: Run, next: Next)
    requires r.task.plan.Some? && i < c.maxIter && i < |r.task.plan.value|
    requires (r1, next) == Iterate(c, w(i), i, r)
    ensures r1.task.plan.Some? && |r1.task.plan.value| == |r.task.plan.value|
    ensures next == Continue ==> Loop(c, w, i, r) == Loop(c, w, i + 1, r1)
    ensures next == Break ==> Loop(c, w, i, r) == (r1.(task := Transition(r1.task, ReviewPassed).0), Continue)
    ensures next == Refused || next == Interrupted ==> Loop(c, w, i, r) == (r1, next)
  {
    IteratePlan(c, w(i), i, r);
  }

  method RunLoop(c: Config, w: World, task: TaskRecord, ghost log0: seq<Act>)
    returns (next: Next, ghost log: seq<Act>)
    requires task.plan.Some?
    modifies task
    ensures (Run(task.View(), log), next) == Loop(c, w, 0, Run(old(task.View()), log0))
  {
    log := log0;
    var i := 0;
    while i < c.maxIter && i < |task.plan.value|
      invariant 0 <= i && task.plan.Some?
      invariant Loop(c, w, i, Run(task.View(), log)) == old(Loop(c, w, 0, Run(task.View(), log0)))
      decreases |task.plan.value| - i
    {
      ghost var before := Run(task.View(), log);
      next, log := RunIteration(c, w(i), i, task, log);
      LoopStep(c, w, i, before, Run(task.View(), log), next);
      match next {
        case Continue => i := i + 1;
        case Break => break;
        case _ => return next, log;
      }
    }
    var _ := task.Apply(ReviewPassed);
    next := Continue;
  }

  method RunTask(c: Config, w: World, task: TaskRecord, plan: seq<PlanStep>, planTokens: nat)
    returns (next: Next, ghost log: seq<Act>)
    modifies task
    ensures (Run(task.View(), log), next) == ExecuteTask(c, w, old(task.View()), plan, planTokens)
  {
    hide Loop;
    var valid := task.Apply(Start);
    if !valid {
      return Interrupted, [];
    }
    task.plan := Some(plan);
    task.tokens := task.tokens + planTokens;
    var _ := task.Apply(PlanReady);
    next, log := RunLoop(c, w, task, []);
  }

  // ---------------------------------------------------------------------------------------
  // What the oracle says of a step
  // ---------------------------------------------------------------------------------------

  predicate Gated(c: Config, e: Env, step: PlanStep) {
    step.tool in c.tools && e.needsApproval
  }

  predicate StepOk(c: Config, e: Env, step: PlanStep) {
    step.tool in c.tools && e.ok
  }

  // ---------------------------------------------------------------------------------------
  // The rewritten plan
  // ---------------------------------------------------------------------------------------

  /** Filtering keeps exactly the steps with registered tools, as often as they occur... */
  lemma {:induction false} ValidStepsExactly(c: Config, steps: seq<PlanStep>, x: PlanStep)
    ensures multiset(ValidSteps(c, steps))[x] == if x.tool in c.tools then multiset(steps)[x] else 0
  {
    if steps != [] {
      ValidStepsExactly(c, steps[1..], x);
      assert steps == [steps[0]] + steps[1..];
    }
  }

  /** ...and in order. */
  lemma {:induction false} ValidStepsInOrder(c: Config, a: seq<PlanStep>, b: seq<PlanStep>)
    ensures ValidSteps(c, a + b) == ValidSteps(c, a) + ValidSteps(c, b)
  {
    if a == [] {
      assert a + b == b;
    } else {
      assert (a + b)[1..] == a[1..] + b;
      ValidStepsInOrder(c, a[1..], b);
    }
  }

  /** Some reflection before iteration `k` proposed the step. */
  ghost predicate Proposed(w: World, step: PlanStep, k: nat) {
    exists i :: 0 <= i < k && step in w(i).adjusted
  }

  /** Every slot holds the planned step, or a proposed one with a registered tool; and every
      step asked about or executed is the one in its slot. */
  ghost predicate PlanSound(c: Config, w: World, plan: seq<PlanStep>, r: Run) {
    && r.task.plan.Some? && |r.task.plan.value| == |plan|
    && (forall k :: 0 <= k < |plan| ==>
         r.task.plan.value[k] == plan[k] || (r.task.plan.value[k].tool in c.tools && Proposed(w, r.task.plan.value[k], k)))
    && (forall m :: 0 <= m < |r.log| ==> r.log[m].i < |plan| && r.log[m].step == r.task.plan.value[r.log[m].i])
  }

  lemma ValidIsProposed(c: Config, w: World, i: nat, j: nat, k: nat)
    requires j < |ValidSteps(c, w(i).adjusted)| && i < k
    ensures var x := ValidSteps(c, w(i).adjusted)[j]; x.tool in c.tools && Proposed(w, x, k)
  {
    var x := ValidSteps(c, w(i).adjusted)[j];
    ValidStepsExactly(c, w(i).adjusted, x);
    assert multiset(ValidSteps(c, w(i).adjusted))[x] > 0;
    assert x in w(i).adjusted;
  }

  lemma IterateKeepsPlanSound(c: Config, w: World, plan: seq<PlanStep>, i: nat, r: Run)
    requires PlanSound(c, w, plan, r) && i < |plan| && forall m :: 0 <= m < |r.log| ==> r.log[m].i < i
    ensures var r1 := Iterate(c, w(i), i, r).0;
      PlanSound(c, w, plan, r1) && forall m :: 0 <= m < |r1.log| ==> r1.log[m].i <= i
  {
    var r1 := Iterate(c, w(i), i, r).0;
    var valid := ValidSteps(c, w(i).adjusted);
    forall j | 0 <= j < |valid| && i + 1 + j < |plan| ensures valid[j].tool in c.tools && Proposed(w, valid[j], i + 1 + j) {
      ValidIsProposed(c, w, i, j, i + 1 + j);
    }
    hide ValidSteps, Proposed;
    IteratePlanAndLog(c, w(i), i, r);
    hide Iterate;
    var p, p1 := r.task.plan.value, r1.task.plan.value;
    forall k | 0 <= k < |plan| ensures p1[k] == plan[k] || (p1[k].tool in c.tools && Proposed(w, p1[k], k)) {
      assert p1[k] == p[k] || (i + 1 <= k < i + 1 + |valid| && p1[k] == valid[k - (i + 1)]);
    }
  }

  /** The plan and the log after one iteration: the slots up to its own stay. */
  lemma IteratePlanAndLog(c: Config, e: Env, i: nat, r: Run)
    requires r.task.plan.Some? && i < |r.task.plan.value|
    ensures var r1 := Iterate(c, e, i, r).0;
      var p := r.task.plan.value;
      && (r1.task.plan == Some(p) || r1.task.plan == Some(Replace(p, i + 1, ValidSteps(c, e.adjusted))))
      && |r.log| <= |r1.log| && r1.log[..|r.log|] == r.log
      && forall m :: |r.log| <= m < |r1.log| ==> r1.log[m].i == i && r1.log[m].step == p[i]
  {
    hide ValidSteps, Replace;
  }

  lemma {:induction false} LoopKeepsPlanSound(c: Config, w: World, plan: seq<PlanStep>, i: nat, r: Run)
    requires PlanSound(c, w, plan, r) && forall m :: 0 <= m < |r.log| ==> r.log[m].i < i
    ensures PlanSound(c, w, plan, Loop(c, w, i, r).0)
    decreases |r.task.plan.value| - i
  {
    if i < c.maxIter && i < |plan| {
      IterateKeepsPlanSound(c, w, plan, i, r);
      hide Iterate;
      var (r1, next) := Iterate(c, w(i), i, r);
      LoopStep(c, w, i, r, r1, next);
      if next == Continue {
        LoopKeepsPlanSound(c, w, plan, i + 1, r1);
      }
    }
  }

  /** In every run: the final plan has the length of the first, each slot of it holds the step
      planned there or one that a reflection proposed and whose tool is registered, and every
      step asked about or executed is the one that the final plan has in its slot. */
  lemma FinalPlanIsSound(c: Config, w: World, t: Task, plan: seq<PlanStep>, planTokens: nat)
    requires t.state == Pending
    ensures PlanSound(c, w, plan, ExecuteTask(c, w, t, plan, planTokens).0)
  {
    var started := Transition(t, Start).0;
    var planned := started.(plan := Some(plan), tokens := started.tokens + planTokens);
    hide Loop;
    LoopKeepsPlanSound(c, w, plan, 0, Run(Transition(planned, PlanReady).0, []));
  }

  // ---------------------------------------------------------------------------------------
  // What the task records
  // ---------------------------------------------------------------------------------------

  /** The results of the executed steps, in order. */
  function Results(log: seq<Act>): seq<StepResult> {
    if log == [] then []
    else
      var last := log[|log| - 1];
      Results(log[..|log| - 1]) + if last.Ran? then [StepResult(last.step.tool, last.ok)] else []
  }

  /** The steps are the earlier ones and the results of the log, and these are what the tools
      really gave: an error for an unregistered tool. */
  ghost predicate Recorded(c: Config, w: World, earlier: seq<StepResult>, r: Run) {
    && r.task.steps == earlier + Results(r.log)
    && forall m :: 0 <= m < |r.log| && r.log[m].Ran? ==> r.log[m].ok == StepOk(c, w(r.log[m].i), r.log[m].step)
  }

  /** The error says what the answer was. */
  predicate SaysWhy(v: Verdict, error: string) {
    match v
    case SubmitError(message) => error == "HITL failed: " + message
    case Status(status) =>
      if status == "reject" then error == "rejected by human" else error == "unknown HITL status: " + status
  }

  /** One more act, with its result if it is an execution. */
  predicate Adds(r: Run, act: Act, r1: Run) {
    && r1.log == r.log + [act]
    && r1.task.steps == if act.Ran? then r.task.steps + [StepResult(act.step.tool, act.ok)] else r.task.steps
  }

  predicate AddsNothing(r: Run, r1: Run) {
    r1.log == r.log && r1.task.steps == r.task.steps
  }

  lemma AddsKeepsRecorded(c: Config, w: World, earlier: seq<StepResult>, r: Run, act: Act, r1: Run)
    requires Recorded(c, w, earlier, r) && Adds(r, act, r1)
    requires act.Ran? ==> act.ok == StepOk(c, w(act.i), act.step)
    ensures Recorded(c, w, earlier, r1)
  {
    hide StepOk;
    assert (r.log + [act])[..|r.log|] == r.log;
    assert Results(r.log) + [] == Results(r.log);
  }

  /** An iteration asks, executes, does both or neither. */
  lemma IterateAdds(c: Config, e: Env, i: nat, r: Run)
    requires r.task.plan.Some? && i < |r.task.plan.value|
    ensures var r1 := Iterate(c, e, i, r).0;
      var step := r.task.plan.value[i];
      var ask, ran := Asked(i, step, e.verdict), Ran(i, step, StepOk(c, e, step));
      AddsNothing(r, r1) || Adds(r, ask, r1) || Adds(r, ran, r1) || Adds(r.(log := r.log + [ask]), ran, r1)
  {
    hide ValidSteps, Replace;
  }

  lemma IterateEnds(c: Config, e: Env, i: nat, r: Run)
    requires r.task.plan.Some? && i < |r.task.plan.value|
    ensures var (r1, next) := Iterate(c, e, i, r);
      && (next == Interrupted <==> e.cancelled)
      && (next == Refused ==> r1.log == r.log + [Asked(i, r.task.plan.value[i], e.verdict)] && SaysWhy(e.verdict, r1.task.error))
  {
    hide ValidSteps, Replace;
  }

  lemma IterateKeepsRecorded(c: Config, w: World, earlier: seq<StepResult>, i: nat, r: Run)
    requires r.task.plan.Some? && i < |r.task.plan.value| && Recorded(c, w, earlier, r)
    ensures Recorded(c, w, earlier, Iterate(c, w(i), i, r).0)
  {
    IterateAdds(c, w(i), i, r);
    hide Iterate, StepOk, Recorded;
    var r1, step := Iterate(c, w(i), i, r).0, r.task.plan.value[i];
    var ask, ran := Asked(i, step, w(i).verdict), Ran(i, step, StepOk(c, w(i), step));
    var r0 := r.(log := r.log + [ask]);
    AddsKeepsRecorded(c, w, earlier, r, ask, r0);
    if AddsNothing(r, r1) {
      NothingKeepsRecorded(c, w, earlier, r, r1);
    } else if Adds(r, ask, r1) {
      AddsKeepsRecorded(c, w, earlier, r, ask, r1);
    } else if Adds(r, ran, r1) {
      AddsKeepsRecorded(c, w, earlier, r, ran, r1);
    } else {
      AddsKeepsRecorded(c, w, earlier, r0, ran, r1);
    }
  }

  lemma NothingKeepsRecorded(c: Config, w: World, earlier: seq<StepResult>, r: Run, r1: Run)
    requires Recorded(c, w, earlier, r) && AddsNothing(r, r1)
    ensures Recorded(c, w, earlier, r1)
  {
  }

  lemma {:induction false} LoopKeepsRecorded(c: Config, w: World, earlier: seq<StepResult>, i: nat, r: Run)
    requires r.task.plan.Some? && Recorded(c, w, earlier, r)
    ensures var (r1, next) := Loop(c, w, i, r);
      && Recorded(c, w, earlier, r1)
      && ((forall j :: !w(j).cancelled) ==> next != Interrupted)
      && (next == Refused ==>
           r1.log != [] && r1.log[|r1.log| - 1].Asked? && SaysWhy(r1.log[|r1.log| - 1].verdict, r1.task.error))
    decreases |r.task.plan.value| - i
  {
    if i < c.maxIter && i < |r.task.plan.value| {
      IterateKeepsRecorded(c, w, earlier, i, r);
      IterateEnds(c, w(i), i, r);
      IteratePlan(c, w(i), i, r);
      hide Iterate, Results, StepOk, SaysWhy;
      var (r1, next) := Iterate(c, w(i), i, r);
      LoopStep(c, w, i, r, r1, next);
      if next == Continue {
        LoopKeepsRecorded(c, w, earlier, i + 1, r1);
      }
    }
  }

  /** In every run: the task's steps are the earlier ones and then exactly the executed ones, in
      order, each with what its tool gave; the call is interrupted only by a cancellation; and
      a refusal leaves the reason as the task's error. */
  lemma TaskRecordsItsRun(c: Config, w: World, t: Task, plan: seq<PlanStep>, planTokens: nat)
    requires t.state == Pending
    ensures var (r, next) := ExecuteTask(c, w, t, plan, planTokens);
      && Recorded(c, w, t.steps, r)
      && ((forall j :: !w(j).cancelled) ==> next != Interrupted)
      && (next == Refused ==> r.log != [] && r.log[|r.log| - 1].Asked? && SaysWhy(r.log[|r.log| - 1].verdict, r.task.error))
  {
    hide Loop, SaysWhy;
    var started := Transition(t, Start).0;
    var planned := started.(plan := Some(plan), tokens := started.tokens + planTokens);
    assert t.steps + [] == t.steps;
    LoopKeepsRecorded(c, w, t.steps, 0, Run(Transition(planned, PlanReady).0, []));
  }

  // ---------------------------------------------------------------------------------------
  // No gated tool without its own approval
  // ---------------------------------------------------------------------------------------

  /** In the log so far: a gated step ran only right after its own approval; an unapproved
      answer is the last thing in the log; iteration numbers never go back, and no step asks
      twice. */
  ghost predicate LogOk(c: Config, w: World, log: seq<Act>) {
    && (forall k :: 0 <= k < |log| && log[k].Ran? && Gated(c, w(log[k].i), log[k].step) ==>
          k > 0 && log[k - 1] == Asked(log[k].i, log[k].step, Status(APPROVE)))
    && (forall k :: 0 <= k < |log| && log[k].Asked? && log[k].verdict != Status(APPROVE) ==> k == |log| - 1)
    && (forall k, m :: 0 <= k < m < |log| ==> log[k].i <= log[m].i)
    && (forall k, m :: 0 <= k < m < |log| && log[m].Asked? ==> log[k].i < log[m].i)
  }

  ghost predicate RefusedLast(log: seq<Act>) {
    log != [] && log[|log| - 1].Asked? && log[|log| - 1].verdict != Status(APPROVE)
  }

  /** One more entry keeps the log in order, if it is an answer, a run that needs none, or a
      run right behind its approval. */
  lemma AppendKeepsLog(c: Config, w: World, log: seq<Act>, act: Act)
    requires LogOk(c, w, log) && !RefusedLast(log)
    requires forall k :: 0 <= k < |log| ==> log[k].i < act.i || (log[k].i == act.i && act.Ran?)
    requires act.Ran? && Gated(c, w(act.i), act.step) ==>
      log != [] && log[|log| - 1] == Asked(act.i, act.step, Status(APPROVE))
    ensures LogOk(c, w, log + [act])
  {
  }

  lemma IterateLog(c: Config, e: Env, i: nat, r: Run)
    requires c.queueAttached && r.task.plan.Some? && i < |r.task.plan.value|
    ensures var (r1, next) := Iterate(c, e, i, r);
      var step := r.task.plan.value[i];
      var asked := r.log + [Asked(i, step, e.verdict)];
      var ran := [Ran(i, step, StepOk(c, e, step))];
      && (Gated(c, e, step) ==>
            || (next != Refused && r1.log == r.log)
            || (next == Refused && r1.log == asked && e.verdict != Status(APPROVE) && r1.task.state == Failed)
            || (next != Refused && r1.log == asked + ran && e.verdict == Status(APPROVE)))
      && (!Gated(c, e, step) ==> next != Refused && (r1.log == r.log || r1.log == r.log + ran))
  {
  }

  lemma IterateKeepsLog(c: Config, w: World, i: nat, r: Run)
    requires c.queueAttached && r.task.plan.Some? && i < |r.task.plan.value|
    requires LogOk(c, w, r.log) && !RefusedLast(r.log)
    requires forall k :: 0 <= k < |r.log| ==> r.log[k].i < i
    ensures var (r1, next) := Iterate(c, w(i), i, r);
      && LogOk(c, w, r1.log)
      && (forall k :: 0 <= k < |r1.log| ==> r1.log[k].i <= i)
      && (next == Refused <==> RefusedLast(r1.log))
      && (next == Refused ==> r1.task.state == Failed)
  {
    IterateLog(c, w(i), i, r);
    var step := r.task.plan.value[i];
    var asked := r.log + [Asked(i, step, w(i).verdict)];
    var ran := Ran(i, step, StepOk(c, w(i), step));
    if !Gated(c, w(i), step) {
      AppendKeepsLog(c, w, r.log, ran);
    } else {
      AppendKeepsLog(c, w, r.log, Asked(i, step, w(i).verdict));
      if w(i).verdict == Status(APPROVE) {
        AppendKeepsLog(c, w, asked, ran);
      }
    }
  }

  lemma {:induction false} LoopKeepsLog(c: Config, w: World, i: nat, r: Run)
    requires c.queueAttached && r.task.plan.Some?
    requires LogOk(c, w, r.log) && !RefusedLast(r.log)
    requires forall k :: 0 <= k < |r.log| ==> r.log[k].i < i
    ensures var (r1, next) := Loop(c, w, i, r);
      LogOk(c, w, r1.log) && (next == Refused <==> RefusedLast(r1.log)) && (next == Refused ==> r1.task.state == Failed)
    decreases |r.task.plan.value| - i
  {
    if i < c.maxIter && i < |r.task.plan.value| {
      IterateKeepsLog(c, w, i, r);
      IteratePlan(c, w(i), i, r);
      var (r1, next) := Iterate(c, w(i), i, r);
      if next == Continue {
        LoopKeepsLog(c, w, i + 1, r1);
      }
    }
  }

  /** With a queue attached, in every run and whatever the model rewrites: every executed step
      that required approval ran right after the approval of that very step, and any other
      answer ends the run at once, in `failed`, with nothing executed after it. */
  lemma GateSafety(c: Config, w: World, t: Task, plan: seq<PlanStep>, planTokens: nat)
    requires c.queueAttached
    ensures var (r, next) := ExecuteTask(c, w, t, plan, planTokens);
      && LogOk(c, w, r.log)
      && (next == Refused <==> RefusedLast(r.log))
      && (next == Refused ==> r.task.state == Failed)
  {
    hide Loop;
    var (started, valid) := Transition(t, Start);
    if valid {
      var planned := started.(plan := Some(plan), tokens := started.tokens + planTokens);
      LoopKeepsLog(c, w, 0, Run(Transition(planned, PlanReady).0, []));
    }
  }

  // ---------------------------------------------------------------------------------------
  // Exactly when a run completes
  // ---------------------------------------------------------------------------------------

  /** What the iterations before some point leave behind if every one executes its step: the
      plan as rewritten so far, the failures so far, the tokens used so far. */
  datatype Progress = Progress(plan: seq<PlanStep>, failures: nat, tokens: int)

  function Advance(c: Config, e: Env, i: nat, g: Progress): (g': Progress)
    requires i < |g.plan|
    ensures |g'.plan| == |g.plan| && forall k :: 0 <= k <= i ==> g'.plan[k] == g.plan[k]
  {
    if StepOk(c, e, g.plan[i]) then g
    else if i + 1 == |g.plan| then g.(failures := g.failures + 1)
    else Progress(Replace(g.plan, i + 1, ValidSteps(c, e.adjusted)), g.failures + 1, g.tokens + e.reflectTokens)
  }

  /** The progress at iteration `i`: a function of the oracle, with no task state in it. */
  function At(c: Config, w: World, t: Task, plan: seq<PlanStep>, i: nat): (g: Progress)
    requires i <= |plan|
    ensures |g.plan| == |plan|
  {
    if i == 0 then Progress(plan, 0, t.tokens) else Advance(c, w(i - 1), i - 1, At(c, w, t, plan, i - 1))
  }

  /** Iteration `i` is not cancelled, the gate, if any, lets the step through, and the token
      budget holds. */
  predicate Passes(c: Config, e: Env, t: Task, i: nat, g: Progress)
    requires i < |g.plan|
  {
    && !e.cancelled
    && (Gated(c, e, g.plan[i]) && c.queueAttached ==> e.verdict == Status(APPROVE))
    && !(t.maxTokens > 0 && g.tokens >= t.maxTokens)
  }

  predicate RetriesLeft(t: Task, failures: nat) {
    failures == 0 || t.retryCount + failures < t.maxRetries
  }

  /** The condition, on the oracle alone, from iteration `i` on. */
  ghost predicate Completes(c: Config, w: World, t: Task, plan: seq<PlanStep>, i: nat) {
    && 1 <= |plan| <= c.maxIter
    && (forall j :: i <= j < |plan| ==> Passes(c, w(j), t, j, At(c, w, t, plan, j)))
    && StepOk(c, w(|plan| - 1), At(c, w, t, plan, |plan| - 1).plan[|plan| - 1])
    && RetriesLeft(t, At(c, w, t, plan, |plan|).failures)
  }

  /** The run `r` at iteration `i` agrees with the progress `g`; `t` is the task after planning. */
  ghost predicate InStep(t: Task, i: nat, g: Progress, r: Run) {
    && i <= |g.plan|
    && r.task.plan == Some(g.plan)
    && r.task.tokens == g.tokens
    && r.task.retryCount == t.retryCount + g.failures
    && RetriesLeft(t, g.failures)
    && r.task.maxTokens == t.maxTokens && r.task.maxRetries == t.maxRetries
    && Followed(t.steps, r.task.steps, g.plan, i)
  }

  /** The steps are the earlier ones and then one for each of the first `n` slots of the plan. */
  ghost predicate Followed(earlier: seq<StepResult>, steps: seq<StepResult>, plan: seq<PlanStep>, n: nat) {
    && n <= |plan| && |steps| == |earlier| + n && steps[..|earlier|] == earlier
    && forall k :: 0 <= k < n ==> steps[|earlier| + k].tool == plan[k].tool
  }

  lemma FailuresGrow(c: Config, w: World, t: Task, plan: seq<PlanStep>, i: nat, j: nat)
    requires i <= j <= |plan|
    ensures At(c, w, t, plan, i).failures <= At(c, w, t, plan, j).failures
    decreases j
  {
  }

  lemma IterateFailed(c: Config, e: Env, i: nat, r: Run)
    requires r.task.plan.Some? && i < |r.task.plan.value| && r.task.state == Failed
    ensures var (r1, next) := Iterate(c, e, i, r);
      r1.task.state == Failed && r1.task.plan.Some? && |r1.task.plan.value| == |r.task.plan.value|
  {
  }

  lemma {:induction false} FailedStaysFailed(c: Config, w: World, i: nat, r: Run)
    requires r.task.plan.Some? && r.task.state == Failed
    ensures Loop(c, w, i, r).0.task.state == Failed
    decreases |r.task.plan.value| - i
  {
    if i < c.maxIter && i < |r.task.plan.value| {
      IterateFailed(c, w(i), i, r);
      var (r1, next) := Iterate(c, w(i), i, r);
      if next == Continue {
        FailedStaysFailed(c, w, i + 1, r1);
      }
    }
  }

  /** An uncancelled iteration that passes executes its step. */
  lemma PassingGate(c: Config, e: Env, t: Task, i: nat, g: Progress, r: Run) returns (r0: Run)
    requires InStep(t, i, g, r) && r.task.state == Executing && i < |g.plan|
    requires Passes(c, e, t, i, g)
    ensures r0.task == r.task.(currentStep := i)
    ensures Iterate(c, e, i, r) == Execute(c, e, i, g.plan[i], r0)
  {
    var log := if Gated(c, e, g.plan[i]) && c.queueAttached then r.log + [Asked(i, g.plan[i], e.verdict)] else r.log;
    r0 := Run(r.task.(currentStep := i), log);
  }

  /** A successful step moves on, to the review if it was the last one. */
  lemma OkStaysInStep(c: Config, e: Env, t: Task, i: nat, g: Progress, r: Run)
    requires InStep(t, i, g, r) && r.task.state == Executing && r.task.currentStep == i < |g.plan|
    requires Passes(c, e, t, i, g) && StepOk(c, e, g.plan[i])
    ensures var (r1, next) := Execute(c, e, i, g.plan[i], r);
      next == Continue && InStep(t, i + 1, Advance(c, e, i, g), r1)
      && r1.task.state == if i + 1 == |g.plan| then Reviewing else Executing
  {
  }

  /** A failed step moves on too while a retry is left, with the rest of the plan rewritten. */
  lemma FailStaysInStep(c: Config, e: Env, t: Task, i: nat, g: Progress, r: Run)
    requires InStep(t, i, g, r) && r.task.state == Executing && r.task.currentStep == i < |g.plan|
    requires Passes(c, e, t, i, g) && !StepOk(c, e, g.plan[i]) && RetriesLeft(t, g.failures + 1)
    ensures var (r1, next) := Execute(c, e, i, g.plan[i], r);
      next == Continue && InStep(t, i + 1, Advance(c, e, i, g), r1) && r1.task.state == Executing
  {
  }

  /** Without a retry left the failure is final. */
  lemma LastRetryFails(c: Config, e: Env, t: Task, i: nat, g: Progress, r: Run)
    requires InStep(t, i, g, r) && r.task.state == Executing && i < |g.plan|
    requires Passes(c, e, t, i, g) && !StepOk(c, e, g.plan[i]) && !RetriesLeft(t, g.failures + 1)
    ensures var (r1, next) := Execute(c, e, i, g.plan[i], r);
      next == Continue && r1.task.state == Failed
  {
  }

  /** An iteration that does not pass ends the loop short of the review. */
  lemma NotPassingStops(c: Config, e: Env, t: Task, i: nat, g: Progress, r: Run)
    requires InStep(t, i, g, r) && r.task.state == Executing && i < |g.plan|
    requires !Passes(c, e, t, i, g)
    ensures var (r1, next) := Iterate(c, e, i, r);
      next != Continue && (r1.task.state == Executing || (next == Refused && r1.task.state == Failed))
  {
  }

  /** The end of a run that was in step at iteration `i`: completed exactly under the
      condition, and then with every slot of the final plan executed once, in order. */
  ghost predicate EndsRight(c: Config, w: World, t: Task, plan: seq<PlanStep>, i: nat, t1: Task) {
    && (t1.state == Completed <==> Completes(c, w, t, plan, i))
    && (t1.state == Completed ==>
         t1.plan.Some? && |t1.plan.value| == |plan| && Followed(t.steps, t1.steps, t1.plan.value, |plan|))
  }

  /** Ready for iteration `i` of the loop, or for the review. */
  ghost predicate Ready(c: Config, w: World, t: Task, plan: seq<PlanStep>, i: nat, r: Run) {
    && i <= |plan| && (i == 0 || i <= c.maxIter)
    && InStep(t, i, At(c, w, t, plan, i), r)
    && r.task.state == (
         if 0 < i == |plan| && StepOk(c, w(i - 1), At(c, w, t, plan, i - 1).plan[i - 1]) then Reviewing else Executing)
  }

  lemma EndOfLoop(c: Config, w: World, t: Task, plan: seq<PlanStep>, i: nat, r: Run)
    requires Ready(c, w, t, plan, i, r) && (i >= c.maxIter || i == |plan|)
    ensures EndsRight(c, w, t, plan, i, Transition(r.task, ReviewPassed).0)
  {
  }

  /** What one iteration in the middle does. */
  lemma MiddleOfLoop(c: Config, w: World, t: Task, plan: seq<PlanStep>, i: nat, r: Run)
    requires Ready(c, w, t, plan, i, r) && i < c.maxIter && i < |plan|
    ensures var (r1, next) := Iterate(c, w(i), i, r);
      var g := At(c, w, t, plan, i);
      if !Passes(c, w(i), t, i, g) then
        next != Continue && (r1.task.state == Executing || (next == Refused && r1.task.state == Failed))
      else if !RetriesLeft(t, Advance(c, w(i), i, g).failures) then next == Continue && r1.task.state == Failed
      else next == Continue && Ready(c, w, t, plan, i + 1, r1)
  {
    var g := At(c, w, t, plan, i);
    if !Passes(c, w(i), t, i, g) {
      NotPassingStops(c, w(i), t, i, g, r);
    } else {
      var r0 := PassingGate(c, w(i), t, i, g, r);
      if StepOk(c, w(i), g.plan[i]) {
        OkStaysInStep(c, w(i), t, i, g, r0);
      } else if RetriesLeft(t, g.failures + 1) {
        FailStaysInStep(c, w(i), t, i, g, r0);
      } else {
        LastRetryFails(c, w(i), t, i, g, r0);
      }
    }
  }

  /** What that iteration means for the condition. */
  lemma ConditionShifts(c: Config, w: World, t: Task, plan: seq<PlanStep>, i: nat)
    requires i < |plan|
    ensures var g := At(c, w, t, plan, i);
      if !Passes(c, w(i), t, i, g) || !RetriesLeft(t, Advance(c, w(i), i, g).failures)
      then !Completes(c, w, t, plan, i)
      else Completes(c, w, t, plan, i) <==> Completes(c, w, t, plan, i + 1)
  {
    hide Passes, Advance, StepOk;
    FailuresGrow(c, w, t, plan, i + 1, |plan|);
    assert At(c, w, t, plan, i + 1) == Advance(c, w(i), i, At(c, w, t, plan, i));
  }

  lemma {:induction false} LoopCompletes(c: Config, w: World, t: Task, plan: seq<PlanStep>, i: nat, r: Run)
    requires Ready(c, w, t, plan, i, r)
    ensures EndsRight(c, w, t, plan, i, Loop(c, w, i, r).0.task)
    decreases |plan| - i
  {
    hide Completes, At, Iterate, Passes, Advance, Followed;
    if i >= c.maxIter || i >= |plan| {
      EndOfLoop(c, w, t, plan, i, r);
    } else {
      MiddleOfLoop(c, w, t, plan, i, r);
      ConditionShifts(c, w, t, plan, i);
      var (r1, next) := Iterate(c, w(i), i, r);
      LoopStep(c, w, i, r, r1, next);
      if next == Continue && r1.task.state == Failed {
        FailedStaysFailed(c, w, i + 1, r1);
      } else if next == Continue {
        LoopCompletes(c, w, t, plan, i + 1, r1);
      }
    }
  }

  /** A call on a pending task ends `completed` exactly when the plan is non-empty and within
      the iteration limit, no iteration is cancelled, every gate met is approved, the token
      budget never trips, the last step succeeds, and the failures, if any, leave a retry over.
      It then executed every slot of the final plan once, in order.  A task in any other state
      is left alone. */
  lemma CompletesExactlyWhen(c: Config, w: World, t: Task, plan: seq<PlanStep>, planTokens: nat)
    ensures t.state == Pending ==>
      EndsRight(c, w, t.(tokens := t.tokens + planTokens), plan, 0, ExecuteTask(c, w, t, plan, planTokens).0.task)
    ensures t.state != Pending ==> ExecuteTask(c, w, t, plan, planTokens) == (Run(t, []), Interrupted)
  {
    hide Loop, Completes;
    if t.state == Pending {
      var t0 := t.(tokens := t.tokens + planTokens);
      LoopCompletes(c, w, t0, plan, 0, Run(t0.(plan := Some(plan), state := Executing), []));
    }
  }

  // ---------------------------------------------------------------------------------------
  // What runs after `failed`
  // ---------------------------------------------------------------------------------------

  /** In `failed` a gated step is skipped, and any other one executed. */
  function AdvanceFailed(c: Config, e: Env, i: nat, g: Progress): (g': Progress)
    requires i < |g.plan|
    ensures |g'.plan| == |g.plan|
  {
    if Gated(c, e, g.plan[i]) then g else Advance(c, e, i, g)
  }

  predicate Exhausted(maxTokens: int, g: Progress) {
    maxTokens > 0 && g.tokens >= maxTokens
  }

  /** What the loop still executes from iteration `i` of a failed task. */
  function RunsFrom(c: Config, w: World, maxTokens: int, i: nat, g: Progress): seq<Act>
    decreases |g.plan| - i
  {
    if i >= c.maxIter || i >= |g.plan| || w(i).cancelled then []
    else if Gated(c, w(i), g.plan[i]) then RunsFrom(c, w, maxTokens, i + 1, g)
    else
      [Ran(i, g.plan[i], StepOk(c, w(i), g.plan[i]))] +
      if Exhausted(maxTokens, g) then [] else RunsFrom(c, w, maxTokens, i + 1, Advance(c, w(i), i, g))
  }

  /** The plan, failures and tokens of a failed run, without the task state. */
  function ProgressOf(t: Task): Progress
    requires t.plan.Some?
  {
    Progress(t.plan.value, 0, t.tokens)
  }

  predicate SameCourse(g: Progress, h: Progress) {
    g.plan == h.plan && g.tokens == h.tokens
  }

  /** One iteration of a failed task executes its step if and only if it is neither cancelled
      nor gated. */
  lemma FailedIterationRunsExactly(c: Config, e: Env, i: nat, r: Run)
    requires r.task.plan.Some? && i < |r.task.plan.value| && r.task.state == Failed
    ensures var (r1, next) := Iterate(c, e, i, r);
      var step := r.task.plan.value[i];
      var runs := !e.cancelled && !Gated(c, e, step);
      && r1.log == r.log + (if runs then [Ran(i, step, StepOk(c, e, step))] else [])
      && next == (if e.cancelled then Interrupted else if runs && OverBudget(r.task) then Break else Continue)
      && (next == Continue ==>
           && r1.task.plan.Some? && r1.task.maxTokens == r.task.maxTokens
           && SameCourse(ProgressOf(r1.task), AdvanceFailed(c, e, i, ProgressOf(r.task))))
  {
  }

  lemma {:induction false} RunsFromSameCourse(c: Config, w: World, maxTokens: int, i: nat, g: Progress, h: Progress)
    requires SameCourse(g, h)
    ensures RunsFrom(c, w, maxTokens, i, g) == RunsFrom(c, w, maxTokens, i, h)
    decreases |g.plan| - i
  {
    if i < c.maxIter && i < |g.plan| {
      RunsFromSameCourse(c, w, maxTokens, i + 1, AdvanceFailed(c, w(i), i, g), AdvanceFailed(c, w(i), i, h));
    }
  }

  /** From every failed point of a run, the rest of the log is exactly the ungated steps, up to
      the limit, the token budget or the cancellation. */
  lemma {:induction false} FailedLoopLog(c: Config, w: World, i: nat, r: Run)
    requires r.task.plan.Some? && r.task.state == Failed
    ensures Loop(c, w, i, r).0.log == r.log + RunsFrom(c, w, r.task.maxTokens, i, ProgressOf(r.task))
    decreases |r.task.plan.value| - i
  {
    if i < c.maxIter && i < |r.task.plan.value| {
      hide Iterate, Loop, Advance, StepOk, Gated, Replace;
      var (r1, next) := Iterate(c, w(i), i, r);
      var g, max := ProgressOf(r.task), r.task.maxTokens;
      FailedIterationRunsExactly(c, w(i), i, r);
      LoopStep(c, w, i, r, r1, next);
      if next == Continue {
        IterateFailed(c, w(i), i, r);
        FailedLoopLog(c, w, i + 1, r1);
        RunsFromSameCourse(c, w, max, i + 1, ProgressOf(r1.task), AdvanceFailed(c, w(i), i, g));
        var rest := RunsFrom(c, w, max, i + 1, AdvanceFailed(c, w(i), i, g));
        assert Loop(c, w, i, r).0.log == r1.log + rest;
      }
    }
  }

  /** The loop gets to slot `k`: nothing before it is cancelled or exhausts the budget. */
  predicate Reaches(c: Config, w: World, maxTokens: int, i: nat, g: Progress, k: nat)
    requires k <= |g.plan|
    decreases k - i
  {
    k <= i ||
    (!w(i).cancelled && (Gated(c, w(i), g.plan[i]) || !Exhausted(maxTokens, g))
     && Reaches(c, w, maxTokens, i + 1, AdvanceFailed(c, w(i), i, g), k))
  }

  /** The plan as it stands when the loop gets to slot `k`. */
  function CourseAt(c: Config, w: World, i: nat, g: Progress, k: nat): (g': Progress)
    requires k <= |g.plan|
    ensures |g'.plan| == |g.plan|
    decreases k - i
  {
    if k <= i then g else CourseAt(c, w, i + 1, AdvanceFailed(c, w(i), i, g), k)
  }

  predicate RunsAt(c: Config, w: World, maxTokens: int, i: nat, g: Progress, k: nat) {
    && i <= k < c.maxIter && k < |g.plan| && Reaches(c, w, maxTokens, i, g, k)
    && !w(k).cancelled && !Gated(c, w(k), CourseAt(c, w, i, g, k).plan[k])
  }

  ghost predicate Mentions(acts: seq<Act>, k: nat) {
    exists m :: 0 <= m < |acts| && acts[m].i == k
  }

  lemma {:induction false} RunsFromExactly(c: Config, w: World, maxTokens: int, i: nat, g: Progress, k: nat)
    ensures Mentions(RunsFrom(c, w, maxTokens, i, g), k) <==> RunsAt(c, w, maxTokens, i, g, k)
    decreases |g.plan| - i
  {
    if i < c.maxIter && i < |g.plan| && !w(i).cancelled {
      var acts := RunsFrom(c, w, maxTokens, i, g);
      var g1 := AdvanceFailed(c, w(i), i, g);
      var rest := RunsFrom(c, w, maxTokens, i + 1, g1);
      RunsFromExactly(c, w, maxTokens, i + 1, g1, k);
      if !Gated(c, w(i), g.plan[i]) {
        hide Advance, StepOk, Gated;
        assert acts[0].i == i;
        if !Exhausted(maxTokens, g) {
          assert acts == [acts[0]] + rest;
          assert Mentions(acts, k) <==> k == i || Mentions(rest, k) by {
            if Mentions(rest, k) {
              var m :| 0 <= m < |rest| && rest[m].i == k;
              assert acts[m + 1].i == k;
            }
          }
        }
      }
    }
  }

  /** Failing does not stop the loop.  From every failed point, slot `k` is executed if and
      only if the loop gets there, uncancelled, and the step then in that slot is not gated. */
  lemma RunsOnAfterFailed(c: Config, w: World, i: nat, r: Run, k: nat)
    requires r.task.plan.Some? && r.task.state == Failed
    ensures var log := Loop(c, w, i, r).0.log;
      && |r.log| <= |log| && log[..|r.log|] == r.log
      && (Mentions(log[|r.log|..], k) <==> RunsAt(c, w, r.task.maxTokens, i, ProgressOf(r.task), k))
  {
    hide Loop, RunsFrom, RunsAt;
    FailedLoopLog(c, w, i, r);
    RunsFromExactly(c, w, r.task.maxTokens, i, ProgressOf(r.task), k);
    var acts := RunsFrom(c, w, r.task.maxTokens, i, ProgressOf(r.task));
    assert (r.log + acts)[|r.log|..] == acts;
  }

  lemma {:induction false} RunsNothingExactly(c: Config, w: World, maxTokens: int, i: nat, g: Progress)
    ensures RunsFrom(c, w, maxTokens, i, g) == [] <==> AllGated(c, w, i, g.plan)
    decreases |g.plan| - i
  {
    hide Advance, Gated;
    if i < c.maxIter && i < |g.plan| && !w(i).cancelled {
      RunsNothingExactly(c, w, maxTokens, i + 1, g);
      assert AllGated(c, w, i, g.plan) <==> Gated(c, w(i), g.plan[i]) && AllGated(c, w, i + 1, g.plan) by {
        assert AllGated(c, w, i, g.plan) ==> Gated(c, w(i), g.plan[i]);
      }
    }
  }

  /** Every slot from `i` on that is in reach, up to the first cancellation, is gated. */
  ghost predicate AllGated(c: Config, w: World, i: nat, plan: seq<PlanStep>) {
    forall k :: i <= k < c.maxIter && k < |plan| && (forall j :: i <= j <= k ==> !w(j).cancelled) ==> Gated(c, w(k), plan[k])
  }

  /** So nothing runs after `failed` if and only if every remaining slot in reach is gated. */
  lemma NothingRunsAfterFailedIff(c: Config, w: World, i: nat, r: Run)
    requires r.task.plan.Some? && r.task.state == Failed
    ensures Loop(c, w, i, r).0.log == r.log <==> AllGated(c, w, i, r.task.plan.value)
  {
    hide Loop, RunsFrom, AllGated;
    FailedLoopLog(c, w, i, r);
    RunsNothingExactly(c, w, r.task.maxTokens, i, ProgressOf(r.task));
    var acts := RunsFrom(c, w, r.task.maxTokens, i, ProgressOf(r.task));
    assert |r.log + acts| == |r.log| + |acts|;
  }

  /** And such runs exist: a plan of two ungated steps whose first one fails with no retry left
      executes the second in `failed`. */
  lemma FailedTaskRunsAnotherTool(c: Config, w: World, t: Task, first: PlanStep, second: PlanStep)
    requires t.state == Pending && t.maxRetries <= t.retryCount + 1 && t.maxTokens <= 0
    requires c.maxIter >= 2 && first.tool in c.tools && second.tool in c.tools
    requires w(0) == Env(false, false, SubmitError(""), false, [], 0) && !w(1).cancelled && !w(1).needsApproval
    ensures var (r, next) := ExecuteTask(c, w, t, [first, second], 0);
      next == Continue && r.task.state == Failed && r.log == [Ran(0, first, false), Ran(1, second, w(1).ok)]
  {
    var t0 := t.(plan := Some([first, second]), state := Executing);
    var r0 := Run(t0, []);
    var r1 := Iterate(c, w(0), 0, r0).0;
    assert Replace([first, second], 1, []) == [first, second];
    assert r1.task.state == Failed && r1.task.plan == Some([first, second]) && r1.log == [Ran(0, first, false)];
    var r2 := Iterate(c, w(1), 1, r1).0;
    assert r2.task.state == Failed && r2.log == r1.log + [Ran(1, second, w(1).ok)];
    calc {
      Loop(c, w, 0, r0);
      Loop(c, w, 1, r1);
      Loop(c, w, 2, r2);
      (r2, Continue);
    }
  }
}
