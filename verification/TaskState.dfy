/**
 The task record and its state machine (internal/agent/state.go).
 */
module TaskState {
  import opened Wrappers

  datatype State = Pending | Planning | Executing | WaitingHitl | Reviewing | Completed | Failed | Cancelled

  datatype Event =
    | Start | PlanReady | StepComplete | StepFailed | HitlRequired
    | HitlApproved | HitlRejected | ReviewPassed | ReviewFailed | Cancel

  datatype PlanStep = PlanStep(tool: string, params: string)

  datatype StepResult = StepResult(tool: string, ok: bool)

  /** `tokens` is input plus output tokens; a plan's TotalSteps is always its length. */
  datatype Task = Task(
    state: State,
    plan: Option<seq<PlanStep>>,
    steps: seq<StepResult>,
    currentStep: int,
    tokens: int,
    maxTokens: int,
    retryCount: int,
    maxRetries: int,
    error: string,
    finished: bool)

  const REJECTED := "rejected by human"

  /** The state an event leads to, if it is valid. */
  function NextState(t: Task, e: Event): Option<State> {
    match t.state
    case Pending => if e == Start then Some(Planning) else if e == Cancel then Some(Cancelled) else None
    case Planning => if e == PlanReady then Some(Executing) else if e == StepFailed then Some(Failed) else None
    case Executing =>
      (match e
       case StepComplete => Some(if t.plan.Some? && t.currentStep >= |t.plan.value| - 1 then Reviewing else Executing)
       case StepFailed => Some(if t.retryCount + 1 >= t.maxRetries then Failed else Executing)
       case HitlRequired => Some(WaitingHitl)
       case HitlApproved => Some(Executing)
       case Cancel => Some(Cancelled)
       case _ => None)
    case WaitingHitl => if e == HitlApproved then Some(Executing) else if e == HitlRejected then Some(Failed) else None
    case Reviewing => if e == ReviewPassed then Some(Completed) else if e == ReviewFailed then Some(Executing) else None
    case _ => None
  }

  /** The new task, and whether the transition was valid.  An invalid one changes nothing. */
  function Transition(t: Task, e: Event): (Task, bool) {
    var next := NextState(t, e);
    if next.None? then (t, false)
    else
      (t.(state := next.value,
          retryCount := if e == StepFailed && next.value == Executing then t.retryCount + 1 else t.retryCount,
          error := if e == HitlRejected then REJECTED else t.error,
          finished := t.finished || next.value == Completed),
       true)
  }

  function ValidTransitions(s: State): seq<Event> {
    match s
    case Pending => [Start, Cancel]
    case Planning => [PlanReady, StepFailed]
    case Executing => [StepComplete, StepFailed, HitlRequired, HitlApproved, Cancel]
    case WaitingHitl => [HitlApproved, HitlRejected]
    case Reviewing => [ReviewPassed, ReviewFailed]
    case _ => []
  }

  predicate IsTerminal(s: State) {
    s == Completed || s == Failed || s == Cancelled
  }

  /** The published list of events is exactly what the machine accepts, and the terminal
      states are exactly those it can never leave. */
  lemma TransitionsAgree(t: Task, e: Event)
    ensures Transition(t, e).1 <==> e in ValidTransitions(t.state)
    ensures IsTerminal(t.state) <==> forall e' :: !Transition(t, e').1
    ensures !Transition(t, e).1 ==> Transition(t, e).0 == t
  {
    if !IsTerminal(t.state) {
      assert Transition(t, ValidTransitions(t.state)[0]).1;
    }
  }

  /** No retry is left for another failed step. */
  predicate LastRetry(t: Task) {
    t.retryCount + 1 >= t.maxRetries
  }

  /** Where a valid event leads is told by the event: each state but `executing` has its own
      cause.  A retry is counted for a failed step that goes on, the time of completion is set
      by completion alone, a rejection leaves its error, and nothing else is touched. */
  lemma EventsDetermineStates(t: Task, e: Event)
    requires Transition(t, e).1
    ensures var t' := Transition(t, e).0;
      && (t'.state == Planning <==> e == Start)
      && (t'.state == Completed <==> e == ReviewPassed)
      && (t'.state == Cancelled <==> e == Cancel)
      && (t'.state == WaitingHitl <==> e == HitlRequired)
      && (t'.state == Reviewing <==> e == StepComplete && t.plan.Some? && t.currentStep >= |t.plan.value| - 1)
      && (t'.state == Failed <==> e == HitlRejected || (e == StepFailed && (t.state == Planning || LastRetry(t))))
      && t'.state != Pending
      && t'.retryCount == t.retryCount + (if e == StepFailed && t'.state != Failed then 1 else 0)
      && t'.finished == (t.finished || e == ReviewPassed)
      && t'.error == (if e == HitlRejected then "rejected by human" else t.error)
      && t' == t.(state := t'.state, retryCount := t'.retryCount, finished := t'.finished, error := t'.error)
  {
  }

  /** The record that the machine and the agent update in place. */
  class TaskRecord {
    var state: State
    var plan: Option<seq<PlanStep>>
    var steps: seq<StepResult>
    var currentStep: int
    var tokens: int
    const maxTokens: int
    var retryCount: int
    const maxRetries: int
    var error: string
    var finished: bool

    ghost function View(): Task
      reads this
    {
      Task(state, plan, steps, currentStep, tokens, maxTokens, retryCount, maxRetries, error, finished)
    }

    constructor (maxTokens: int, maxRetries: int, retryCount: int)
      ensures View() == Task(Pending, None, [], 0, 0, maxTokens, retryCount, maxRetries, "", false)
    {
      state, plan, steps, currentStep, tokens := Pending, None, [], 0, 0;
      error, finished := "", false;
      this.maxTokens, this.maxRetries, this.retryCount := maxTokens, maxRetries, retryCount;
    }

    method Apply(e: Event) returns (valid: bool)
      modifies this
      ensures (View(), valid) == Transition(old(View()), e)
    {
      valid := true;
      match (state, e) {
        case (Pending, Start) => state := Planning;
        case (Pending, Cancel) => state := Cancelled;
        case (Planning, PlanReady) => state := Executing;
        case (Planning, StepFailed) => state := Failed;
        case (Executing, StepComplete) =>
          if plan.Some? && currentStep >= |plan.value| - 1 {
            state := Reviewing;
          }
        case (Executing, StepFailed) =>
          if retryCount + 1 >= maxRetries {
            state := Failed;
          } else {
            retryCount := retryCount + 1;
          }
        case (Executing, HitlRequired) => state := WaitingHitl;
        case (Executing, HitlApproved) => state := Executing;
        case (Executing, Cancel) => state := Cancelled;
        case (WaitingHitl, HitlApproved) => state := Executing;
        case (WaitingHitl, HitlRejected) =>
          state := Failed;
          error := REJECTED;
        case (Reviewing, ReviewPassed) =>
          state := Completed;
          finished := true;
        case (Reviewing, ReviewFailed) => state := Executing;
        case _ => valid := false;
      }
    }
  }
}
