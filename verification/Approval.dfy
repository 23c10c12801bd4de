/**
 The agent and the approval queue together.

 The agent submits the checkpoint of step `i` under the id `cp-<task>-<i>`
 (internal/agent/agent.go:696); the adapter makes a fresh entry for it and hands back the
 status the queue returned (internal/server/server.go:560-590).
 */
module Approval {
  import opened Wrappers
  import opened Verdicts
  import A = Agent
  import T = TaskState
  import Q = HitlQueue

  // Checkpoint ids

  function Digit(d: nat): char
    requires d < 10
  {
    "0123456789"[d]
  }

  function Decimal(n: nat): string {
    if n < 10 then [Digit(n)] else Decimal(n / 10) + [Digit(n % 10)]
  }

  function CheckpointId(task: string, i: nat): string {
    "cp-" + task + "-" + Decimal(i)
  }

  lemma DigitIsNoDash(d: nat)
    requires d < 10
    ensures Digit(d) != '-'
  {
  }

  lemma {:induction false} DecimalHasNoDash(n: nat)
    ensures |Decimal(n)| > 0 && forall k :: 0 <= k < |Decimal(n)| ==> Decimal(n)[k] != '-'
  {
    if n < 10 {
      DigitIsNoDash(n);
    } else {
      DecimalHasNoDash(n / 10);
      DigitIsNoDash(n % 10);
    }
  }

  function DigitValue(c: char): int {
    c as int - '0' as int
  }

  /** The number that a numeral stands for, its last digit the ones. */
  function Value(s: string): int {
    if s == "" then 0 else 10 * Value(s[..|s| - 1]) + DigitValue(s[|s| - 1])
  }

  /** The decimal numeral reads back as the number, and has no leading zero. */
  lemma {:induction false} DecimalReadsBack(n: nat)
    ensures Value(Decimal(n)) == n && |Decimal(n)| > 0 && (n > 0 ==> Decimal(n)[0] != '0')
  {
    var s := Decimal(n);
    assert DigitValue(Digit(n % 10)) == n % 10 by {
      assert forall k :: 0 <= k < 10 ==> "0123456789"[k] == '0' + k as char;
    }
    if n < 10 {
      assert s[..0] == "";
    } else {
      DecimalReadsBack(n / 10);
      assert s[..|s| - 1] == Decimal(n / 10);
    }
  }

  lemma DecimalInjective(a: nat, b: nat)
    requires Decimal(a) == Decimal(b)
    ensures a == b
  {
    DecimalReadsBack(a);
    DecimalReadsBack(b);
  }

  /** The position of the dash before a dash-free suffix is determined by the string. */
  lemma LastDash(p: string, u: string, q: string, v: string)
    requires p + "-" + u == q + "-" + v
    requires '-' !in u && '-' !in v
    ensures p == q && u == v
  {
    var s := p + "-" + u;
    assert s == q + "-" + v;
    assert u == s[|p| + 1..] && v == s[|q| + 1..];
    assert s[|p|] == '-' && s[|q|] == '-';
    assert forall k :: |p| < k < |s| ==> s[k] in u;
    assert forall k :: |q| < k < |s| ==> s[k] in v;
    assert p == s[..|p|] && q == s[..|q|];
  }

  /** No two steps, of the same task or of different ones, share a checkpoint id. */
  lemma CheckpointIdsDistinct(task: string, i: nat, task': string, i': nat)
    requires CheckpointId(task, i) == CheckpointId(task', i')
    ensures task == task' && i == i'
  {
    DecimalHasNoDash(i);
    DecimalHasNoDash(i');
    LastDash("cp-" + task, Decimal(i), "cp-" + task', Decimal(i'));
    assert task == ("cp-" + task)[3..] && task' == ("cp-" + task')[3..];
    DecimalInjective(i, i');
  }

  // ---------------------------------------------------------------------------------------
  // Agents and queue in one run
  // ---------------------------------------------------------------------------------------

  /** One execution of the task with id `task`. */
  datatype Execution = Execution(
    task: string, c: A.Config, w: A.World, t: T.Task, plan: seq<T.PlanStep>, planTokens: nat)

  function LogOf(x: Execution): seq<A.Act> {
    A.ExecuteTask(x.c, x.w, x.t, x.plan, x.planTokens).0.log
  }

  /** An execution beside a run of the queue: `when(k)` queue events came before the agent's
      k-th act, and `checkpoint(i)` is the entry that the adapter made for step `i`. */
  datatype Session = Session(
    x: Execution, timeout: int, trace: seq<Q.Event>, when: nat -> nat, checkpoint: nat -> Q.Ref)

  ghost function QueueAt(y: Session, n: nat): (s: Q.System)
    requires n <= |y.trace|
    ensures Q.Inv(s)
  {
    Q.Run(Q.Start(y.timeout), y.trace[..n])
  }

  /** At that moment the `Submit` for step `i` has returned `status`. */
  ghost predicate HasReturned(y: Session, n: nat, i: nat, status: string)
    requires n <= |y.trace|
  {
    var s, r := QueueAt(y, n), y.checkpoint(i);
    && r in s.tracks && r in s.q.entries
    && s.q.entries[r].id == CheckpointId(y.x.task, i)
    && s.tracks[r].phase == Q.Returned(Some(status))
  }

  /** The two run together: acts happen in order, and an answer is what `Submit` has returned
      by then. */
  ghost predicate Joined(y: Session) {
    && (forall k :: 0 <= k < |LogOf(y.x)| ==> y.when(k) <= |y.trace|)
    && (forall k, m :: 0 <= k < m < |LogOf(y.x)| ==> y.when(k) <= y.when(m))
    && (forall k :: 0 <= k < |LogOf(y.x)| && LogOf(y.x)[k].Asked? && LogOf(y.x)[k].verdict.Status? ==>
         HasReturned(y, y.when(k), LogOf(y.x)[k].i, LogOf(y.x)[k].verdict.status))
  }

  /** The p-th queue event is a `Decide` that approves the pending checkpoint of step `i`. */
  ghost predicate ApprovedAt(y: Session, p: nat, i: nat) {
    && p < |y.trace| && y.trace[p] == Q.DecideCall(CheckpointId(y.x.task, i), APPROVE)
    && Q.IsPending(QueueAt(y, p).q, y.checkpoint(i))
  }

  /** The checkpoint of step `i` is settled once in the whole run, by an approval. */
  ghost predicate OnlyApproved(y: Session, i: nat) {
    var s, r := QueueAt(y, |y.trace|), y.checkpoint(i);
    r in s.tracks && s.tracks[r].log == [Q.Decided(APPROVE)]
  }

  /** Checkpoints keep their ids and settlements as the run goes on. */
  lemma QueueMovesOn(y: Session, n: nat, m: nat, r: Q.Ref)
    requires n <= m <= |y.trace| && r in QueueAt(y, n).tracks
    ensures var s, s' := QueueAt(y, n), QueueAt(y, m);
      && r in s.q.entries && r in s'.tracks && r in s'.q.entries && s'.q.entries[r].id == s.q.entries[r].id
      && (s.tracks[r].log != [] ==> s'.tracks[r].log == s.tracks[r].log)
  {
    var start, before, between := Q.Start(y.timeout), y.trace[..n], y.trace[n..m];
    assert before + between == y.trace[..m];
    assert Q.Inv(start);
    hide Q.Run;
    Q.RunInTwo(start, before, between);
    Q.RunKeepsSettlement(Q.Run(start, before), between, r);
  }

  /** What `Submit` returned as approved was approved before, and by nothing else ever. */
  lemma ReturnedWasApproved(y: Session, n: nat, i: nat) returns (p: nat)
    requires n <= |y.trace| && HasReturned(y, n, i, APPROVE)
    ensures p < n && ApprovedAt(y, p, i) && OnlyApproved(y, i)
  {
    var start, before, r := Q.Start(y.timeout), y.trace[..n], y.checkpoint(i);
    assert Q.Inv(start) && start.tracks == map[];
    hide Q.Run, Q.Inv;
    Q.ApprovalComesFromDecide(y.timeout, before, r);
    p := Q.SettledAtSomePoint(start, before, r, Q.Decided(APPROVE));
    assert before[..p] == y.trace[..p];
    hide CheckpointId;
    assert Q.SettlesNow(QueueAt(y, p), y.trace[p], r, Q.Decided(APPROVE));
    hide QueueAt;
    QueueMovesOn(y, p, n, r);
    QueueMovesOn(y, n, |y.trace|, r);
  }

  /** End to end, over every execution, every run of the queue and every way they interleave:
      a step that required approval is executed only after a `Decide` approved the pending
      checkpoint of that very step, and that is the only settlement it ever gets. */
  lemma ApprovedBeforeItRan(y: Session, k: nat) returns (p: nat)
    requires y.x.c.queueAttached && Joined(y) && k < |LogOf(y.x)|
    requires LogOf(y.x)[k].Ran? && A.Gated(y.x.c, y.x.w(LogOf(y.x)[k].i), LogOf(y.x)[k].step)
    ensures p < y.when(k) && ApprovedAt(y, p, LogOf(y.x)[k].i) && OnlyApproved(y, LogOf(y.x)[k].i)
  {
    A.GateSafety(y.x.c, y.x.w, y.x.t, y.x.plan, y.x.planTokens);
    hide A.ExecuteTask, A.Gated, QueueAt, ApprovedAt, HasReturned, OnlyApproved;
    var log := LogOf(y.x);
    assert log[k - 1] == A.Asked(log[k].i, log[k].step, A.Status(APPROVE));
    p := ReturnedWasApproved(y, y.when(k - 1), log[k].i);
  }

  /** No approval is used twice: the answers to different steps come from different checkpoints. */
  lemma ApprovalsAreNotShared(y: Session, k: nat, m: nat)
    requires y.x.c.queueAttached && Joined(y) && k < m < |LogOf(y.x)|
    requires LogOf(y.x)[k].Asked? && LogOf(y.x)[k].verdict.Status? && LogOf(y.x)[m].Asked? && LogOf(y.x)[m].verdict.Status?
    ensures y.checkpoint(LogOf(y.x)[k].i) != y.checkpoint(LogOf(y.x)[m].i)
  {
    A.GateSafety(y.x.c, y.x.w, y.x.t, y.x.plan, y.x.planTokens);
    hide A.ExecuteTask, QueueAt, CheckpointId;
    var a, b := LogOf(y.x)[k].i, LogOf(y.x)[m].i;
    assert a < b;
    QueueMovesOn(y, y.when(k), y.when(m), y.checkpoint(a));
    if y.checkpoint(a) == y.checkpoint(b) {
      CheckpointIdsDistinct(y.x.task, a, y.x.task, b);
    }
  }

  // No lost wake-up

  /** The submissions of a queue run are those of the executions, each made once: the n-th
      event, if it is one, is for act `of(n).1` of execution `of(n).0`. */
  ghost predicate Submits(xs: seq<Execution>, trace: seq<Q.Event>, of: nat -> (nat, nat)) {
    && (forall n :: 0 <= n < |trace| && trace[n].SubmitCall? ==> SubmittedBy(xs, trace[n].id, of(n)))
    && (forall n, m :: 0 <= n < m < |trace| && trace[n].SubmitCall? && trace[m].SubmitCall? ==> of(n) != of(m))
  }

  ghost predicate SubmittedBy(xs: seq<Execution>, id: string, at: (nat, nat)) {
    && at.0 < |xs| && at.1 < |LogOf(xs[at.0])| && LogOf(xs[at.0])[at.1].Asked?
    && id == CheckpointId(xs[at.0].task, LogOf(xs[at.0])[at.1].i)
  }

  lemma DifferentActsDifferentIds(xs: seq<Execution>, id: string, a: (nat, nat), b: (nat, nat))
    requires forall n :: 0 <= n < |xs| ==> xs[n].c.queueAttached
    requires forall n, m :: 0 <= n < m < |xs| ==> xs[n].task != xs[m].task
    requires SubmittedBy(xs, id, a) && SubmittedBy(xs, id, b)
    ensures a == b
  {
    var x, z := xs[a.0], xs[b.0];
    CheckpointIdsDistinct(x.task, LogOf(x)[a.1].i, z.task, LogOf(z)[b.1].i);
    A.GateSafety(x.c, x.w, x.t, x.plan, x.planTokens);
  }

  /** Agents never make the queue lose a wake-up: with one execution per task, whatever the
      agents do and however their submissions interleave with decisions, timeouts and sweeps,
      every settled checkpoint is signalled or about to be. */
  lemma AgentsNeverLoseWakeups(xs: seq<Execution>, timeout: int, trace: seq<Q.Event>, of: nat -> (nat, nat))
    requires forall n :: 0 <= n < |xs| ==> xs[n].c.queueAttached
    requires forall n, m :: 0 <= n < m < |xs| ==> xs[n].task != xs[m].task
    requires Submits(xs, trace, of)
    ensures Q.NeverLost(Q.Start(timeout), trace)
  {
    forall n, m | 0 <= n < m < |trace| && trace[n].SubmitCall? && trace[m].SubmitCall? ensures trace[n].id != trace[m].id {
      if trace[n].id == trace[m].id {
        DifferentActsDifferentIds(xs, trace[n].id, of(n), of(m));
      }
    }
    Q.DistinctIdsAreFresh(Q.Start(timeout), trace);
    Q.QueueNeverLosesWakeups(timeout, trace);
  }
}
