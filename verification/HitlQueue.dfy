/**
 The human-in-the-loop checkpoint queue (internal/middleware/hitl.go).

 `Submit` publishes a checkpoint and blocks; `Decide`, `markTimeout` and the expiry sweep
 race to settle it.  Each critical section is one function below and one method of the
 class; closing the channel is a later critical section of its own, so the settled but not
 yet signalled window is visible.  Pointers to entries are references, one per `Submit`.
 */
module HitlQueue {
  import opened Wrappers
  import opened Verdicts

  type Ref = nat

  const PENDING := "pending"
  const TIMED_OUT := "timed_out"

  datatype Entry = Entry(id: string, status: string, expiresAt: int, closed: bool)

  /** The `pending` map, and the entries its pointers (and the submitters' pointers) reach. */
  datatype Queue = Queue(pending: map<string, Ref>, entries: map<Ref, Entry>, timeout: int)

  predicate IsPending(q: Queue, r: Ref) {
    r in q.entries && q.entries[r].id in q.pending && q.pending[q.entries[r].id] == r
  }

  ghost predicate Linked(q: Queue) {
    forall id :: id in q.pending ==> q.pending[id] in q.entries && q.entries[q.pending[id]].id == id
  }

  // The critical sections

  function Register(q: Queue, r: Ref, id: string, now: int): Queue {
    q.(pending := q.pending[id := r],
       entries := q.entries[r := Entry(id, PENDING, now + q.timeout, false)])
  }

  /** Takes `id` out of the pending map with a final status. */
  function Settle(q: Queue, id: string, status: string): Queue
    requires id in q.pending && q.pending[id] in q.entries
  {
    var r := q.pending[id];
    q.(pending := q.pending - {id}, entries := q.entries[r := q.entries[r].(status := status)])
  }

  function Decide(q: Queue, id: string, decision: string): (Queue, Option<Ref>)
    requires Linked(q)
  {
    if id !in q.pending then (q, None)
    else if q.entries[q.pending[id]].status != PENDING then (q, None)
    else (Settle(q, id, decision), Some(q.pending[id]))
  }

  function MarkTimeout(q: Queue, id: string): (Queue, Option<Ref>)
    requires Linked(q)
  {
    if id !in q.pending then (q, None)
    else (Settle(q, id, TIMED_OUT), Some(q.pending[id]))
  }

  function Signal(q: Queue, r: Ref): Queue
    requires r in q.entries
  {
    q.(entries := q.entries[r := q.entries[r].(closed := true)])
  }

  function Expired(q: Queue, now: int): set<string>
    requires Linked(q)
  {
    set id | id in q.pending && now > q.entries[q.pending[id]].expiresAt
  }

  /** Times out and closes the checkpoints `ids`, all in one critical section. */
  function SweepIds(q: Queue, ids: set<string>): Queue {
    q.(pending := q.pending - ids,
       entries := map r | r in q.entries ::
         if IsPending(q, r) && q.entries[r].id in ids
         then q.entries[r].(status := TIMED_OUT, closed := true) else q.entries[r])
  }

  function Sweep(q: Queue, now: int): Queue
    requires Linked(q)
  {
    SweepIds(q, Expired(q, now))
  }

  /** Sweeping one more id is one more round of the sweep loop. */
  lemma SweepOneMore(q: Queue, done: set<string>, id: string)
    requires Linked(q) && id in q.pending && id !in done
    ensures var q1 := SweepIds(q, done);
      id in q1.pending && q1.pending[id] in q1.entries
      && SweepIds(q, done + {id}) == q1.(
           pending := q1.pending - {id},
           entries := q1.entries[q1.pending[id] := q1.entries[q1.pending[id]].(status := TIMED_OUT, closed := true)])
  {
  }

  class HITLQueue {
    var pending: map<string, Ref>
    var entries: map<Ref, Entry>
    const timeout: int

    ghost function View(): Queue
      reads this
    {
      Queue(pending, entries, timeout)
    }

    constructor (timeout: int)
      ensures View() == Queue(map[], map[], timeout)
    {
      this.pending, this.entries, this.timeout := map[], map[], timeout;
    }

    /** The part of `Submit` before it blocks. */
    method SubmitEntry(r: Ref, id: string, now: int)
      requires Linked(View()) && r !in entries
      modifies this
      ensures View() == Register(old(View()), r, id, now) && Linked(View())
    {
      entries := entries[r := Entry(id, PENDING, now + timeout, false)];
      pending := pending[id := r];
    }

    method DecideEntry(id: string, decision: string) returns (settled: Option<Ref>)
      requires Linked(View())
      modifies this
      ensures (View(), settled) == Decide(old(View()), id, decision) && Linked(View())
    {
      if id !in pending {
        return None;
      }
      var r := pending[id];
      if entries[r].status != PENDING {
        return None;
      }
      entries := entries[r := entries[r].(status := decision)];
      pending := pending - {id};
      settled := Some(r);
    }

    method MarkTimeoutEntry(id: string) returns (settled: Option<Ref>)
      requires Linked(View())
      modifies this
      ensures (View(), settled) == MarkTimeout(old(View()), id) && Linked(View())
    {
      if id !in pending {
        return None;
      }
      var r := pending[id];
      entries := entries[r := entries[r].(status := TIMED_OUT)];
      pending := pending - {id};
      settled := Some(r);
    }

    method SignalDecision(r: Ref) returns (closedNow: bool)
      requires Linked(View()) && r in entries
      modifies this
      ensures View() == Signal(old(View()), r) && Linked(View())
      ensures closedNow <==> !old(entries[r].closed)
    {
      closedNow := !entries[r].closed;
      if closedNow {
        entries := entries[r := entries[r].(closed := true)];
      }
      assert entries == old(Signal(View(), r).entries);
    }

    /** One tick of the expiry checker: visits the pending map in any order. */
    method ExpirySweep(now: int)
      requires Linked(View())
      modifies this
      ensures View() == Sweep(old(View()), now) && Linked(View())
    {
      ghost var q0 := View();
      ghost var done: set<string> := {};
      var todo := pending.Keys;
      assert View() == SweepIds(q0, {});
      while todo != {}
        invariant todo <= q0.pending.Keys && todo !! done
        invariant View() == SweepIds(q0, done)
        invariant forall id :: id in q0.pending && id !in todo ==> (id in done <==> id in Expired(q0, now))
        invariant done <= q0.pending.Keys
        decreases todo
      {
        var id :| id in todo;
        todo := todo - {id};
        var r := pending[id];
        if now > entries[r].expiresAt {
          entries := entries[r := entries[r].(status := TIMED_OUT, closed := true)];
          pending := pending - {id};
          SweepOneMore(q0, done, id);
          done := done + {id};
        }
      }
      assert done == Expired(q0, now);
    }
  }

  // ---------------------------------------------------------------------------------------
  // Every interleaving
  // ---------------------------------------------------------------------------------------

  /** How a checkpoint left the pending map. */
  datatype Settlement = Decided(decision: string) | TimedOut | Swept

  function StatusOf(x: Settlement): string {
    if x.Decided? then x.decision else TIMED_OUT
  }

  /** Where a `Submit` call is; `Returned(None)` is an error, `Returned(Some(v))` an entry with status `v`. */
  datatype Phase = Waiting | GivingUp | Returned(result: Option<string>)

  /** A checkpoint's history: its settlements and channel closes so far, the threads between
      its settlement and its signal, where its `Submit` call is, and when that was made. */
  datatype Track = Track(log: seq<Settlement>, closes: nat, owed: nat, phase: Phase, since: int)

  datatype System = System(q: Queue, tracks: map<Ref, Track>)

  datatype Event =
    | SubmitCall(r: Ref, id: string, now: int)  // Submit publishes its entry
    | DecideCall(id: string, decision: string)  // Decide's critical section
    | SignalCall(r: Ref)                        // signalDecision's critical section
    | SweepTick(now: int)                       // the expiry checker
    | Wake(r: Ref)                              // Submit's select takes the closed channel
    | GiveUp(r: Ref)                            // Submit's select takes the timer or the context
    | TimeoutCall(r: Ref)                       // markTimeout's critical section, then the error return

  function Start(timeout: int): System {
    System(Queue(map[], map[], timeout), map[])
  }

  ghost predicate Keys(s: System) {
    Linked(s.q) && s.tracks.Keys == s.q.entries.Keys
  }

  /** Logs a settlement, if there was one, and owes its signal. */
  function Settled(s: System, q: Queue, settled: Option<Ref>, x: Settlement): System
    requires settled.Some? ==> settled.value in s.tracks
  {
    if settled.None? then s.(q := q)
    else
      var t := s.tracks[settled.value];
      System(q, s.tracks[settled.value := t.(log := t.log + [x], owed := t.owed + 1)])
  }

  function Signalled(s: System, r: Ref): System
    requires r in s.tracks && r in s.q.entries && s.tracks[r].owed > 0
  {
    var t := s.tracks[r];
    var closing := if s.q.entries[r].closed then 0 else 1;
    System(Signal(s.q, r), s.tracks[r := t.(owed := t.owed - 1, closes := t.closes + closing)])
  }

  function SweptTrack(s: System, ids: set<string>, r: Ref): Track
    requires r in s.tracks
  {
    var t := s.tracks[r];
    if !(IsPending(s.q, r) && s.q.entries[r].id in ids) then t
    else t.(log := t.log + [Swept], closes := t.closes + if s.q.entries[r].closed then 0 else 1)
  }

  /** One event; an event that is not enabled changes nothing. */
  function Step(s: System, e: Event): System
    requires Keys(s)
  {
    match e
    case SubmitCall(r, id, now) =>
      if r in s.q.entries then s
      else System(Register(s.q, r, id, now), s.tracks[r := Track([], 0, 0, Waiting, now)])
    case DecideCall(id, decision) =>
      var (q, settled) := Decide(s.q, id, decision);
      Settled(s, q, settled, Decided(decision))
    case SignalCall(r) =>
      if r in s.tracks && s.tracks[r].owed > 0 then Signalled(s, r) else s
    case SweepTick(now) =>
      System(Sweep(s.q, now), map r | r in s.tracks :: SweptTrack(s, Expired(s.q, now), r))
    case Wake(r) =>
      if r in s.tracks && s.tracks[r].phase == Waiting && s.q.entries[r].closed
      then s.(tracks := s.tracks[r := s.tracks[r].(phase := Returned(Some(s.q.entries[r].status)))])
      else s
    case GiveUp(r) =>
      if r in s.tracks && s.tracks[r].phase == Waiting
      then s.(tracks := s.tracks[r := s.tracks[r].(phase := GivingUp)])
      else s
    case TimeoutCall(r) =>
      if r in s.tracks && s.tracks[r].phase == GivingUp
      then
        var (q, settled) := MarkTimeout(s.q, s.q.entries[r].id);
        var s1 := Settled(s, q, settled, TimedOut);
        s1.(tracks := s1.tracks[r := s1.tracks[r].(phase := Returned(None))])
      else s
  }

  /** What holds of one checkpoint at all times. */
  ghost predicate TrackInv(e: Entry, t: Track, pending: bool, timeout: int) {
    && e.expiresAt == t.since + timeout
    && (t.phase.Returned? ==> !pending)
    && |t.log| <= 1
    && (pending ==> t.log == [])
    && t.owed + t.closes == |t.log|
    && t.closes == (if e.closed then 1 else 0)
    && e.status == (if t.log == [] then PENDING else StatusOf(t.log[0]))
    && (t.phase.Returned? && t.phase.result.Some? ==> e.closed && t.phase.result.value == e.status)
  }

  ghost predicate EntryInv(s: System, r: Ref)
    requires Keys(s) && r in s.tracks
  {
    TrackInv(s.q.entries[r], s.tracks[r], IsPending(s.q, r), s.q.timeout)
  }

  ghost predicate Inv(s: System) {
    Keys(s) && forall r :: r in s.tracks ==> EntryInv(s, r)
  }

  lemma SettledKeepsInv(s: System, id: string, x: Settlement)
    requires Inv(s) && id in s.q.pending
    ensures Inv(Settled(s, Settle(s.q, id, StatusOf(x)), Some(s.q.pending[id]), x))
  {
  }

  lemma SweepKeepsInv(s: System, now: int)
    requires Inv(s)
    ensures Inv(Step(s, SweepTick(now)))
  {
    var ids := Expired(s.q, now);
    var s' := Step(s, SweepTick(now));
    forall r | r in s'.tracks
      ensures EntryInv(s', r)
    {
      assert EntryInv(s, r);
      assert s'.tracks[r] == SweptTrack(s, ids, r);
      assert IsPending(s'.q, r) <==> IsPending(s.q, r) && s.q.entries[r].id !in ids;
    }
  }

  /** An event that touches only the checkpoint `r0`, and makes no other one pending. */
  lemma OthersKeepInv(s: System, s': System, r0: Ref)
    requires Inv(s) && Keys(s') && r0 in s'.tracks && EntryInv(s', r0) && s'.q.timeout == s.q.timeout
    requires forall r :: r in s'.tracks && r != r0 ==>
      r in s.tracks && s'.tracks[r] == s.tracks[r] && s'.q.entries[r] == s.q.entries[r]
      && (IsPending(s'.q, r) ==> IsPending(s.q, r))
    ensures Inv(s')
  {
  }

  lemma TimeoutKeepsInv(s: System, r: Ref)
    requires Inv(s) && r in s.tracks && s.tracks[r].phase == GivingUp
    ensures Inv(Step(s, TimeoutCall(r)))
  {
    var id := s.q.entries[r].id;
    var (q, settled) := MarkTimeout(s.q, id);
    var s1 := Settled(s, q, settled, TimedOut);
    if settled.Some? {
      SettledKeepsInv(s, id, TimedOut);
    }
    PhaseKeepsInv(s1, r, Returned(None));
  }

  /** A step of the submitter that does not touch the queue. */
  lemma PhaseKeepsInv(s: System, r: Ref, phase: Phase)
    requires Inv(s) && r in s.tracks && (phase.Returned? ==> !IsPending(s.q, r))
    requires phase.Returned? && phase.result.Some? ==>
      s.q.entries[r].closed && phase.result.value == s.q.entries[r].status
    ensures Inv(s.(tracks := s.tracks[r := s.tracks[r].(phase := phase)]))
  {
  }

  lemma SignalKeepsInv(s: System, r: Ref)
    requires Inv(s) && r in s.tracks && s.tracks[r].owed > 0
    ensures Inv(Signalled(s, r))
  {
  }

  lemma StepKeepsInv(s: System, e: Event)
    requires Inv(s)
    ensures Inv(Step(s, e))
  {
    match e
    case SubmitCall(r, id, now) =>
      if r !in s.q.entries {
        OthersKeepInv(s, Step(s, e), r);
      }
    case DecideCall(id, decision) =>
      if id in s.q.pending {
        assert EntryInv(s, s.q.pending[id]) && IsPending(s.q, s.q.pending[id]);
        SettledKeepsInv(s, id, Decided(decision));
      }
    case SignalCall(r) =>
      if r in s.tracks && s.tracks[r].owed > 0 {
        SignalKeepsInv(s, r);
      }
    case SweepTick(now) =>
      SweepKeepsInv(s, now);
    case Wake(r) =>
      if r in s.tracks && s.q.entries[r].closed {
        assert EntryInv(s, r);
        PhaseKeepsInv(s, r, Returned(Some(s.q.entries[r].status)));
      }
    case GiveUp(r) =>
      if r in s.tracks {
        PhaseKeepsInv(s, r, GivingUp);
      }
    case TimeoutCall(r) =>
      if r in s.tracks && s.tracks[r].phase == GivingUp {
        TimeoutKeepsInv(s, r);
      }
  }

  function Run(s: System, trace: seq<Event>): (s': System)
    requires Inv(s)
    ensures Inv(s')
    decreases |trace|
  {
    if trace == [] then s
    else
      StepKeepsInv(s, trace[0]);
      Run(Step(s, trace[0]), trace[1..])
  }

  /** In every interleaving, even with repeated ids: a checkpoint is settled at most once (so
      at most one `Decide` succeeds on it), its channel is closed at most once and only after
      the settlement, and a settled checkpoint is closed or some thread still owes its signal. */
  lemma SettledOnceClosedOnce(timeout: int, trace: seq<Event>, r: Ref)
    ensures var s := Run(Start(timeout), trace);
      r in s.tracks ==>
        var t := s.tracks[r];
        && |t.log| <= 1
        && (IsPending(s.q, r) ==> t.log == [])
        && t.closes <= |t.log|
        && (t.log != [] ==> t.closes + t.owed == 1)
  {
    var s := Run(Start(timeout), trace);
    if r in s.tracks {
      assert EntryInv(s, r);
    }
  }

  /** A submitter that gets its entry back gets the status of the one settlement; so an
      approved result means that exactly one `Decide` succeeded, and it approved. */
  lemma ApprovalComesFromDecide(timeout: int, trace: seq<Event>, r: Ref)
    ensures var s := Run(Start(timeout), trace);
      r in s.tracks && s.tracks[r].phase == Returned(Some(APPROVE)) ==> s.tracks[r].log == [Decided(APPROVE)]
  {
    var s := Run(Start(timeout), trace);
    if r in s.tracks && s.tracks[r].phase == Returned(Some(APPROVE)) {
      assert EntryInv(s, r);
      assert |APPROVE| != |TIMED_OUT| && APPROVE[0] != PENDING[0];
    }
  }

  lemma StepKeepsTimeout(s: System, e: Event)
    requires Keys(s)
    ensures Step(s, e).q.timeout == s.q.timeout
  {
  }

  lemma {:induction false} RunKeepsTimeout(s: System, trace: seq<Event>)
    requires Inv(s)
    ensures Run(s, trace).q.timeout == s.q.timeout
    decreases |trace|
  {
    if trace != [] {
      StepKeepsInv(s, trace[0]);
      StepKeepsTimeout(s, trace[0]);
      hide Step;
      RunKeepsTimeout(Step(s, trace[0]), trace[1..]);
    }
  }

  /** In every reachable state: a tick of the expiry checker settles a checkpoint if and only if
      it is pending and more than `timeout` has passed since it was submitted. */
  lemma SweepsExactlyWhenDue(timeout: int, trace: seq<Event>, r: Ref, now: int)
    ensures var s := Run(Start(timeout), trace);
      r in s.tracks ==>
        && r in Step(s, SweepTick(now)).tracks
        && Step(s, SweepTick(now)).tracks[r].log ==
             (if IsPending(s.q, r) && now > s.tracks[r].since + timeout then [Swept] else s.tracks[r].log)
  {
    var s := Run(Start(timeout), trace);
    RunKeepsTimeout(Start(timeout), trace);
    hide Run;
    if r in s.tracks {
      assert EntryInv(s, r);
      assert Step(s, SweepTick(now)).tracks[r] == SweptTrack(s, Expired(s.q, now), r);
      assert [] + [Swept] == [Swept];
    }
  }

  /** In every reachable state, a submitter that has returned leaves no pending checkpoint. */
  lemma ReturnedIsNotPending(timeout: int, trace: seq<Event>, r: Ref)
    ensures var s := Run(Start(timeout), trace);
      r in s.tracks && s.tracks[r].phase.Returned? ==> !IsPending(s.q, r)
  {
    var s := Run(Start(timeout), trace);
    if r in s.tracks {
      assert EntryInv(s, r);
    }
  }

  // No lost wake-up

  /** Every checkpoint out of the pending map is closed, or some thread will close it. */
  ghost predicate NoLostWakeup(s: System)
    requires Keys(s)
  {
    forall r :: r in s.tracks && !IsPending(s.q, r) && !s.q.entries[r].closed ==> s.tracks[r].owed > 0
  }

  /** The event does not submit an id that is still pending. */
  predicate FreshId(s: System, e: Event) {
    e.SubmitCall? && e.r !in s.q.entries ==> e.id !in s.q.pending
  }

  /** Every submission along the trace finds its id free. */
  ghost predicate FreshIds(s: System, trace: seq<Event>)
    requires Inv(s)
    decreases |trace|
  {
    trace != [] ==>
      (StepKeepsInv(s, trace[0]);
       FreshId(s, trace[0]) && FreshIds(Step(s, trace[0]), trace[1..]))
  }

  /** No state along the trace has a lost wake-up. */
  ghost predicate NeverLost(s: System, trace: seq<Event>)
    requires Inv(s)
    decreases |trace|
  {
    NoLostWakeup(s) &&
    (trace != [] ==>
      (StepKeepsInv(s, trace[0]);
       NeverLost(Step(s, trace[0]), trace[1..])))
  }

  /** Nothing is lost exactly when every unsettled checkpoint is in the pending map. */
  lemma NothingLostIffUnsettledPending(s: System)
    requires Inv(s)
    ensures NoLostWakeup(s) <==> forall r :: r in s.tracks && s.tracks[r].log == [] ==> IsPending(s.q, r)
  {
  }

  /** With fresh ids, a checkpoint leaves the map only by being settled. */
  lemma UnsettledStaysPending(s: System, e: Event, r: Ref)
    requires Inv(s) && FreshId(s, e)
    requires r in s.tracks && s.tracks[r].log == [] ==> IsPending(s.q, r)
    requires r in Step(s, e).tracks && Step(s, e).tracks[r].log == []
    ensures IsPending(Step(s, e).q, r)
  {
    if r in s.tracks {
      match e
      case SweepTick(now) =>
        assert Step(s, e).tracks[r] == SweptTrack(s, Expired(s.q, now), r);
      case TimeoutCall(q) =>
        if q in s.tracks && s.q.entries[q].id in s.q.pending {
          assert s.tracks[q].phase == GivingUp ==> s.q.pending[s.q.entries[q].id] != r;
        }
      case _ =>
    }
  }

  lemma FreshStepLosesNothing(s: System, e: Event)
    requires Inv(s) && NoLostWakeup(s) && FreshId(s, e)
    ensures Inv(Step(s, e)) && NoLostWakeup(Step(s, e))
  {
    StepKeepsInv(s, e);
    NothingLostIffUnsettledPending(s);
    forall r | r in Step(s, e).tracks && Step(s, e).tracks[r].log == []
      ensures IsPending(Step(s, e).q, r)
    {
      UnsettledStaysPending(s, e, r);
    }
    NothingLostIffUnsettledPending(Step(s, e));
  }

  lemma ReusedIdLoses(s: System, e: Event)
    requires Inv(s) && !FreshId(s, e)
    ensures Inv(Step(s, e)) && !NoLostWakeup(Step(s, e))
  {
    StepKeepsInv(s, e);
    var lost := s.q.pending[e.id];
    assert EntryInv(s, lost) && IsPending(s.q, lost);
    assert !IsPending(Step(s, e).q, lost);
  }

  /** Wake-ups are never lost along a run exactly when no submission reuses a pending id. */
  lemma {:induction false} NeverLostIffFreshIds(s: System, trace: seq<Event>)
    requires Inv(s) && NoLostWakeup(s)
    ensures NeverLost(s, trace) <==> FreshIds(s, trace)
    decreases |trace|
  {
    if trace != [] {
      var e := trace[0];
      if FreshId(s, e) {
        FreshStepLosesNothing(s, e);
        NeverLostIffFreshIds(Step(s, e), trace[1..]);
      } else {
        ReusedIdLoses(s, e);
      }
    }
  }

  lemma QueueNeverLosesWakeups(timeout: int, trace: seq<Event>)
    ensures NeverLost(Start(timeout), trace) <==> FreshIds(Start(timeout), trace)
  {
    NeverLostIffFreshIds(Start(timeout), trace);
  }

  /** The converse of `ApprovalComesFromDecide` fails: whenever the submitter is still waiting
      on an approved and signalled checkpoint, its select may take the timer instead, and it
      then returns an error although the one `Decide` reported success. */
  lemma ApprovalCanBeDropped(s: System, r: Ref)
    requires Inv(s) && r in s.tracks && s.tracks[r].phase == Waiting
    requires s.tracks[r].log == [Decided(APPROVE)]
    ensures var s1 := Step(s, GiveUp(r));
      Inv(s1) && r in Step(s1, TimeoutCall(r)).tracks
      && Step(s1, TimeoutCall(r)).tracks[r].phase == Returned(None)
      && Step(s1, TimeoutCall(r)).tracks[r].log == [Decided(APPROVE)]
  {
    StepKeepsInv(s, GiveUp(r));
    var s1 := Step(s, GiveUp(r));
    StepKeepsInv(s1, TimeoutCall(r));
    assert EntryInv(s, r) && EntryInv(s1, r);
    var id := s1.q.entries[r].id;
    assert id in s1.q.pending ==> s1.q.pending[id] != r;
  }

  // When an approval is delivered

  /** The submitter of `r` was waiting, and its select took the timer or the context. */
  ghost predicate StopsWaiting(s: System, e: Event, r: Ref) {
    e == GiveUp(r) && r in s.tracks && s.tracks[r].phase == Waiting
  }

  ghost predicate EverStopsWaiting(s: System, trace: seq<Event>, r: Ref)
    requires Inv(s)
    decreases |trace|
  {
    trace != [] &&
    (StopsWaiting(s, trace[0], r) ||
     (StepKeepsInv(s, trace[0]);
      EverStopsWaiting(Step(s, trace[0]), trace[1..], r)))
  }

  predicate HasStopped(s: System, r: Ref) {
    r in s.tracks && (s.tracks[r].phase == GivingUp || s.tracks[r].phase == Returned(None))
  }

  /** No other event ends the wait without an entry, and nothing takes that back. */
  lemma StopsExactly(s: System, e: Event, r: Ref)
    requires Inv(s)
    ensures HasStopped(Step(s, e), r) <==> HasStopped(s, r) || StopsWaiting(s, e, r)
  {
    match e
    case SweepTick(now) =>
      if r in s.tracks {
        assert Step(s, e).tracks[r] == SweptTrack(s, Expired(s.q, now), r);
      }
    case _ =>
  }

  lemma {:induction false} RunStopsExactly(s: System, trace: seq<Event>, r: Ref)
    requires Inv(s)
    ensures HasStopped(Run(s, trace), r) <==> HasStopped(s, r) || EverStopsWaiting(s, trace, r)
    decreases |trace|
  {
    if trace != [] {
      hide Step, HasStopped, StopsWaiting;
      StepKeepsInv(s, trace[0]);
      StopsExactly(s, trace[0], r);
      RunStopsExactly(Step(s, trace[0]), trace[1..], r);
    }
  }

  /** Exactly when a decision is delivered, over every interleaving: a submitter that has
      returned from a decided checkpoint returned that decision if and only if its select
      never took the timer or the context while it waited.  In particular for an approval. */
  lemma DecisionDeliveredExactlyWhen(timeout: int, trace: seq<Event>, r: Ref, decision: string)
    ensures var s := Run(Start(timeout), trace);
      r in s.tracks && s.tracks[r].log == [Decided(decision)] && s.tracks[r].phase.Returned? ==>
        (s.tracks[r].phase.result == Some(decision) <==> !EverStopsWaiting(Start(timeout), trace, r))
  {
    RunStopsExactly(Start(timeout), trace, r);
    var s := Run(Start(timeout), trace);
    if r in s.tracks {
      assert EntryInv(s, r);
    }
  }

  /** Such a checkpoint is one submission and one decision away from an empty queue. */
  lemma ApprovedStillWaiting(timeout: int, id: string, now: int)
    ensures var s := Run(Start(timeout), [SubmitCall(0, id, now), DecideCall(id, APPROVE)]);
      0 in s.tracks && s.tracks[0].phase == Waiting && s.tracks[0].log == [Decided(APPROVE)]
  {
    var trace := [SubmitCall(0, id, now), DecideCall(id, APPROVE)];
    var s1 := Step(Start(timeout), trace[0]);
    StepKeepsInv(Start(timeout), trace[0]);
    StepKeepsInv(s1, trace[1]);
    assert trace[1..] == [trace[1]] && trace[1..][1..] == [];
    assert Run(s1, [trace[1]]) == Run(Step(s1, trace[1]), []);
  }

  // ---------------------------------------------------------------------------------------
  // Looking back along a run
  // ---------------------------------------------------------------------------------------

  lemma {:induction false} RunInTwo(s: System, a: seq<Event>, b: seq<Event>)
    requires Inv(s)
    ensures Run(s, a + b) == Run(Run(s, a), b)
    decreases |a|
  {
    if a == [] {
      assert a + b == b;
    } else {
      assert (a + b)[0] == a[0] && (a + b)[1..] == a[1..] + b;
      StepKeepsInv(s, a[0]);
      hide Step;
      RunInTwo(Step(s, a[0]), a[1..], b);
    }
  }

  /** Takes the checkpoint `r` from pending to its one settlement: a decision by a `Decide` on
      its id, an expiry by a tick that is late enough, a timeout by a submitter of its id. */
  ghost predicate SettlesNow(s: System, e: Event, r: Ref, x: Settlement) {
    && r in s.tracks && r in s.q.entries && IsPending(s.q, r) && s.tracks[r].log == []
    && (match x
        case Decided(d) => e == DecideCall(s.q.entries[r].id, d)
        case Swept => e.SweepTick? && e.now > s.tracks[r].since + s.q.timeout
        case TimedOut => e.TimeoutCall? && e.r in s.q.entries && s.q.entries[e.r].id == s.q.entries[r].id)
  }

  /** What one event can add to a checkpoint's settlements. */
  lemma StepLog(s: System, e: Event, r: Ref)
    requires Keys(s) && r in s.tracks
    ensures var s' := Step(s, e);
      && r in s'.tracks && r in s'.q.entries && s'.q.entries[r].id == s.q.entries[r].id && s'.tracks[r].since == s.tracks[r].since
      && (var log, log' := s.tracks[r].log, s'.tracks[r].log;
          || log' == log
          || (IsPending(s.q, r) && e.SweepTick? && e.now > s.q.entries[r].expiresAt && log' == log + [Swept])
          || (IsPending(s.q, r) && e.TimeoutCall? && e.r in s.q.entries && s.q.entries[e.r].id == s.q.entries[r].id && log' == log + [TimedOut])
          || (IsPending(s.q, r) && e.DecideCall? && e.id == s.q.entries[r].id && log' == log + [Decided(e.decision)]))
  {
    match e
    case SweepTick(now) =>
      assert Step(s, e).tracks[r] == SweptTrack(s, Expired(s.q, now), r);
    case _ =>
  }

  /** A settlement comes only from an event that makes it. */
  lemma SettledBySettling(s: System, e: Event, r: Ref, x: Settlement)
    requires Inv(s) && r in Step(s, e).tracks && Step(s, e).tracks[r].log == [x]
    ensures SettlesNow(s, e, r, x) || (r in s.tracks && s.tracks[r].log == [x])
  {
    if r in s.tracks {
      StepLog(s, e, r);
      assert EntryInv(s, r);
      hide Step;
      var log := s.tracks[r].log;
      assert IsPending(s.q, r) ==> log == [];
      assert IsPending(s.q, r) ==> (log + [Swept])[0] == Swept && (log + [TimedOut])[0] == TimedOut;
      assert IsPending(s.q, r) && e.DecideCall? ==> (log + [Decided(e.decision)])[0] == Decided(e.decision);
    }
  }

  lemma {:induction false} RunKeepsSettlement(s: System, trace: seq<Event>, r: Ref)
    requires Inv(s) && r in s.tracks
    ensures var s' := Run(s, trace);
      && r in s'.tracks && s'.q.entries[r].id == s.q.entries[r].id && s'.tracks[r].since == s.tracks[r].since
      && (s.tracks[r].log != [] ==> s'.tracks[r].log == s.tracks[r].log)
    decreases |trace|
  {
    if trace != [] {
      StepKeepsInv(s, trace[0]);
      StepLog(s, trace[0], r);
      assert EntryInv(s, r);
      hide Step;
      RunKeepsSettlement(Step(s, trace[0]), trace[1..], r);
    }
  }

  /** Every settlement was made at some point of the run, by an event that found the
      checkpoint pending: an expiry, for one, only by a tick past its time. */
  lemma {:induction false} SettledAtSomePoint(s: System, trace: seq<Event>, r: Ref, x: Settlement) returns (p: nat)
    requires Inv(s) && (r in s.tracks ==> s.tracks[r].log == [])
    requires r in Run(s, trace).tracks && Run(s, trace).tracks[r].log == [x]
    ensures p < |trace| && SettlesNow(Run(s, trace[..p]), trace[p], r, x)
    decreases |trace|
  {
    assert Keys(s);
    hide Step, SettlesNow, Inv, Keys, Run;
    RunUnfolds(s, trace);
    assert trace != [];
    var e, rest := trace[0], trace[1..];
    StepKeepsInv(s, e);
    var s1 := Step(s, e);
    if r in s1.tracks && s1.tracks[r].log != [] {
      RunKeepsSettlement(s1, rest, r);
      SettledBySettling(s, e, r, x);
      RunUnfolds(s, trace[..0]);
      p := 0;
    } else {
      var q := SettledAtSomePoint(s1, rest, r, x);
      RunUnfolds(s, trace[..q + 1]);
      assert trace[..q + 1][1..] == rest[..q];
      p := q + 1;
    }
  }

  lemma RunUnfolds(s: System, trace: seq<Event>)
    requires Inv(s)
    ensures Inv(s) && (trace == [] ==> Run(s, trace) == s)
    ensures trace != [] ==> Inv(Step(s, trace[0])) && Run(s, trace) == Run(Step(s, trace[0]), trace[1..])
  {
    if trace != [] {
      StepKeepsInv(s, trace[0]);
    }
  }

  /** No two submissions of the trace use one id. */
  ghost predicate DistinctIds(trace: seq<Event>) {
    forall i, j :: 0 <= i < j < |trace| && trace[i].SubmitCall? && trace[j].SubmitCall? ==> trace[i].id != trace[j].id
  }

  lemma PendingOnlyBySubmit(s: System, e: Event, id: string)
    requires Inv(s) && id in Step(s, e).q.pending
    ensures id in s.q.pending || (e.SubmitCall? && e.id == id)
  {
  }

  lemma {:induction false} DistinctIdsAreFresh(s: System, trace: seq<Event>)
    requires Inv(s) && DistinctIds(trace)
    requires forall i :: 0 <= i < |trace| && trace[i].SubmitCall? ==> trace[i].id !in s.q.pending
    ensures FreshIds(s, trace)
    decreases |trace|
  {
    if trace != [] {
      StepKeepsInv(s, trace[0]);
      var s1 := Step(s, trace[0]);
      forall i | 0 <= i < |trace[1..]| && trace[1..][i].SubmitCall? ensures trace[1..][i].id !in s1.q.pending {
        assert trace[1..][i] == trace[i + 1];
        if trace[i + 1].id in s1.q.pending {
          PendingOnlyBySubmit(s, trace[0], trace[i + 1].id);
        }
      }
      hide Step;
      DistinctIdsAreFresh(s1, trace[1..]);
    }
  }
}
