/**
Whole workflow runs: the store that applies plans under a compare-and-swap
(workflow_uow.go, ApplyWorkflowPlan), and what every run keeps from creation to
its end, whatever else happens to the ticket in between.
*/
module WorkflowRuns {
  import opened Core
  import opened Tickets
  import opened Workflow
  import opened Runner
  import opened PlanFacts
  import opened PlanRecheck

  // ---- Persisting a plan's operations -------------------------------------------

  // One operation on the stored row.  A transition stamps the instant it entered
  // resolved or closed; it never clears one.
  function Persisted(t: TicketRow, op: Operation, pick: Selection): TicketRow {
    match op
    case StateTransition(_, m) =>
      t.(state := m.to,
         resolvedAt := if m.to == Resolved then Some(m.at) else t.resolvedAt,
         closedAt := if m.to == Closed then Some(m.at) else t.closedAt)
    case ClaimAssignment(_, _, who, _, _) => t.(assignee := Some(who))
    case LeastLoadedAssignment(step, _, _) => t.(assignee := Some(pick(step)))
    case FormSubmission(_, _, _, _) => t
    case StepCompleted(_, _, _, _, _) => t
  }

  function PersistedAll(t: TicketRow, ops: seq<Operation>, pick: Selection): TicketRow
    decreases |ops|
  {
    if ops == [] then t else PersistedAll(Persisted(t, ops[0], pick), ops[1..], pick)
  }

  // The row apart from who holds it and when it was last touched.
  function Lifecycle(t: TicketRow): TicketRow { t.(assignee := None, updatedAt := 0) }

  lemma {:induction false} PersistedAppend(t: TicketRow, a: seq<Operation>, b: seq<Operation>, pick: Selection)
    ensures PersistedAll(t, a + b, pick) == PersistedAll(PersistedAll(t, a, pick), b, pick)
    decreases |a|
  {
    if a == [] {
      assert a + b == b;
    } else {
      assert (a + b)[1..] == a[1..] + b;
      PersistedAppend(Persisted(t, a[0], pick), a[1..], b, pick);
    }
  }

  lemma {:induction false} LifecycleOnly(t: TicketRow, t': TicketRow, ops: seq<Operation>, pick: Selection)
    requires Lifecycle(t) == Lifecycle(t')
    ensures Lifecycle(PersistedAll(t, ops, pick)) == Lifecycle(PersistedAll(t', ops, pick))
    decreases |ops|
  {
    if ops != [] {
      LifecycleOnly(Persisted(t, ops[0], pick), Persisted(t', ops[0], pick), ops[1..], pick);
    }
  }

  lemma PersistedShort(t: TicketRow, ops: seq<Operation>, pick: Selection)
    requires |ops| <= 2
    ensures PersistedAll(t, ops, pick) ==
            if |ops| == 0 then t
            else if |ops| == 1 then Persisted(t, ops[0], pick)
            else Persisted(Persisted(t, ops[0], pick), ops[1], pick)
    decreases |ops|
  {
    if ops != [] {
      PersistedShort(Persisted(t, ops[0], pick), ops[1..], pick);
    }
  }

  lemma {:induction false} WalkPersists(d: Definition, t: TicketRow, from: nat, now: Instant, pick: Selection)
    requires from <= |d| && Coherent(t) && Advance(d, t, from, now).Ok?
    ensures var w := Advance(d, t, from, now).value;
            Lifecycle(PersistedAll(t, w.ops, pick)) == Lifecycle(w.ticket)
    decreases |d| - from
  {
    if from < |d| && IsRouting(d[from]) {
      var mid := RoutedTicket(t, now);
      var own: seq<Operation> := [LeastLoadedAssignment(from, d[from].config.value.desk, None)] + RoutedOps(t, from, now);
      var rest := Advance(d, mid, from + 1, now).value;
      WalkPersists(d, mid, from + 1, now, pick);
      PersistedShort(t, own, pick);
      PersistedAppend(t, own, rest.ops, pick);
      LifecycleOnly(PersistedAll(t, own, pick), mid, rest.ops, pick);
    } else if from < |d| && IsTerminal(d[from]) {
      PersistedShort(t, TerminalOutcome(t, d[from], from, now).value.0, pick);
    }
  }

  // What the store persists is the ticket the planner planned: its state and its
  // lifecycle stamps, on every plan.
  lemma StorePersistsPlan(snap: Snapshot, cmd: Command, now: Instant, isSpace: char -> bool, p: CorePlan, pick: Selection)
    requires PlanOf(snap, cmd, now, isSpace, p) && Coherent(p.before)
    ensures Lifecycle(PersistedAll(p.before, p.ops, pick)) == Lifecycle(p.after)
  {
    var d, t, step := snap.workflow, snap.ticket.value, p.expected;
    if IsTerminal(d[step]) {
      PersistedShort(t, p.ops, pick);
    } else {
      var own, mid :| OwnStep(t, d[step], step, cmd, now, isSpace, own, mid) &&
                      Prepend(own, Advance(d, mid, step + 1, now)) == Ok(Walk(p.ops, p.nextCursor, p.after));
      OwnStepPersists(t, d[step], step, cmd, now, isSpace, own, mid, pick);
      WalkPersists(d, mid, step + 1, now, pick);
      PersistedAppend(t, own, Advance(d, mid, step + 1, now).value.ops, pick);
      LifecycleOnly(PersistedAll(t, own, pick), mid, Advance(d, mid, step + 1, now).value.ops, pick);
    }
  }

  lemma OwnStepPersists(
      t: TicketRow, s: Step, step: nat, cmd: Command, now: Instant, isSpace: char -> bool,
      own: seq<Operation>, mid: TicketRow, pick: Selection)
    requires OwnStep(t, s, step, cmd, now, isSpace, own, mid) && !IsTerminal(s) && Coherent(t)
    ensures Lifecycle(PersistedAll(t, own, pick)) == Lifecycle(mid) && Coherent(mid)
  {
    PersistedShort(t, own, pick);
  }

  // The ticket, its run and the people, behind one immediate transaction.
  class RunStore {
    var ticket: TicketRow
    var run: Run
    const workflow: Definition
    var active: set<UserId>
    var staff: set<UserId>
    var members: int -> set<UserId>

    constructor (ticket: TicketRow, run: Run, workflow: Definition, active: set<UserId>, staff: set<UserId>, members: int -> set<UserId>)
      ensures Facts() == StoreFacts(ticket, run, workflow, active, staff, members)
    {
      this.ticket, this.run, this.workflow := ticket, run, workflow;
      this.active, this.staff, this.members := active, staff, members;
    }

    function Facts(): StoreFacts
      reads this
    {
      StoreFacts(ticket, run, workflow, active, staff, members)
    }

    // All or nothing: an accepted plan's operations, final state and cursor are
    // persisted together; a refused one changes nothing.
    method ApplyWorkflowPlan(plan: MutationPlan, pick: Selection) returns (applied: bool)
      modifies this`ticket, this`run
      ensures applied == Accepts(old(Facts()), plan, pick)
      ensures applied ==> run == old(run).(cursor := plan.nextCursor, status := plan.nextStatus)
      ensures applied ==> ticket == PersistedAll(old(ticket), plan.ops, pick).(state := plan.nextState)
      ensures !applied ==> ticket == old(ticket) && run == old(run)
    {
      applied := Recheck(Facts(), plan, pick);
      if !applied {
        return;
      }
      var row := ticket;
      ghost var whole := PersistedAll(ticket, plan.ops, pick);
      assert plan.ops[0..] == plan.ops;
      for i := 0 to |plan.ops|
        invariant PersistedAll(row, plan.ops[i..], pick) == whole
      {
        assert plan.ops[i..][1..] == plan.ops[i + 1..];
        row := Persisted(row, plan.ops[i], pick);
      }
      ticket := row.(state := plan.nextState);
      run := run.(cursor := plan.nextCursor, status := plan.nextStatus);
    }
  }

  // Two submissions planned from one snapshot: once the first is applied, the
  // second is refused whatever it contains.
  lemma SecondCompletionRefused(
      f: StoreFacts, snap: Snapshot, cmd: Command, now: Instant, isSpace: char -> bool, p: CorePlan, pick: Selection,
      after: StoreFacts, plan': MutationPlan, pick': Selection)
    requires Unchanged(f, snap) && ValidDefinition(f.workflow) && PlanOf(snap, cmd, now, isSpace, p)
    requires after.run == f.run.(cursor := p.nextCursor, status := p.nextStatus)
    requires plan'.expectedCursor == f.run.cursor
    ensures !Accepts(after, plan', pick')
  {
    CompletionKeepsPromise(snap, cmd, now, isSpace, p, pick);
  }

  // ---- Runs ------------------------------------------------------------------

  datatype RunState = RunState(
    workflow: Definition,
    ticket: TicketRow,
    cursor: nat,
    status: RunStatus,
    // Steps completed by a person's submission, oldest first.
    submitted: seq<nat>,
    // The run was ended by a ticket change that reached a terminal state.
    endedOutside: bool)

  // A run as creation leaves it.
  ghost predicate Created(s: RunState) {
    && ValidDefinition(s.workflow)
    && s.submitted == [] && !s.endedOutside
    && exists t: TicketRow, now: Instant, p :: InitialPlanOf(t, s.workflow, now) == Ok(p) &&
         s.cursor == p.nextCursor && s.status == p.nextStatus && s.ticket.state == p.nextState
  }

  // A person's completion, planned on the current ticket and applied.
  ghost predicate Completes(s: RunState, s': RunState, cmd: Command, now: Instant, isSpace: char -> bool, p: CorePlan,
      pick: Selection) {
    var snap := Snapshot(Some(s.ticket), Some(Run(s.cursor, s.status, now)), s.workflow);
    && PlanOf(snap, cmd, now, isSpace, p)
    && s' == s.(ticket := PersistedAll(s.ticket, p.ops, pick).(state := p.after.state),
                cursor := p.nextCursor, status := p.nextStatus, submitted := s.submitted + [p.expected])
  }

  // Any other use case changed the ticket: assignment, hold, fields, or a move of
  // the state machine.  Reaching a terminal state ends an active run.
  ghost predicate ChangedOutside(s: RunState, s': RunState) {
    && s' == s.(ticket := s'.ticket, status := s'.status, endedOutside := s'.endedOutside)
    && s'.status == (if IsClosed(s'.ticket.state) then Completed else s.status)
    && s'.endedOutside == (s.endedOutside || (s.status == Active && IsClosed(s'.ticket.state)))
  }

  ghost predicate Next(s: RunState, s': RunState) {
    || ChangedOutside(s, s')
    || exists cmd, now, isSpace, p, pick :: Completes(s, s', cmd, now, isSpace, p, pick)
  }

  ghost predicate IsRun(trace: seq<RunState>) {
    && trace != [] && Created(trace[0])
    && forall i :: 0 <= i < |trace| - 1 ==> NextAt(trace, i)
  }

  ghost predicate NextAt(trace: seq<RunState>, i: nat) {
    i + 1 < |trace| && Next(trace[i], trace[i + 1])
  }

  // The human steps below a cursor, in definition order.
  function HumanSteps(d: Definition, cursor: nat): seq<nat>
    requires cursor <= |d|
  {
    if cursor == 0 then []
    else HumanSteps(d, cursor - 1) + if IsHuman(d[cursor - 1]) then [cursor - 1] else []
  }

  // The submissions of a run are exactly the human steps it has passed, once each
  // and in order; while it is active it waits on one; and it is completed exactly
  // at the end of the definition or when a terminal ticket ended it from outside.
  ghost predicate RunInvariant(s: RunState) {
    && ValidDefinition(s.workflow)
    && s.cursor <= |s.workflow|
    && s.submitted == HumanSteps(s.workflow, s.cursor)
    && (s.status == Active ==> s.cursor < |s.workflow| && IsHuman(s.workflow[s.cursor]))
    && (s.status == Completed <==> s.cursor == |s.workflow| || s.endedOutside)
  }

  lemma {:induction false} NoHumanBetween(d: Definition, lo: nat, hi: nat)
    requires lo <= hi <= |d| && forall i :: lo <= i < hi ==> !IsHuman(d[i])
    ensures HumanSteps(d, hi) == HumanSteps(d, lo)
  {
    if lo < hi {
      NoHumanBetween(d, lo, hi - 1);
    }
  }

  lemma CreatedKeeps(s: RunState)
    requires Created(s)
    ensures RunInvariant(s)
  {
    var t: TicketRow, now: Instant, p :| InitialPlanOf(t, s.workflow, now) == Ok(p) && s.cursor == p.nextCursor &&
                                         s.status == p.nextStatus && s.ticket.state == p.nextState;
    AdvanceShape(s.workflow, t, 0, now);
    NothingAutomaticSkipped(s.workflow, 0);
    NoHumanBetween(s.workflow, 0, s.cursor);
    assert s.cursor < |s.workflow| ==> WellFormedStep(s.workflow[s.cursor]);
  }

  lemma CompletionKeeps(s: RunState, s': RunState, cmd: Command, now: Instant, isSpace: char -> bool, p: CorePlan,
      pick: Selection)
    requires RunInvariant(s) && Completes(s, s', cmd, now, isSpace, p, pick)
    ensures RunInvariant(s') && s.cursor < s'.cursor && !s.endedOutside
  {
    var snap := Snapshot(Some(s.ticket), Some(Run(s.cursor, s.status, now)), s.workflow);
    CompletionKeepsPromise(snap, cmd, now, isSpace, p, pick);
    NoHumanBetween(s.workflow, s.cursor + 1, s'.cursor);
    assert p.expected == s.cursor;
  }

  lemma StepKeeps(s: RunState, s': RunState)
    requires RunInvariant(s) && Next(s, s')
    ensures RunInvariant(s') && s'.workflow == s.workflow
    ensures s.cursor <= s'.cursor && (s.submitted != s'.submitted ==> s.cursor < s'.cursor)
  {
    if !ChangedOutside(s, s') {
      var cmd, now, isSpace, p, pick :| Completes(s, s', cmd, now, isSpace, p, pick);
      CompletionKeeps(s, s', cmd, now, isSpace, p, pick);
    }
  }

  // Every state of every run, and every step between two of them.
  lemma {:induction false} RunsKeepInvariant(trace: seq<RunState>, n: nat)
    requires IsRun(trace) && n < |trace|
    ensures RunInvariant(trace[n]) && trace[n].workflow == trace[0].workflow
    ensures |trace[n].submitted| <= |trace[n].workflow|
    ensures n > 0 ==> trace[n - 1].cursor <= trace[n].cursor &&
                      (trace[n - 1].submitted != trace[n].submitted ==> trace[n - 1].cursor < trace[n].cursor)
  {
    if n == 0 {
      CreatedKeeps(trace[0]);
    } else {
      RunsKeepInvariant(trace, n - 1);
      assert NextAt(trace, n - 1);
      StepKeeps(trace[n - 1], trace[n]);
    }
    HumanStepsBound(trace[n].workflow, trace[n].cursor);
  }

  lemma {:induction false} HumanStepsBound(d: Definition, cursor: nat)
    requires cursor <= |d|
    ensures |HumanSteps(d, cursor)| <= cursor
    ensures forall k :: 0 <= k < |HumanSteps(d, cursor)| ==> HumanSteps(d, cursor)[k] < cursor && IsHuman(d[HumanSteps(d, cursor)[k]])
    ensures forall j, k :: 0 <= j < k < |HumanSteps(d, cursor)| ==> HumanSteps(d, cursor)[j] < HumanSteps(d, cursor)[k]
  {
    if cursor > 0 {
      HumanStepsBound(d, cursor - 1);
    }
  }
}
