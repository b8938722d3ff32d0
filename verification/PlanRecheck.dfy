/**
The store's recheck of a completion plan (internal/adapters/sqlite/workflow_uow.go,
validateMutationPlan, validateWorkflowOperations and corroborateGroup), and when
it agrees with the planner.

The planner and the recheck are two readings of one rule set.  They do NOT always
agree: the recheck refuses a state transition that directly follows an assignment
taken on a ticket that is no longer new, without looking at the step the
transition belongs to.  A plan whose terminal step directly follows such an
assignment step is therefore planned by the runner and refused by the store.
`StoreAcceptsPlan` says exactly which plans of an unchanged ticket are accepted.
*/
module PlanRecheck {
  import opened Core
  import opened Tickets
  import opened Workflow
  import opened Runner
  import opened PlanFacts

  // The persisted facts one immediate transaction reads.
  datatype StoreFacts = StoreFacts(
    ticket: TicketRow,
    run: Run,
    workflow: Definition,
    active: set<UserId>,
    staff: set<UserId>,
    members: int -> set<UserId>)
  {
    // Who a routing step may select: active staff of the desk.
    function Pool(desk: int): set<UserId> { members(desk) * active * staff }
  }

  // The plan as submitted: the expected facts, the operations, the declared result.
  datatype MutationPlan = MutationPlan(
    version: int,
    workflow: Definition,
    requester: Option<UserId>,
    assignee: Option<UserId>,
    actor: UserId,
    expectedCursor: int,
    expectedStatus: RunStatus,
    beforeState: State,
    ops: seq<Operation>,
    nextCursor: int,
    nextStatus: RunStatus,
    nextState: State,
    nextAssignee: Option<UserId>)

  // The expected and declared facts the planner stamps.
  function Submission(snap: Snapshot, cmd: Command, p: CorePlan): MutationPlan
    requires snap.ticket.Some? && snap.run.Some?
  {
    MutationPlan(
      (if snap.ticket.value.pin.Some? then snap.ticket.value.pin.value else 0),
      snap.workflow, snap.ticket.value.requester, snap.ticket.value.assignee, cmd.actor,
      snap.run.value.cursor, snap.run.value.status, snap.ticket.value.state,
      p.ops, p.nextCursor, p.nextStatus, p.after.state, p.after.assignee)
  }

  function At(op: Operation): Option<Instant> {
    match op
    case FormSubmission(_, _, _, at) => Some(at)
    case ClaimAssignment(_, _, _, _, at) => Some(at)
    case StateTransition(_, m) => Some(m.at)
    case StepCompleted(_, _, _, _, at) => Some(at)
    case LeastLoadedAssignment(_, _, _) => None
  }

  // Recorded instants start at the run's start and never decrease.
  predicate Monotonic(start: Instant, ops: seq<Operation>) {
    && (forall i :: 0 <= i < |ops| && At(ops[i]).Some? ==> start <= At(ops[i]).value)
    && (forall i, j :: 0 <= i < j < |ops| && At(ops[i]).Some? && At(ops[j]).Some? ==> At(ops[i]).value <= At(ops[j]).value)
  }

  // A transition recorded at a step, replayed through the state machine.
  function CheckedMove(t: TicketRow, s: Step, idx: nat, op: Operation): Option<TicketRow> {
    if !op.StateTransition? || op.step != idx || op.move.from != t.state then None
    else if s.AssignToDesk? && (op.move.from != New || op.move.to != InProgress) then None
    else
      var after := AfterTransition(t, op.move.to, false, op.move.at);
      if after.Ok? then Some(after.value) else None
  }

  // All of a terminal step's transitions, in order.
  function CheckedMoves(t: TicketRow, s: Step, idx: nat, ops: seq<Operation>): Option<TicketRow>
    decreases |ops|
  {
    if ops == [] then Some(t)
    else
      var after := CheckedMove(t, s, idx, ops[0]);
      if after.None? then None else CheckedMoves(after.value, s, idx, ops[1..])
  }

  // The exact number and outcome of a terminal step's transitions.
  predicate TerminalMatrix(s: Step, start: State, final: State, n: nat) {
    && start != Cancelled
    && if s.ResolveTicket? then n == 1 && final == Resolved
       else final == Closed && n == if start == Resolved then 1 else 2
  }

  datatype Group = Group(size: nat, after: TicketRow)

  // An assignment group: the assignment, and the transition out of `New` exactly
  // when the ticket is new.  The second test looks at the next operation whatever
  // step it belongs to.
  function AssignmentTail(t: TicketRow, s: Step, idx: nat, ops: seq<Operation>): Option<Group> {
    if t.state == New then
      if |ops| < 2 || CheckedMove(t, s, idx, ops[1]).None? then None
      else Some(Group(2, CheckedMove(t, s, idx, ops[1]).value))
    else if |ops| >= 2 && ops[1].StateTransition? then None
    else Some(Group(1, t))
  }

  // One pinned step's operation group, simulated on the ticket copy.
  function CheckedGroup(f: StoreFacts, actor: UserId, t: TicketRow, s: Step, idx: nat, ops: seq<Operation>,
      pick: Selection): Option<Group>
    requires ops != []
  {
    match s
    case AssignToDesk(config) =>
      if config.None? || ops[0].step != idx then None
      else if config.value.strategy == LeastLoaded then
        if !ops[0].LeastLoadedAssignment? || ops[0].desk != config.value.desk || f.Pool(config.value.desk) == {} then None
        else AssignmentTail(t.(assignee := Some(pick(idx))), s, idx, ops)
      else if config.value.strategy == Claim then
        if !ops[0].ClaimAssignment? || ops[0].desk != config.value.desk || ops[0].assignee != actor
           || actor !in f.Pool(config.value.desk) || ops[0].from != t.assignee then None
        else AssignmentTail(t.(assignee := Some(actor)), s, idx, ops)
      else None
    case Form(form) =>
      if form.None? || |ops| < 2 || !ops[0].FormSubmission? || !ops[1].StepCompleted? || ops[0].step != idx || ops[1].step != idx then None
      else if ops[0].actor != actor || ops[1].actor != actor || MayAnswer(t, form.value.actor, actor).Err? then None
      else if !FormAnswers.AnswersFit(form.value.fields, ops[0].answers) then None
      else if ops[1].action != (if form.value.actor == ByRequester then RequesterFormDone else AssigneeFormDone) then None
      else Some(Group(2, t))
    case ManualTask(task) =>
      if task.None? || !ops[0].StepCompleted? || ops[0].step != idx || ops[0].actor != actor || ops[0].action != ManualTaskDone then None
      else Some(Group(1, t))
    case UnknownStep => None
    case _ =>
      var after := CheckedMoves(t, s, idx, ops);
      if after.None? || !TerminalMatrix(s, t.state, after.value.state, |ops|) then None
      else Some(Group(|ops|, after.value))
  }

  datatype Checked = Checked(cursor: nat, after: TicketRow)

  // The groups in definition order, each consuming its own prefix.
  function CheckedGroups(f: StoreFacts, actor: UserId, t: TicketRow, idx: nat, ops: seq<Operation>,
      pick: Selection): Option<Checked>
    decreases |ops|
  {
    if ops == [] then Some(Checked(idx, t))
    else if idx >= |f.workflow| || ops[0].step != idx then None
    else
      var g := CheckedGroup(f, actor, t, f.workflow[idx], idx, ops, pick);
      if g.None? || g.value.size == 0 || g.value.size > |ops| then None
      else CheckedGroups(f, actor, g.value.after, idx + 1, ops[g.value.size..], pick)
  }

  // A terminal step over an already final ticket completes without a transition.
  predicate CompletesSilently(s: Step, state: State) {
    (s.ResolveTicket? && (state == Resolved || state == Closed)) || (s.CloseTicket? && state == Closed)
  }

  // The declared cursor is the one the groups reach, or the run ends over a
  // trailing terminal step that has nothing left to do.
  predicate CursorAgrees(d: Definition, plan: MutationPlan, c: Checked) {
    || plan.nextCursor == c.cursor
    || (plan.nextStatus == Completed && plan.nextCursor == |d| && c.cursor == |d| - 1 &&
        CompletesSilently(d[c.cursor], c.after.state))
  }

  predicate ResultAgrees(plan: MutationPlan, after: TicketRow) {
    && plan.nextState == after.state
    && ((exists i :: 0 <= i < |plan.ops| && plan.ops[i].LeastLoadedAssignment?) || plan.nextAssignee == after.assignee)
  }

  // Expected facts: pin, definition, people, position, state.
  predicate FactsAgree(f: StoreFacts, plan: MutationPlan) {
    && f.ticket.pin == Some(plan.version)
    && f.workflow == plan.workflow
    && f.ticket.requester == plan.requester
    && f.ticket.assignee == plan.assignee
    && f.run.cursor == plan.expectedCursor && f.run.status == plan.expectedStatus
    && f.ticket.state == plan.beforeState
  }

  predicate PeopleStillActive(f: StoreFacts, plan: MutationPlan) {
    && (f.ticket.requester.Some? ==> f.ticket.requester.value in f.active)
    && (f.ticket.assignee.Some? ==> f.ticket.assignee.value in f.active && f.ticket.assignee.value in f.staff)
    && plan.actor in f.active
  }

  // The whole recheck.
  predicate Accepts(f: StoreFacts, plan: MutationPlan, pick: Selection) {
    && FactsAgree(f, plan)
    && PeopleStillActive(f, plan)
    && Monotonic(f.run.startedAt, plan.ops)
    && if f.run.status != Active then
         plan.ops == [] && plan.nextCursor == f.run.cursor && plan.nextStatus == f.run.status && ResultAgrees(plan, f.ticket)
       else if f.run.cursor < 0 || f.run.cursor >= |f.workflow| then false
       else if plan.ops == [] then
         && f.run.cursor == |f.workflow| - 1
         && CompletesSilently(f.workflow[f.run.cursor], f.ticket.state)
         && plan.nextStatus == Completed && plan.nextCursor == |f.workflow|
         && ResultAgrees(plan, f.ticket)
       else
         var c := CheckedGroups(f, plan.actor, f.ticket, f.run.cursor, plan.ops, pick);
         c.Some? && CursorAgrees(f.workflow, plan, c.value) && ResultAgrees(plan, c.value.after)
  }

  // The recheck as the store runs it: one walk over the groups.
  method Recheck(f: StoreFacts, plan: MutationPlan, pick: Selection) returns (accepted: bool)
    ensures accepted == Accepts(f, plan, pick)
  {
    if !FactsAgree(f, plan) || !PeopleStillActive(f, plan) || !Monotonic(f.run.startedAt, plan.ops) {
      return false;
    }
    if f.run.status != Active {
      return plan.ops == [] && plan.nextCursor == f.run.cursor && plan.nextStatus == f.run.status && ResultAgrees(plan, f.ticket);
    }
    if f.run.cursor < 0 || f.run.cursor >= |f.workflow| {
      return false;
    }
    if plan.ops == [] {
      return f.run.cursor == |f.workflow| - 1 && CompletesSilently(f.workflow[f.run.cursor], f.ticket.state) &&
             plan.nextStatus == Completed && plan.nextCursor == |f.workflow| && ResultAgrees(plan, f.ticket);
    }
    var c := CheckOperations(f, plan.actor, f.run.cursor, plan.ops, pick);
    return c.Some? && CursorAgrees(f.workflow, plan, c.value) && ResultAgrees(plan, c.value.after);
  }

  method CheckOperations(f: StoreFacts, actor: UserId, cursor: nat, ops: seq<Operation>,
      pick: Selection) returns (c: Option<Checked>)
    ensures c == CheckedGroups(f, actor, f.ticket, cursor, ops, pick)
  {
    var copy, i, idx: nat := f.ticket, 0, cursor;
    ghost var whole := CheckedGroups(f, actor, f.ticket, cursor, ops, pick);
    assert ops[0..] == ops;
    while i < |ops|
      invariant 0 <= i <= |ops|
      invariant CheckedGroups(f, actor, copy, idx, ops[i..], pick) == whole
    {
      if idx >= |f.workflow| || ops[i].step != idx {
        return None;
      }
      var g := CheckedGroup(f, actor, copy, f.workflow[idx], idx, ops[i..], pick);
      if g.None? || g.value.size == 0 || g.value.size > |ops| - i {
        return None;
      }
      assert ops[i..][g.value.size..] == ops[i + g.value.size..];
      copy, i, idx := g.value.after, i + g.value.size, idx + 1;
    }
    return Some(Checked(idx, copy));
  }

  // ---- When the planner and the recheck agree ---------------------------------

  // Every routing step of the walk has somebody to select.
  predicate DesksStaffed(f: StoreFacts, d: Definition, lo: nat, hi: nat) {
    forall i :: lo <= i < hi && i < |d| && IsRouting(d[i]) ==> f.Pool(d[i].config.value.desk) != {}
  }

  // The terminal step that ends the walk directly follows an assignment step that
  // does not itself take the ticket out of `New`.
  predicate StrandedTerminal(d: Definition, state: State, step: nat)
    requires step < |d|
  {
    var end := WalkEnd(d, step + 1);
    && !IsTerminal(d[step])
    && end < |d| && IsTerminal(d[end])
    && d[end - 1].AssignToDesk?
    && !(state == New && forall i :: step <= i < end - 1 ==> !d[i].AssignToDesk?)
  }

  // What the recheck demands of an automatic walk, step by step.
  predicate WalkAccepted(f: StoreFacts, d: Definition, state: State, from: nat)
    decreases |d| - from
  {
    from < |d| && IsRouting(d[from]) ==>
      && f.Pool(d[from].config.value.desk) != {}
      && (state == New || !(from + 1 < |d| && IsTerminal(d[from + 1])))
      && WalkAccepted(f, d, if state == New then InProgress else state, from + 1)
  }

  // The next operation is a transition exactly when the next step is terminal.
  lemma HeadOfWalk(d: Definition, t: TicketRow, from: nat, now: Instant)
    requires Advance(d, t, from, now).Ok? && !IsClosed(t.state)
    ensures var ops := Advance(d, t, from, now).value.ops;
            (ops != [] && ops[0].StateTransition?) <==> (from < |d| && IsTerminal(d[from]))
  {
  }

  // A routing step's group in front of the rest of a walk.
  lemma RoutingGroup(f: StoreFacts, actor: UserId, t: TicketRow, holder: Option<UserId>, s: Step, step: nat,
      now: Instant, rest: seq<Operation>, pick: Selection)
    requires IsRouting(s)
    ensures var own: seq<Operation> := [LeastLoadedAssignment(step, s.config.value.desk, None)] + RoutedOps(t, step, now);
            && own + rest != [] && (own + rest)[0].LeastLoadedAssignment? && (own + rest)[0].step == step
            && (own + rest)[|own|..] == rest && Routed(own + rest)
            && CheckedGroup(f, actor, t.(assignee := holder), s, step, own + rest, pick) ==
                 if f.Pool(s.config.value.desk) != {} && (t.state == New || !(rest != [] && rest[0].StateTransition?))
                 then Some(Group(|own|, RoutedTicket(t, now).(assignee := Some(pick(step))))) else None
  {
    var own: seq<Operation> := [LeastLoadedAssignment(step, s.config.value.desk, None)] + RoutedOps(t, step, now);
    var ops := own + rest;
    assert ops[0] == own[0];
    if t.state == New {
      assert ops[1] == own[1];
    } else if rest != [] {
      assert ops[1] == rest[0];
    }
  }

  lemma {:induction false} WalkChecked(f: StoreFacts, actor: UserId, t: TicketRow, holder: Option<UserId>, from: nat,
      now: Instant, pick: Selection)
    requires ValidDefinition(f.workflow) && from <= |f.workflow| && !IsClosed(t.state)
    requires Advance(f.workflow, t, from, now).Ok?
    ensures var w := Advance(f.workflow, t, from, now).value;
            var c := CheckedGroups(f, actor, t.(assignee := holder), from, w.ops, pick);
            && (c.Some? <==> WalkAccepted(f, f.workflow, t.state, from))
            && (c.Some? ==> c.value.cursor == w.next && c.value.after.state == w.ticket.state &&
                            (!Routed(w.ops) ==> c.value.after.assignee == holder))
    decreases |f.workflow| - from
  {
    var d := f.workflow;
    if from < |d| && IsRouting(d[from]) {
      var mid := RoutedTicket(t, now);
      AdvanceRoutes(d, t, from, now);
      HeadOfWalk(d, mid, from + 1, now);
      WalkChecked(f, actor, mid, Some(pick(from)), from + 1, now, pick);
      RoutingGroup(f, actor, t, holder, d[from], from, now, Advance(d, mid, from + 1, now).value.ops, pick);
    } else if from < |d| && IsTerminal(d[from]) {
      TerminalChecked(f, actor, t, holder, from, now, pick);
    }
  }

  lemma TerminalChecked(f: StoreFacts, actor: UserId, t: TicketRow, holder: Option<UserId>, from: nat, now: Instant,
      pick: Selection)
    requires ValidDefinition(f.workflow) && from < |f.workflow| && IsTerminal(f.workflow[from])
    requires TerminalOutcome(t, f.workflow[from], from, now).Ok? && !CompletesSilently(f.workflow[from], t.state)
    ensures var o := TerminalOutcome(t, f.workflow[from], from, now).value;
            && o.0 != []
            && CheckedGroups(f, actor, t.(assignee := holder), from, o.0, pick)
               == Some(Checked(|f.workflow|, o.1.(assignee := holder)))
  {
    var (ops, after) := TerminalOutcome(t, f.workflow[from], from, now).value;
    var start, s := t.(assignee := holder), f.workflow[from];
    assert from == |f.workflow| - 1;
    var one := CheckedMove(start, s, from, ops[0]);
    assert ops[1..] == [] || ops[1..] == [ops[1]];
    if |ops| == 2 {
      assert ops[1..][1..] == [];
      assert CheckedMoves(one.value, s, from, ops[1..]) == CheckedMove(one.value, s, from, ops[1]);
    }
    assert CheckedMoves(start, s, from, ops) == Some(after.(assignee := holder));
    assert ops[|ops|..] == [];
  }

  // The step-by-step demand in one condition.
  lemma {:induction false} WalkAcceptedExactly(f: StoreFacts, d: Definition, state: State, from: nat)
    requires ValidDefinition(d) && from <= |d|
    ensures var end := WalkEnd(d, from);
            WalkAccepted(f, d, state, from) <==>
              (DesksStaffed(f, d, from, end) &&
               !(from < end < |d| && IsTerminal(d[end]) && !(state == New && end == from + 1)))
    decreases |d| - from
  {
    if from < |d| && IsRouting(d[from]) {
      WalkAcceptedExactly(f, d, if state == New then InProgress else state, from + 1);
      NothingAutomaticSkipped(d, from + 1);
      var end := WalkEnd(d, from);
      assert DesksStaffed(f, d, from, end) <==>
             f.Pool(d[from].config.value.desk) != {} && DesksStaffed(f, d, from + 1, end);
    }
  }

  // What a claim needs from the desk's membership.
  predicate ClaimantReady(f: StoreFacts, s: Step, actor: UserId) {
    IsClaim(s) ==> actor in f.Pool(s.config.value.desk)
  }

  // The store holds exactly what the planner saw.
  ghost predicate Unchanged(f: StoreFacts, snap: Snapshot) {
    && snap.ticket == Some(f.ticket) && snap.run == Some(f.run) && snap.workflow == f.workflow
    && f.ticket.pin.Some?
  }

  // The submitted step's own group, in front of the automatic walk.
  lemma OwnGroupChecked(
      f: StoreFacts, s: Step, step: nat, cmd: Command, now: Instant, isSpace: char -> bool,
      own: seq<Operation>, mid: TicketRow, rest: seq<Operation>, pick: Selection)
    requires OwnStep(f.ticket, s, step, cmd, now, isSpace, own, mid) && !IsTerminal(s) && WellFormedStep(s)
    ensures var g := CheckedGroup(f, cmd.actor, f.ticket, s, step, own + rest, pick);
            && (g.Some? <==>
                  && ClaimantReady(f, s, cmd.actor)
                  && (IsRouting(s) ==> f.Pool(s.config.value.desk) != {})
                  && (s.AssignToDesk? && f.ticket.state != New ==> !(rest != [] && rest[0].StateTransition?)))
            && (g.Some? ==> g.value == Group(|own|, if IsRouting(s) then mid.(assignee := Some(pick(step))) else mid))
  {
    var ops := own + rest;
    match s {
      case AssignToDesk(config) =>
        if f.ticket.state == New {
          assert ops[1] == StateTransition(step, Move(New, InProgress, now));
        } else if rest != [] {
          assert ops[1] == rest[0];
        }
      case Form(form) =>
        assert ops[0] == own[0] && ops[1] == own[1];
        FormAnswers.DecodedAnswersFit(form.value.fields, cmd.raw, isSpace, own[0].answers);
      case ManualTask(_) =>
        assert ops[0] == own[0];
    }
  }

  // The transaction finds the ticket, run and definition the planner saw, and the
  // clock did not run backwards.  Then the recheck accepts the plan if and only if
  // the people involved are still active, the claimant belongs to the desk, every
  // desk the walk routes to is staffed, and the walk does not strand its terminal
  // step behind an assignment on a ticket that already left `New`.
  lemma StoreAcceptsPlan(f: StoreFacts, snap: Snapshot, cmd: Command, now: Instant, isSpace: char -> bool,
      p: CorePlan, pick: Selection)
    requires Unchanged(f, snap) && ValidDefinition(f.workflow)
    requires PlanOf(snap, cmd, now, isSpace, p) && f.run.startedAt <= now
    ensures Accepts(f, Submission(snap, cmd, p), pick) <==>
            && PeopleStillActive(f, Submission(snap, cmd, p))
            && ClaimantReady(f, f.workflow[p.expected], cmd.actor)
            && DesksStaffed(f, f.workflow, p.expected, p.nextCursor)
            && !StrandedTerminal(f.workflow, f.ticket.state, p.expected)
  {
    var d, t, step := f.workflow, f.ticket, p.expected;
    if IsTerminal(d[step]) {
      TerminalPlanChecked(f, snap, cmd, now, isSpace, p, pick);
    } else {
      var own, mid :| OwnStep(t, d[step], step, cmd, now, isSpace, own, mid) &&
                      Prepend(own, Advance(d, mid, step + 1, now)) == Ok(Walk(p.ops, p.nextCursor, p.after));
      HumanPlanExactly(f, snap, cmd, now, isSpace, p, own, mid, Advance(d, mid, step + 1, now).value, pick);
    }
  }

  lemma HumanPlanExactly(
      f: StoreFacts, snap: Snapshot, cmd: Command, now: Instant, isSpace: char -> bool, p: CorePlan,
      own: seq<Operation>, mid: TicketRow, w: Walk, pick: Selection)
    requires Unchanged(f, snap) && ValidDefinition(f.workflow) && p.expected < |f.workflow|
    requires !IsTerminal(f.workflow[p.expected]) && !IsClosed(f.ticket.state)
    requires p.expected == f.run.cursor && f.run.status == Active
    requires OwnStep(f.ticket, f.workflow[p.expected], p.expected, cmd, now, isSpace, own, mid)
    requires Advance(f.workflow, mid, p.expected + 1, now) == Ok(w)
    requires p.ops == own + w.ops && p.nextCursor == w.next && p.after == w.ticket
    requires f.run.startedAt <= now
    ensures Accepts(f, Submission(snap, cmd, p), pick) <==>
            && PeopleStillActive(f, Submission(snap, cmd, p))
            && ClaimantReady(f, f.workflow[p.expected], cmd.actor)
            && DesksStaffed(f, f.workflow, p.expected, p.nextCursor)
            && !StrandedTerminal(f.workflow, f.ticket.state, p.expected)
  {
    var d, t, step := f.workflow, f.ticket, p.expected;
    AdvanceShape(d, mid, step + 1, now);
    OwnInstants(t, d[step], step, cmd, now, isSpace, own, mid);
    AllAtJoin(own, w.ops, now);
    HumanPlanChecked(f, snap, cmd, now, isSpace, p, own, mid, w, pick);
    AcceptedExactly(f, d, t.state, mid.state, step, p.nextCursor, w);
  }

  // Every recorded instant of a plan is the planner's one clock reading.
  predicate AllAt(ops: seq<Operation>, now: Instant) {
    forall i :: 0 <= i < |ops| && At(ops[i]).Some? ==> At(ops[i]).value == now
  }

  lemma OwnInstants(
      t: TicketRow, s: Step, step: nat, cmd: Command, now: Instant, isSpace: char -> bool,
      own: seq<Operation>, mid: TicketRow)
    requires OwnStep(t, s, step, cmd, now, isSpace, own, mid) && !IsTerminal(s)
    ensures AllAt(own, now)
  {
  }

  lemma AllAtJoin(a: seq<Operation>, b: seq<Operation>, now: Instant)
    requires AllAt(a, now) && AllAt(b, now)
    ensures AllAt(a + b, now)
  {
  }

  // A completion whose own step is the terminal one.
  lemma TerminalPlanChecked(f: StoreFacts, snap: Snapshot, cmd: Command, now: Instant, isSpace: char -> bool,
      p: CorePlan, pick: Selection)
    requires Unchanged(f, snap) && ValidDefinition(f.workflow)
    requires PlanOf(snap, cmd, now, isSpace, p) && f.run.startedAt <= now && IsTerminal(f.workflow[p.expected])
    ensures Accepts(f, Submission(snap, cmd, p), pick) <==> PeopleStillActive(f, Submission(snap, cmd, p))
  {
    var d, t, step := f.workflow, f.ticket, p.expected;
    TerminalPromise(d, t, step, now, pick);
    assert AllAt(p.ops, now);
    if CompletesSilently(d[step], t.state) {
      assert p.ops == [];
    } else {
      TerminalChecked(f, cmd.actor, t, t.assignee, step, now, pick);
      assert t.(assignee := t.assignee) == t;
      assert p.after.(assignee := t.assignee) == p.after;
    }
  }

  lemma HumanPlanChecked(
      f: StoreFacts, snap: Snapshot, cmd: Command, now: Instant, isSpace: char -> bool, p: CorePlan,
      own: seq<Operation>, mid: TicketRow, w: Walk, pick: Selection)
    requires Unchanged(f, snap) && ValidDefinition(f.workflow) && p.expected < |f.workflow|
    requires !IsTerminal(f.workflow[p.expected]) && !IsClosed(f.ticket.state)
    requires p.expected == f.run.cursor && f.run.status == Active
    requires OwnStep(f.ticket, f.workflow[p.expected], p.expected, cmd, now, isSpace, own, mid)
    requires Advance(f.workflow, mid, p.expected + 1, now) == Ok(w)
    requires p.ops == own + w.ops && p.nextCursor == w.next && p.after == w.ticket
    requires AllAt(p.ops, now) && f.run.startedAt <= now
    ensures var s := f.workflow[p.expected];
            Accepts(f, Submission(snap, cmd, p), pick) <==>
            && PeopleStillActive(f, Submission(snap, cmd, p))
            && ClaimantReady(f, s, cmd.actor)
            && (IsRouting(s) ==> f.Pool(s.config.value.desk) != {})
            && (s.AssignToDesk? && f.ticket.state != New ==> !(p.expected + 1 < |f.workflow| && IsTerminal(f.workflow[p.expected + 1])))
            && WalkAccepted(f, f.workflow, mid.state, p.expected + 1)
  {
    var d, step, s := f.workflow, p.expected, f.workflow[p.expected];
    var held := if IsRouting(s) then Some(pick(step)) else mid.assignee;
    var c := CheckedGroups(f, cmd.actor, mid.(assignee := held), step + 1, w.ops, pick);
    OwnStepReplays(f.ticket, s, step, cmd, now, isSpace, own, mid, pick);
    HeadOfWalk(d, mid, step + 1, now);
    WalkChecked(f, cmd.actor, mid, held, step + 1, now, pick);
    AdvanceEffect(d, mid, step + 1, now, pick);
    RoutedAppend(own, w.ops);
    OwnThenWalk(f, s, step, cmd, now, isSpace, own, mid, w.ops, pick);
    assert CheckedGroups(f, cmd.actor, f.ticket, step, p.ops, pick).Some? ==>
             CheckedGroups(f, cmd.actor, f.ticket, step, p.ops, pick) == c;
    AcceptsByGroups(f, snap, cmd, now, p, pick);
  }

  // When the walk over the groups of a plan succeeds, it reaches the declared
  // cursor and result.
  lemma AcceptsByGroups(f: StoreFacts, snap: Snapshot, cmd: Command, now: Instant, p: CorePlan, pick: Selection)
    requires Unchanged(f, snap) && f.run.status == Active && f.run.cursor == p.expected < |f.workflow|
    requires p.ops != [] && AllAt(p.ops, now) && f.run.startedAt <= now
    requires var c := CheckedGroups(f, cmd.actor, f.ticket, p.expected, p.ops, pick);
             c.Some? ==> c.value.cursor == p.nextCursor && c.value.after.state == p.after.state &&
                         (!Routed(p.ops) ==> c.value.after.assignee == p.after.assignee)
    ensures Accepts(f, Submission(snap, cmd, p), pick) <==>
            && PeopleStillActive(f, Submission(snap, cmd, p))
            && CheckedGroups(f, cmd.actor, f.ticket, p.expected, p.ops, pick).Some?
  {
    var plan := Submission(snap, cmd, p);
    assert Monotonic(f.run.startedAt, plan.ops);
    assert Routed(p.ops) <==> (exists i :: 0 <= i < |plan.ops| && plan.ops[i].LeastLoadedAssignment?);
  }

  // Checking the whole plan is checking its first group and then the walk.
  lemma OwnThenWalk(
      f: StoreFacts, s: Step, step: nat, cmd: Command, now: Instant, isSpace: char -> bool,
      own: seq<Operation>, mid: TicketRow, rest: seq<Operation>, pick: Selection)
    requires step < |f.workflow| && s == f.workflow[step] && WellFormedStep(s) && !IsTerminal(s)
    requires OwnStep(f.ticket, s, step, cmd, now, isSpace, own, mid)
    requires own != [] && forall i :: 0 <= i < |own| ==> own[i].step == step
    ensures own + rest != []
    ensures var held := if IsRouting(s) then Some(pick(step)) else mid.assignee;
            CheckedGroups(f, cmd.actor, f.ticket, step, own + rest, pick) ==
            if && ClaimantReady(f, s, cmd.actor)
               && (IsRouting(s) ==> f.Pool(s.config.value.desk) != {})
               && (s.AssignToDesk? && f.ticket.state != New ==> !(rest != [] && rest[0].StateTransition?))
            then CheckedGroups(f, cmd.actor, mid.(assignee := held), step + 1, rest, pick)
            else None
  {
    OwnGroupChecked(f, s, step, cmd, now, isSpace, own, mid, rest, pick);
    assert (own + rest)[|own|..] == rest && (own + rest)[0] == own[0];
    assert mid.(assignee := mid.assignee) == mid;
  }

  lemma AcceptedExactly(f: StoreFacts, d: Definition, state: State, mid: State, step: nat, next: nat, w: Walk)
    requires ValidDefinition(d) && step < next <= |d| && !IsTerminal(d[step]) && !IsClosed(state)
    requires mid == if state == New && d[step].AssignToDesk? then InProgress else state
    requires next == (var end := WalkEnd(d, step + 1); if end < |d| && IsTerminal(d[end]) then |d| else end)
    ensures (&& (IsRouting(d[step]) ==> f.Pool(d[step].config.value.desk) != {})
             && (d[step].AssignToDesk? && state != New ==> !(step + 1 < |d| && IsTerminal(d[step + 1])))
             && WalkAccepted(f, d, mid, step + 1))
            <==> (DesksStaffed(f, d, step, next) && !StrandedTerminal(d, state, step))
  {
    var end := WalkEnd(d, step + 1);
    WalkAcceptedExactly(f, d, mid, step + 1);
    NothingAutomaticSkipped(d, step + 1);
    assert DesksStaffed(f, d, step, next) <==>
           (IsRouting(d[step]) ==> f.Pool(d[step].config.value.desk) != {}) && DesksStaffed(f, d, step + 1, end);
    if step + 1 < end {
      assert IsRouting(d[end - 1]);
      assert d[step].AssignToDesk? ==> step < end - 1;
      assert step + 1 < end - 1 ==> d[step + 1].AssignToDesk?;
    }
  }

  // A concrete plan the planner makes and the store refuses although nothing
  // changed: a claim on a ticket already in progress, directly before the final
  // resolve step.
  const ClaimThenResolve: Definition := [AssignToDesk(Some(DeskConfig(1, Claim))), ResolveTicket]
  const Started: TicketRow := TicketRow(1, Some(7), None, Some(3), InProgress, None, None, None, 0)
  const Staffed: StoreFacts := StoreFacts(Started, Run(0, Active, 0), ClaimThenResolve, {7, 8}, {8}, desk => {8})
  const ClaimIt: Command := Command(1, 8, [], "")

  function ClaimedAndResolved(): CorePlan {
    CorePlan(0, [ClaimAssignment(0, 1, 8, None, 0), StateTransition(1, Move(InProgress, Resolved, 0))], 2, Completed, Started,
             Started.(assignee := Some(8), state := Resolved, resolvedAt := Some(0)))
  }

  lemma ClaimIsPlanned(isSpace: char -> bool)
    ensures PlanOf(Snapshot(Some(Started), Some(Run(0, Active, 0)), ClaimThenResolve), ClaimIt, 0, isSpace, ClaimedAndResolved())
  {
    var mid := Started.(assignee := Some(8));
    var own: seq<Operation> := [ClaimAssignment(0, 1, 8, None, 0)];
    assert own == [ClaimAssignment(0, 1, 8, None, 0)] + RoutedOps(mid, 0, 0);
    assert OwnStep(Started, ClaimThenResolve[0], 0, ClaimIt, 0, isSpace, own, mid);
    var p := ClaimedAndResolved();
    assert p.ops == own + [StateTransition(1, Move(InProgress, Resolved, 0))];
    assert Prepend(own, Advance(ClaimThenResolve, mid, 1, 0)) == Ok(Walk(p.ops, p.nextCursor, p.after));
  }

  lemma ClaimThenResolveIsRefused(isSpace: char -> bool, pick: Selection)
    ensures var snap := Snapshot(Some(Started), Some(Run(0, Active, 0)), ClaimThenResolve); var p := ClaimedAndResolved();
            && Unchanged(Staffed, snap) && ValidDefinition(Staffed.workflow)
            && PlanOf(snap, ClaimIt, 0, isSpace, p)
            && PeopleStillActive(Staffed, Submission(snap, ClaimIt, p))
            && ClaimantReady(Staffed, Staffed.workflow[p.expected], ClaimIt.actor)
            && !Accepts(Staffed, Submission(snap, ClaimIt, p), pick)
  {
    var snap := Snapshot(Some(Started), Some(Run(0, Active, 0)), ClaimThenResolve);
    ClaimIsPlanned(isSpace);
    StrandedHere();
    StoreAcceptsPlan(Staffed, snap, ClaimIt, 0, isSpace, ClaimedAndResolved(), pick);
  }

  lemma StrandedHere()
    ensures StrandedTerminal(ClaimThenResolve, InProgress, 0)
  {
    assert WalkEnd(ClaimThenResolve, 1) == 1;
  }

  // ---- Creation ----------------------------------------------------------------

  // One group of a creation plan: a routing step's, or a run of transitions.
  function CreationGroup(f: StoreFacts, t: TicketRow, s: Step, idx: nat, ops: seq<Operation>, pick: Selection): Option<Group>
    requires ops != []
  {
    if ops[0].LeastLoadedAssignment? then
      if IsRouting(s) then CheckedGroup(f, 0, t, s, idx, ops, pick) else None
    else if ops[0].StateTransition? && (s.AssignToDesk? || IsTerminal(s)) then
      var after := CheckedMoves(t, s, idx, ops);
      if after.None? || (IsTerminal(s) && !TerminalMatrix(s, t.state, after.value.state, |ops|)) then None
      else Some(Group(|ops|, after.value))
    else None
  }

  function CreationGroups(f: StoreFacts, t: TicketRow, idx: nat, ops: seq<Operation>, pick: Selection): Option<Checked>
    decreases |ops|
  {
    if ops == [] then Some(Checked(idx, t))
    else if idx >= |f.workflow| || ops[0].step != idx then None
    else
      var g := CreationGroup(f, t, f.workflow[idx], idx, ops, pick);
      if g.None? || g.value.size == 0 || g.value.size > |ops| then None
      else CreationGroups(f, g.value.after, idx + 1, ops[g.value.size..], pick)
  }

  // The recheck of a creation: the ticket is new and unassigned, the run starts
  // active at step 0.
  predicate AcceptsCreation(f: StoreFacts, plan: InitialPlan, pick: Selection) {
    && (f.ticket.requester.Some? ==> f.ticket.requester.value in f.active)
    && |f.workflow| > 0
    && Monotonic(f.run.startedAt, plan.ops)
    && if plan.ops == [] then
         if IsTerminal(f.workflow[0]) then
           plan.nextStatus == Completed && plan.nextCursor == |f.workflow| &&
           CompletesSilently(f.workflow[0], f.ticket.state) && plan.nextState == f.ticket.state
         else
           !(f.workflow[0].AssignToDesk? && f.workflow[0].config.Some? && f.workflow[0].config.value.strategy != Claim) &&
           plan.nextStatus == Active && plan.nextCursor == 0 && plan.nextState == f.ticket.state
       else
         var c := CreationGroups(f, f.ticket, 0, plan.ops, pick);
         c.Some? && plan.nextCursor == c.value.cursor && plan.nextState == c.value.after.state
  }

  lemma {:induction false} CreationWalkChecked(f: StoreFacts, t: TicketRow, holder: Option<UserId>, from: nat,
      now: Instant, pick: Selection)
    requires ValidDefinition(f.workflow) && from <= |f.workflow| && !IsClosed(t.state)
    requires Advance(f.workflow, t, from, now).Ok?
    ensures var w := Advance(f.workflow, t, from, now).value;
            var c := CreationGroups(f, t.(assignee := holder), from, w.ops, pick);
            && (c.Some? <==> WalkAccepted(f, f.workflow, t.state, from))
            && (c.Some? ==> c.value.cursor == w.next && c.value.after.state == w.ticket.state)
    decreases |f.workflow| - from
  {
    var d := f.workflow;
    if from < |d| && IsRouting(d[from]) {
      var mid := RoutedTicket(t, now);
      AdvanceRoutes(d, t, from, now);
      HeadOfWalk(d, mid, from + 1, now);
      CreationWalkChecked(f, mid, Some(pick(from)), from + 1, now, pick);
      RoutingGroup(f, 0, t, holder, d[from], from, now, Advance(d, mid, from + 1, now).value.ops, pick);
    } else if from < |d| && IsTerminal(d[from]) {
      TerminalChecked(f, 0, t, holder, from, now, pick);
      var ops := TerminalOutcome(t, d[from], from, now).value.0;
      assert ops[0].StateTransition? && ops[|ops|..] == [];
    }
  }

  // A planned creation is accepted if and only if the requester is active, the
  // desks of the opening walk are staffed, and the definition does not open with
  // two or more routing steps directly followed by its terminal step.
  lemma StoreAcceptsCreation(f: StoreFacts, p: InitialPlan, now: Instant, pick: Selection)
    requires ValidDefinition(f.workflow) && f.ticket.state == New && f.run == Run(0, Active, f.run.startedAt)
    requires InitialPlanOf(f.ticket, f.workflow, now) == Ok(p) && f.run.startedAt <= now
    ensures AcceptsCreation(f, p, pick) <==>
            && (f.ticket.requester.Some? ==> f.ticket.requester.value in f.active)
            && DesksStaffed(f, f.workflow, 0, p.nextCursor)
            && !(2 <= WalkEnd(f.workflow, 0) < |f.workflow| && IsTerminal(f.workflow[WalkEnd(f.workflow, 0)]))
  {
    CreationChecked(f, p, now, pick);
    WalkAcceptedExactly(f, f.workflow, New, 0);
    OpeningStaffed(f, p, now);
  }

  // The opening walk stops where routing ends, or behind the terminal step there.
  lemma OpeningStaffed(f: StoreFacts, p: InitialPlan, now: Instant)
    requires ValidDefinition(f.workflow) && InitialPlanOf(f.ticket, f.workflow, now) == Ok(p)
    ensures DesksStaffed(f, f.workflow, 0, WalkEnd(f.workflow, 0)) <==> DesksStaffed(f, f.workflow, 0, p.nextCursor)
  {
    var d := f.workflow;
    var end := WalkEnd(d, 0);
    AdvanceShape(d, f.ticket, 0, now);
    if end < |d| && IsTerminal(d[end]) {
      assert end == |d| - 1;
    }
  }

  lemma CreationChecked(f: StoreFacts, p: InitialPlan, now: Instant, pick: Selection)
    requires ValidDefinition(f.workflow) && f.ticket.state == New && f.run == Run(0, Active, f.run.startedAt)
    requires InitialPlanOf(f.ticket, f.workflow, now) == Ok(p) && f.run.startedAt <= now
    ensures AcceptsCreation(f, p, pick) <==>
            (f.ticket.requester.Some? ==> f.ticket.requester.value in f.active) && WalkAccepted(f, f.workflow, New, 0)
  {
    var d := f.workflow;
    AdvanceShape(d, f.ticket, 0, now);
    CreationWalkChecked(f, f.ticket, f.ticket.assignee, 0, now, pick);
    assert f.ticket.(assignee := f.ticket.assignee) == f.ticket;
    assert Monotonic(f.run.startedAt, p.ops) by {
      assert AllAt(p.ops, now);
    }
    assert WellFormedStep(d[0]);
    if p.ops == [] {
      NothingPlanned(f, p, now);
    }
  }

  // A creation without operations stops at its first step.
  lemma NothingPlanned(f: StoreFacts, p: InitialPlan, now: Instant)
    requires ValidDefinition(f.workflow) && f.ticket.state == New
    requires InitialPlanOf(f.ticket, f.workflow, now) == Ok(p) && p.ops == []
    ensures !IsRouting(f.workflow[0]) && !IsTerminal(f.workflow[0])
    ensures p == InitialPlan([], 0, Active, New)
  {
  }
}
