/**
The workflow planner (internal/application/workflow_runner.go): one human
completion and every automatic step after it become one ordered list of
operations, planned on a private copy of the ticket.

`Advance` and `InitialPlanOf` are the planner on values; the methods
`ApplyTerminal`, `AdvanceAutomatics`, `PlanInitialAutomatic` and `PlanComplete`
are the imperative planner, each proved equal to its function.  What the planner
promises is proved about the functions.
*/
module Runner {
  import opened Core
  import opened Tickets
  import opened Workflow
  import FormAnswers

  // The operations planned so far, the next cursor and the planned ticket.
  datatype Walk = Walk(ops: seq<Operation>, next: nat, ticket: TicketRow)

  type WalkResult = Result<Walk, PlanError>

  function Prepend(ops: seq<Operation>, r: WalkResult): WalkResult {
    if r.Ok? then Ok(r.value.(ops := ops + r.value.ops)) else r
  }

  // A person was put on a new ticket: the same unit moves it to in progress.
  function RoutedTicket(t: TicketRow, now: Instant): TicketRow {
    if t.state == New then t.(state := InProgress, resolvedAt := None, updatedAt := now) else t
  }

  function RoutedOps(t: TicketRow, step: nat, now: Instant): seq<Operation> {
    if t.state == New then [StateTransition(step, Move(New, InProgress, now))] else []
  }

  // One terminal step's lifecycle transitions.
  function TerminalOutcome(t: TicketRow, s: Step, step: nat, now: Instant): Result<(seq<Operation>, TicketRow), PlanError>
    requires IsTerminal(s)
  {
    if t.state == Cancelled then Err(InvalidInput("state"))
    else if t.state == Closed || (s.ResolveTicket? && t.state == Resolved) then Ok(([], t))
    else if s.CloseTicket? && t.state == Resolved then
      var c := AfterTransition(t, Closed, false, now);
      if c.Err? then Err(MoveRefused(c.error))
      else Ok(([StateTransition(step, Move(Resolved, Closed, now))], c.value))
    else
      var r := AfterTransition(t, Resolved, false, now);
      if r.Err? then Err(MoveRefused(r.error))
      else if s.ResolveTicket? then Ok(([StateTransition(step, Move(t.state, Resolved, now))], r.value))
      else
        var closed := r.value.(state := Closed, closedAt := Some(now), updatedAt := now);
        Ok(([StateTransition(step, Move(t.state, Resolved, now)), StateTransition(step, Move(Resolved, Closed, now))], closed))
  }

  // State by state: cancelled tickets refuse a terminal step, one that has nothing left to
  // do is silent, a hold refuses it, and otherwise the ticket is resolved, and for a
  // closing step closed behind that, each move recorded.
  lemma TerminalOutcomeIs(t: TicketRow, s: Step, step: nat, now: Instant)
    requires IsTerminal(s)
    ensures t.state == Cancelled ==> TerminalOutcome(t, s, step, now) == Err(InvalidInput("state"))
    ensures t.state == Closed || (t.state == Resolved && s.ResolveTicket?) ==> TerminalOutcome(t, s, step, now) == Ok(([], t))
    ensures t.state == Resolved && s.CloseTicket? ==>
              TerminalOutcome(t, s, step, now) ==
                if t.OnHold() then Err(MoveRefused(TicketOnHold))
                else Ok(([StateTransition(step, Move(Resolved, Closed, now))], t.(state := Closed, closedAt := Some(now), updatedAt := now)))
    ensures t.state in {New, InProgress} ==>
              var resolved := t.(state := Resolved, resolvedAt := Some(now), updatedAt := now);
              var toResolved := StateTransition(step, Move(t.state, Resolved, now));
              TerminalOutcome(t, s, step, now) ==
                if t.OnHold() then Err(MoveRefused(TicketOnHold))
                else if s.ResolveTicket? then Ok(([toResolved], resolved))
                else Ok(([toResolved, StateTransition(step, Move(Resolved, Closed, now))], resolved.(state := Closed, closedAt := Some(now))))
  {
  }

  // The automatic walk: routing steps, then at most one terminal step, until a
  // step waits for a person or the definition ends.
  function Advance(d: Definition, t: TicketRow, from: nat, now: Instant): (r: WalkResult)
    ensures r.Err? ==> r.error != PositionConflict
    decreases |d| - from
  {
    if from >= |d| then Ok(Walk([], from, t))
    else if d[from].AssignToDesk? then
      if d[from].config.None? then Err(InvalidInput("type"))
      else if d[from].config.value.strategy != LeastLoaded then Ok(Walk([], from, t))
      else
        Prepend([LeastLoadedAssignment(from, d[from].config.value.desk, None)] + RoutedOps(t, from, now),
                Advance(d, RoutedTicket(t, now), from + 1, now))
    else if IsTerminal(d[from]) then
      var o := TerminalOutcome(t, d[from], from, now);
      if o.Err? then Err(o.error) else Ok(Walk(o.value.0, |d|, o.value.1))
    else Ok(Walk([], from, t))
  }

  datatype Command = Command(position: int, actor: UserId, raw: seq<FormAnswers.RawValue>, solution: string)

  datatype Snapshot = Snapshot(ticket: Option<TicketRow>, run: Option<Run>, workflow: Definition)

  function MayAnswer(t: TicketRow, actorKind: FormActor, actor: UserId): Result<(), PlanError> {
    match actorKind
    case ByRequester => if t.requester == Some(actor) then Ok(()) else Err(Forbidden)
    case ByAssignee => if t.assignee == Some(actor) then Ok(()) else Err(Forbidden)
    case ByOther => Err(InvalidInput("actor"))
  }

  // ---- The imperative planner --------------------------------------------------

  method InProgressTransition(ticket: Ticket, step: nat, now: Instant) returns (ops: seq<Operation>)
    modifies ticket
    ensures ops == RoutedOps(old(ticket.Row()), step, now)
    ensures ticket.Row() == RoutedTicket(old(ticket.Row()), now)
  {
    if ticket.state != New {
      return [];
    }
    var moved := ticket.Transition(InProgress, false, now);
    return [StateTransition(step, moved.value)];
  }

  method ApplyTerminal(ticket: Ticket, s: Step, step: nat, now: Instant)
      returns (r: Result<seq<Operation>, PlanError>)
    requires IsTerminal(s)
    modifies ticket
    ensures var o := TerminalOutcome(old(ticket.Row()), s, step, now);
            match r
            case Ok(ops) => o == Ok((ops, ticket.Row()))
            case Err(e) => o == Err(e)
  {
    if ticket.state == Cancelled {
      return Err(InvalidInput("state"));
    }
    if s.ResolveTicket? {
      if ticket.state == Resolved || ticket.state == Closed {
        return Ok([]);
      }
      var moved := ticket.Transition(Resolved, false, now);
      if moved.Err? {
        return Err(MoveRefused(moved.error));
      }
      return Ok([StateTransition(step, moved.value)]);
    }
    if ticket.state == Closed {
      return Ok([]);
    }
    if ticket.state == Resolved {
      var moved := ticket.Transition(Closed, false, now);
      if moved.Err? {
        return Err(MoveRefused(moved.error));
      }
      return Ok([StateTransition(step, moved.value)]);
    }
    var resolved := ticket.Transition(Resolved, false, now);
    if resolved.Err? {
      return Err(MoveRefused(resolved.error));
    }
    var closed := ticket.Transition(Closed, false, now);
    return Ok([StateTransition(step, resolved.value), StateTransition(step, closed.value)]);
  }

  method AdvanceAutomatics(d: Definition, ticket: Ticket, planned: seq<Operation>, from: nat, now: Instant)
      returns (r: Result<(seq<Operation>, nat), PlanError>)
    modifies ticket
    ensures var w := Prepend(planned, Advance(d, old(ticket.Row()), from, now));
            match r
            case Ok(v) => w == Ok(Walk(v.0, v.1, ticket.Row()))
            case Err(e) => w == Err(e)
  {
    var ops, next := planned, from;
    ghost var whole := Prepend(planned, Advance(d, ticket.Row(), from, now));
    while next < |d|
      invariant Prepend(ops, Advance(d, ticket.Row(), next, now)) == whole
    {
      var s := d[next];
      match s {
        case AssignToDesk(config) =>
          if config.None? {
            return Err(InvalidInput("type"));
          }
          if config.value.strategy != LeastLoaded {
            assert ops + [] == ops;
            return Ok((ops, next));
          }
          ghost var rest := Advance(d, RoutedTicket(ticket.Row(), now), next + 1, now);
          ghost var before := ops;
          ops := ops + [LeastLoadedAssignment(next, config.value.desk, None)];
          var moved := InProgressTransition(ticket, next, now);
          ops := ops + moved;
          if rest.Ok? {
            assert before + (([LeastLoadedAssignment(next, config.value.desk, None)] + moved) + rest.value.ops)
                == ops + rest.value.ops;
          }
          next := next + 1;
        case ResolveTicket =>
          var o := ApplyTerminal(ticket, s, next, now);
          if o.Err? {
            return Err(o.error);
          }
          return Ok((ops + o.value, |d|));
        case CloseTicket =>
          var o := ApplyTerminal(ticket, s, next, now);
          if o.Err? {
            return Err(o.error);
          }
          return Ok((ops + o.value, |d|));
        case _ =>
          assert ops + [] == ops;
          return Ok((ops, next));
      }
    }
    assert ops + [] == ops;
    return Ok((ops, next));
  }

  // ---- Creation ------------------------------------------------------------------

  datatype InitialPlan = InitialPlan(ops: seq<Operation>, nextCursor: nat, nextStatus: RunStatus, nextState: State)

  function StatusAt(d: Definition, cursor: nat): RunStatus {
    if cursor >= |d| then Completed else Active
  }

  function InitialPlanOf(t: TicketRow, d: Definition, now: Instant): Result<InitialPlan, PlanError> {
    if |d| == 0 then Err(InvalidInput("workflow"))
    else
      var w := Advance(d, t, 0, now);
      if w.Err? then Err(w.error)
      else Ok(InitialPlan(w.value.ops, w.value.next, StatusAt(d, w.value.next), w.value.ticket.state))
  }

  method PlanInitialAutomatic(row: TicketRow, d: Definition, now: Instant)
      returns (r: Result<InitialPlan, PlanError>)
    ensures r == InitialPlanOf(row, d, now)
  {
    if |d| == 0 {
      return Err(InvalidInput("workflow"));
    }
    var copy := new Ticket(row);
    var walked := AdvanceAutomatics(d, copy, [], 0, now);
    PrependNothing(Advance(d, row, 0, now));
    if walked.Err? {
      return Err(walked.error);
    }
    var status := Active;
    if walked.value.1 >= |d| {
      status := Completed;
    }
    return Ok(InitialPlan(walked.value.0, walked.value.1, status, copy.state));
  }

  lemma PrependNothing(r: WalkResult)
    ensures Prepend([], r) == r
  {
    if r.Ok? {
      assert [] + r.value.ops == r.value.ops;
    }
  }

  // ---- Completion ------------------------------------------------------------------

  // The part of a completion that is about the run and the ticket; the
  // notifications of the same plan are in PlanNotices.
  datatype CorePlan = CorePlan(
    expected: nat,
    ops: seq<Operation>,
    nextCursor: nat,
    nextStatus: RunStatus,
    before: TicketRow,
    after: TicketRow)

  // The submission's own step.
  ghost predicate OwnStep(
      t: TicketRow, s: Step, step: nat, cmd: Command, now: Instant, isSpace: char -> bool,
      ops: seq<Operation>, after: TicketRow)
  {
    match s
    case AssignToDesk(config) =>
      && config.Some?
      && (match config.value.strategy
          case Claim =>
            var claimed := t.(assignee := Some(cmd.actor));
            && ops == [ClaimAssignment(step, config.value.desk, cmd.actor, t.assignee, now)] + RoutedOps(claimed, step, now)
            && after == RoutedTicket(claimed, now)
          case LeastLoaded =>
            && ops == [LeastLoadedAssignment(step, config.value.desk, None)] + RoutedOps(t, step, now)
            && after == RoutedTicket(t, now)
          case OtherStrategy => false)
    case Form(form) =>
      && form.Some?
      && MayAnswer(t, form.value.actor, cmd.actor).Ok?
      && after == t
      && |ops| == 2
      && ops[0].FormSubmission?
      && ops[0] == FormSubmission(step, ops[0].answers, cmd.actor, now)
      && FormAnswers.DecodesTo(form.value.fields, cmd.raw, isSpace, ops[0].answers)
      && ops[1] == StepCompleted(step, if form.value.actor == ByRequester then RequesterFormDone else AssigneeFormDone,
                                 cmd.actor, "", now)
    case ManualTask(task) =>
      && task.Some?
      && t.assignee == Some(cmd.actor)
      && after == t
      && ops == [StepCompleted(step, ManualTaskDone, cmd.actor, FormAnswers.Trim(cmd.solution, isSpace), now)]
    case UnknownStep => false
    case _ => TerminalOutcome(t, s, step, now) == Ok((ops, after))
  }

  // The command names the step the active run waits on.
  predicate AtPosition(snap: Snapshot, cmd: Command) {
    && snap.ticket.Some? && snap.run.Some? && snap.run.value.status == Active
    && cmd.position >= 1
    && cmd.position - 1 == snap.run.value.cursor < |snap.workflow|
  }

  // The completion is admitted at this position, and by the lifecycle guard.
  ghost predicate Admitted(snap: Snapshot, cmd: Command, isSpace: char -> bool) {
    && AtPosition(snap, cmd)
    && var s := snap.workflow[cmd.position - 1];
    && (IsClosed(snap.ticket.value.state) ==> IsTerminal(s))
    && (FormAnswers.Trim(cmd.solution, isSpace) != "" ==> s.ManualTask?)
  }

  // `p` is the plan of this completion.
  ghost predicate PlanOf(snap: Snapshot, cmd: Command, now: Instant, isSpace: char -> bool, p: CorePlan) {
    && Admitted(snap, cmd, isSpace)
    && var d, t, step := snap.workflow, snap.ticket.value, cmd.position - 1;
    && p.expected == step
    && p.before == t
    && p.nextStatus == StatusAt(d, p.nextCursor)
    && if IsTerminal(d[step]) then
         p.nextCursor == |d| && OwnStep(t, d[step], step, cmd, now, isSpace, p.ops, p.after)
       else
         exists own, mid :: OwnStep(t, d[step], step, cmd, now, isSpace, own, mid) &&
                            Prepend(own, Advance(d, mid, step + 1, now)) == Ok(Walk(p.ops, p.nextCursor, p.after))
  }

  // The completion is refused, whatever operations its step might have.
  ghost predicate Refused(snap: Snapshot, cmd: Command, now: Instant, isSpace: char -> bool) {
    forall p :: !PlanOf(snap, cmd, now, isSpace, p)
  }

  method PlanComplete(snap: Snapshot, cmd: Command, now: Instant, isSpace: char -> bool)
      returns (r: Result<CorePlan, PlanError>)
    ensures r.Ok? ==> PlanOf(snap, cmd, now, isSpace, r.value)
    ensures r.Err? ==> Refused(snap, cmd, now, isSpace)
    ensures r == Err(PositionConflict) <==> !AtPosition(snap, cmd)
  {
    if cmd.position <= 0 || snap.run.None? || snap.ticket.None? || snap.run.value.status != Active || |snap.workflow| == 0 {
      return Err(PositionConflict);
    }
    var exp := cmd.position - 1;
    if exp != snap.run.value.cursor || exp >= |snap.workflow| {
      return Err(PositionConflict);
    }
    var d, step := snap.workflow, snap.workflow[exp];
    if IsClosed(snap.ticket.value.state) && !IsTerminal(step) {
      return Err(InvalidInput("state"));
    }
    var solution := FormAnswers.Trim(cmd.solution, isSpace);
    if solution != "" && !step.ManualTask? {
      return Err(InvalidInput("solution"));
    }
    var ticket := new Ticket(snap.ticket.value);
    var own := PlanOwnStep(ticket, step, exp, cmd, now, isSpace);
    if own.Err? {
      return Err(own.error);
    }
    ghost var mid := ticket.Row();
    if IsTerminal(step) {
      return Ok(CorePlan(exp, own.value, |d|, Completed, snap.ticket.value, ticket.Row()));
    }
    var walked := AdvanceAutomatics(d, ticket, own.value, exp + 1, now);
    if walked.Err? {
      OwnStepUnique(snap.ticket.value, step, exp, cmd, now, isSpace, own.value, mid);
      return Err(walked.error);
    }
    var status := Active;
    if walked.value.1 >= |d| {
      status := Completed;
    }
    return Ok(CorePlan(exp, walked.value.0, walked.value.1, status, snap.ticket.value, ticket.Row()));
  }

  method PlanOwnStep(ticket: Ticket, s: Step, step: nat, cmd: Command, now: Instant, isSpace: char -> bool)
      returns (r: Result<seq<Operation>, PlanError>)
    modifies ticket
    ensures r.Ok? ==> OwnStep(old(ticket.Row()), s, step, cmd, now, isSpace, r.value, ticket.Row())
    ensures r.Err? ==> r.error != PositionConflict
    ensures r.Err? ==> forall ops, after :: !OwnStep(old(ticket.Row()), s, step, cmd, now, isSpace, ops, after)
  {
    match s {
      case AssignToDesk(config) =>
        if config.None? {
          return Err(InvalidInput("type"));
        }
        match config.value.strategy {
          case Claim =>
            var claim := ClaimAssignment(step, config.value.desk, cmd.actor, ticket.assignee, now);
            ticket.assignee := Some(cmd.actor);
            var moved := InProgressTransition(ticket, step, now);
            return Ok([claim] + moved);
          case LeastLoaded =>
            var moved := InProgressTransition(ticket, step, now);
            return Ok([LeastLoadedAssignment(step, config.value.desk, None)] + moved);
          case OtherStrategy =>
            return Err(InvalidInput("strategy"));
        }
      case Form(form) =>
        if form.None? {
          return Err(InvalidInput("type"));
        }
        var may := MayAnswer(ticket.Row(), form.value.actor, cmd.actor);
        if may.Err? {
          return Err(may.error);
        }
        var answers := FormAnswers.Decode(form.value.fields, cmd.raw, isSpace);
        if answers.Err? {
          return Err(InvalidInput("answers"));
        }
        var action := AssigneeFormDone;
        if form.value.actor == ByRequester {
          action := RequesterFormDone;
        }
        return Ok([FormSubmission(step, answers.value, cmd.actor, now), StepCompleted(step, action, cmd.actor, "", now)]);
      case ManualTask(task) =>
        if task.None? {
          return Err(InvalidInput("type"));
        }
        if ticket.assignee != Some(cmd.actor) {
          return Err(Forbidden);
        }
        return Ok([StepCompleted(step, ManualTaskDone, cmd.actor, FormAnswers.Trim(cmd.solution, isSpace), now)]);
      case UnknownStep =>
        return Err(InvalidInput("type"));
      case _ =>
        var o := ApplyTerminal(ticket, s, step, now);
        return o;
    }
  }

  // A submission has one outcome: its answers, and so its operations and the
  // ticket they leave, are determined.
  lemma OwnStepUnique(
      t: TicketRow, s: Step, step: nat, cmd: Command, now: Instant, isSpace: char -> bool,
      ops: seq<Operation>, after: TicketRow)
    requires OwnStep(t, s, step, cmd, now, isSpace, ops, after)
    ensures forall ops': seq<Operation>, after': TicketRow :: OwnStep(t, s, step, cmd, now, isSpace, ops', after') ==> ops' == ops && after' == after
  {
    forall ops': seq<Operation>, after': TicketRow | OwnStep(t, s, step, cmd, now, isSpace, ops', after')
      ensures ops' == ops && after' == after
    {
      if s.Form? {
        var fields := s.form.value.fields;
        forall i | 0 <= i < |fields|
          ensures ops[0].answers[i] == ops'[0].answers[i]
        {
          assert FormAnswers.FieldAnswer(fields[i], FormAnswers.Submitted(cmd.raw, i), isSpace) == Some(ops[0].answers[i]);
          assert FormAnswers.FieldAnswer(fields[i], FormAnswers.Submitted(cmd.raw, i), isSpace) == Some(ops'[0].answers[i]);
        }
        assert ops[0].answers == ops'[0].answers;
        assert ops == [ops[0], ops[1]] && ops' == [ops'[0], ops'[1]];
      }
    }
  }
}
