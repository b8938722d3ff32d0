/**
Who may complete a workflow step, and against which facts: what the planner
(internal/application/workflow_runner.go) and the store's recheck
(internal/adapters/sqlite/workflow_uow.go) let through, told from the ticket, the
definition and the people themselves.
*/
module PlanAuthority {
  import opened Core
  import opened Tickets
  import opened Workflow
  import opened Runner
  import opened PlanFacts
  import opened PlanRecheck

  // ---- The planner -------------------------------------------------------------------

  // The person this human step waits for: nobody in particular for a claim.
  predicate StepIsFor(s: Step, t: TicketRow, actor: UserId) {
    match s
    case Form(form) =>
      && form.Some?
      && (form.value.actor == ByRequester || form.value.actor == ByAssignee)
      && Some(actor) == (if form.value.actor == ByRequester then t.requester else t.assignee)
    case ManualTask(task) => task.Some? && t.assignee == Some(actor)
    case AssignToDesk(config) => config.Some? && config.value.strategy == Claim
    case _ => false
  }

  // The submission carries what the step asks for: answers that decode, and a solution
  // for a manual task only.
  ghost predicate Carries(s: Step, cmd: Command, isSpace: char -> bool) {
    && (FormAnswers.Trim(cmd.solution, isSpace) != "" ==> s.ManualTask?)
    && (s.Form? && s.form.Some? ==> exists answers :: FormAnswers.DecodesTo(s.form.value.fields, cmd.raw, isSpace, answers))
  }

  // Whether the automatic steps behind this one can be planned.
  predicate WalkPlanned(d: Definition, s: Step, t: TicketRow, step: nat, actor: UserId, now: Instant) {
    var held := if s.AssignToDesk? then t.(assignee := Some(actor)) else t;
    var mid := if s.AssignToDesk? && t.state == New then held.(state := InProgress, resolvedAt := None, updatedAt := now) else held;
    Advance(d, mid, step + 1, now).Ok?
  }

  // A human step is completed exactly by the person it is for, on an open ticket, with
  // a submission that carries what the step asks for, unless the walk behind it has no
  // plan.
  lemma HumanStepPlanned(snap: Snapshot, cmd: Command, now: Instant, isSpace: char -> bool)
    requires AtPosition(snap, cmd) && IsHuman(snap.workflow[cmd.position - 1])
    ensures var d, t, step := snap.workflow, snap.ticket.value, cmd.position - 1;
            (exists p :: PlanOf(snap, cmd, now, isSpace, p)) <==>
              && StepIsFor(d[step], t, cmd.actor) && !IsClosed(t.state)
              && Carries(d[step], cmd, isSpace) && WalkPlanned(d, d[step], t, step, cmd.actor, now)
  {
    var d, t, step := snap.workflow, snap.ticket.value, cmd.position - 1;
    if p :| PlanOf(snap, cmd, now, isSpace, p) {
      PlannedIsFor(snap, cmd, now, isSpace, p);
    }
    if StepIsFor(d[step], t, cmd.actor) && !IsClosed(t.state) && Carries(d[step], cmd, isSpace) &&
       WalkPlanned(d, d[step], t, step, cmd.actor, now) {
      var p := ForIsPlanned(snap, cmd, now, isSpace);
    }
  }

  // The ticket the submitted step leaves to the walk.
  lemma OwnStepLeaves(t: TicketRow, s: Step, step: nat, cmd: Command, now: Instant, isSpace: char -> bool,
      ops: seq<Operation>, after: TicketRow)
    requires OwnStep(t, s, step, cmd, now, isSpace, ops, after) && IsHuman(s)
    ensures StepIsFor(s, t, cmd.actor)
    ensures s.Form? ==> FormAnswers.DecodesTo(s.form.value.fields, cmd.raw, isSpace, ops[0].answers)
    ensures var held := if s.AssignToDesk? then t.(assignee := Some(cmd.actor)) else t;
            after == if s.AssignToDesk? && t.state == New then held.(state := InProgress, resolvedAt := None, updatedAt := now) else held
  {
  }

  lemma PlannedIsFor(snap: Snapshot, cmd: Command, now: Instant, isSpace: char -> bool, p: CorePlan)
    requires PlanOf(snap, cmd, now, isSpace, p) && IsHuman(snap.workflow[p.expected])
    ensures var d, t, step := snap.workflow, snap.ticket.value, p.expected;
            && StepIsFor(d[step], t, cmd.actor) && !IsClosed(t.state)
            && Carries(d[step], cmd, isSpace) && WalkPlanned(d, d[step], t, step, cmd.actor, now)
  {
    var d, t, step := snap.workflow, snap.ticket.value, p.expected;
    var own, mid :| OwnStep(t, d[step], step, cmd, now, isSpace, own, mid) &&
                    Prepend(own, Advance(d, mid, step + 1, now)) == Ok(Walk(p.ops, p.nextCursor, p.after));
    OwnStepLeaves(t, d[step], step, cmd, now, isSpace, own, mid);
  }

  lemma OwnOps(t: TicketRow, s: Step, step: nat, cmd: Command, now: Instant, isSpace: char -> bool)
      returns (ops: seq<Operation>, after: TicketRow)
    requires IsHuman(s) && StepIsFor(s, t, cmd.actor) && Carries(s, cmd, isSpace)
    ensures OwnStep(t, s, step, cmd, now, isSpace, ops, after)
  {
    match s {
      case Form(form) =>
        var answers :| FormAnswers.DecodesTo(form.value.fields, cmd.raw, isSpace, answers);
        after := t;
        ops := [FormSubmission(step, answers, cmd.actor, now),
                StepCompleted(step, if form.value.actor == ByRequester then RequesterFormDone else AssigneeFormDone, cmd.actor, "", now)];
      case ManualTask(_) =>
        after := t;
        ops := [StepCompleted(step, ManualTaskDone, cmd.actor, FormAnswers.Trim(cmd.solution, isSpace), now)];
      case AssignToDesk(config) =>
        var claimed := t.(assignee := Some(cmd.actor));
        after := RoutedTicket(claimed, now);
        ops := [ClaimAssignment(step, config.value.desk, cmd.actor, t.assignee, now)] + RoutedOps(claimed, step, now);
    }
  }

  lemma ForIsPlanned(snap: Snapshot, cmd: Command, now: Instant, isSpace: char -> bool) returns (p: CorePlan)
    requires AtPosition(snap, cmd) && IsHuman(snap.workflow[cmd.position - 1])
    requires var d, t, step := snap.workflow, snap.ticket.value, cmd.position - 1;
             && StepIsFor(d[step], t, cmd.actor) && !IsClosed(t.state)
             && Carries(d[step], cmd, isSpace) && WalkPlanned(d, d[step], t, step, cmd.actor, now)
    ensures PlanOf(snap, cmd, now, isSpace, p)
  {
    var d, t, step := snap.workflow, snap.ticket.value, cmd.position - 1;
    var own, mid := OwnOps(t, d[step], step, cmd, now, isSpace);
    OwnStepLeaves(t, d[step], step, cmd, now, isSpace, own, mid);
    var w := Prepend(own, Advance(d, mid, step + 1, now)).value;
    p := CorePlan(step, w.ops, w.next, StatusAt(d, w.next), t, w.ticket);
    assert Prepend(own, Advance(d, mid, step + 1, now)) == Ok(Walk(p.ops, p.nextCursor, p.after));
  }

  // ---- The recheck -------------------------------------------------------------------

  // What every operation of an accepted plan rests on, with the ticket held by `holder`
  // when it comes.
  ghost predicate Warranted(f: StoreFacts, actor: UserId, holder: Option<UserId>, op: Operation) {
    && op.step < |f.workflow|
    && var s := f.workflow[op.step];
       match op
       case FormSubmission(_, answers, who, _) =>
         && who == actor && s.Form? && s.form.Some? && |answers| == |s.form.value.fields|
         && (s.form.value.actor == ByRequester || s.form.value.actor == ByAssignee)
         && Some(actor) == (if s.form.value.actor == ByRequester then f.ticket.requester else holder)
       case StepCompleted(_, action, who, _, _) =>
         && who == actor
         && (if s.Form? then s.form.Some? && action == (if s.form.value.actor == ByRequester then RequesterFormDone else AssigneeFormDone)
             else s.ManualTask? && action == ManualTaskDone)
       case ClaimAssignment(_, desk, who, from, _) =>
         && who == actor && IsClaim(s) && desk == s.config.value.desk && from == holder
         && actor in f.members(desk) && actor in f.active && actor in f.staff
       case LeastLoadedAssignment(_, desk, _) =>
         && IsRouting(s) && desk == s.config.value.desk
         && exists who :: InPool(f, desk, who)
       case StateTransition(_, m) =>
         Legal(m.from, m.to) && (IsTerminal(s) || (s.AssignToDesk? && m.from == New && m.to == InProgress))
  }

  // One group: it replays, and each of its operations is warranted.
  ghost predicate GroupOk(f: StoreFacts, actor: UserId, t: TicketRow, idx: nat, ops: seq<Operation>, after: TicketRow, pick: Selection) {
    && Replay(Facts(t), ops, pick) == Some(Facts(after)) && after.requester == t.requester
    && forall i :: 0 <= i < |ops| ==> ops[i].step == idx && WarrantedAt(f, actor, t, ops, i, pick)
  }

  ghost predicate WarrantedAt(f: StoreFacts, actor: UserId, t: TicketRow, ops: seq<Operation>, i: nat, pick: Selection) {
    && i < |ops| && Replay(Facts(t), ops[..i], pick).Some?
    && Warranted(f, actor, Replay(Facts(t), ops[..i], pick).value.assignee, ops[i])
  }

  lemma MoveOk(f: StoreFacts, actor: UserId, t: TicketRow, idx: nat, op: Operation, pick: Selection)
    requires idx < |f.workflow| && CheckedMove(t, f.workflow[idx], idx, op).Some?
    requires IsTerminal(f.workflow[idx]) || f.workflow[idx].AssignToDesk?
    ensures var after := CheckedMove(t, f.workflow[idx], idx, op).value;
            ApplyOp(Facts(t), op, pick) == Some(Facts(after)) && after.requester == t.requester
    ensures op.step == idx && Warranted(f, actor, t.assignee, op)
  {
  }

  lemma GroupSnoc(f: StoreFacts, actor: UserId, t: TicketRow, idx: nat, ops: seq<Operation>, mid: TicketRow, op: Operation,
      after: TicketRow, pick: Selection)
    requires GroupOk(f, actor, t, idx, ops, mid, pick) && op.step == idx
    requires ApplyOp(Facts(mid), op, pick) == Some(Facts(after)) && after.requester == mid.requester
    requires Warranted(f, actor, mid.assignee, op)
    ensures GroupOk(f, actor, t, idx, ops + [op], after, pick)
  {
    var all := ops + [op];
    ReplayAppend(Facts(t), ops, [op], pick);
    ReplayShort(Facts(mid), [op], pick);
    forall i | 0 <= i < |all|
      ensures all[i].step == idx && WarrantedAt(f, actor, t, all, i, pick)
    {
      if i < |ops| {
        assert all[..i] == ops[..i] && WarrantedAt(f, actor, t, ops, i, pick);
      } else {
        assert all[..i] == ops;
      }
    }
  }

  lemma NoOps(f: StoreFacts, actor: UserId, t: TicketRow, idx: nat, pick: Selection)
    ensures GroupOk(f, actor, t, idx, [], t, pick)
  {
  }

  lemma {:induction false} MovesOk(f: StoreFacts, actor: UserId, t: TicketRow, idx: nat, done: seq<Operation>, mid: TicketRow,
      ops: seq<Operation>, pick: Selection)
    requires idx < |f.workflow| && (IsTerminal(f.workflow[idx]) || f.workflow[idx].AssignToDesk?)
    requires GroupOk(f, actor, t, idx, done, mid, pick)
    requires CheckedMoves(mid, f.workflow[idx], idx, ops).Some?
    ensures GroupOk(f, actor, t, idx, done + ops, CheckedMoves(mid, f.workflow[idx], idx, ops).value, pick)
    decreases |ops|
  {
    if ops == [] {
      assert done + ops == done;
    } else {
      var next := CheckedMove(mid, f.workflow[idx], idx, ops[0]).value;
      MoveOk(f, actor, mid, idx, ops[0], pick);
      GroupSnoc(f, actor, t, idx, done, mid, ops[0], next, pick);
      MovesOk(f, actor, t, idx, done + [ops[0]], next, ops[1..], pick);
      assert done + ops == done + [ops[0]] + ops[1..];
    }
  }

  lemma AssignmentOk(f: StoreFacts, actor: UserId, t: TicketRow, idx: nat, ops: seq<Operation>, pick: Selection)
    requires idx < |f.workflow| && f.workflow[idx].AssignToDesk? && ops != [] && t.requester == f.ticket.requester
    requires CheckedGroup(f, actor, t, f.workflow[idx], idx, ops, pick).Some?
    ensures var g := CheckedGroup(f, actor, t, f.workflow[idx], idx, ops, pick).value;
            0 < g.size <= |ops| && GroupOk(f, actor, t, idx, ops[..g.size], g.after, pick)
  {
    var s := f.workflow[idx];
    var g := CheckedGroup(f, actor, t, s, idx, ops, pick).value;
    var held := t.(assignee := Some(if ops[0].LeastLoadedAssignment? then pick(idx) else actor));
    PoolIff(f, s.config.value.desk);
    NoOps(f, actor, t, idx, pick);
    GroupSnoc(f, actor, t, idx, [], t, ops[0], held, pick);
    assert [] + [ops[0]] == ops[..1];
    if g.size == 2 {
      MoveOk(f, actor, held, idx, ops[1], pick);
      GroupSnoc(f, actor, t, idx, ops[..1], held, ops[1], g.after, pick);
      assert ops[..1] + [ops[1]] == ops[..2];
    }
  }

  lemma Member(s: set<UserId>) returns (who: UserId)
    requires s != {}
    ensures who in s
  {
    assert (forall x :: x !in s) ==> s == {};
    who :| who in s;
  }

  lemma HumanOk(f: StoreFacts, actor: UserId, t: TicketRow, idx: nat, ops: seq<Operation>, pick: Selection)
    requires idx < |f.workflow| && (f.workflow[idx].Form? || f.workflow[idx].ManualTask?) && ops != [] && t.requester == f.ticket.requester
    requires CheckedGroup(f, actor, t, f.workflow[idx], idx, ops, pick).Some?
    ensures var g := CheckedGroup(f, actor, t, f.workflow[idx], idx, ops, pick).value;
            0 < g.size <= |ops| && GroupOk(f, actor, t, idx, ops[..g.size], g.after, pick)
  {
    NoOps(f, actor, t, idx, pick);
    GroupSnoc(f, actor, t, idx, [], t, ops[0], t, pick);
    assert [] + [ops[0]] == ops[..1];
    if f.workflow[idx].Form? {
      GroupSnoc(f, actor, t, idx, ops[..1], t, ops[1], t, pick);
      assert ops[..1] + [ops[1]] == ops[..2];
    }
  }

  lemma AnyGroupOk(f: StoreFacts, actor: UserId, t: TicketRow, idx: nat, ops: seq<Operation>, pick: Selection)
    requires idx < |f.workflow| && ops != [] && t.requester == f.ticket.requester
    requires CheckedGroup(f, actor, t, f.workflow[idx], idx, ops, pick).Some?
    ensures var g := CheckedGroup(f, actor, t, f.workflow[idx], idx, ops, pick).value;
            0 < g.size <= |ops| && GroupOk(f, actor, t, idx, ops[..g.size], g.after, pick)
  {
    var s := f.workflow[idx];
    if s.AssignToDesk? {
      AssignmentOk(f, actor, t, idx, ops, pick);
    } else if s.Form? || s.ManualTask? {
      HumanOk(f, actor, t, idx, ops, pick);
    } else {
      NoOps(f, actor, t, idx, pick);
      MovesOk(f, actor, t, idx, [], t, ops, pick);
      assert [] + ops == ops && ops[..|ops|] == ops;
    }
  }

  lemma RestWarranted(f: StoreFacts, actor: UserId, t: TicketRow, own: seq<Operation>, mid: TicketRow, rest: seq<Operation>,
      k: nat, pick: Selection)
    requires Replay(Facts(t), own, pick) == Some(Facts(mid)) && WarrantedAt(f, actor, mid, rest, k, pick)
    ensures WarrantedAt(f, actor, t, own + rest, |own| + k, pick)
  {
    assert (own + rest)[..|own| + k] == own + rest[..k];
    ReplayAppend(Facts(t), own, rest[..k], pick);
  }

  // A list of groups: it replays, and its steps start at `idx`.
  ghost predicate ListOk(f: StoreFacts, actor: UserId, t: TicketRow, idx: int, ops: seq<Operation>, after: TicketRow, pick: Selection) {
    && Replay(Facts(t), ops, pick) == Some(Facts(after))
    && forall i :: 0 <= i < |ops| ==> idx <= ops[i].step && WarrantedAt(f, actor, t, ops, i, pick)
  }

  lemma JoinOk(f: StoreFacts, actor: UserId, t: TicketRow, idx: nat, own: seq<Operation>, mid: TicketRow,
      rest: seq<Operation>, after: TicketRow, pick: Selection)
    requires GroupOk(f, actor, t, idx, own, mid, pick) && ListOk(f, actor, mid, idx + 1, rest, after, pick)
    ensures ListOk(f, actor, t, idx, own + rest, after, pick)
  {
    ReplayAppend(Facts(t), own, rest, pick);
    var all := own + rest;
    forall i | 0 <= i < |all|
      ensures idx <= all[i].step && WarrantedAt(f, actor, t, all, i, pick)
    {
      if i < |own| {
        assert all[..i] == own[..i] && all[i] == own[i] && WarrantedAt(f, actor, t, own, i, pick);
      } else {
        assert all[i] == rest[i - |own|] && WarrantedAt(f, actor, mid, rest, i - |own|, pick);
        RestWarranted(f, actor, t, own, mid, rest, i - |own|, pick);
      }
    }
  }

  lemma {:induction false} GroupsOk(f: StoreFacts, actor: UserId, t: TicketRow, idx: nat, ops: seq<Operation>, pick: Selection)
    requires CheckedGroups(f, actor, t, idx, ops, pick).Some? && t.requester == f.ticket.requester
    ensures ListOk(f, actor, t, idx, ops, CheckedGroups(f, actor, t, idx, ops, pick).value.after, pick)
    decreases |ops|
  {
    if ops != [] {
      var size, after := HeadOk(f, actor, t, idx, ops, pick);
      var end := CheckedGroups(f, actor, t, idx, ops, pick).value.after;
      GroupsOk(f, actor, after, idx + 1, ops[size..], pick);
      JoinOk(f, actor, t, idx, ops[..size], after, ops[size..], end, pick);
      assert ops == ops[..size] + ops[size..];
    }
  }

  lemma HeadOk(f: StoreFacts, actor: UserId, t: TicketRow, idx: nat, ops: seq<Operation>, pick: Selection)
      returns (size: nat, after: TicketRow)
    requires ops != [] && CheckedGroups(f, actor, t, idx, ops, pick).Some? && t.requester == f.ticket.requester
    ensures 0 < size <= |ops| && GroupOk(f, actor, t, idx, ops[..size], after, pick)
    ensures CheckedGroups(f, actor, after, idx + 1, ops[size..], pick) == CheckedGroups(f, actor, t, idx, ops, pick)
  {
    AnyGroupOk(f, actor, t, idx, ops, pick);
    var g := CheckedGroup(f, actor, t, f.workflow[idx], idx, ops, pick).value;
    return g.size, g.after;
  }

  // A submission, a claim, a transition and a completion are recorded at an instant.
  predicate RecordedAt(op: Operation, a: Instant) {
    match op
    case FormSubmission(_, _, _, at) => a == at
    case ClaimAssignment(_, _, _, _, at) => a == at
    case StateTransition(_, move) => a == move.at
    case StepCompleted(_, _, _, _, at) => a == at
    case LeastLoadedAssignment(_, _, _) => false
  }

  // Whatever plan the store accepts, on whatever facts: its people are active and the
  // holder is staff; its instants start at the run's and never go back; its operations
  // replay from the stored ticket to the declared state, from the run's cursor on; and
  // each rests on the step, the desk and the person it names.
  lemma AcceptedIsWarranted(f: StoreFacts, plan: MutationPlan, pick: Selection)
    requires Accepts(f, plan, pick)
    ensures plan.actor in f.active && (f.ticket.requester.Some? ==> f.ticket.requester.value in f.active)
    ensures f.ticket.assignee.Some? ==> f.ticket.assignee.value in f.active && f.ticket.assignee.value in f.staff
    ensures forall i, a :: 0 <= i < |plan.ops| && RecordedAt(plan.ops[i], a) ==> f.run.startedAt <= a
    ensures forall i, j, a, b :: 0 <= i < j < |plan.ops| && RecordedAt(plan.ops[i], a) && RecordedAt(plan.ops[j], b) ==> a <= b
    ensures var end := Replay(Facts(f.ticket), plan.ops, pick);
            end.Some? && end.value.state == plan.nextState && (!Routed(plan.ops) ==> end.value.assignee == plan.nextAssignee)
    ensures forall i :: 0 <= i < |plan.ops| ==>
              f.run.status == Active && f.run.cursor <= plan.ops[i].step && WarrantedAt(f, plan.actor, f.ticket, plan.ops, i, pick)
  {
    if plan.ops != [] {
      GroupsOk(f, plan.actor, f.ticket, f.run.cursor, plan.ops, pick);
    }
  }

  // The operations of an accepted plan are those of a stretch of steps without a gap:
  // none is skipped, and they come in step order.
  ghost predicate Covers(ops: seq<Operation>, lo: int, hi: int) {
    && (forall i :: 0 <= i < |ops| ==> lo <= ops[i].step < hi)
    && (forall i, j :: 0 <= i < j < |ops| ==> ops[i].step <= ops[j].step)
    && forall step :: lo <= step < hi ==> HasStep(ops, step)
  }

  predicate HasStep(ops: seq<Operation>, step: int) { exists i :: 0 <= i < |ops| && ops[i].step == step }

  lemma CoversJoin(own: seq<Operation>, rest: seq<Operation>, lo: int, hi: int)
    requires own != [] && (forall i :: 0 <= i < |own| ==> own[i].step == lo) && Covers(rest, lo + 1, hi) && lo < hi
    ensures Covers(own + rest, lo, hi)
  {
    var all := own + rest;
    forall step | lo <= step < hi
      ensures HasStep(all, step)
    {
      if step == lo {
        assert all[0].step == step;
      } else {
        assert HasStep(rest, step);
        var i :| 0 <= i < |rest| && rest[i].step == step;
        assert all[|own| + i].step == step;
      }
    }
  }

  // A terminal step's transitions come last and end in its state.
  predicate EndsRight(d: Definition, ops: seq<Operation>, final: State) {
    forall i :: 0 <= i < |ops| && ops[i].step < |d| && IsTerminal(d[ops[i].step]) ==>
      final == (if d[ops[i].step].ResolveTicket? then Resolved else Closed) && ops[i].step == ops[|ops| - 1].step
  }

  ghost predicate CoversTo(d: Definition, ops: seq<Operation>, idx: nat, c: Checked) {
    idx <= c.cursor && Covers(ops, idx, c.cursor) && EndsRight(d, ops, c.after.state) && (ops == [] <==> c.cursor == idx)
  }

  lemma {:induction false} GroupsCover(f: StoreFacts, actor: UserId, t: TicketRow, idx: nat, ops: seq<Operation>, pick: Selection)
    requires CheckedGroups(f, actor, t, idx, ops, pick).Some? && t.requester == f.ticket.requester
    ensures CoversTo(f.workflow, ops, idx, CheckedGroups(f, actor, t, idx, ops, pick).value)
    decreases |ops|
  {
    if ops != [] {
      var c := CheckedGroups(f, actor, t, idx, ops, pick).value;
      var size, after := HeadSteps(f, actor, t, idx, ops, pick);
      GroupsCover(f, actor, after, idx + 1, ops[size..], pick);
      HeadEndsRight(f, actor, t, idx, ops, pick);
      assert ops == ops[..size] + ops[size..];
      HeadCovers(f.workflow, idx, ops[..size], ops[size..], c);
    }
  }

  lemma HeadSteps(f: StoreFacts, actor: UserId, t: TicketRow, idx: nat, ops: seq<Operation>, pick: Selection)
      returns (size: nat, after: TicketRow)
    requires ops != [] && CheckedGroups(f, actor, t, idx, ops, pick).Some? && t.requester == f.ticket.requester
    ensures 0 < size <= |ops| && after.requester == t.requester && forall i :: 0 <= i < size ==> ops[..size][i].step == idx
    ensures CheckedGroups(f, actor, after, idx + 1, ops[size..], pick) == CheckedGroups(f, actor, t, idx, ops, pick)
  {
    size, after := HeadOk(f, actor, t, idx, ops, pick);
  }

  lemma HeadCovers(d: Definition, idx: nat, own: seq<Operation>, rest: seq<Operation>, c: Checked)
    requires own != [] && (forall i :: 0 <= i < |own| ==> own[i].step == idx) && CoversTo(d, rest, idx + 1, c)
    requires idx < |d| && IsTerminal(d[idx]) ==> c.cursor == idx + 1 && c.after.state == if d[idx].ResolveTicket? then Resolved else Closed
    ensures CoversTo(d, own + rest, idx, c)
  {
    CoversJoin(own, rest, idx, c.cursor);
    var all := own + rest;
    forall i | 0 <= i < |all| && all[i].step < |d| && IsTerminal(d[all[i].step])
      ensures c.after.state == (if d[all[i].step].ResolveTicket? then Resolved else Closed) && all[i].step == all[|all| - 1].step
    {
      if i < |own| {
        assert all[i] == own[i];
        assert rest == [];
      } else {
        assert all[i] == rest[i - |own|];
      }
    }
  }

  lemma HeadEndsRight(f: StoreFacts, actor: UserId, t: TicketRow, idx: nat, ops: seq<Operation>, pick: Selection)
    requires ops != [] && CheckedGroups(f, actor, t, idx, ops, pick).Some?
    ensures idx < |f.workflow| && (IsTerminal(f.workflow[idx]) ==>
              var c := CheckedGroups(f, actor, t, idx, ops, pick).value;
              c.cursor == idx + 1 && c.after.state == if f.workflow[idx].ResolveTicket? then Resolved else Closed)
  {
    if IsTerminal(f.workflow[idx]) {
      assert ops[|ops|..] == [];
    }
  }

  // The operations of an accepted plan leave no step of the run out up to the declared
  // cursor, but for a final terminal step that has nothing to do, and a terminal step
  // decides the declared state.
  lemma AcceptedLeavesNoGap(f: StoreFacts, plan: MutationPlan, pick: Selection)
    requires Accepts(f, plan, pick) && f.run.status == Active
    ensures 0 <= f.run.cursor < |f.workflow|
    ensures Covers(plan.ops, f.run.cursor, plan.nextCursor)
            || (&& plan.nextCursor == |f.workflow| && plan.nextStatus == Completed && IsTerminal(f.workflow[|f.workflow| - 1])
                && IsClosed(plan.nextState) && Covers(plan.ops, f.run.cursor, |f.workflow| - 1))
    ensures EndsRight(f.workflow, plan.ops, plan.nextState)
  {
    if plan.ops != [] {
      GroupsCover(f, plan.actor, f.ticket, f.run.cursor, plan.ops, pick);
    }
  }

  // Whatever plan the store accepts expects the stored facts; and one without operations
  // leaves a run that is over as it is, or completes a run whose last step has nothing
  // left to do.
  lemma AcceptedOnFacts(f: StoreFacts, plan: MutationPlan, pick: Selection)
    requires Accepts(f, plan, pick)
    ensures f.ticket.pin == Some(plan.version) && f.workflow == plan.workflow
    ensures f.ticket.requester == plan.requester && f.ticket.assignee == plan.assignee && f.ticket.state == plan.beforeState
    ensures f.run.cursor == plan.expectedCursor && f.run.status == plan.expectedStatus
    ensures plan.ops == [] ==>
              && plan.nextState == f.ticket.state && plan.nextAssignee == f.ticket.assignee
              && if f.run.status != Active then plan.nextCursor == f.run.cursor && plan.nextStatus == f.run.status
                 else
                   && f.run.cursor == |f.workflow| - 1 && plan.nextCursor == |f.workflow| && plan.nextStatus == Completed
                   && match f.workflow[f.run.cursor]
                      case ResolveTicket => f.ticket.state == Resolved || f.ticket.state == Closed
                      case CloseTicket => f.ticket.state == Closed
                      case _ => false
  {
  }

  // ---- The recheck of a creation ------------------------------------------------------

  // One group of a creation: routing or transitions, warranted like any other.
  lemma CreationHead(f: StoreFacts, t: TicketRow, idx: nat, ops: seq<Operation>, pick: Selection) returns (size: nat, after: TicketRow)
    requires ops != [] && CreationGroups(f, t, idx, ops, pick).Some? && t.requester == f.ticket.requester
    ensures 0 < size <= |ops| && GroupOk(f, 0, t, idx, ops[..size], after, pick)
    ensures ops[0].LeastLoadedAssignment? || ops[0].StateTransition?
    ensures forall i :: 0 < i < size ==> ops[i].StateTransition?
    ensures CreationGroups(f, after, idx + 1, ops[size..], pick) == CreationGroups(f, t, idx, ops, pick)
    ensures idx < |f.workflow| && (IsTerminal(f.workflow[idx]) ==>
              size == |ops| && after.state == if f.workflow[idx].ResolveTicket? then Resolved else Closed)
  {
    var g := CreationGroup(f, t, f.workflow[idx], idx, ops, pick).value;
    size, after := g.size, g.after;
    if ops[0].LeastLoadedAssignment? {
      AssignmentOk(f, 0, t, idx, ops, pick);
    } else {
      NoOps(f, 0, t, idx, pick);
      MovesOk(f, 0, t, idx, [], t, ops, pick);
      assert [] + ops == ops && ops[..|ops|] == ops;
      OnlyMoves(t, f.workflow[idx], idx, ops);
    }
  }

  lemma {:induction false} OnlyMoves(t: TicketRow, s: Step, idx: nat, ops: seq<Operation>)
    requires CheckedMoves(t, s, idx, ops).Some?
    ensures forall i :: 0 <= i < |ops| ==> ops[i].StateTransition?
    decreases |ops|
  {
    if ops != [] {
      OnlyMoves(CheckedMove(t, s, idx, ops[0]).value, s, idx, ops[1..]);
      assert forall i :: 0 < i < |ops| ==> ops[i] == ops[1..][i - 1];
    }
  }

  ghost predicate Automatic(ops: seq<Operation>) {
    forall i :: 0 <= i < |ops| ==> ops[i].LeastLoadedAssignment? || ops[i].StateTransition?
  }

  lemma {:induction false} CreationOk(f: StoreFacts, t: TicketRow, idx: nat, ops: seq<Operation>, pick: Selection)
    requires CreationGroups(f, t, idx, ops, pick).Some? && t.requester == f.ticket.requester
    ensures var c := CreationGroups(f, t, idx, ops, pick).value;
            ListOk(f, 0, t, idx, ops, c.after, pick) && CoversTo(f.workflow, ops, idx, c) && Automatic(ops)
    decreases |ops|
  {
    if ops != [] {
      var size, after := CreationHead(f, t, idx, ops, pick);
      var c := CreationGroups(f, t, idx, ops, pick).value;
      CreationOk(f, after, idx + 1, ops[size..], pick);
      CreationJoin(f, t, idx, ops, size, after, c, pick);
    }
  }

  lemma CreationJoin(f: StoreFacts, t: TicketRow, idx: nat, ops: seq<Operation>, size: nat, after: TicketRow, c: Checked, pick: Selection)
    requires 0 < size <= |ops| && GroupOk(f, 0, t, idx, ops[..size], after, pick)
    requires Automatic(ops[..size]) && Automatic(ops[size..])
    requires ListOk(f, 0, after, idx + 1, ops[size..], c.after, pick) && CoversTo(f.workflow, ops[size..], idx + 1, c)
    requires idx < |f.workflow| && IsTerminal(f.workflow[idx]) ==>
               c.cursor == idx + 1 && c.after.state == if f.workflow[idx].ResolveTicket? then Resolved else Closed
    ensures ListOk(f, 0, t, idx, ops, c.after, pick) && CoversTo(f.workflow, ops, idx, c) && Automatic(ops)
  {
    var own, rest := ops[..size], ops[size..];
    assert ops == own + rest;
    JoinOk(f, 0, t, idx, own, after, rest, c.after, pick);
    HeadCovers(f.workflow, idx, own, rest, c);
  }

  // An accepted creation has an active requester, routes and moves the ticket through
  // steps without a gap from the first to the declared cursor, each to a staffed desk or
  // along a legal move, and ends in the declared state; without operations it stays at
  // its first step, or is a terminal step that has nothing to do.
  lemma AcceptedCreationIsWarranted(f: StoreFacts, plan: InitialPlan, pick: Selection)
    requires AcceptsCreation(f, plan, pick)
    ensures |f.workflow| > 0 && (f.ticket.requester.Some? ==> f.ticket.requester.value in f.active)
    ensures forall i, a :: 0 <= i < |plan.ops| && RecordedAt(plan.ops[i], a) ==> f.run.startedAt <= a
    ensures plan.ops != [] ==>
              && Covers(plan.ops, 0, plan.nextCursor) && Automatic(plan.ops) && EndsRight(f.workflow, plan.ops, plan.nextState)
              && (forall i :: 0 <= i < |plan.ops| ==> WarrantedAt(f, 0, f.ticket, plan.ops, i, pick))
              && Replay(Facts(f.ticket), plan.ops, pick).Some? && Replay(Facts(f.ticket), plan.ops, pick).value.state == plan.nextState
    ensures plan.ops == [] ==>
              && plan.nextState == f.ticket.state && !IsRouting(f.workflow[0])
              && if IsTerminal(f.workflow[0]) then
                   plan.nextStatus == Completed && plan.nextCursor == |f.workflow| && IsClosed(f.ticket.state)
                 else plan.nextStatus == Active && plan.nextCursor == 0
  {
    if plan.ops != [] {
      CreationOk(f, f.ticket, 0, plan.ops, pick);
    }
  }

  // ---- A plan and what was stored meanwhile -------------------------------------------

  // A plan made on one snapshot and submitted against whatever is stored by then is
  // accepted only if requester, holder, pin, definition, position and state are still
  // the snapshot's.
  lemma StalePlanRefused(f: StoreFacts, snap: Snapshot, cmd: Command, now: Instant, isSpace: char -> bool, p: CorePlan, pick: Selection)
    requires PlanOf(snap, cmd, now, isSpace, p) && Accepts(f, Submission(snap, cmd, p), pick)
    ensures var t := snap.ticket.value;
            && f.ticket.requester == t.requester && f.ticket.assignee == t.assignee && f.ticket.state == t.state
            && f.ticket.pin == Some(if t.pin.Some? then t.pin.value else 0)
            && f.workflow == snap.workflow
            && f.run.cursor == snap.run.value.cursor && f.run.status == snap.run.value.status == Active
  {
  }

  // On what the planner saw, the store accepts its plan if and only if the requester is
  // active, the holder active staff and the actor active; the actor is active staff of
  // the desk a claim is for; every desk routed to has such a person; and no terminal step
  // follows directly on an assignment that leaves the state alone.
  lemma PlanAcceptedIff(f: StoreFacts, snap: Snapshot, cmd: Command, now: Instant, isSpace: char -> bool, p: CorePlan, pick: Selection)
    requires Unchanged(f, snap) && ValidDefinition(f.workflow) && PlanOf(snap, cmd, now, isSpace, p) && f.run.startedAt <= now
    ensures var t, d, step := f.ticket, f.workflow, p.expected;
            Accepts(f, Submission(snap, cmd, p), pick) <==>
              && (t.requester.Some? ==> t.requester.value in f.active)
              && (t.assignee.Some? ==> t.assignee.value in f.active && t.assignee.value in f.staff)
              && cmd.actor in f.active
              && (IsClaim(d[step]) ==> InPool(f, d[step].config.value.desk, cmd.actor))
              && (forall i :: step <= i < p.nextCursor && i < |d| && IsRouting(d[i]) ==>
                    exists who :: InPool(f, d[i].config.value.desk, who))
              && !(exists end :: Strands(d, t.state, step, end))
  {
    StoreAcceptsPlan(f, snap, cmd, now, isSpace, p, pick);
    StrandsIff(f.workflow, f.ticket.state, p.expected);
    forall i | p.expected <= i < p.nextCursor && i < |f.workflow| && IsRouting(f.workflow[i])
      ensures f.Pool(f.workflow[i].config.value.desk) != {} <==> exists who :: InPool(f, f.workflow[i].config.value.desk, who)
    {
      PoolIff(f, f.workflow[i].config.value.desk);
    }
  }

  lemma PoolIff(f: StoreFacts, desk: int)
    ensures f.Pool(desk) != {} <==> exists who :: InPool(f, desk, who)
  {
    if f.Pool(desk) != {} {
      var who := Member(f.Pool(desk));
      assert InPool(f, desk, who);
    }
    if who :| InPool(f, desk, who) {
      assert who in f.Pool(desk);
    }
  }

  predicate InPool(f: StoreFacts, desk: int, who: UserId) { who in f.members(desk) && who in f.active && who in f.staff }

  // The first step behind `step` that is not a routing one, `end`, is terminal, follows
  // an assignment, and the ticket has left `New` before that assignment.
  predicate Strands(d: Definition, state: State, step: nat, end: nat) {
    && step < end < |d| && !IsTerminal(d[step]) && IsTerminal(d[end]) && d[end - 1].AssignToDesk?
    && (forall i :: step < i < end ==> IsRouting(d[i]))
    && (state != New || exists i :: step <= i < end - 1 && d[i].AssignToDesk?)
  }

  lemma StrandsIff(d: Definition, state: State, step: nat)
    requires step < |d|
    ensures StrandedTerminal(d, state, step) <==> exists end :: Strands(d, state, step, end)
  {
    var end := WalkEnd(d, step + 1);
    NothingAutomaticSkipped(d, step + 1);
    if StrandedTerminal(d, state, step) {
      assert Strands(d, state, step, end);
    }
    if other :| Strands(d, state, step, other) {
      WalkEndsAt(d, step + 1, other);
    }
  }

  lemma {:induction false} WalkEndsAt(d: Definition, from: nat, end: nat)
    requires from <= end < |d| && !IsRouting(d[end]) && forall i :: from <= i < end ==> IsRouting(d[i])
    ensures WalkEnd(d, from) == end
    decreases end - from
  {
    if from < end {
      WalkEndsAt(d, from + 1, end);
    }
  }
}
