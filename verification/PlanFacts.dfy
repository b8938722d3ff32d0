/**
What a plan's ordered operations mean: replaying them from the snapshot reaches
the planned ticket through legal, chained moves, in step order.
*/
module PlanFacts {
  import opened Core
  import opened Tickets
  import opened Workflow
  import opened Runner

  // What the operations act on.
  datatype Position = Position(state: State, assignee: Option<UserId>)

  // The person the transaction selects for each routing step.
  type Selection = nat -> UserId

  // One operation, or None when it does not chain with the position it meets or
  // moves against the transition matrix.
  function ApplyOp(p: Position, op: Operation, pick: Selection): Option<Position> {
    match op
    case StateTransition(_, m) =>
      if m.from == p.state && Legal(m.from, m.to) then Some(p.(state := m.to)) else None
    case ClaimAssignment(_, _, who, from, _) =>
      if from == p.assignee then Some(p.(assignee := Some(who))) else None
    case LeastLoadedAssignment(step, _, _) => Some(p.(assignee := Some(pick(step))))
    case FormSubmission(_, _, _, _) => Some(p)
    case StepCompleted(_, _, _, _, _) => Some(p)
  }

  // The operations applied in literal order.
  function Replay(p: Position, ops: seq<Operation>, pick: Selection): Option<Position>
    decreases |ops|
  {
    if ops == [] then Some(p)
    else
      var q := ApplyOp(p, ops[0], pick);
      if q.None? then None else Replay(q.value, ops[1..], pick)
  }

  lemma {:induction false} ReplayAppend(p: Position, a: seq<Operation>, b: seq<Operation>, pick: Selection)
    ensures var mid := Replay(p, a, pick);
            Replay(p, a + b, pick) == if mid.Some? then Replay(mid.value, b, pick) else None
    decreases |a|
  {
    if a == [] {
      assert a + b == b;
    } else {
      assert (a + b)[1..] == a[1..] + b;
      var q := ApplyOp(p, a[0], pick);
      if q.Some? {
        ReplayAppend(q.value, a[1..], b, pick);
      }
    }
  }

  lemma ReplayShort(p: Position, ops: seq<Operation>, pick: Selection)
    requires |ops| <= 2
    ensures Replay(p, ops, pick) ==
            if |ops| == 0 then Some(p)
            else if |ops| == 1 || ApplyOp(p, ops[0], pick).None? then ApplyOp(p, ops[0], pick)
            else ApplyOp(ApplyOp(p, ops[0], pick).value, ops[1], pick)
    decreases |ops|
  {
    if ops != [] && ApplyOp(p, ops[0], pick).Some? {
      ReplayShort(ApplyOp(p, ops[0], pick).value, ops[1..], pick);
    }
  }

  // Step indexes never decrease, and all lie in [lo, hi).
  ghost predicate Ordered(ops: seq<Operation>, lo: nat, hi: nat) {
    && (forall i :: 0 <= i < |ops| ==> lo <= ops[i].step < hi)
    && (forall i, j :: 0 <= i < j < |ops| ==> ops[i].step <= ops[j].step)
  }

  predicate Assigns(op: Operation) { op.ClaimAssignment? || op.LeastLoadedAssignment? }

  predicate Routed(ops: seq<Operation>) {
    exists i :: 0 <= i < |ops| && ops[i].LeastLoadedAssignment?
  }

  predicate HasAssignment(ops: seq<Operation>) {
    exists i :: 0 <= i < |ops| && Assigns(ops[i])
  }

  function Facts(t: TicketRow): Position { Position(t.state, t.assignee) }

  // The index of the terminal step that ends a walk from `from`, or |d|.
  function WalkEnd(d: Definition, from: nat): nat
    requires from <= |d|
    ensures from <= WalkEnd(d, from) <= |d|
    decreases |d| - from
  {
    if from < |d| && IsRouting(d[from]) then WalkEnd(d, from + 1) else from
  }

  // The state a terminal step leaves behind.
  function Finished(s: Step, from: State): State {
    if s.CloseTicket? || from == Closed then Closed else Resolved
  }

  // Where the automatic walk stops, and the shape of its operations.
  ghost predicate WalkShape(d: Definition, from: nat, now: Instant, w: Walk)
    requires from <= |d|
  {
    var end := WalkEnd(d, from);
    && from <= w.next <= |d|
    && w.next == (if end < |d| && IsTerminal(d[end]) then |d| else end)
    && (w.next < |d| ==> !IsRouting(d[w.next]) && !IsTerminal(d[w.next]))
    && Ordered(w.ops, from, w.next)
    && (Routed(w.ops) <==> from < end)
    && forall i :: 0 <= i < |w.ops| ==> w.ops[i].LeastLoadedAssignment? || (w.ops[i].StateTransition? && w.ops[i].move.at == now)
  }

  // What the walk's operations do to a ticket.
  ghost predicate WalkEffect(d: Definition, t: TicketRow, from: nat, w: Walk, pick: Selection)
    requires from <= |d|
  {
    var end := WalkEnd(d, from);
    var replayed := Replay(Facts(t), w.ops, pick);
    && replayed.Some? && replayed.value.state == w.ticket.state
    && replayed.value.assignee == (if from < end then Some(pick(end - 1)) else t.assignee)
    && w.ticket.state == (if end < |d| && IsTerminal(d[end]) then Finished(d[end], t.state)
                          else if from < end && t.state == New then InProgress else t.state)
    && w.ticket.assignee == t.assignee
    && w.ticket.requester == t.requester && w.ticket.id == t.id && w.ticket.pin == t.pin
  }

  lemma TerminalPromise(d: Definition, t: TicketRow, from: nat, now: Instant, pick: Selection)
    requires from < |d| && IsTerminal(d[from]) && TerminalOutcome(t, d[from], from, now).Ok?
    ensures var o := TerminalOutcome(t, d[from], from, now).value;
            WalkShape(d, from, now, Walk(o.0, |d|, o.1)) && WalkEffect(d, t, from, Walk(o.0, |d|, o.1), pick)
  {
    var (ops, after) := TerminalOutcome(t, d[from], from, now).value;
    ReplayShort(Facts(t), ops, pick);
  }

  // The automatic walk keeps its promise on every definition, ticket and start.
  lemma {:induction false} AdvanceShape(d: Definition, t: TicketRow, from: nat, now: Instant)
    requires from <= |d| && Advance(d, t, from, now).Ok?
    ensures WalkShape(d, from, now, Advance(d, t, from, now).value)
    decreases |d| - from
  {
    if from < |d| && IsRouting(d[from]) {
      AdvanceShape(d, RoutedTicket(t, now), from + 1, now);
      var own := [LeastLoadedAssignment(from, d[from].config.value.desk, None)] + RoutedOps(t, from, now);
      var rest := Advance(d, RoutedTicket(t, now), from + 1, now).value.ops;
      var all: seq<Operation> := own + rest;
      assert all[0].LeastLoadedAssignment?;
      JoinOrder(own, rest, from, Advance(d, RoutedTicket(t, now), from + 1, now).value.next);
    } else if from < |d| && IsTerminal(d[from]) {
      TerminalPromise(d, t, from, now, n => 0);
    }
  }

  // A routing step in front of a walk: its selection stands unless a later
  // routing step selects again.
  lemma RoutingStepReplays(t: TicketRow, step: nat, desk: int, now: Instant, rest: seq<Operation>, pick: Selection)
    requires forall i :: 0 <= i < |rest| ==> !rest[i].ClaimAssignment?
    requires Replay(Facts(RoutedTicket(t, now)), rest, pick).Some?
    ensures var r := Replay(Facts(t), [LeastLoadedAssignment(step, desk, None)] + RoutedOps(t, step, now) + rest, pick);
            var later := Replay(Facts(RoutedTicket(t, now)), rest, pick).value;
            && r.Some? && r.value.state == later.state
            && r.value.assignee == if Routed(rest) then later.assignee else Some(pick(step))
  {
    var own := [LeastLoadedAssignment(step, desk, None)] + RoutedOps(t, step, now);
    var mid := Facts(RoutedTicket(t, now));
    ReplayShort(Facts(t), own, pick);
    ReplayAppend(Facts(t), own, rest, pick);
    ReplayAssignee(mid, Some(pick(step)), rest, pick, Routed(rest));
    assert Replay(Facts(t), own, pick) == Some(mid.(assignee := Some(pick(step))));
  }

  // The walk from a routing step is that step and the walk from the next.
  lemma AdvanceRoutes(d: Definition, t: TicketRow, from: nat, now: Instant)
    requires from < |d| && IsRouting(d[from]) && Advance(d, t, from, now).Ok?
    ensures Advance(d, RoutedTicket(t, now), from + 1, now).Ok?
    ensures var rest := Advance(d, RoutedTicket(t, now), from + 1, now).value;
            Advance(d, t, from, now).value ==
              Walk([LeastLoadedAssignment(from, d[from].config.value.desk, None)] + RoutedOps(t, from, now) + rest.ops, rest.next, rest.ticket)
  {
  }

  lemma RoutedEffect(d: Definition, t: TicketRow, from: nat, now: Instant, rest: Walk, pick: Selection)
    requires from < |d| && IsRouting(d[from])
    requires WalkShape(d, from + 1, now, rest) && WalkEffect(d, RoutedTicket(t, now), from + 1, rest, pick)
    ensures var own: seq<Operation> := [LeastLoadedAssignment(from, d[from].config.value.desk, None)] + RoutedOps(t, from, now);
            WalkEffect(d, t, from, Walk(own + rest.ops, rest.next, rest.ticket), pick)
  {
    RoutingStepReplays(t, from, d[from].config.value.desk, now, rest.ops, pick);
  }

  lemma {:induction false} AdvanceEffect(d: Definition, t: TicketRow, from: nat, now: Instant, pick: Selection)
    requires from <= |d| && Advance(d, t, from, now).Ok?
    ensures WalkEffect(d, t, from, Advance(d, t, from, now).value, pick)
    decreases |d| - from
  {
    if from < |d| && IsRouting(d[from]) {
      var mid := RoutedTicket(t, now);
      AdvanceRoutes(d, t, from, now);
      AdvanceShape(d, mid, from + 1, now);
      AdvanceEffect(d, mid, from + 1, now, pick);
      RoutedEffect(d, t, from, now, Advance(d, mid, from + 1, now).value, pick);
    } else if from < |d| && IsTerminal(d[from]) {
      TerminalPromise(d, t, from, now, pick);
    }
  }

  // Only claims look at the assignee, and the automatic walk has none: its replay
  // runs the same from any holder.
  lemma {:induction false} ReplayAssignee(p: Position, holder: Option<UserId>, ops: seq<Operation>, pick: Selection,
      routes: bool)
    requires forall i :: 0 <= i < |ops| ==> !ops[i].ClaimAssignment?
    requires routes == Routed(ops)
    requires Replay(p, ops, pick).Some?
    ensures var r := Replay(p.(assignee := holder), ops, pick);
            && r.Some? && r.value.state == Replay(p, ops, pick).value.state
            && (if routes then r == Replay(p, ops, pick) else r.value.assignee == holder)
    decreases |ops|
  {
    if ops != [] {
      var rest := ops[1..];
      assert forall i :: 0 <= i < |rest| ==> rest[i] == ops[i + 1];
      if !ops[0].LeastLoadedAssignment? {
        RestRouted(ops);
        ReplayAssignee(ApplyOp(p, ops[0], pick).value, holder, rest, pick, routes);
      }
    }
  }

  lemma RestRouted(ops: seq<Operation>)
    requires ops != [] && !ops[0].LeastLoadedAssignment?
    ensures Routed(ops[1..]) == Routed(ops)
  {
    if Routed(ops) {
      var i :| 0 <= i < |ops| && ops[i].LeastLoadedAssignment?;
      assert ops[1..][i - 1].LeastLoadedAssignment?;
    }
    if Routed(ops[1..]) {
      var i :| 0 <= i < |ops[1..]| && ops[1..][i].LeastLoadedAssignment?;
      assert ops[i + 1].LeastLoadedAssignment?;
    }
  }

  // ---- The completion's promise ---------------------------------------------

  // Where the plan of a completion stops.
  ghost predicate Rests(d: Definition, cursor: nat) {
    cursor <= |d| && (cursor < |d| ==> IsHuman(d[cursor]))
  }

  // Everything a completion's plan promises: it strictly advances, to a step that
  // waits for a person or to the end; its operations are in step order inside
  // [expected, nextCursor); replaying them from the snapshot chains legally and
  // reaches the planned state and (without routing) the planned assignee; with an
  // assignment the ticket is no longer new; a terminal step on the way leaves the
  // ticket in that step's final state.
  ghost predicate CompletionPromise(d: Definition, p: CorePlan, pick: Selection) {
    PlanShape(d, p) && PlanEffect(d, p, pick)
  }

  ghost predicate PlanShape(d: Definition, p: CorePlan) {
    && p.expected < p.nextCursor
    && Rests(d, p.nextCursor)
    && (p.nextStatus == Completed <==> p.nextCursor == |d|)
    && Ordered(p.ops, p.expected, p.nextCursor)
    && (forall i :: p.expected < i < p.nextCursor ==> !IsHuman(d[i]))
  }

  ghost predicate PlanEffect(d: Definition, p: CorePlan, pick: Selection) {
    var replayed := Replay(Facts(p.before), p.ops, pick);
    && replayed.Some?
    && replayed.value.state == p.after.state
    && (!Routed(p.ops) ==> replayed.value.assignee == p.after.assignee)
    && (HasAssignment(p.ops) ==> p.after.state != New)
    && (forall i :: p.expected <= i < p.nextCursor && i < |d| && IsTerminal(d[i]) ==> p.after.state == Finished(d[i], p.before.state))
    && p.after.id == p.before.id && p.after.requester == p.before.requester && p.after.pin == p.before.pin
  }

  lemma CompletionKeepsPromise(snap: Snapshot, cmd: Command, now: Instant, isSpace: char -> bool, p: CorePlan,
      pick: Selection)
    requires PlanOf(snap, cmd, now, isSpace, p) && ValidDefinition(snap.workflow)
    ensures CompletionPromise(snap.workflow, p, pick)
  {
    var d, t, step := snap.workflow, snap.ticket.value, p.expected;
    if IsTerminal(d[step]) {
      TerminalPromise(d, t, step, now, pick);
    } else {
      var own, mid :| OwnStep(t, d[step], step, cmd, now, isSpace, own, mid) &&
                      Prepend(own, Advance(d, mid, step + 1, now)) == Ok(Walk(p.ops, p.nextCursor, p.after));
      var w := Advance(d, mid, step + 1, now).value;
      AdvanceShape(d, mid, step + 1, now);
      AdvanceEffect(d, mid, step + 1, now, pick);
      OwnStepReplays(t, d[step], step, cmd, now, isSpace, own, mid, pick);
      HumanShape(d, p, own, w, now);
      HumanEffect(d, p, own, mid, w, now, pick);
    }
  }

  lemma HumanShape(d: Definition, p: CorePlan, own: seq<Operation>, w: Walk, now: Instant)
    requires ValidDefinition(d) && p.expected < |d| && !IsTerminal(d[p.expected])
    requires forall i :: 0 <= i < |own| ==> own[i].step == p.expected
    requires WalkShape(d, p.expected + 1, now, w)
    requires p.ops == own + w.ops && p.nextCursor == w.next && p.nextStatus == StatusAt(d, p.nextCursor)
    ensures PlanShape(d, p)
  {
    JoinOrder(own, w.ops, p.expected, w.next);
    NothingAutomaticSkipped(d, p.expected + 1);
    assert w.next < |d| ==> WellFormedStep(d[w.next]);
  }

  lemma HumanEffect(d: Definition, p: CorePlan, own: seq<Operation>, mid: TicketRow, w: Walk, now: Instant, pick: Selection)
    requires ValidDefinition(d) && p.expected < |d| && !IsTerminal(d[p.expected])
    requires var r := Replay(Facts(p.before), own, pick);
             r.Some? && r.value.state == mid.state && (!Routed(own) ==> r.value.assignee == mid.assignee)
    requires HasAssignment(own) ==> mid.state != New
    requires mid.id == p.before.id && mid.requester == p.before.requester && mid.pin == p.before.pin
    requires mid.state == p.before.state || (p.before.state == New && mid.state == InProgress)
    requires WalkShape(d, p.expected + 1, now, w) && WalkEffect(d, mid, p.expected + 1, w, pick)
    requires p.ops == own + w.ops && p.nextCursor == w.next && p.after == w.ticket
    ensures PlanEffect(d, p, pick)
  {
    JoinReplays(p.before, mid, own, w.ops, pick);
    JoinAssignments(own, w.ops, mid.state, w.ticket.state);
    RoutedAppend(own, w.ops);
    NothingAutomaticSkipped(d, p.expected + 1);
  }

  // The submitted step's operations followed by the automatic walk's.
  lemma JoinReplays(t: TicketRow, mid: TicketRow, own: seq<Operation>, rest: seq<Operation>, pick: Selection)
    requires var r := Replay(Facts(t), own, pick); r.Some? && r.value.state == mid.state
    requires !Routed(own) ==> Replay(Facts(t), own, pick).value.assignee == mid.assignee
    requires Replay(Facts(mid), rest, pick).Some?
    requires forall i :: 0 <= i < |rest| ==> !rest[i].ClaimAssignment?
    ensures var r := Replay(Facts(t), own + rest, pick);
            && r.Some? && r.value.state == Replay(Facts(mid), rest, pick).value.state
            && (!Routed(own + rest) ==> r == Replay(Facts(mid), rest, pick))
  {
    var held := Replay(Facts(t), own, pick).value;
    ReplayAppend(Facts(t), own, rest, pick);
    ReplayAssignee(Facts(mid), held.assignee, rest, pick, Routed(rest));
    RoutedAppend(own, rest);
    assert held == Facts(mid).(assignee := held.assignee);
  }

  lemma JoinOrder(own: seq<Operation>, rest: seq<Operation>, step: nat, next: nat)
    requires forall i :: 0 <= i < |own| ==> own[i].step == step
    requires step + 1 <= next && Ordered(rest, step + 1, next)
    ensures Ordered(own + rest, step, next)
  {
  }

  lemma JoinAssignments(own: seq<Operation>, rest: seq<Operation>, mid: State, after: State)
    requires HasAssignment(own) ==> mid != New
    requires Routed(rest) ==> after != New
    requires mid != New ==> after != New
    requires forall i :: 0 <= i < |rest| ==> !rest[i].ClaimAssignment?
    ensures HasAssignment(own + rest) ==> after != New
  {
    if HasAssignment(own + rest) {
      var i :| 0 <= i < |own + rest| && Assigns((own + rest)[i]);
      if i < |own| {
        assert Assigns(own[i]);
      } else {
        assert rest[i - |own|].LeastLoadedAssignment?;
      }
    }
  }

  lemma RoutedAppend(a: seq<Operation>, b: seq<Operation>)
    ensures Routed(a + b) <==> Routed(a) || Routed(b)
  {
    if Routed(a) {
      var i :| 0 <= i < |a| && a[i].LeastLoadedAssignment?;
      assert (a + b)[i].LeastLoadedAssignment?;
    }
    if Routed(b) {
      var i :| 0 <= i < |b| && b[i].LeastLoadedAssignment?;
      assert (a + b)[|a| + i].LeastLoadedAssignment?;
    }
  }

  // Between the submitted step and the resting cursor every step is automatic.
  lemma {:induction false} NothingAutomaticSkipped(d: Definition, from: nat)
    requires from <= |d|
    ensures forall i :: from <= i < WalkEnd(d, from) ==> IsRouting(d[i])
    decreases |d| - from
  {
    if from < |d| && IsRouting(d[from]) {
      NothingAutomaticSkipped(d, from + 1);
    }
  }

  lemma OwnStepReplays(
      t: TicketRow, s: Step, step: nat, cmd: Command, now: Instant, isSpace: char -> bool,
      own: seq<Operation>, mid: TicketRow, pick: Selection)
    requires OwnStep(t, s, step, cmd, now, isSpace, own, mid) && !IsTerminal(s)
    ensures var r := Replay(Facts(t), own, pick);
            && r.Some? && r.value.state == mid.state
            && r.value.assignee == (if IsRouting(s) then Some(pick(step)) else mid.assignee)
    ensures forall i :: 0 <= i < |own| ==> own[i].step == step
    ensures own != [] && (Routed(own) <==> IsRouting(s))
    ensures HasAssignment(own) ==> mid.state != New
    ensures mid.id == t.id && mid.requester == t.requester && mid.pin == t.pin
    ensures mid.state == t.state || (t.state == New && mid.state == InProgress)
  {
    ReplayShort(Facts(t), own, pick);
    if s.AssignToDesk? {
      assert own[0].LeastLoadedAssignment? || own[0].ClaimAssignment?;
    }
  }
}
