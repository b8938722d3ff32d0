/**
The ticket aggregate: its lifecycle states, the legal moves between them, and
the hold attribute (internal/domain/state.go and internal/domain/ticket.go).

`TicketRow` is the value of a ticket; the class `Ticket` is the mutable
aggregate whose methods the use cases call.  Every method of the class is tied
to a function on rows, and the lemmas are about those functions.
*/
module Tickets {
  import opened Core

  datatype State = New | InProgress | Resolved | Closed | Cancelled

  // Terminal (read-only) states.
  predicate IsClosed(s: State) {
    s == Resolved || s == Closed || s == Cancelled
  }

  // The transition matrix.
  predicate Legal(from: State, to: State) {
    match from
    case New => to == InProgress || to == Resolved || to == Cancelled
    case InProgress => to == Resolved || to == Cancelled
    case Resolved => to == Closed || to == InProgress
    case Closed => to == InProgress
    case Cancelled => false
  }

  datatype TicketRow = TicketRow(
    id: int,
    requester: Option<UserId>,
    assignee: Option<UserId>,
    pin: Option<int>,
    state: State,
    resolvedAt: Option<Instant>,
    closedAt: Option<Instant>,
    onHoldSince: Option<Instant>,
    updatedAt: Instant)
  {
    predicate OnHold() { onHoldSince.Some? }
  }

  datatype MoveError = InvalidTransition | TicketOnHold | ReopenReasonRequired
  datatype HoldError = ReadOnlyTicket | AlreadyOnHold | HoldReasonRequired | NotOnHold

  // The audit event of a state change: the facts a store rechecks.
  datatype Move = Move(from: State, to: State, at: Instant)

  // A transition of the state machine, on values.  `hasReason` says whether the
  // reason is non-blank.
  function AfterTransition(t: TicketRow, to: State, hasReason: bool, now: Instant): Result<TicketRow, MoveError> {
    if !Legal(t.state, to) then Err(InvalidTransition)
    else if IsClosed(to) && t.OnHold() then Err(TicketOnHold)
    else if to == InProgress && t.state == Closed && !hasReason then Err(ReopenReasonRequired)
    else Ok(t.(state := to,
               resolvedAt := if to == Resolved then Some(now) else if to == InProgress then None else t.resolvedAt,
               closedAt := if to == Closed then Some(now)
                           else if to == InProgress && t.state == Closed then None else t.closedAt,
               updatedAt := now))
  }

  function AfterPutOnHold(t: TicketRow, hasReason: bool, now: Instant): Result<TicketRow, HoldError> {
    if IsClosed(t.state) then Err(ReadOnlyTicket)
    else if t.OnHold() then Err(AlreadyOnHold)
    else if !hasReason then Err(HoldReasonRequired)
    else Ok(t.(onHoldSince := Some(now), updatedAt := now))
  }

  function AfterResume(t: TicketRow, now: Instant): Result<TicketRow, HoldError> {
    if !t.OnHold() then Err(NotOnHold)
    else Ok(t.(onHoldSince := None, updatedAt := now))
  }

  class Ticket {
    const id: int
    var requester: Option<UserId>
    var assignee: Option<UserId>
    var pin: Option<int>
    var state: State
    var resolvedAt: Option<Instant>
    var closedAt: Option<Instant>
    var onHoldSince: Option<Instant>
    var updatedAt: Instant

    function Row(): TicketRow
      reads this
    {
      TicketRow(id, requester, assignee, pin, state, resolvedAt, closedAt, onHoldSince, updatedAt)
    }

    // A private copy of a stored ticket.
    constructor (row: TicketRow)
      ensures Row() == row
    {
      id := row.id;
      requester, assignee, pin := row.requester, row.assignee, row.pin;
      state, resolvedAt, closedAt := row.state, row.resolvedAt, row.closedAt;
      onHoldSince, updatedAt := row.onHoldSince, row.updatedAt;
    }

    // A refused move leaves the aggregate as it was.
    method Transition(to: State, hasReason: bool, now: Instant) returns (r: Result<Move, MoveError>)
      modifies this
      ensures var after := AfterTransition(old(Row()), to, hasReason, now);
              match r
              case Ok(move) => after.Ok? && Row() == after.value && move == Move(old(state), to, now)
              case Err(e) => after == Err(e) && Row() == old(Row())
    {
      var from := state;
      if !Legal(from, to) {
        return Err(InvalidTransition);
      }
      if IsClosed(to) && onHoldSince.Some? {
        return Err(TicketOnHold);
      }
      if to == InProgress && from == Closed && !hasReason {
        return Err(ReopenReasonRequired);
      }
      state := to;
      match to {
        case Resolved => resolvedAt := Some(now);
        case Closed => closedAt := Some(now);
        case _ =>
      }
      if to == InProgress {
        resolvedAt := None;
        if from == Closed {
          closedAt := None;
        }
      }
      updatedAt := now;
      return Ok(Move(from, to, now));
    }

    method PutOnHold(hasReason: bool, now: Instant) returns (r: Result<(), HoldError>)
      modifies this
      ensures var after := AfterPutOnHold(old(Row()), hasReason, now);
              match r
              case Ok(_) => after.Ok? && Row() == after.value
              case Err(e) => after == Err(e) && Row() == old(Row())
    {
      if IsClosed(state) {
        return Err(ReadOnlyTicket);
      }
      if onHoldSince.Some? {
        return Err(AlreadyOnHold);
      }
      if !hasReason {
        return Err(HoldReasonRequired);
      }
      onHoldSince := Some(now);
      updatedAt := now;
      return Ok(());
    }

    // Answers the instant the hold began, which the SLA shift needs.
    method ResumeFromHold(now: Instant) returns (r: Result<Instant, HoldError>)
      modifies this
      ensures var after := AfterResume(old(Row()), now);
              match r
              case Ok(since) => old(onHoldSince) == Some(since) && after.Ok? && Row() == after.value
              case Err(e) => after == Err(e) && Row() == old(Row())
    {
      if onHoldSince.None? {
        return Err(NotOnHold);
      }
      var pausedAt := onHoldSince.value;
      onHoldSince := None;
      updatedAt := now;
      return Ok(pausedAt);
    }
  }

  // ---- The lifecycle, edge by edge ----------------------------------------------

  // Eight moves exist.  A terminal one waits for the hold to end, and of all of them only
  // reopening a closed ticket needs a reason; a cancelled ticket never moves again.
  lemma MovesAre(t: TicketRow, to: State, hasReason: bool, now: Instant)
    ensures var r := AfterTransition(t, to, hasReason, now);
            match (t.state, to)
            case (New, InProgress) => r.Ok?
            case (New, Resolved) => if t.OnHold() then r == Err(TicketOnHold) else r.Ok?
            case (New, Cancelled) => if t.OnHold() then r == Err(TicketOnHold) else r.Ok?
            case (InProgress, Resolved) => if t.OnHold() then r == Err(TicketOnHold) else r.Ok?
            case (InProgress, Cancelled) => if t.OnHold() then r == Err(TicketOnHold) else r.Ok?
            case (Resolved, Closed) => if t.OnHold() then r == Err(TicketOnHold) else r.Ok?
            case (Resolved, InProgress) => r.Ok?
            case (Closed, InProgress) => if hasReason then r.Ok? else r == Err(ReopenReasonRequired)
            case _ => r == Err(InvalidTransition)
    ensures var r := AfterTransition(t, to, hasReason, now);
            r.Ok? ==>
              && r.value.state == to && r.value.updatedAt == now
              && (to == Resolved ==> r.value.resolvedAt == Some(now) && r.value.closedAt == t.closedAt)
              && (to == Closed ==> r.value.closedAt == Some(now) && r.value.resolvedAt == t.resolvedAt)
              && (to == InProgress ==> r.value.resolvedAt.None? && (t.state == Closed ==> r.value.closedAt.None?))
              && r.value.(state := t.state, resolvedAt := t.resolvedAt, closedAt := t.closedAt, updatedAt := t.updatedAt) == t
  {
  }

  // ---- Whole lives of a ticket ------------------------------------------------

  datatype Action =
    | ChangeState(to: State, hasReason: bool, at: Instant)
    | PutOnHold(hasReason: bool, at: Instant)
    | ResumeFromHold(at: Instant)

  // A refused action changes nothing.
  function Act(t: TicketRow, a: Action): TicketRow {
    match a
    case ChangeState(to, why, at) => var r := AfterTransition(t, to, why, at); if r.Ok? then r.value else t
    case PutOnHold(why, at) => var r := AfterPutOnHold(t, why, at); if r.Ok? then r.value else t
    case ResumeFromHold(at) => var r := AfterResume(t, at); if r.Ok? then r.value else t
  }

  // What one action does to the state and the hold.
  lemma ActIs(t: TicketRow, a: Action)
    ensures a.ChangeState? && Legal(t.state, a.to) && !(IsClosed(a.to) && t.OnHold()) && (t.state == Closed ==> a.hasReason) ==>
              Act(t, a).state == a.to && Act(t, a).onHoldSince == t.onHoldSince && Act(t, a).updatedAt == a.at
    ensures a.PutOnHold? && !IsClosed(t.state) && !t.OnHold() && a.hasReason ==>
              Act(t, a) == t.(onHoldSince := Some(a.at), updatedAt := a.at)
    ensures a.ResumeFromHold? && t.OnHold() ==> Act(t, a) == t.(onHoldSince := None, updatedAt := a.at)
    ensures Act(t, a) == t
            || (a.ChangeState? && Legal(t.state, a.to) && !(IsClosed(a.to) && t.OnHold()) && (t.state == Closed ==> a.hasReason))
            || (a.PutOnHold? && !IsClosed(t.state) && !t.OnHold() && a.hasReason)
            || (a.ResumeFromHold? && t.OnHold())
  {
  }

  function Live(t: TicketRow, actions: seq<Action>): TicketRow
    decreases |actions|
  {
    if actions == [] then t else Live(Act(t, actions[0]), actions[1..])
  }

  // What the lifecycle timestamps and the hold say about the state, and back.
  ghost predicate Coherent(t: TicketRow) {
    && (t.resolvedAt.Some? <==> t.state == Resolved || t.state == Closed)
    && (t.closedAt.Some? <==> t.state == Closed)
    && (IsClosed(t.state) ==> !t.OnHold())
  }

  // Over any sequence of accepted and refused actions the stamps keep telling the
  // state, no terminal ticket is on hold, nothing ever returns to `New`, and a
  // cancelled ticket stays cancelled.
  lemma {:induction false} LifeKeepsCoherence(t: TicketRow, actions: seq<Action>)
    requires Coherent(t)
    ensures var end := Live(t, actions);
            && Coherent(end)
            && (end.state == New ==> t.state == New)
            && (t.state == Cancelled ==> end.state == Cancelled)
            && end.(state := t.state, resolvedAt := t.resolvedAt, closedAt := t.closedAt,
                    onHoldSince := t.onHoldSince, updatedAt := t.updatedAt) == t
    decreases |actions|
  {
    if actions != [] {
      LifeKeepsCoherence(Act(t, actions[0]), actions[1..]);
    }
  }
}
