/**
Holds and their effect on the resolution commitment, as one ticket's stored row
sees them (internal/domain/sla.go, internal/application/ticket_service.go,
internal/application/comment_service.go, internal/application/hold_expiry.go, and
the unit of work of internal/adapters/sqlite/ticket_store.go and comment_uow.go).

A use case reads the ticket, decides an intent on its private copy, reads the
commitment when a hold ends, and writes.  `TicketStore` is the write half.
*/
module Holds {
  import opened Core
  import opened Tickets

  // ---- The resolution commitment ----------------------------------------------

  // The working calendar in force when a hold ends.
  datatype Calendar = Calendar(between: (Instant, Instant) -> int, add: (Instant, int) -> Instant)

  // The resolution half of a frozen commitment; a zero instant is None.
  datatype Sla = Sla(warn: Option<Instant>, due: Option<Instant>)

  function ShiftedInstant(at: Option<Instant>, paused: Instant, resumed: Instant, cal: Calendar): (r: Option<Instant>)
    ensures r.Some? <==> at.Some?
    ensures at.Some? ==> r.value >= at.value
    ensures at.Some? && at.value <= paused ==> r == at
  {
    if at.None? || paused >= at.value then at
    else
      var moved := cal.add(resumed, cal.between(paused, at.value));
      if moved < at.value then at else Some(moved)
  }

  function ShiftForHold(s: Option<Sla>, paused: Instant, resumed: Instant, cal: Calendar): Option<Sla> {
    if s.None? then None
    else Some(Sla(ShiftedInstant(s.value.warn, paused, resumed, cal), ShiftedInstant(s.value.due, paused, resumed, cal)))
  }

  // One ended hold: when it began, when it ended, and the calendar then.
  datatype Ended = Ended(since: Instant, resumed: Instant, cal: Calendar)

  // The commitment after these holds, each applied once and in order.
  function AfterHolds(initial: Option<Sla>, ended: seq<Ended>): Option<Sla> {
    if ended == [] then initial
    else
      var last := ended[|ended| - 1];
      ShiftForHold(AfterHolds(initial, ended[..|ended| - 1]), last.since, last.resumed, last.cal)
  }

  // No sequence of holds ever brings a deadline or a warning forward, or invents or
  // drops one, whatever the calendars do; and an instant already reached when every
  // hold began never moves.
  lemma {:induction false} HoldsNeverBringForward(initial: Option<Sla>, ended: seq<Ended>)
    ensures var after := AfterHolds(initial, ended);
            && (after.Some? <==> initial.Some?)
            && (initial.Some? ==>
                  && (after.value.due.Some? <==> initial.value.due.Some?) && (after.value.warn.Some? <==> initial.value.warn.Some?)
                  && (initial.value.due.Some? ==> after.value.due.value >= initial.value.due.value)
                  && (initial.value.warn.Some? ==> after.value.warn.value >= initial.value.warn.value)
                  && (initial.value.due.Some? && (forall i :: 0 <= i < |ended| ==> initial.value.due.value <= ended[i].since) ==>
                        after.value.due == initial.value.due))
    decreases |ended|
  {
    if ended != [] {
      HoldsNeverBringForward(initial, ended[..|ended| - 1]);
    }
  }

  // ---- What each use case intends ------------------------------------------------

  // The outcome of the read half on the private copy.
  datatype Intent =
    | Begin(ticket: TicketRow)
    | End(ticket: TicketRow, since: Instant, now: Instant, reply: bool)
    | Plain(ticket: TicketRow)
    | JustComment

  function BeginIntent(t: TicketRow, hasReason: bool, now: Instant): Option<Intent> {
    var r := AfterPutOnHold(t, hasReason, now);
    if r.Ok? then Some(Begin(r.value)) else None
  }

  function ResumeIntent(t: TicketRow, now: Instant): Option<Intent> {
    var r := AfterResume(t, now);
    if r.Ok? then Some(End(r.value, t.onHoldSince.value, now, false)) else None
  }

  // A terminal move on a held ticket ends the hold first; any other move keeps it.
  function MoveIntent(t: TicketRow, to: State, hasReason: bool, now: Instant): Option<Intent> {
    if t.state == Resolved && to == Closed && t.requester.Some? then None
    else if t.OnHold() && IsClosed(to) then
      var moved := AfterTransition(AfterResume(t, now).value, to, hasReason, now);
      if moved.Ok? then Some(End(moved.value, t.onHoldSince.value, now, false)) else None
    else
      var moved := AfterTransition(t, to, hasReason, now);
      if moved.Ok? then Some(Plain(moved.value)) else None
  }

  // Only the requester's own public comment ends the hold.
  function ReplyIntent(t: TicketRow, isPublic: bool, author: UserId, now: Instant): Intent {
    if !isPublic || !t.OnHold() || t.requester != Some(author) then JustComment
    else End(AfterResume(t, now).value, t.onHoldSince.value, now, true)
  }

  // The automatic close of an expired hold: resume, resolve, close.
  function ExpireIntent(t: TicketRow, now: Instant): Option<Intent> {
    if !t.OnHold() then None
    else
      var resolved := AfterTransition(AfterResume(t, now).value, Resolved, false, now);
      if resolved.Err? then None
      else
        var closed := AfterTransition(resolved.value, Closed, false, now);
        if closed.Err? then None else Some(End(closed.value, t.onHoldSince.value, now, false))
  }

  // The requester's yes, and no; a no detaches the workflow.
  function ConfirmIntent(t: TicketRow, actor: UserId, now: Instant): Option<Intent> {
    if t.requester != Some(actor) then None
    else
      var closed := AfterTransition(t, Closed, false, now);
      if closed.Ok? then Some(Plain(closed.value)) else None
  }

  function RejectIntent(t: TicketRow, actor: UserId, now: Instant): Option<Intent> {
    if t.requester != Some(actor) || t.state != Resolved then None
    else Some(Plain(AfterTransition(t, InProgress, false, now).value.(pin := None)))
  }

  method DecideMove(t: Ticket, to: State, hasReason: bool, now: Instant) returns (r: Option<Intent>)
    modifies t
    ensures r == MoveIntent(old(t.Row()), to, hasReason, now)
  {
    if t.state == Resolved && to == Closed && t.requester.Some? {
      return None;
    }
    if t.onHoldSince.Some? && IsClosed(to) {
      var resumed := t.ResumeFromHold(now);
      var pausedAt := resumed.value;
      var moved := t.Transition(to, hasReason, now);
      if moved.Err? {
        return None;
      }
      return Some(End(t.Row(), pausedAt, now, false));
    }
    var moved := t.Transition(to, hasReason, now);
    if moved.Err? {
      return None;
    }
    return Some(Plain(t.Row()));
  }

  method DecideExpiry(t: Ticket, now: Instant) returns (r: Option<Intent>)
    modifies t
    ensures r == ExpireIntent(old(t.Row()), now)
  {
    var resumed := t.ResumeFromHold(now);
    if resumed.Err? {
      return None;
    }
    var resolved := t.Transition(Resolved, false, now);
    if resolved.Err? {
      return None;
    }
    var closed := t.Transition(Closed, false, now);
    return Some(End(t.Row(), resumed.value, now, false));
  }

  // Taking a ticket off hold changes nothing else.
  predicate Released(t: TicketRow, now: Instant, after: TicketRow) {
    t.onHoldSince.Some? && after == t.(onHoldSince := None, updatedAt := now)
  }

  // A hold begins on an open ticket that is not held, for a reason, and ends by hand
  // only when there is one.
  lemma HoldsByHand(t: TicketRow, hasReason: bool, now: Instant)
    ensures var i := BeginIntent(t, hasReason, now);
            && (i.Some? <==> (t.state == New || t.state == InProgress) && t.onHoldSince.None? && hasReason)
            && (i.Some? ==> i.value == Begin(t.(onHoldSince := Some(now), updatedAt := now)))
    ensures var i := ResumeIntent(t, now);
            && (i.Some? <==> t.onHoldSince.Some?)
            && (i.Some? ==> i.value.End? && Released(t, now, i.value.ticket) && t.onHoldSince == Some(i.value.since)
                            && i.value.now == now && !i.value.reply)
  {
  }

  // A comment ends the hold if and only if it is public and its author is the requester;
  // the state stays.
  lemma ReplyEndsHold(t: TicketRow, isPublic: bool, author: UserId, now: Instant)
    ensures var i := ReplyIntent(t, isPublic, author, now);
            && (i.End? <==> isPublic && t.onHoldSince.Some? && t.requester == Some(author))
            && (i.End? ==> Released(t, now, i.ticket) && t.onHoldSince == Some(i.since) && i.now == now && i.reply)
            && (!i.End? ==> i == JustComment)
  {
  }

  // A move by hand is refused exactly where the machine has no such edge, where a
  // reopening lacks its reason, and where it would close a requester's resolved ticket.
  // A hold never refuses it: a terminal move ends the hold, any other keeps it.
  lemma MovesByHand(t: TicketRow, to: State, hasReason: bool, now: Instant)
    requires IsClosed(t.state) ==> !t.OnHold()
    ensures var i := MoveIntent(t, to, hasReason, now);
            && (i.None? <==> !Legal(t.state, to) || (t.state == Closed && !hasReason)
                             || (t.state == Resolved && to == Closed && t.requester.Some?))
            && (i.Some? ==>
                  if t.onHoldSince.Some? && (to == Resolved || to == Cancelled) then
                    i.value.End? && Gone(t, to, now, i.value.ticket) && t.onHoldSince == Some(i.value.since)
                    && i.value.now == now && !i.value.reply
                  else i.value.Plain? && i.value.ticket.state == to && i.value.ticket.onHoldSince == t.onHoldSince)
  {
    MovesAre(t, to, hasReason, now);
    if t.OnHold() {
      MovesAre(AfterResume(t, now).value, to, hasReason, now);
    }
  }

  // The ticket moved and is off hold.
  predicate Gone(t: TicketRow, to: State, now: Instant, after: TicketRow) {
    && after.state == to && after.onHoldSince.None? && (to == Resolved ==> after.resolvedAt == Some(now))
    && after.requester == t.requester && after.assignee == t.assignee && after.pin == t.pin
  }

  // Only the requester answers a resolution: yes closes the ticket, no takes it back to
  // work without its workflow.
  lemma RequesterAnswers(t: TicketRow, actor: UserId, now: Instant)
    requires IsClosed(t.state) ==> !t.OnHold()
    ensures var yes, no := ConfirmIntent(t, actor, now), RejectIntent(t, actor, now);
            && (yes.Some? <==> no.Some?) && (yes.Some? <==> t.requester == Some(actor) && t.state == Resolved)
            && (yes.Some? ==> yes.value == Plain(t.(state := Closed, closedAt := Some(now), updatedAt := now)))
            && (no.Some? ==> no.value == Plain(t.(state := InProgress, resolvedAt := None, pin := None, updatedAt := now)))
  {
  }

  // The automatic close applies to every open held ticket.
  lemma ExpiryAlwaysCloses(t: TicketRow, now: Instant)
    requires t.OnHold() && !IsClosed(t.state)
    ensures var i := ExpireIntent(t, now);
            && i.Some? && i.value.ticket.state == Closed && !i.value.ticket.OnHold()
            && i.value.ticket.resolvedAt == Some(now) && i.value.ticket.closedAt == Some(now)
            && i.value.End? && t.onHoldSince == Some(i.value.since) && i.value.now == now && !i.value.reply
  {
  }

  // ---- The write half -------------------------------------------------------------

  datatype Stored = Stored(row: TicketRow, sla: Option<Sla>, runActive: bool, comments: nat)

  // A hold write: the ticket as decided, the hold the caller read, and the shifted
  // commitment (None when there is none to shift).
  datatype HoldWrite = HoldWrite(ticket: TicketRow, expected: Option<Instant>, shifted: Option<Sla>)

  function AfterUpdateHold(s: Stored, w: HoldWrite): Stored {
    if s.row.onHoldSince != w.expected then s
    else s.(row := w.ticket,
            sla := if w.shifted.Some? then w.shifted else s.sla,
            runActive := s.runActive && !IsClosed(w.ticket.state))
  }

  // A plain write covers the whole row except the hold.
  function AfterUpdate(s: Stored, t: TicketRow): Stored {
    if IsClosed(t.state) && s.row.OnHold() then s
    else s.(row := t.(onHoldSince := s.row.onHoldSince), runActive := s.runActive && !IsClosed(t.state))
  }

  function AfterComment(s: Stored, resume: Option<HoldWrite>): Stored {
    var resumed := if resume.Some? then AfterUpdateHold(s, resume.value) else s;
    resumed.(comments := s.comments + 1)
  }

  class TicketStore {
    var row: TicketRow
    var sla: Option<Sla>
    var runActive: bool
    var comments: nat

    function Now(): Stored
      reads this
    {
      Stored(row, sla, runActive, comments)
    }

    constructor (s: Stored)
      ensures Now() == s
    {
      row, sla, runActive, comments := s.row, s.sla, s.runActive, s.comments;
    }

    // The one writer of the hold column: only against the hold the caller read.
    method CasHold(hold: Option<Instant>, expected: Option<Instant>) returns (applied: bool)
      modifies this`row
      ensures applied == (old(row).onHoldSince == expected)
      ensures row == if applied then old(row).(onHoldSince := hold) else old(row)
    {
      if row.onHoldSince != expected {
        return false;
      }
      row := row.(onHoldSince := hold);
      return true;
    }

    // Every column except the hold; a terminal state ends the workflow run.
    method WriteRow(t: TicketRow)
      modifies this`row, this`runActive
      ensures row == t.(onHoldSince := old(row).onHoldSince)
      ensures runActive == (old(runActive) && !IsClosed(t.state))
    {
      row := t.(onHoldSince := row.onHoldSince);
      if IsClosed(t.state) {
        runActive := false;
      }
    }

    method UpdateHold(w: HoldWrite) returns (applied: bool)
      modifies this
      ensures applied == (old(row).onHoldSince == w.expected)
      ensures Now() == AfterUpdateHold(old(Now()), w)
    {
      applied := CasHold(w.ticket.onHoldSince, w.expected);
      if !applied {
        return;
      }
      WriteRow(w.ticket);
      if w.shifted.Some? {
        sla := w.shifted;
      }
    }

    method Update(t: TicketRow) returns (applied: bool)
      modifies this
      ensures applied == !(IsClosed(t.state) && old(row).OnHold())
      ensures Now() == AfterUpdate(old(Now()), t)
    {
      if IsClosed(t.state) && row.OnHold() {
        return false;
      }
      WriteRow(t);
      return true;
    }

    // A reply is never lost: a hold that changed meanwhile only skips the resume.
    method AddComment(resume: Option<HoldWrite>)
      modifies this
      ensures Now() == AfterComment(old(Now()), resume)
      ensures comments == old(comments) + 1
    {
      if resume.Some? {
        var applied := UpdateHold(resume.value);
      }
      comments := comments + 1;
    }
  }
}
