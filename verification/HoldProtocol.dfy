/**
Every interleaving of the use cases that touch one ticket's hold: manual resume,
the requester's reply, resolving or cancelling, the automatic close, a new hold,
plain edits and workflow completions.  Each use case is a ticket read, a decision
on the private copy, a read of the commitment when it ends a hold, and one guarded
write; any other step may fall between two of them, and a use case may never
write at all.
*/
module HoldProtocol {
  import opened Core
  import opened Tickets
  import opened Workflow
  import opened PlanFacts
  import opened PlanRecheck
  import opened Holds
  import WorkflowRuns

  // How far one use case has come.
  datatype Pending =
    | Loaded(row: TicketRow)
    | Decided(intent: Intent)
    | Ready(intent: Intent, shifted: Option<Sla>, cal: Calendar)

  // `begun` are the instants at which holds started; `ended` the holds that ended,
  // oldest first.  Neither is stored: they are the history the promises are about.
  // `cursor` is the workflow run's.
  datatype World = World(
    stored: Stored,
    pending: map<nat, Pending>,
    initial: Option<Sla>,
    begun: set<Instant>,
    ended: seq<Ended>,
    cursor: int)

  ghost predicate Initial(w: World) {
    && w.pending == map[] && w.ended == [] && w.stored.comments == 0
    && w.initial == w.stored.sla
    && w.begun == (if w.stored.row.OnHold() then {w.stored.row.onHoldSince.value} else {})
    && TerminalIsFree(w.stored.row)
  }

  predicate TerminalIsFree(t: TicketRow) { IsClosed(t.state) ==> !t.OnHold() }

  // Any use case may decide this on the ticket it read.
  ghost predicate Intends(t: TicketRow, i: Intent) {
    || (exists hasReason, now :: BeginIntent(t, hasReason, now) == Some(i))
    || (exists now :: ResumeIntent(t, now) == Some(i))
    || (exists to, hasReason, now :: MoveIntent(t, to, hasReason, now) == Some(i))
    || (exists isPublic, author, now :: ReplyIntent(t, isPublic, author, now) == i)
    || (exists now :: ExpireIntent(t, now) == Some(i))
    || (exists actor, now :: ConfirmIntent(t, actor, now) == Some(i))
    || (exists actor, now :: RejectIntent(t, actor, now) == Some(i))
    // Assignment and field edits: any change that leaves state and hold alone.
    || (i.Plain? && i.ticket.onHoldSince == t.onHoldSince && i.ticket.state == t.state)
  }

  // What a use case answers it may decide.
  lemma UseCasesIntend(t: TicketRow, i: Intent, hasReason: bool, to: State, isPublic: bool, actor: UserId, now: Instant)
    requires || BeginIntent(t, hasReason, now) == Some(i) || ResumeIntent(t, now) == Some(i)
             || MoveIntent(t, to, hasReason, now) == Some(i) || ReplyIntent(t, isPublic, actor, now) == i
             || ExpireIntent(t, now) == Some(i) || ConfirmIntent(t, actor, now) == Some(i) || RejectIntent(t, actor, now) == Some(i)
    ensures Intends(t, i)
  {
  }

  // ---- Steps -------------------------------------------------------------------

  datatype Label =
    | Read(id: nat)
    | Decide(id: nat, intent: Intent)
    | ReadSla(id: nat, cal: Calendar)
    | Write(id: nat)
    | Abandon(id: nat)
    | Complete(f: StoreFacts, plan: MutationPlan, pick: Selection, row: TicketRow)

  function Without(m: map<nat, Pending>, id: nat): map<nat, Pending> { m - {id} }

  function WriteOf(p: Pending): HoldWrite
    requires p.Ready? && p.intent.End?
  {
    HoldWrite(p.intent.ticket, Some(p.intent.since), p.shifted)
  }

  function Written(w: World, id: nat): World
    requires id in w.pending
  {
    var p := w.pending[id];
    var rest := Without(w.pending, id);
    match p
    case Loaded(_) => w
    case Decided(Begin(t)) =>
      var applied := !w.stored.row.OnHold();
      w.(stored := AfterUpdateHold(w.stored, HoldWrite(t, None, None)), pending := rest,
         begun := if applied && t.OnHold() then w.begun + {t.onHoldSince.value} else w.begun)
    case Decided(Plain(t)) => w.(stored := AfterUpdate(w.stored, t), pending := rest)
    case Decided(JustComment) => w.(stored := AfterComment(w.stored, None), pending := rest)
    case Decided(End(_, _, _, _)) => w
    case Ready(End(t, since, now, reply), shifted, cal) =>
      var applied := w.stored.row.onHoldSince == Some(since);
      w.(stored := if reply then AfterComment(w.stored, Some(WriteOf(p))) else AfterUpdateHold(w.stored, WriteOf(p)),
         pending := rest,
         ended := if applied then w.ended + [Ended(since, now, cal)] else w.ended)
    case Ready(_, _, _) => w
  }

  ghost predicate Steps(w: World, l: Label, w': World) {
    match l
    case Read(id) => id !in w.pending && w' == w.(pending := w.pending[id := Loaded(w.stored.row)])
    case Decide(id, i) =>
      id in w.pending && w.pending[id].Loaded? && Intends(w.pending[id].row, i) &&
      w' == w.(pending := w.pending[id := Decided(i)])
    case ReadSla(id, cal) =>
      && id in w.pending && w.pending[id].Decided? && w.pending[id].intent.End?
      && var i := w.pending[id].intent;
         w' == w.(pending := w.pending[id := Ready(i, ShiftForHold(w.stored.sla, i.since, i.now, cal), cal)])
    case Write(id) => id in w.pending && w' == Written(w, id)
    case Abandon(id) => w' == w.(pending := Without(w.pending, id))
    case Complete(f, plan, pick, row) =>
      && f.ticket == w.stored.row && f.run.cursor == w.cursor && (f.run.status == Active <==> w.stored.runActive)
      && Accepts(f, plan, pick)
      && row.(updatedAt := w.stored.row.updatedAt) == WorkflowRuns.PersistedAll(w.stored.row, plan.ops, pick).(state := plan.nextState)
      && w' == w.(stored := w.stored.(row := row, runActive := plan.nextStatus == Active), cursor := plan.nextCursor)
  }

  // No two holds of the ticket start at the same stored instant.
  predicate FreshHold(w: World, l: Label) {
    l.Write? && l.id in w.pending && w.pending[l.id].Decided? && w.pending[l.id].intent.Begin? &&
    w.pending[l.id].intent.ticket.OnHold() && !w.stored.row.OnHold() ==>
      w.pending[l.id].intent.ticket.onHoldSince.value !in w.begun
  }

  ghost predicate IsRun(trace: seq<World>, labels: seq<Label>) {
    && |trace| == |labels| + 1 && Initial(trace[0])
    && forall i :: 0 <= i < |labels| ==> StepAt(trace, labels, i)
  }

  ghost predicate StepAt(trace: seq<World>, labels: seq<Label>, i: nat) {
    i < |labels| && i + 1 < |trace| && Steps(trace[i], labels[i], trace[i + 1])
  }

  // ---- What every run keeps -------------------------------------------------------

  function EndedAt(ended: seq<Ended>): set<Instant> { set i | 0 <= i < |ended| :: ended[i].since }

  // What the write half may rely on, whatever was read.
  ghost predicate SafeIntent(i: Intent) {
    match i
    case Begin(t) => t.OnHold() && !IsClosed(t.state)
    case End(t, _, _, _) => !t.OnHold()
    case Plain(t) => true
    case JustComment => true
  }

  // The hold an intent wants to end.
  predicate Aims(i: Intent, begun: set<Instant>) { i.End? ==> i.since in begun }

  ghost predicate SafePending(w: World, p: Pending) {
    match p
    case Loaded(row) => TerminalIsFree(row) && (row.OnHold() ==> row.onHoldSince.value in w.begun)
    case Decided(i) => SafeIntent(i) && Aims(i, w.begun)
    case Ready(i, shifted, cal) =>
      && i.End? && SafeIntent(i) && Aims(i, w.begun)
      // As long as its hold has not ended, the commitment it read is the stored one.
      && (i.since !in EndedAt(w.ended) ==> shifted == ShiftForHold(w.stored.sla, i.since, i.now, cal))
  }

  ghost predicate DistinctHolds(ended: seq<Ended>) {
    forall i, j :: 0 <= i < j < |ended| ==> ended[i].since != ended[j].since
  }

  lemma DistinctAppend(ended: seq<Ended>, e: Ended)
    requires DistinctHolds(ended) && e.since !in EndedAt(ended)
    ensures DistinctHolds(ended + [e])
  {
    assert forall i :: 0 <= i < |ended| ==> ended[i].since in EndedAt(ended);
  }

  ghost predicate Safe(w: World) {
    // No terminal ticket is on hold.
    && TerminalIsFree(w.stored.row)
    // Every hold that began has ended exactly once, or is the stored one.
    && DistinctHolds(w.ended)
    && (w.stored.row.OnHold() ==> w.stored.row.onHoldSince.value !in EndedAt(w.ended))
    && w.begun == EndedAt(w.ended) + (if w.stored.row.OnHold() then {w.stored.row.onHoldSince.value} else {})
    // The commitment is the original one, shifted once per ended hold.
    && w.stored.sla == AfterHolds(w.initial, w.ended)
  }

  ghost predicate Invariant(w: World) {
    Safe(w) && forall id :: id in w.pending ==> SafePending(w, w.pending[id])
  }

  lemma IntentsAreSafe(t: TicketRow, i: Intent)
    requires TerminalIsFree(t) && Intends(t, i)
    ensures SafeIntent(i)
    ensures i.End? ==> t.onHoldSince == Some(i.since)
  {
  }

  // A requester's ticket is closed by nothing but the requester's own yes and the
  // automatic close, and a hold ends only by hand, by the requester's reply, by a terminal
  // move or by the automatic close.
  lemma ClosedOnlyBy(t: TicketRow, i: Intent)
    requires TerminalIsFree(t) && Intends(t, i) && t.requester.Some?
    ensures !i.JustComment? && t.state != Closed && i.ticket.state == Closed ==>
              || (t.state == Resolved && exists now :: ConfirmIntent(t, t.requester.value, now) == Some(i))
              || (t.OnHold() && exists now :: ExpireIntent(t, now) == Some(i))
    ensures i.End? ==>
              || (!i.reply && Released(t, i.now, i.ticket))
              || (i.reply && Released(t, i.now, i.ticket) && ReplyIntent(t, true, t.requester.value, i.now) == i)
              || (i.ticket.state in {Resolved, Cancelled} && i.ticket.state != t.state)
              || ExpireIntent(t, i.now) == Some(i)
  {
  }

  lemma EndedAppend(ended: seq<Ended>, e: Ended)
    ensures EndedAt(ended + [e]) == EndedAt(ended) + {e.since}
  {
    forall x | x in EndedAt(ended)
      ensures x in EndedAt(ended + [e])
    {
      var i :| 0 <= i < |ended| && ended[i].since == x;
      assert (ended + [e])[i].since == x;
    }
    assert (ended + [e])[|ended|] == e;
  }

  // A pending use case stays safe when the store changes in these ways only.
  lemma PendingStays(w: World, w': World, p: Pending)
    requires SafePending(w, p) && w.begun <= w'.begun && EndedAt(w.ended) <= EndedAt(w'.ended)
    requires forall since :: since in w.begun && since !in EndedAt(w'.ended) ==> w'.stored.sla == w.stored.sla
    ensures SafePending(w', p)
  {
  }

  // The write that ends a hold: the hold was running, and the commitment read for
  // it is the stored one.
  lemma EndKeeps(w: World, id: nat, w': World)
    requires Invariant(w) && id in w.pending && w.pending[id].Ready? && w' == Written(w, id)
    ensures Invariant(w')
  {
    EndIsSafe(w, id, w');
    var p := w.pending[id];
    EndedAppend(w.ended, Ended(p.intent.since, p.intent.now, p.cal));
    forall other | other in w'.pending
      ensures SafePending(w', w'.pending[other])
    {
      PendingStays(w, w', w.pending[other]);
    }
  }

  lemma EndIsSafe(w: World, id: nat, w': World)
    requires Safe(w) && id in w.pending && SafePending(w, w.pending[id]) && w.pending[id].Ready? && w' == Written(w, id)
    ensures Safe(w')
  {
    var p := w.pending[id];
    var e := Ended(p.intent.since, p.intent.now, p.cal);
    if w.stored.row.onHoldSince == Some(e.since) {
      EndedAppend(w.ended, e);
      DistinctAppend(w.ended, e);
      assert (w.ended + [e])[..|w.ended|] == w.ended;
      assert w'.stored.sla == (if p.shifted.Some? then p.shifted else w.stored.sla);
      assert w'.stored.sla == ShiftForHold(w.stored.sla, e.since, e.resumed, e.cal);
    }
  }

  lemma OtherWritesKeep(w: World, id: nat, w': World)
    requires Invariant(w) && id in w.pending && !w.pending[id].Ready? && w' == Written(w, id)
    requires FreshHold(w, Write(id))
    ensures Invariant(w')
  {
    forall other | other in w'.pending
      ensures SafePending(w', w'.pending[other])
    {
      PendingStays(w, w', w.pending[other]);
    }
  }

  // ---- Workflow completions -------------------------------------------------------

  lemma {:induction false} PersistedKeepsHold(t: TicketRow, ops: seq<Operation>, pick: Selection)
    ensures WorkflowRuns.PersistedAll(t, ops, pick).onHoldSince == t.onHoldSince
    decreases |ops|
  {
    if ops != [] {
      PersistedKeepsHold(WorkflowRuns.Persisted(t, ops[0], pick), ops[1..], pick);
    }
  }

  lemma {:induction false} MovesKeepFree(t: TicketRow, s: Step, idx: nat, ops: seq<Operation>)
    requires TerminalIsFree(t) && CheckedMoves(t, s, idx, ops).Some?
    ensures var after := CheckedMoves(t, s, idx, ops).value;
            TerminalIsFree(after) && after.onHoldSince == t.onHoldSince
    decreases |ops|
  {
    if ops != [] {
      MovesKeepFree(CheckedMove(t, s, idx, ops[0]).value, s, idx, ops[1..]);
    }
  }

  lemma GroupKeepsFree(f: StoreFacts, actor: UserId, t: TicketRow, s: Step, idx: nat, ops: seq<Operation>, pick: Selection)
    requires TerminalIsFree(t) && ops != [] && CheckedGroup(f, actor, t, s, idx, ops, pick).Some?
    ensures var after := CheckedGroup(f, actor, t, s, idx, ops, pick).value.after;
            TerminalIsFree(after) && after.onHoldSince == t.onHoldSince
  {
    if IsTerminal(s) {
      MovesKeepFree(t, s, idx, ops);
    }
  }

  lemma {:induction false} GroupsKeepFree(f: StoreFacts, actor: UserId, t: TicketRow, idx: nat, ops: seq<Operation>,
      pick: Selection)
    requires TerminalIsFree(t) && CheckedGroups(f, actor, t, idx, ops, pick).Some?
    ensures var after := CheckedGroups(f, actor, t, idx, ops, pick).value.after;
            TerminalIsFree(after) && after.onHoldSince == t.onHoldSince
    decreases |ops|
  {
    if ops != [] {
      GroupKeepsFree(f, actor, t, f.workflow[idx], idx, ops, pick);
      var g := CheckedGroup(f, actor, t, f.workflow[idx], idx, ops, pick).value;
      GroupsKeepFree(f, actor, g.after, idx + 1, ops[g.size..], pick);
    }
  }

  // The recheck never accepts a plan that makes a held ticket terminal.
  lemma NoPlanClosesOverHold(f: StoreFacts, plan: MutationPlan, pick: Selection)
    requires TerminalIsFree(f.ticket) && Accepts(f, plan, pick)
    ensures IsClosed(plan.nextState) ==> !f.ticket.OnHold()
  {
    if f.run.status == Active && plan.ops != [] {
      GroupsKeepFree(f, plan.actor, f.ticket, f.run.cursor, plan.ops, pick);
    }
  }

  // ---- The theorem -----------------------------------------------------------------

  lemma StepKeeps(w: World, l: Label, w': World)
    requires Invariant(w) && Steps(w, l, w') && FreshHold(w, l)
    ensures Invariant(w') && w'.initial == w.initial
  {
    match l {
      case Read(id) =>
      case Decide(id, i) =>
        IntentsAreSafe(w.pending[id].row, i);
        assert SafePending(w, w.pending[id]);
      case ReadSla(id, cal) =>
      case Write(id) =>
        if w.pending[id].Ready? {
          EndKeeps(w, id, w');
        } else {
          OtherWritesKeep(w, id, w');
        }
      case Abandon(id) =>
      case Complete(f, plan, pick, row) =>
        PersistedKeepsHold(w.stored.row, plan.ops, pick);
        NoPlanClosesOverHold(f, plan, pick);
    }
  }

  // In every interleaving, as long as no two holds start at the same stored
  // instant: no terminal ticket is on hold, each hold ends at most once, and the
  // commitment is shifted exactly once per ended hold.
  lemma {:induction false} EveryRunIsSafe(trace: seq<World>, labels: seq<Label>, n: nat)
    requires IsRun(trace, labels) && n < |trace|
    requires forall i :: 0 <= i < n ==> FreshHold(trace[i], labels[i])
    ensures Invariant(trace[n]) && trace[n].initial == trace[0].initial
  {
    if n > 0 {
      EveryRunIsSafe(trace, labels, n - 1);
      assert StepAt(trace, labels, n - 1);
      StepKeeps(trace[n - 1], labels[n - 1], trace[n]);
    }
  }

  // The step writes a comment: a reply, whatever became of the hold it would end, or
  // another comment.
  predicate Comments(w: World, l: Label) {
    && l.Write? && l.id in w.pending
    && (w.pending[l.id] == Decided(JustComment)
        || (w.pending[l.id].Ready? && w.pending[l.id].intent.End? && w.pending[l.id].intent.reply))
  }

  function CommentsWritten(trace: seq<World>, labels: seq<Label>, n: nat): nat
    requires n <= |trace| && n <= |labels|
  {
    if n == 0 then 0 else CommentsWritten(trace, labels, n - 1) + if Comments(trace[n - 1], labels[n - 1]) then 1 else 0
  }

  // Every comment that was written is stored.
  lemma {:induction false} EveryReplyIsStored(trace: seq<World>, labels: seq<Label>, n: nat)
    requires IsRun(trace, labels) && n < |trace|
    ensures trace[n].stored.comments == CommentsWritten(trace, labels, n)
  {
    if n > 0 {
      EveryReplyIsStored(trace, labels, n - 1);
      assert StepAt(trace, labels, n - 1);
    }
  }

  // The completions declare the run completed when they leave the ticket terminal, as
  // every plan of the planner does.
  predicate DeclaresEnd(l: Label) { l.Complete? && IsClosed(l.plan.nextState) ==> l.plan.nextStatus == Completed }

  // Whoever makes the ticket terminal ends its run, and no run starts again.
  lemma {:induction false} TerminalEndsRun(trace: seq<World>, labels: seq<Label>, n: nat)
    requires IsRun(trace, labels) && n < |trace| && (IsClosed(trace[0].stored.row.state) ==> !trace[0].stored.runActive)
    requires forall i :: 0 <= i < n ==> DeclaresEnd(labels[i])
    ensures IsClosed(trace[n].stored.row.state) ==> !trace[n].stored.runActive
    ensures n > 0 && trace[n].stored.runActive ==> trace[n - 1].stored.runActive
  {
    if n > 0 {
      TerminalEndsRun(trace, labels, n - 1);
      assert StepAt(trace, labels, n - 1);
      if labels[n - 1].Write? {
        WriteEndsRun(trace[n - 1], labels[n - 1].id, trace[n]);
      } else if labels[n - 1].Complete? {
        CompletionDeclares(trace[n - 1], labels[n - 1], trace[n]);
      }
    }
  }

  lemma WriteEndsRun(w: World, id: nat, w': World)
    requires id in w.pending && w' == Written(w, id) && (IsClosed(w.stored.row.state) ==> !w.stored.runActive)
    ensures IsClosed(w'.stored.row.state) ==> !w'.stored.runActive
    ensures w'.stored.runActive ==> w.stored.runActive
  {
  }

  lemma CompletionDeclares(w: World, l: Label, w': World)
    requires l.Complete? && Steps(w, l, w') && DeclaresEnd(l)
    ensures IsClosed(w'.stored.row.state) ==> !w'.stored.runActive
    ensures w'.stored.runActive ==> w.stored.runActive
  {
    AcceptedState(l.f, l.plan, l.pick, w'.stored.row);
  }

  lemma AcceptedState(f: StoreFacts, plan: MutationPlan, pick: Selection, row: TicketRow)
    requires Accepts(f, plan, pick)
    requires row.(updatedAt := f.ticket.updatedAt) == WorkflowRuns.PersistedAll(f.ticket, plan.ops, pick).(state := plan.nextState)
    ensures row.state == plan.nextState
    ensures f.run.status != Active ==> plan.nextStatus == f.run.status
  {
  }
}
