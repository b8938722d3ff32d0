/**
The rows a completion stores: of the collected rows those whose recipient may open
the stored result (internal/adapters/sqlite/workflow_uow.go and
workflow_notification_access.go).
*/
module PlanStoredNotices {
  import opened Core
  import opened Tickets
  import opened Workflow
  import opened Runner
  import opened PlanFacts
  import opened PlanRecheck
  import opened WorkflowRuns
  import opened Policy
  import opened Notifications
  import opened PlanNotices
  import opened PlanNoticeFacts
  import opened PlanNoticeResults
  import opened PlanAccess

  // What the access check reads besides the stored ticket and run.
  datatype Access = Access(members: Members, users: Directory, startedAt: Instant)

  function Stored(c: Case, a: Access, pick: Selection, names: UserId -> string): seq<Row> {
    KeepAdmitted(c.Rows(pick, names), StoredTicket(c, pick), c.d, StoredRun(c, a.startedAt), a.members, a.users)
  }

  // Whoever holds the ticket in the end.
  function EndsWith(c: Case, pick: Selection): Option<UserId> {
    if Routed(c.p.ops) then c.LastPick(pick) else c.p.after.assignee
  }

  // The run goes on over an open ticket, and its next step is a claim of a desk this
  // person belongs to.
  predicate MayClaim(c: Case, a: Access, who: UserId) {
    && c.p.nextStatus == Active && !IsClosed(c.p.after.state)
    && 0 <= c.p.nextCursor < |c.d| && IsClaim(c.d[c.p.nextCursor])
    && who in a.members(c.d[c.p.nextCursor].config.value.desk)
  }

  // The requester, an active administrator, and an active agent who holds the ticket
  // in the end or may claim it.
  predicate Opens(c: Case, a: Access, pick: Selection, who: UserId) {
    || c.p.before.requester == Some(who)
    || (&& a.users(who).Some?
        && var u := a.users(who).value;
        && u.id == who && u.active
        && (u.role == AdminRole || u.role == RootRole || (u.role == AgentRole && (EndsWith(c, pick) == Some(who) || MayClaim(c, a, who)))))
  }

  // The stored row names the requester and holder of the plan's outcome.
  ghost predicate Outcome(c: Case, pick: Selection) {
    var t := StoredTicket(c, pick);
    t.requester == c.p.before.requester && t.assignee == EndsWith(c, pick) && t.state == c.p.after.state
  }

  lemma StoredOutcome(c: Case, snap: Snapshot, cmd: Command, now: Instant, isSpace: char -> bool, pick: Selection,
      names: UserId -> string)
    requires Planned(c, snap, cmd, now, isSpace)
    ensures Outcome(c, pick)
  {
    FinalHolder(c, snap, cmd, now, isSpace, pick, names);
  }

  lemma AgentOpens(c: Case, a: Access, pick: Selection, u: User)
    requires Outcome(c, pick) && u.role == AgentRole
    ensures StaffCanOpen(u, StoredTicket(c, pick), c.d, StoredRun(c, a.startedAt), a.members) <==>
            u.active && (EndsWith(c, pick) == Some(u.id) || MayClaim(c, a, u.id))
  {
  }

  lemma OthersOpen(c: Case, a: Access, pick: Selection, u: User)
    requires u.role != AgentRole
    ensures StaffCanOpen(u, StoredTicket(c, pick), c.d, StoredRun(c, a.startedAt), a.members) <==>
            u.active && (u.role == AdminRole || u.role == RootRole)
  {
  }

  lemma OutcomeOpens(c: Case, a: Access, pick: Selection, who: UserId)
    requires Outcome(c, pick)
    ensures Admits(StoredTicket(c, pick), c.d, StoredRun(c, a.startedAt), a.members, a.users, who) <==> Opens(c, a, pick, who)
  {
    if a.users(who).Some? {
      if a.users(who).value.role == AgentRole {
        AgentOpens(c, a, pick, a.users(who).value);
      } else {
        OthersOpen(c, a, pick, a.users(who).value);
      }
    }
  }

  lemma OpensIff(c: Case, snap: Snapshot, cmd: Command, now: Instant, isSpace: char -> bool, pick: Selection,
      names: UserId -> string, a: Access, who: UserId)
    requires Planned(c, snap, cmd, now, isSpace)
    ensures Admits(StoredTicket(c, pick), c.d, StoredRun(c, a.startedAt), a.members, a.users, who) <==> Opens(c, a, pick, who)
  {
    StoredOutcome(c, snap, cmd, now, isSpace, pick, names);
    OutcomeOpens(c, a, pick, who);
  }

  lemma {:induction false} KeptCount(rows: seq<Row>, t: TicketRow, d: Definition, run: Run, members: Members,
      users: Directory, who: UserId, kind: Kind)
    ensures Count(KeepAdmitted(rows, t, d, run, members, users), who, kind) ==
            if Admits(t, d, run, members, users, who) then Count(rows, who, kind) else 0
  {
    if rows != [] {
      KeptCount(rows[1..], t, d, run, members, users, who, kind);
      if Admits(t, d, run, members, users, rows[0].user) {
        CountCons(rows[0], KeepAdmitted(rows[1..], t, d, run, members, users), who, kind);
      } else {
        assert KeepAdmitted(rows, t, d, run, members, users) == KeepAdmitted(rows[1..], t, d, run, members, users);
      }
    }
  }

  lemma StoredCount(
      c: Case, snap: Snapshot, cmd: Command, now: Instant, isSpace: char -> bool, pick: Selection, names: UserId -> string, a: Access, who: UserId, kind: Kind)
    requires Planned(c, snap, cmd, now, isSpace)
    ensures Count(Stored(c, a, pick, names), who, kind) == if Opens(c, a, pick, who) then Count(c.Rows(pick, names), who, kind) else 0
  {
    OpensIff(c, snap, cmd, now, isSpace, pick, names, a, who);
    KeptCount(c.Rows(pick, names), StoredTicket(c, pick), c.d, StoredRun(c, a.startedAt), a.members, a.users, who, kind);
  }

  lemma StoredAddresses(
      c: Case, snap: Snapshot, cmd: Command, now: Instant, isSpace: char -> bool, pick: Selection, names: UserId -> string, a: Access, who: UserId)
    requires Planned(c, snap, cmd, now, isSpace)
    ensures Addresses(Stored(c, a, pick, names), who) <==> Opens(c, a, pick, who) && Addresses(c.Rows(pick, names), who)
  {
    var rows, stored := c.Rows(pick, names), Stored(c, a, pick, names);
    AddressedByCount(stored, who);
    AddressedByCount(rows, who);
    if Addresses(stored, who) {
      var kind: Kind :| Count(stored, who, kind) > 0;
      StoredCount(c, snap, cmd, now, isSpace, pick, names, a, who, kind);
      assert Count(rows, who, kind) > 0;
    }
    if Opens(c, a, pick, who) && Addresses(rows, who) {
      var kind: Kind :| Count(rows, who, kind) > 0;
      StoredCount(c, snap, cmd, now, isSpace, pick, names, a, who, kind);
      assert Count(stored, who, kind) > 0;
    }
  }

  // ---- Nobody hears one thing twice ------------------------------------------------

  // Of every kind of row a person gets at most one, and the actor none; except that a
  // person who may open the result is told `assigned` once for every time the routing
  // moves the ticket onto them.
  lemma PairsRepeatOnlyByMoves(
      c: Case, snap: Snapshot, cmd: Command, now: Instant, isSpace: char -> bool, pick: Selection, names: UserId -> string, a: Access, who: UserId, kind: Kind)
    requires Planned(c, snap, cmd, now, isSpace)
    ensures var n := Count(Stored(c, a, pick, names), who, kind);
            && (who == c.actor ==> n == 0)
            && (kind == AssignedKind && who != c.actor ==> n == if Opens(c, a, pick, who) then c.MovedOnto(who, pick, names) else 0)
            && (kind != AssignedKind ==> n <= 1)
  {
    StoredCount(c, snap, cmd, now, isSpace, pick, names, a, who, kind);
    CollectedPairs(c, who, kind, pick, names);
  }

  // ---- The person a routing step takes the ticket from -------------------------------

  // A routed plan and the person who held the ticket when it was planned.  If the
  // ticket ends elsewhere they are told nothing, unless the selections took it away
  // from them and back on the way and they may open it anyway; then they get one
  // `assigned` row for each return and nothing else.  If the ticket ends with them,
  // they get everything the plan held back.
  lemma ReroutedHolder(
      c: Case, snap: Snapshot, cmd: Command, now: Instant, isSpace: char -> bool, pick: Selection, names: UserId -> string, a: Access)
    requires Planned(c, snap, cmd, now, isSpace) && Routed(c.p.ops) && c.Holder().Some?
    ensures var h := c.Holder().value.user; var stored := Stored(c, a, pick, names);
            && (c.LastPick(pick) != Some(h) ==>
                  && (Addresses(stored, h) <==>
                        h != c.actor && AwayAndBack(c.p.ops, |c.p.ops|, h, pick) && Opens(c, a, pick, h))
                  && (forall kind: Kind :: Count(stored, h, kind) > 0 ==> kind == AssignedKind))
            && (c.LastPick(pick) == Some(h) ==>
                  forall kind: Kind :: kind != AssignedKind && kind != FormWaiting ==>
                    Count(stored, h, kind) == if Opens(c, a, pick, h) then Count(c.Batch(), h, kind) else 0)
  {
    var h, stored := c.Holder().value.user, Stored(c, a, pick, names);
    CollectedHolder(c, snap, cmd, now, isSpace, pick, names);
    StoredAddresses(c, snap, cmd, now, isSpace, pick, names, a, h);
    forall kind: Kind
      ensures Count(stored, h, kind) == if Opens(c, a, pick, h) then Count(c.Rows(pick, names), h, kind) else 0
    {
      StoredCount(c, snap, cmd, now, isSpace, pick, names, a, h, kind);
    }
  }

  // ---- Whose turn it is ----------------------------------------------------------------

  // A routing step takes the ticket from a holder who is the requester and not the
  // actor.
  predicate RequesterRerouted(c: Case, pick: Selection, who: UserId) {
    Routed(c.p.ops) && c.Holder().Some? && c.Holder().value.user == who && c.LastPick(pick) != Some(who)
  }

  // The requester is a person who may open the planned result, and not the actor.
  predicate RequesterListens(c: Case, who: UserId) {
    && c.people.requester.Some? && c.people.requester.value.user == who
    && !c.people.requester.value.service && CanOpen(c.people.requester.value, c.p.after) && who != c.actor
  }

  // A pending requester form: the requester is told so if and only if they may be and
  // are not the holder a routing step takes the ticket from.  That can only be when
  // the submitted step is a routing step itself.
  lemma RequesterFormTold(
      c: Case, snap: Snapshot, cmd: Command, now: Instant, isSpace: char -> bool, pick: Selection, names: UserId -> string, a: Access, who: UserId)
    requires Planned(c, snap, cmd, now, isSpace) && PendingForm(c.d, c.p.nextCursor) == Some(ByRequester)
    ensures Count(Stored(c, a, pick, names), who, FormWaiting) > 0 <==> RequesterListens(c, who) && !RequesterRerouted(c, pick, who)
    ensures RequesterListens(c, who) && RequesterRerouted(c, pick, who) ==> IsRouting(c.d[c.p.expected])
  {
    StoredCount(c, snap, cmd, now, isSpace, pick, names, a, who, FormWaiting);
    CollectedRequesterForm(c, snap, cmd, now, isSpace, pick, names, who);
    if RequesterListens(c, who) && RequesterRerouted(c, pick, who) {
      OthersComplete(c, snap, cmd, now, isSpace, who);
    }
  }

  // Whoever completes a human step of a routed plan is the requester or ends up
  // planned as the holder.
  lemma OthersComplete(c: Case, snap: Snapshot, cmd: Command, now: Instant, isSpace: char -> bool, who: UserId)
    requires Planned(c, snap, cmd, now, isSpace) && Routed(c.p.ops) && who != c.actor
    requires c.p.before.requester == Some(who) == c.p.before.assignee && c.p.after.assignee == Some(who)
    ensures IsRouting(c.d[c.p.expected])
  {
    var d, t, step := snap.workflow, snap.ticket.value, c.p.expected;
    assert WellFormedStep(d[step]);
    if IsTerminal(d[step]) {
      assert forall i :: 0 <= i < |c.p.ops| ==> c.p.ops[i].StateTransition?;
    } else {
      var own, mid :| OwnStep(t, d[step], step, cmd, now, isSpace, own, mid) &&
                      Prepend(own, Advance(d, mid, step + 1, now)) == Ok(Walk(c.p.ops, c.p.nextCursor, c.p.after));
      if IsClaim(d[step]) {
        assert c.p.ops[0] == own[0];
        ClaimAssignsActor(snap, cmd, now, isSpace, c.p, 0);
      }
    }
  }

  // In every run, whatever else happens to the ticket, the requester is told that a
  // form waits on them if and only if they may be.
  lemma EveryRunTellsRequester(
      trace: seq<RunState>, n: nat, c: Case, snap: Snapshot, cmd: Command, now: Instant, isSpace: char -> bool, pick: Selection, names: UserId -> string,
      a: Access, who: UserId)
    requires IsRun(trace) && n < |trace|
    requires snap == Snapshot(Some(trace[n].ticket), Some(Run(trace[n].cursor, trace[n].status, a.startedAt)), trace[n].workflow)
    requires Planned(c, snap, cmd, now, isSpace) && PendingForm(c.d, c.p.nextCursor) == Some(ByRequester)
    ensures Count(Stored(c, a, pick, names), who, FormWaiting) > 0 <==> RequesterListens(c, who)
  {
    RunsKeepInvariant(trace, n);
    RequesterFormTold(c, snap, cmd, now, isSpace, pick, names, a, who);
  }

  // ---- Such plans ------------------------------------------------------------------------

  function Desk(desk: int): Step { AssignToDesk(Some(DeskConfig(desk, LeastLoaded))) }

  function Asks(actor: FormActor): Step { Form(Some(FormConfig(actor, [FormField("ok", Checkbox, false, [])]))) }

  // The requester 7 answers a form; three desks in a row, of 8, of 5 and of 8 again,
  // route the ticket that the administrator 5 holds.
  function ThreeDesks(): Definition { [Asks(ByRequester), Desk(1), Desk(2), Desk(3), ManualTask(Some("work"))] }

  const HeldByAdmin: TicketRow := TicketRow(1, Some(7), Some(5), Some(3), InProgress, None, None, None, 0)

  function Submitted(): Command { Command(1, 7, [], "") }

  function Pick(step: nat): UserId { if step == 2 then 5 else 8 }

  function MembersOf(desk: int): set<UserId> { if desk == 2 then {5} else {8} }

  function Listed(who: UserId): Option<User> {
    Some(User(who, if who == 5 then AdminRole else if who == 8 then AgentRole else UserRole, true, false))
  }

  function RoutedThrice(): Case {
    var p := CorePlan(0, [FormSubmission(0, [Flag(false)], 7, 0), StepCompleted(0, RequesterFormDone, 7, "", 0),
                          LeastLoadedAssignment(1, 1, None), LeastLoadedAssignment(2, 2, None), LeastLoadedAssignment(3, 3, None)],
                      4, Active, HeldByAdmin, HeldByAdmin);
    Case(ThreeDesks(), p, 7, None, People(Some(Recipient(7, UserRole, true, false)), Some(Recipient(5, AdminRole, true, false)), []))
  }

  lemma WalkRoutes(d: Definition, t: TicketRow, from: nat, now: Instant, rest: seq<Operation>, next: nat)
    requires from < |d| && IsRouting(d[from]) && t.state == InProgress && Advance(d, t, from + 1, now) == Ok(Walk(rest, next, t))
    ensures Advance(d, t, from, now) == Ok(Walk([LeastLoadedAssignment(from, d[from].config.value.desk, None)] + rest, next, t))
  {
    var own: seq<Operation> := [LeastLoadedAssignment(from, d[from].config.value.desk, None)];
    assert RoutedOps(t, from, now) == [] && own + [] == own;
  }

  lemma ThriceWalk()
    ensures Advance(ThreeDesks(), HeldByAdmin, 1, 0) ==
            Ok(Walk([LeastLoadedAssignment(1, 1, None), LeastLoadedAssignment(2, 2, None), LeastLoadedAssignment(3, 3, None)], 4, HeldByAdmin))
  {
    var d, t := ThreeDesks(), HeldByAdmin;
    var last: seq<Operation> := [LeastLoadedAssignment(3, 3, None)];
    WalkRoutes(d, t, 3, 0, [], 4);
    assert last + [] == last;
    WalkRoutes(d, t, 2, 0, last, 4);
    WalkRoutes(d, t, 1, 0, [LeastLoadedAssignment(2, 2, None)] + last, 4);
    assert [LeastLoadedAssignment(1, 1, None)] + ([LeastLoadedAssignment(2, 2, None)] + last) ==
           [LeastLoadedAssignment(1, 1, None), LeastLoadedAssignment(2, 2, None), LeastLoadedAssignment(3, 3, None)];
  }

  lemma ThricePlanned(isSpace: char -> bool)
    ensures Planned(RoutedThrice(), Snapshot(Some(HeldByAdmin), Some(Run(0, Active, 0)), ThreeDesks()), Submitted(), 0, isSpace)
  {
    var c := RoutedThrice();
    var own: seq<Operation> := [FormSubmission(0, [Flag(false)], 7, 0), StepCompleted(0, RequesterFormDone, 7, "", 0)];
    ThriceWalk();
    assert FormAnswers.DecodesTo(ThreeDesks()[0].form.value.fields, [], isSpace, [Flag(false)]);
    assert OwnStep(HeldByAdmin, ThreeDesks()[0], 0, Submitted(), 0, isSpace, own, HeldByAdmin);
    assert own + Advance(ThreeDesks(), HeldByAdmin, 1, 0).value.ops == c.p.ops;
    assert Prepend(own, Advance(ThreeDesks(), HeldByAdmin, 1, 0)) == Ok(Walk(c.p.ops, 4, HeldByAdmin));
  }

  // Who holds the ticket before each operation of the transaction.
  lemma ThriceHolders(names: UserId -> string)
    ensures var c := RoutedThrice(); var start, ops := Start(c.p, c.Notices()), c.Notices().ops;
            && |ops| == 5
            && After(start, ops, 2, Pick, names).assignee == Some(5) && After(start, ops, 3, Pick, names).assignee == Some(8)
            && After(start, ops, 4, Pick, names).assignee == Some(5)
  {
    var c := RoutedThrice();
    var start, ops := Start(c.p, c.Notices()), c.Notices().ops;
    StampedTemplates(c);
    assert After(start, ops, 1, Pick, names).assignee == Some(5);
    assert ops[2].LeastLoadedAssignment? && Pick(ops[2].step) == 8;
    assert ops[3].LeastLoadedAssignment? && Pick(ops[3].step) == 5;
  }

  lemma ThriceMoves(names: UserId -> string)
    ensures RoutedThrice().MovedOnto(8, Pick, names) == 2 && RoutedThrice().MovedOnto(5, Pick, names) == 1
  {
    var c := RoutedThrice();
    var start, ops := Start(c.p, c.Notices()), c.Notices().ops;
    ThriceHolders(names);
    StampedTemplates(c);
    forall who | who == 5 || who == 8
      ensures Moves(start, ops, 5, who, Pick, names) == if who == 8 then 2 else 1
    {
      assert Moves(start, ops, 1, who, Pick, names) == 0;
      assert Moves(start, ops, 2, who, Pick, names) == 0;
      assert Moves(start, ops, 3, who, Pick, names) == if who == 8 then 1 else 0;
      assert Moves(start, ops, 4, who, Pick, names) == 1;
    }
  }

  lemma ThriceOpens()
    ensures Opens(RoutedThrice(), Access(MembersOf, Listed, 0), Pick, 8) && Opens(RoutedThrice(), Access(MembersOf, Listed, 0), Pick, 5)
  {
    var c := RoutedThrice();
    LastRoutingIs(c.p.ops);
    assert c.p.ops[4].LeastLoadedAssignment?;
    assert c.LastPick(Pick) == Some(8);
  }

  lemma ThriceAccepted(f: StoreFacts, snap: Snapshot, isSpace: char -> bool)
    requires f == StoreFacts(HeldByAdmin, Run(0, Active, 0), ThreeDesks(), {5, 7, 8}, {5, 8}, MembersOf)
    requires snap == Snapshot(Some(HeldByAdmin), Some(Run(0, Active, 0)), ThreeDesks())
    ensures Accepts(f, Submission(snap, Submitted(), RoutedThrice().p), Pick)
  {
    ThricePlanned(isSpace);
    var c := RoutedThrice();
    assert 8 in f.Pool(1) && 5 in f.Pool(2) && 8 in f.Pool(3);
    assert WalkEnd(ThreeDesks(), 4) == 4 && WalkEnd(ThreeDesks(), 3) == 4 && WalkEnd(ThreeDesks(), 2) == 4;
    StoreAcceptsPlan(f, snap, Submitted(), 0, isSpace, c.p, Pick);
  }

  // The plan is one the store accepts.  The agent it ends with is told `assigned` twice,
  // and so is, once, the administrator it was taken from on the way.
  lemma RoutedThriceTells(isSpace: char -> bool, names: UserId -> string)
    ensures var c := RoutedThrice(); var snap := Snapshot(Some(HeldByAdmin), Some(Run(0, Active, 0)), ThreeDesks());
            var f := StoreFacts(HeldByAdmin, Run(0, Active, 0), ThreeDesks(), {5, 7, 8}, {5, 8}, MembersOf);
            var stored := Stored(c, Access(MembersOf, Listed, 0), Pick, names);
            && Planned(c, snap, Submitted(), 0, isSpace) && Accepts(f, Submission(snap, Submitted(), c.p), Pick)
            && Count(stored, 8, AssignedKind) == 2 && Count(stored, 5, AssignedKind) == 1 && c.p.before.assignee == Some(5)
  {
    var snap := Snapshot(Some(HeldByAdmin), Some(Run(0, Active, 0)), ThreeDesks());
    var f := StoreFacts(HeldByAdmin, Run(0, Active, 0), ThreeDesks(), {5, 7, 8}, {5, 8}, MembersOf);
    ThriceAccepted(f, snap, isSpace);
    ThricePlanned(isSpace);
    ThriceCounted(RoutedThrice(), snap, isSpace, names);
  }

  lemma ThriceCounted(c: Case, snap: Snapshot, isSpace: char -> bool, names: UserId -> string)
    requires c == RoutedThrice() && Planned(c, snap, Submitted(), 0, isSpace)
    ensures var stored := Stored(c, Access(MembersOf, Listed, 0), Pick, names);
            Count(stored, 8, AssignedKind) == 2 && Count(stored, 5, AssignedKind) == 1
  {
    var a := Access(MembersOf, Listed, 0);
    ThriceMoves(names);
    ThriceOpens();
    PairsRepeatOnlyByMoves(c, snap, Submitted(), 0, isSpace, Pick, names, a, 8, AssignedKind);
    PairsRepeatOnlyByMoves(c, snap, Submitted(), 0, isSpace, Pick, names, a, 5, AssignedKind);
  }

  // A requester who holds their own ticket, which somebody else's submission of a
  // routing step takes away; no run rests on such a step.
  function TakenFromRequester(): Case {
    var t := HeldByAdmin.(assignee := Some(7));
    var own := Some(Recipient(7, AgentRole, true, false));
    Case([Desk(1), Asks(ByRequester)], CorePlan(0, [LeastLoadedAssignment(0, 1, None)], 1, Active, t, t), 9, None, People(own, own, []))
  }

  function Elsewhere(step: nat): UserId { 8 }

  lemma TakenPlanned(isSpace: char -> bool)
    ensures var c := TakenFromRequester();
            Planned(c, Snapshot(Some(c.p.before), Some(Run(0, Active, 0)), c.d), Command(1, 9, [], ""), 0, isSpace)
  {
    var c := TakenFromRequester();
    var t, d := c.p.before, c.d;
    assert Advance(d, t, 1, 0) == Ok(Walk([], 1, t));
    assert OwnStep(t, d[0], 0, Command(1, 9, [], ""), 0, isSpace, c.p.ops, t);
    assert c.p.ops + [] == c.p.ops;
    assert Prepend(c.p.ops, Advance(d, t, 1, 0)) == Ok(Walk(c.p.ops, 1, t));
  }

  lemma TakenAway()
    ensures RequesterListens(TakenFromRequester(), 7) && RequesterRerouted(TakenFromRequester(), Elsewhere, 7)
  {
    var c := TakenFromRequester();
    assert c.p.ops[0].LeastLoadedAssignment?;
    assert LastRouting(c.p.ops) == 0;
  }

  lemma TakenFromRequesterSilently(isSpace: char -> bool, names: UserId -> string, a: Access)
    ensures var c := TakenFromRequester();
            var snap, cmd := Snapshot(Some(c.p.before), Some(Run(0, Active, 0)), c.d), Command(1, 9, [], "");
            && Planned(c, snap, cmd, 0, isSpace) && PendingForm(c.d, c.p.nextCursor) == Some(ByRequester)
            && RequesterListens(c, 7) && Count(Stored(c, a, Elsewhere, names), 7, FormWaiting) == 0
  {
    var c := TakenFromRequester();
    TakenPlanned(isSpace);
    TakenAway();
    RequesterFormTold(c, Snapshot(Some(c.p.before), Some(Run(0, Active, 0)), c.d), Command(1, 9, [], ""), 0, isSpace, Elsewhere, names, a, 7);
  }
}
