/**
Who may still open the ticket a completion leaves behind: the plan-time follower
test (internal/application/follow_service.go) and the recheck inside the
transaction (internal/adapters/sqlite/workflow_notification_access.go), which
proves every recipient again on the stored result.
*/
module PlanAccess {
  import opened Core
  import opened Tickets
  import opened Workflow
  import opened Runner
  import opened PlanFacts
  import opened WorkflowRuns
  import opened Policy
  import opened Notifications
  import opened PlanNotices
  import opened PlanNoticeFacts
  import opened PlanNoticeResults

  type Members = int -> set<UserId>
  type Directory = UserId -> Option<User>

  // ---- The plan-time test -------------------------------------------------------

  predicate CanStaffOpenResulting(u: User, after: TicketRow, claimPending: bool, members: set<UserId>) {
    if !ValidRole(u.role) || !u.active || CommentInternal !in Capabilities(u.role) then false
    else
      match ReadScope(u.role)
      case All => true
      case Owned => after.requester == Some(u.id)
      case AssignedOrClaimable => after.assignee == Some(u.id) || (claimPending && u.id in members)
      case NoScope => false
  }

  // The test as the planner evaluates it for one plan.
  predicate PlanTimeTest(u: User, c: Case, members: Members) {
    var desk := ClaimableDesk(c.d, c.p.nextCursor, c.p.nextStatus, c.p.after.state);
    CanStaffOpenResulting(u, c.p.after, desk.Some?, if desk.Some? then members(desk.value) else {})
  }

  function KeepOpen(followersOf: seq<User>, after: TicketRow, claimPending: bool, members: set<UserId>): seq<Recipient> {
    if followersOf == [] then []
    else
      (if CanStaffOpenResulting(followersOf[0], after, claimPending, members) then [RecipientOf(followersOf[0])] else []) +
      KeepOpen(followersOf[1..], after, claimPending, members)
  }

  lemma {:induction false} KeepOpenSnoc(fs: seq<User>, u: User, after: TicketRow, claimPending: bool, members: set<UserId>)
    ensures KeepOpen(fs + [u], after, claimPending, members) ==
            KeepOpen(fs, after, claimPending, members) +
            if CanStaffOpenResulting(u, after, claimPending, members) then [RecipientOf(u)] else []
  {
    if fs != [] {
      assert (fs + [u])[1..] == fs[1..] + [u];
      KeepOpenSnoc(fs[1..], u, after, claimPending, members);
    }
  }

  method FollowerRecipientsForResulting(followersOf: seq<User>, after: TicketRow, d: Definition, cursor: int,
      status: RunStatus, members: Members)
      returns (out: seq<Recipient>)
    ensures var desk := ClaimableDesk(d, cursor, status, after.state);
            out == KeepOpen(followersOf, after, desk.Some?, if desk.Some? then members(desk.value) else {})
  {
    var desk := ClaimableDesk(d, cursor, status, after.state);
    var ids: set<UserId> := {};
    if desk.Some? {
      ids := members(desk.value);
    }
    out := [];
    for i := 0 to |followersOf|
      invariant out == KeepOpen(followersOf[..i], after, desk.Some?, ids)
    {
      assert followersOf[..i + 1] == followersOf[..i] + [followersOf[i]];
      KeepOpenSnoc(followersOf[..i], followersOf[i], after, desk.Some?, ids);
      if !CanStaffOpenResulting(followersOf[i], after, desk.Some?, ids) {
        continue;
      }
      out := out + [RecipientOf(followersOf[i])];
    }
    assert followersOf[..|followersOf|] == followersOf;
  }

  // ---- The stored result ----------------------------------------------------------

  // The row and the run the transaction has persisted.
  function StoredTicket(c: Case, pick: Selection): TicketRow {
    PersistedAll(c.p.before, c.p.ops, pick).(state := c.p.after.state)
  }

  function StoredRun(c: Case, startedAt: Instant): Run { Run(c.p.nextCursor, c.p.nextStatus, startedAt) }

  // For every plan, selection, person and desk membership: the plan-time test and
  // the staff read scope of the stored result agree, unless the plan routes, the
  // person is an active agent whose holding the ticket the selection changed, and no
  // pending claim of their desk lets them in anyway.
  lemma FollowerTestAgrees(
      c: Case, snap: Snapshot, cmd: Command, now: Instant, isSpace: char -> bool, pick: Selection, names: UserId -> string,
      u: User, members: Members, startedAt: Instant)
    requires Planned(c, snap, cmd, now, isSpace)
    ensures var desk := ClaimableDesk(c.d, c.p.nextCursor, c.p.nextStatus, c.p.after.state);
            (PlanTimeTest(u, c, members) <==> StaffCanOpen(u, StoredTicket(c, pick), c.d, StoredRun(c, startedAt), members))
            <==> !(Routed(c.p.ops) && u.active && u.role == AgentRole &&
                   (c.p.after.assignee == Some(u.id)) != (c.LastPick(pick) == Some(u.id)) &&
                   !(desk.Some? && u.id in members(desk.value)))
  {
    FinalHolder(c, snap, cmd, now, isSpace, pick, names);
  }

  // ---- The recheck inside the transaction ---------------------------------------

  predicate Admits(t: TicketRow, d: Definition, run: Run, members: Members, users: Directory, who: UserId) {
    || t.requester == Some(who)
    || (users(who).Some? && users(who).value.id == who && StaffCanOpen(users(who).value, t, d, run, members))
  }

  function KeepAdmitted(rows: seq<Row>, t: TicketRow, d: Definition, run: Run, members: Members,
      users: Directory): seq<Row> {
    if rows == [] then []
    else
      (if Admits(t, d, run, members, users, rows[0].user) then [rows[0]] else []) +
      KeepAdmitted(rows[1..], t, d, run, members, users)
  }

  // The recipient carries what the directory says about that person.
  predicate Vouched(users: Directory, r: Recipient) {
    var u := users(r.user);
    u.Some? && u.value.id == r.user && u.value.role == r.role && u.value.active == r.active
  }

  // The plan's policy facts are the directory's, and the followers passed the
  // plan-time test.
  ghost predicate FactsHold(c: Case, members: Members, users: Directory) {
    && (c.people.requester.Some? ==> Vouched(users, c.people.requester.value))
    && (c.people.assignee.Some? ==> Vouched(users, c.people.assignee.value))
    && (forall r :: r in c.people.followers ==> Vouched(users, r) && PlanTimeTest(users(r.user).value, c, members))
  }

  // The person behind each row of the batch.
  lemma BatchPerson(c: Case, row: Row) returns (r: Recipient)
    requires row in c.Batch()
    ensures r.user == row.user
    ensures r in c.people.followers || (CanOpen(r, c.p.after) && (Some(r) == c.people.requester || Some(r) == c.people.assignee))
  {
    var change, waiting, claim := ChangePart(c.p, c.actor, c.people), WaitingPart(c.d, c.p, c.actor, c.people), ClaimPart(c.d, c.p, c.actor, c.name, c.people);
    assert c.Batch() == change + waiting + claim;
    if row in change {
      var people := Recipients(c.people.requester, AssigneeFacts(c.p.after, c.people.assignee), c.people.followers, []);
      var cs := StateChangeCandidates(c.p.before.state, c.p.after.state, people);
      var i := RowSource(c.p.after, Some(c.actor), {}, cs, row);
      r := Person(cs[i]).value;
      if i >= 2 {
        assert r == c.people.followers[i - 2];
      }
    } else if row in waiting {
      WaitingRow(c.p.after, c.d, c.p.nextCursor, c.actor, c.people.requester, FormAssignee(c.d, c.p, c.people));
      r := WaitsOn(c.d, c.p.nextCursor, c.people.requester, FormAssignee(c.d, c.p, c.people)).value;
    } else {
      var fs := Without(c.people.followers, c.p.before.assignee);
      var cs := VerifiedAll(AssigneeChanged, fs, None, c.name);
      var i := RowSource(c.p.after, Some(c.actor), UsersOf(change + waiting), cs, row);
      WithoutLacks(c.people.followers, c.p.before.assignee);
      r := fs[i];
      assert r in fs;
    }
  }

  // A plan without routing loses nobody to the recheck: everybody it tells may open
  // what the transaction stored.
  lemma UnroutedPlanLosesNobody(
      c: Case, snap: Snapshot, cmd: Command, now: Instant, isSpace: char -> bool, pick: Selection, names: UserId -> string,
      members: Members, users: Directory, startedAt: Instant)
    requires Planned(c, snap, cmd, now, isSpace) && FactsHold(c, members, users) && !Routed(c.p.ops)
    ensures KeepAdmitted(c.Rows(pick, names), StoredTicket(c, pick), c.d, StoredRun(c, startedAt), members, users) == c.Rows(pick, names)
    ensures c.Rows(pick, names) == c.Batch()
  {
    FinalHolder(c, snap, cmd, now, isSpace, pick, names);
    UnroutedRows(c, pick, names);
    var t, run := StoredTicket(c, pick), StoredRun(c, startedAt);
    forall row | row in c.Batch()
      ensures Admits(t, c.d, run, members, users, row.user)
    {
      var r := BatchPerson(c, row);
      if r in c.people.followers {
        FollowerTestAgrees(c, snap, cmd, now, isSpace, pick, names, users(r.user).value, members, startedAt);
      } else {
        NamedAdmitted(c, r, t, run, members, users);
      }
    }
    AllAdmitted(c.Batch(), t, c.d, run, members, users);
  }

  lemma NamedAdmitted(c: Case, r: Recipient, t: TicketRow, run: Run, members: Members, users: Directory)
    requires CanOpen(r, c.p.after) && Vouched(users, r)
    requires t.requester == c.p.after.requester && t.assignee == c.p.after.assignee
    ensures Admits(t, c.d, run, members, users, r.user)
  {
  }

  lemma {:induction false} AllAdmitted(rows: seq<Row>, t: TicketRow, d: Definition, run: Run, members: Members,
      users: Directory)
    requires forall row :: row in rows ==> Admits(t, d, run, members, users, row.user)
    ensures KeepAdmitted(rows, t, d, run, members, users) == rows
  {
    if rows != [] {
      AllAdmitted(rows[1..], t, d, run, members, users);
    }
  }

  lemma UnroutedRows(c: Case, pick: Selection, names: UserId -> string)
    requires !Routed(c.p.ops)
    ensures c.Rows(pick, names) == c.Batch()
  {
    StampedTemplates(c);
    UnroutedNothing(Start(c.p, c.Notices()), c.Notices().ops, |c.p.ops|, pick, names);
  }

  lemma {:induction false} UnroutedNothing(start: Routing, ops: seq<Operation>, k: nat, pick: Selection,
      names: UserId -> string)
    requires k <= |ops| && forall i :: 0 <= i < |ops| ==> !ops[i].LeastLoadedAssignment?
    ensures After(start, ops, k, pick, names).rows == start.rows
  {
    if k > 0 {
      UnroutedNothing(start, ops, k - 1, pick, names);
    }
  }

  // The person a routed plan ends with is active staff of the desk, so the recheck
  // keeps every row about their turn.
  lemma FinalSelectionAdmitted(
      c: Case, snap: Snapshot, cmd: Command, now: Instant, isSpace: char -> bool, pick: Selection, names: UserId -> string,
      members: Members, users: Directory, startedAt: Instant, who: UserId)
    requires Planned(c, snap, cmd, now, isSpace) && c.LastPick(pick) == Some(who)
    requires users(who).Some? && users(who).value.id == who && users(who).value.active && users(who).value.role in {AgentRole, AdminRole, RootRole}
    ensures Admits(StoredTicket(c, pick), c.d, StoredRun(c, startedAt), members, users, who)
  {
    FinalHolder(c, snap, cmd, now, isSpace, pick, names);
  }
}
