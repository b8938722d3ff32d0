/**
Every row a completion collects and stores, in closed form: who is told what, by the
operations of the plan and the selections of the transaction, without the code that
collects the rows (internal/application/workflow_runner.go, the tail of PlanComplete,
and internal/adapters/sqlite/workflow_uow.go, applyWorkflowOperations).
*/
module RoutingNotices {
  import opened Core
  import opened Tickets
  import opened Workflow
  import opened Runner
  import opened PlanFacts
  import opened PlanRecheck
  import opened Policy
  import opened Notifications
  import opened NotificationFacts
  import opened PlanNotices
  import opened PlanNoticeFacts
  import opened PlanNoticeResults
  import opened PlanAccess
  import opened PlanStoredNotices

  // ---- Moves -------------------------------------------------------------------------

  // Routing operation `i` selects somebody who does not hold the ticket then.
  predicate MovesAt(start: Routing, ops: seq<Operation>, i: nat, pick: Selection, names: UserId -> string) {
    i < |ops| && ops[i].LeastLoadedAssignment? && MovesOnto(start, ops, i, pick(ops[i].step), pick, names)
  }

  predicate MovedBefore(start: Routing, ops: seq<Operation>, k: nat, pick: Selection, names: UserId -> string) {
    exists i: nat :: i < k && MovesAt(start, ops, i, pick, names)
  }

  // The followers of one operation: all but the actor, the selected person and whoever
  // is told already.
  lemma {:induction false} FollowersExactly(template: AssigneeTemplate, selected: UserId, name: string, told: set<UserId>, k: nat,
      row: Row)
    requires k <= |template.followers|
    ensures var (rows, told') := FollowerRows(template, selected, name, told, k); var f := row.user;
            && (row in rows <==>
                  && f in template.followers[..k] && f !in told && f != selected && f != template.actor
                  && row == Row(f, AssigneeChanged, Some(template.actor), None, Some(NameFact(name)), None))
            && (f in told' <==> f in told || (f in template.followers[..k] && f != selected && f != template.actor))
  {
    if k > 0 {
      FollowersExactly(template, selected, name, told, k - 1, row);
      assert template.followers[..k] == template.followers[..k - 1] + [template.followers[k - 1]];
    }
  }

  // The rows one routing operation adds.
  predicate OpRow(r: Routing, op: Operation, pick: Selection, names: UserId -> string, row: Row)
    requires op.LeastLoadedAssignment? && op.template.Some?
  {
    var t, selected := op.template.value, pick(op.step);
    var moved := r.assignee != Some(selected);
    || (moved && selected != t.actor && row == Row(selected, AssignedKind, Some(t.actor), None, None, None))
    || (t.formWaitingStep.Some? && selected != t.actor && row == Row(selected, FormWaiting, Some(t.actor), None, None, t.formWaitingStep))
    || (moved && row.user in t.followers && row.user !in r.told && row.user != selected && row.user != t.actor
        && row == Row(row.user, AssigneeChanged, Some(t.actor), None, Some(NameFact(names(selected))), None))
  }

  lemma OpRows(r: Routing, op: Operation, pick: Selection, names: UserId -> string, row: Row)
    requires op.LeastLoadedAssignment? && op.template.Some?
    ensures row in RouteOp(r, op, pick, names).rows <==> row in r.rows || OpRow(r, op, pick, names, row)
    ensures row.user in RouteOp(r, op, pick, names).told <==>
            || row.user in r.told
            || (row.user == pick(op.step) && row.user != op.template.value.actor &&
                (r.assignee != Some(row.user) || op.template.value.formWaitingStep.Some?))
            || (r.assignee != Some(pick(op.step)) && row.user in op.template.value.followers
                && row.user != pick(op.step) && row.user != op.template.value.actor)
  {
    var t, selected := op.template.value, pick(op.step);
    var moved := r.assignee != Some(selected);
    var own := OwnRows(t, selected, moved);
    var told := if own == [] then r.told else r.told + {selected};
    assert t.followers[..|t.followers|] == t.followers;
    FollowersExactly(t, selected, names(selected), told, |t.followers|, row);
    OwnExactly(t, selected, moved, row);
  }

  lemma OwnExactly(t: AssigneeTemplate, selected: UserId, moved: bool, row: Row)
    ensures var own := OwnRows(t, selected, moved);
            && (own != [] <==> t.actor != selected && (moved || t.formWaitingStep.Some?))
            && (row in own <==>
                  && t.actor != selected
                  && ((moved && row == Row(selected, AssignedKind, Some(t.actor), None, None, None))
                      || (t.formWaitingStep.Some? && row == Row(selected, FormWaiting, Some(t.actor), None, None, t.formWaitingStep))))
  {
  }

  // ---- The rows of the routing operations -------------------------------------------

  // Before the first move nobody but the start's people is told, and after it every
  // follower is.
  lemma {:induction false} ToldByFirstMove(start: Routing, ops: seq<Operation>, k: nat, actor: UserId, followers: seq<UserId>,
      form: Option<nat>, pick: Selection, names: UserId -> string, who: UserId)
    requires k <= |ops| && Templated(ops, actor, followers, form) && who in followers && who != actor
    ensures MovedBefore(start, ops, k, pick, names) ==> who in After(start, ops, k, pick, names).told
    ensures !MovedBefore(start, ops, k, pick, names) && k <= LastRouting(ops) ==>
              (who in After(start, ops, k, pick, names).told <==> who in start.told)
    decreases k
  {
    LastRoutingIs(ops);
    if k > 0 {
      ToldByFirstMove(start, ops, k - 1, actor, followers, form, pick, names, who);
      assert MovedBefore(start, ops, k, pick, names) <==>
             MovedBefore(start, ops, k - 1, pick, names) || MovesAt(start, ops, k - 1, pick, names);
      if ops[k - 1].LeastLoadedAssignment? {
        OpRows(After(start, ops, k - 1, pick, names), ops[k - 1], pick, names, Row(who, AssignedKind, None, None, None, None));
      }
    }
  }

  // The first move, and only it, tells the followers: of the person it selects.
  predicate FirstMoveRow(start: Routing, ops: seq<Operation>, i: nat, actor: UserId, followers: seq<UserId>, pick: Selection,
      names: UserId -> string, row: Row)
  {
    && MovesAt(start, ops, i, pick, names) && !MovedBefore(start, ops, i, pick, names)
    && row.user in followers && row.user != actor && row.user !in start.told && row.user != pick(ops[i].step)
    && row == Row(row.user, AssigneeChanged, Some(actor), None, Some(NameFact(names(pick(ops[i].step)))), None)
  }

  // The person a move selects is told so.
  predicate AssignedRow(start: Routing, ops: seq<Operation>, i: nat, actor: UserId, pick: Selection, names: UserId -> string,
      row: Row)
  {
    && MovesAt(start, ops, i, pick, names) && row.user == pick(ops[i].step) && row.user != actor
    && row == Row(row.user, AssignedKind, Some(actor), None, None, None)
  }

  // The person the last operation selects is told that the pending form waits on them.
  predicate TurnRow(ops: seq<Operation>, i: nat, actor: UserId, form: Option<nat>, pick: Selection, row: Row) {
    && i < |ops| && ops[i].LeastLoadedAssignment? && i == LastRouting(ops) && form.Some?
    && row.user == pick(ops[i].step) && row.user != actor
    && row == Row(row.user, FormWaiting, Some(actor), None, None, form)
  }

  predicate RoutingRowAt(start: Routing, ops: seq<Operation>, i: nat, actor: UserId, followers: seq<UserId>, form: Option<nat>,
      pick: Selection, names: UserId -> string, row: Row)
  {
    || AssignedRow(start, ops, i, actor, pick, names, row)
    || TurnRow(ops, i, actor, form, pick, row)
    || FirstMoveRow(start, ops, i, actor, followers, pick, names, row)
  }

  lemma OpRowIs(start: Routing, ops: seq<Operation>, i: nat, actor: UserId, followers: seq<UserId>, form: Option<nat>,
      pick: Selection, names: UserId -> string, row: Row)
    requires i < |ops| && ops[i].LeastLoadedAssignment? && Templated(ops, actor, followers, form)
    ensures OpRow(After(start, ops, i, pick, names), ops[i], pick, names, row) <==>
            RoutingRowAt(start, ops, i, actor, followers, form, pick, names, row)
  {
    LastRoutingIs(ops);
    if row.user in followers && row.user != actor {
      ToldByFirstMove(start, ops, i, actor, followers, form, pick, names, row.user);
      if row.user in start.told {
        StartStaysTold(start, ops, i, actor, followers, form, pick, names, row.user);
      }
    }
  }

  lemma {:induction false} StartStaysTold(start: Routing, ops: seq<Operation>, k: nat, actor: UserId, followers: seq<UserId>,
      form: Option<nat>, pick: Selection, names: UserId -> string, who: UserId)
    requires k <= |ops| && Templated(ops, actor, followers, form) && who in start.told
    ensures who in After(start, ops, k, pick, names).told
    decreases k
  {
    if k > 0 {
      StartStaysTold(start, ops, k - 1, actor, followers, form, pick, names, who);
      if ops[k - 1].LeastLoadedAssignment? {
        OpRows(After(start, ops, k - 1, pick, names), ops[k - 1], pick, names, Row(who, AssignedKind, None, None, None, None));
      }
    }
  }

  lemma {:induction false} RoutingRows(start: Routing, ops: seq<Operation>, k: nat, actor: UserId, followers: seq<UserId>,
      form: Option<nat>, pick: Selection, names: UserId -> string, row: Row)
    requires k <= |ops| && start.rows == [] && Templated(ops, actor, followers, form)
    ensures row in After(start, ops, k, pick, names).rows <==>
            exists i: nat :: i < k && RoutingRowAt(start, ops, i, actor, followers, form, pick, names, row)
    decreases k
  {
    if k > 0 {
      RoutingRows(start, ops, k - 1, actor, followers, form, pick, names, row);
      RoutingStep(start, ops, k - 1, actor, followers, form, pick, names, row);
    }
  }

  lemma RoutingStep(start: Routing, ops: seq<Operation>, i: nat, actor: UserId, followers: seq<UserId>, form: Option<nat>,
      pick: Selection, names: UserId -> string, row: Row)
    requires i < |ops| && Templated(ops, actor, followers, form)
    ensures row in After(start, ops, i + 1, pick, names).rows <==>
            row in After(start, ops, i, pick, names).rows || RoutingRowAt(start, ops, i, actor, followers, form, pick, names, row)
  {
    if ops[i].LeastLoadedAssignment? {
      OpRows(After(start, ops, i, pick, names), ops[i], pick, names, row);
      OpRowIs(start, ops, i, actor, followers, form, pick, names, row);
    }
  }

  // ---- The rows of the plan ----------------------------------------------------------

  // Somebody is told of the pending form: the requester of a requester form, the holder
  // of an assignee form when the plan leaves the holder alone.
  predicate WaitingRowOf(c: Case, row: Row) {
    var form := PendingForm(c.d, c.p.nextCursor);
    && row.user != c.actor && row == Row(row.user, FormWaiting, Some(c.actor), None, None, Some(c.p.nextCursor))
    && ((form == Some(ByRequester) && NamedAs(c.people.requester, c.p.after, row.user))
        || (form == Some(ByAssignee) && !Routed(c.p.ops) && NamedAs(c.Holder(), c.p.after, row.user)))
  }

  predicate StateRowOf(c: Case, row: Row) {
    StateRow(c.p.after, c.p.before.state, c.p.after.state, Some(c.actor),
             Recipients(c.people.requester, c.Holder(), c.people.followers, []), row)
  }

  lemma StateRows(c: Case, row: Row)
    ensures row in ChangePart(c.p, c.actor, c.people) <==> StateRowOf(c, row)
  {
    StateChangeTells(c.p.after, c.p.before.state, c.p.after.state, Some(c.actor),
                     Recipients(c.people.requester, c.Holder(), c.people.followers, []), row);
  }

  // The plan tells this person of the state or of the form.
  predicate HearsOfPlan(c: Case, who: UserId) {
    var form := PendingForm(c.d, c.p.nextCursor);
    && who != c.actor
    && var asRequester, asHolder := NamedAs(c.people.requester, c.p.after, who), NamedAs(c.Holder(), c.p.after, who);
       || (c.p.before.state != c.p.after.state && (asRequester || asHolder || OnList(c.people.followers, who)))
       || (form == Some(ByRequester) && asRequester)
       || (form == Some(ByAssignee) && !Routed(c.p.ops) && asHolder)
  }

  // Of the others, the followers are told who claimed the ticket, but for the person it
  // is taken from.
  predicate HearsOfClaim(c: Case, who: UserId) {
    && (exists i: nat :: i < |c.p.ops| && FirstClaim(c.p.ops, i) && c.p.before.assignee != Some(c.p.ops[i].assignee))
    && who != c.actor && c.p.before.assignee != Some(who) && OnList(c.people.followers, who) && !HearsOfPlan(c, who)
  }

  predicate FirstClaim(ops: seq<Operation>, i: nat) {
    i < |ops| && ops[i].ClaimAssignment? && forall j :: 0 <= j < i ==> !ops[j].ClaimAssignment?
  }

  predicate ClaimRowOf(c: Case, row: Row) {
    HearsOfClaim(c, row.user) && row == Row(row.user, AssigneeChanged, Some(c.actor), None, c.name, None)
  }

  lemma WaitingRows(c: Case, row: Row)
    ensures row in WaitingPart(c.d, c.p, c.actor, c.people) <==> WaitingRowOf(c, row)
  {
    var who := WaitsOn(c.d, c.p.nextCursor, c.people.requester, FormAssignee(c.d, c.p, c.people));
    WaitingRow(c.p.after, c.d, c.p.nextCursor, c.actor, c.people.requester, FormAssignee(c.d, c.p, c.people));
    if who.Some? {
      OpensAsPolicySays(who.value, c.p.after);
    }
  }

  lemma EarlierRows(c: Case, who: UserId)
    ensures who in UsersOf(ChangePart(c.p, c.actor, c.people) + WaitingPart(c.d, c.p, c.actor, c.people)) <==> HearsOfPlan(c, who)
  {
    var change, waiting := ChangePart(c.p, c.actor, c.people), WaitingPart(c.d, c.p, c.actor, c.people);
    UsersAppend(change, waiting);
    forall row: Row
      ensures row in change <==> StateRowOf(c, row)
      ensures row in waiting <==> WaitingRowOf(c, row)
    {
      StateRows(c, row);
      WaitingRows(c, row);
    }
    UsersIff(change, who);
    UsersIff(waiting, who);
    if HearsOfPlan(c, who) {
      var row := PlanRowFor(c, who);
    }
  }

  lemma UsersIff(rows: seq<Row>, who: UserId)
    ensures who in UsersOf(rows) <==> exists row :: row in rows && row.user == who
  {
  }

  lemma PlanRowFor(c: Case, who: UserId) returns (row: Row)
    requires HearsOfPlan(c, who)
    ensures row.user == who && (StateRowOf(c, row) || WaitingRowOf(c, row))
  {
    var asRequester, asHolder := NamedAs(c.people.requester, c.p.after, who), NamedAs(c.Holder(), c.p.after, who);
    if c.p.before.state != c.p.after.state && (asRequester || asHolder || OnList(c.people.followers, who)) {
      row := Row(who, if asRequester && c.p.after.state == Resolved then AwaitingConfirmation else StateChanged,
                 Some(c.actor), Some(StateFact(c.p.before.state)), Some(StateFact(c.p.after.state)), None);
    } else {
      row := Row(who, FormWaiting, Some(c.actor), None, None, Some(c.p.nextCursor));
    }
  }

  lemma {:induction false} ClaimantIs(ops: seq<Operation>)
    ensures Claimant(ops).Some? <==> exists i: nat :: FirstClaim(ops, i)
    ensures forall i: nat :: FirstClaim(ops, i) ==> Claimant(ops) == Some(ops[i].assignee)
  {
    if ops != [] && ops[0].ClaimAssignment? {
      assert FirstClaim(ops, 0);
    } else if ops != [] {
      var rest := ops[1..];
      ClaimantIs(rest);
      assert forall i :: 0 <= i < |rest| ==> rest[i] == ops[i + 1];
      forall i: nat | FirstClaim(ops, i)
        ensures FirstClaim(rest, i - 1)
      {
        assert forall j :: 0 <= j < i - 1 ==> rest[j] == ops[j + 1];
      }
      forall i: nat | FirstClaim(rest, i)
        ensures FirstClaim(ops, i + 1)
      {
        assert forall j :: 0 < j < i + 1 ==> ops[j] == rest[j - 1];
      }
    }
  }

  lemma ListedWithout(rs: seq<Recipient>, out: Option<UserId>, who: UserId)
    ensures OnList(Without(rs, out), who) <==> OnList(rs, who) && out != Some(who)
  {
    var kept := Without(rs, out);
    WithoutLacks(rs, out);
    if i :| 0 <= i < |kept| && OnListAt(kept[i], who) {
      assert kept[i] in kept;
      var k :| 0 <= k < |rs| && rs[k] == kept[i];
      assert OnListAt(rs[k], who);
    }
    if i :| 0 <= i < |rs| && OnListAt(rs[i], who) && out != Some(who) {
      assert rs[i] in kept;
      var k :| 0 <= k < |kept| && kept[k] == rs[i];
      assert OnListAt(kept[k], who);
    }
  }

  lemma ClaimRowsExactly(c: Case, row: Row)
    ensures row in ClaimPart(c.d, c.p, c.actor, c.name, c.people) <==> ClaimRowOf(c, row)
  {
    var existing := ChangePart(c.p, c.actor, c.people) + WaitingPart(c.d, c.p, c.actor, c.people);
    var rs := Without(c.people.followers, c.p.before.assignee);
    var cs := VerifiedAll(AssigneeChanged, rs, None, c.name);
    EarlierRows(c, row.user);
    ClaimantIs(c.p.ops);
    ListedWithout(c.people.followers, c.p.before.assignee, row.user);
    OfferedListed(c.p.after, AssigneeChanged, rs, None, c.name, row.user);
    TwoBlocks(c.p.after, Some(c.actor), UsersOf(existing), cs, [], AssigneeChanged, AssigneeChanged, None, c.name, row);
    assert cs + [] == cs;
    assert !Offered(c.p.after, [], row.user);
  }

  // The planned rows, before the holder's are made conditional.
  predicate PlanRow(c: Case, row: Row) { StateRowOf(c, row) || WaitingRowOf(c, row) || ClaimRowOf(c, row) }

  lemma PlanRows(c: Case, row: Row)
    ensures row in c.Batch() <==> PlanRow(c, row)
  {
    var change, waiting := ChangePart(c.p, c.actor, c.people), WaitingPart(c.d, c.p, c.actor, c.people);
    var claim := ClaimPart(c.d, c.p, c.actor, c.name, c.people);
    assert c.Batch() == change + waiting + claim;
    StateRows(c, row);
    WaitingRows(c, row);
    ClaimRowsExactly(c, row);
  }

  lemma PlanTold(c: Case, who: UserId)
    ensures who in UsersOf(c.Batch()) <==> HearsOfPlan(c, who) || HearsOfClaim(c, who)
  {
    forall row: Row
      ensures row in c.Batch() <==> PlanRow(c, row)
    {
      PlanRows(c, row);
    }
    UsersIff(c.Batch(), who);
    if who in UsersOf(c.Batch()) {
      var row :| row in c.Batch() && row.user == who;
      assert PlanRow(c, row);
    }
    if HearsOfPlan(c, who) {
      var row := PlanRowFor(c, who);
      assert row in c.Batch();
    }
    if HearsOfClaim(c, who) {
      assert Row(who, AssigneeChanged, Some(c.actor), None, c.name, None) in c.Batch();
    }
  }

  // ---- Everything --------------------------------------------------------------------

  // The operation gives the ticket to the claimant or to the selected person.
  function HolderAfter(holder: Option<UserId>, op: Operation, pick: Selection): Option<UserId> {
    match op
    case ClaimAssignment(_, _, who, _, _) => Some(who)
    case LeastLoadedAssignment(step, _, _) => Some(pick(step))
    case _ => holder
  }

  // Who holds the ticket before operation `i`.
  function HolderBefore(c: Case, i: nat, pick: Selection): Option<UserId>
    requires i <= |c.p.ops|
  {
    if i == 0 then c.p.before.assignee else HolderAfter(HolderBefore(c, i - 1, pick), c.p.ops[i - 1], pick)
  }

  // The routing operation gives the ticket to somebody who does not hold it.
  predicate Moved(c: Case, i: nat, pick: Selection) {
    && i < |c.p.ops| && c.p.ops[i].LeastLoadedAssignment?
    && HolderBefore(c, i, pick) != Some(pick(c.p.ops[i].step))
  }

  // What a routing operation tells: the person it gives the ticket to that it is theirs;
  // the person the last one selects that an assignee form waits on them; and if it is the
  // first to move the ticket, the followers nothing else tells, whom it names the person
  // it selects, even when a later operation moves the ticket on.
  predicate RoutingRow(c: Case, i: nat, pick: Selection, names: UserId -> string, row: Row) {
    && i < |c.p.ops| && c.p.ops[i].LeastLoadedAssignment? && row.user != c.actor
    && var selected := pick(c.p.ops[i].step);
       || (Moved(c, i, pick) && row == Row(selected, AssignedKind, Some(c.actor), None, None, None))
       || (&& PendingForm(c.d, c.p.nextCursor) == Some(ByAssignee)
           && (forall j :: i < j < |c.p.ops| ==> !c.p.ops[j].LeastLoadedAssignment?)
           && row == Row(selected, FormWaiting, Some(c.actor), None, None, Some(c.p.nextCursor)))
       || (&& Moved(c, i, pick) && (forall j: nat :: j < i ==> !Moved(c, j, pick))
           && row.user != selected && c.p.before.assignee != Some(row.user) && Follows(c.people.followers, row.user)
           && !HearsOfPlan(c, row.user) && !HearsOfClaim(c, row.user)
           && row == Row(row.user, AssigneeChanged, Some(c.actor), None, Some(NameFact(names(selected))), None))
  }

  predicate Follows(rs: seq<Recipient>, who: UserId) {
    exists i :: 0 <= i < |rs| && rs[i].user == who
  }

  lemma RoutedHolder(r: Routing, stamped: Operation, op: Operation, pick: Selection, names: UserId -> string)
    requires stamped == op || (stamped.LeastLoadedAssignment? && op.LeastLoadedAssignment? && stamped.step == op.step)
    ensures RouteOp(r, stamped, pick, names).assignee == HolderAfter(r.assignee, op, pick)
  {
  }

  lemma {:induction false} HolderBeforeIs(c: Case, k: nat, pick: Selection, names: UserId -> string)
    requires k <= |c.p.ops| && |c.Notices().ops| == |c.p.ops|
    ensures After(Start(c.p, c.Notices()), c.Notices().ops, k, pick, names).assignee == HolderBefore(c, k, pick)
    decreases k
  {
    if k > 0 {
      HolderBeforeIs(c, k - 1, pick, names);
      StampedTemplates(c);
      var before := After(Start(c.p, c.Notices()), c.Notices().ops, k - 1, pick, names);
      RoutedHolder(before, c.Notices().ops[k - 1], c.p.ops[k - 1], pick, names);
    }
  }

  lemma MovedIs(c: Case, i: nat, pick: Selection, names: UserId -> string)
    ensures MovesAt(Start(c.p, c.Notices()), c.Notices().ops, i, pick, names) <==> Moved(c, i, pick)
  {
    StampedTemplates(c);
    if i < |c.p.ops| {
      HolderBeforeIs(c, i, pick, names);
    }
  }

  lemma FollowsIs(c: Case, who: UserId)
    ensures who in c.Told() <==> Follows(c.people.followers, who) && c.p.before.assignee != Some(who)
  {
    var rs, out := c.people.followers, c.p.before.assignee;
    var kept := Without(rs, out);
    WithoutLacks(rs, out);
    if i :| 0 <= i < |kept| && kept[i].user == who {
      assert kept[i] in kept;
    }
    if i :| 0 <= i < |rs| && rs[i].user == who && out != Some(who) {
      assert rs[i] in kept;
      var k :| 0 <= k < |kept| && kept[k] == rs[i];
      assert c.Told()[k] == who;
    }
  }

  lemma RoutingRowIs(c: Case, i: nat, pick: Selection, names: UserId -> string, row: Row)
    ensures RoutingRowAt(Start(c.p, c.Notices()), c.Notices().ops, i, c.actor, c.Told(), c.Form(), pick, names, row) <==>
            RoutingRow(c, i, pick, names, row)
  {
    var start, ops := Start(c.p, c.Notices()), c.Notices().ops;
    StampedTemplates(c);
    StartTold(c);
    PlanTold(c, row.user);
    FollowsIs(c, row.user);
    LastRoutingIs(c.p.ops);
    MovedIs(c, i, pick, names);
    forall j: nat
      ensures MovesAt(start, ops, j, pick, names) <==> Moved(c, j, pick)
    {
      MovedIs(c, j, pick, names);
    }
    if i < |c.p.ops| && c.p.ops[i].LeastLoadedAssignment? {
      assert i == LastRouting(ops) <==> forall j :: i < j < |c.p.ops| ==> !c.p.ops[j].LeastLoadedAssignment?;
    }
  }

  // The person held the ticket when a routed plan was made, and it ends with somebody
  // else.
  predicate HeldBack(c: Case, pick: Selection, who: UserId) {
    Routed(c.p.ops) && c.Holder().Some? && c.Holder().value.user == who && c.LastPick(pick) != Some(who)
  }

  lemma {:induction false} RowsToIs(rows: seq<Row>, who: UserId, row: Row)
    ensures row in RowsTo(rows, who) <==> row in rows && row.user == who
    ensures row in RowsToOthers(rows, who) <==> row in rows && row.user != who
  {
    if rows != [] {
      RowsToIs(rows[1..], who, row);
      assert rows == [rows[0]] + rows[1..];
    }
  }

  lemma CollectedRows(c: Case, snap: Snapshot, cmd: Command, now: Instant, isSpace: char -> bool, pick: Selection,
      names: UserId -> string, row: Row)
    requires Planned(c, snap, cmd, now, isSpace)
    ensures row in c.Rows(pick, names) <==>
            || (PlanRow(c, row) && !HeldBack(c, pick, row.user))
            || exists i: nat :: RoutingRow(c, i, pick, names, row)
  {
    FinalHolder(c, snap, cmd, now, isSpace, pick, names);
    PlanRows(c, row);
    EndRows(c, pick, names, row);
    if c.Holder().Some? {
      RowsToIs(c.Batch(), c.Holder().value.user, row);
    }
  }

  lemma EndRows(c: Case, pick: Selection, names: UserId -> string, row: Row)
    ensures row in c.End(pick, names).rows <==> exists i: nat :: RoutingRow(c, i, pick, names, row)
  {
    var start, ops := Start(c.p, c.Notices()), c.Notices().ops;
    StampedTemplates(c);
    RoutingRows(start, ops, |ops|, c.actor, c.Told(), c.Form(), pick, names, row);
    forall i: nat
      ensures RoutingRowAt(start, ops, i, c.actor, c.Told(), c.Form(), pick, names, row) <==> RoutingRow(c, i, pick, names, row)
    {
      RoutingRowIs(c, i, pick, names, row);
    }
  }

  lemma {:induction false} AdmittedRows(rows: seq<Row>, t: TicketRow, d: Definition, run: Run, members: Members, users: Directory,
      row: Row)
    ensures row in KeepAdmitted(rows, t, d, run, members, users) <==> row in rows && Admits(t, d, run, members, users, row.user)
  {
    if rows != [] {
      AdmittedRows(rows[1..], t, d, run, members, users, row);
      assert rows == [rows[0]] + rows[1..];
    }
  }

  // For every plan and every selection, the rows a completion stores: those of the plan,
  // but for a holder the routing takes the ticket from, and those of the routing, to
  // whoever may open the stored ticket.
  lemma StoredRowsExactly(c: Case, snap: Snapshot, cmd: Command, now: Instant, isSpace: char -> bool, pick: Selection,
      names: UserId -> string, a: Access, row: Row)
    requires Planned(c, snap, cmd, now, isSpace)
    ensures row in Stored(c, a, pick, names) <==>
            && Opens(c, a, pick, row.user)
            && ((PlanRow(c, row) && !HeldBack(c, pick, row.user)) || exists i: nat :: RoutingRow(c, i, pick, names, row))
  {
    OpensIff(c, snap, cmd, now, isSpace, pick, names, a, row.user);
    CollectedRows(c, snap, cmd, now, isSpace, pick, names, row);
    AdmittedRows(c.Rows(pick, names), StoredTicket(c, pick), c.d, StoredRun(c, a.startedAt), a.members, a.users, row);
  }

  // ---- A follower who is told of somebody who does not end with the ticket -----------

  // The three routing steps of RoutedThrice, followed by the administrator 9, with desks
  // of 8, of 5 and of 6.
  function Followed(): Case {
    RoutedThrice().(people := RoutedThrice().people.(followers := [Recipient(9, AdminRole, true, false)]))
  }

  function PickOn(step: nat): UserId { if step == 1 then 8 else if step == 2 then 5 else 6 }

  function StaffOf(desk: int): set<UserId> { if desk == 1 then {8} else if desk == 2 then {5} else {6} }

  function Known(who: UserId): Option<User> {
    Some(User(who, if who == 5 || who == 9 then AdminRole else if who == 7 then UserRole else AgentRole, true, false))
  }

  const FollowedSnap: Snapshot := Snapshot(Some(HeldByAdmin), Some(Run(0, Active, 0)), ThreeDesks())

  const FollowedFacts: StoreFacts := StoreFacts(HeldByAdmin, Run(0, Active, 0), ThreeDesks(), {5, 6, 7, 8}, {5, 6, 8}, StaffOf)

  lemma FollowedPlanned(isSpace: char -> bool)
    ensures Planned(Followed(), FollowedSnap, Submitted(), 0, isSpace)
  {
    ThricePlanned(isSpace);
  }

  lemma FollowedStaffed()
    ensures ValidDefinition(ThreeDesks()) && DesksStaffed(FollowedFacts, ThreeDesks(), 0, 4)
    ensures !StrandedTerminal(ThreeDesks(), InProgress, 0)
  {
    var f := FollowedFacts;
    assert 8 in f.Pool(1) && 5 in f.Pool(2) && 6 in f.Pool(3);
    assert WalkEnd(ThreeDesks(), 4) == 4 && WalkEnd(ThreeDesks(), 3) == 4 && WalkEnd(ThreeDesks(), 2) == 4;
  }

  lemma FollowedAccepted(isSpace: char -> bool)
    ensures Accepts(FollowedFacts, Submission(FollowedSnap, Submitted(), Followed().p), PickOn)
  {
    FollowedPlanned(isSpace);
    FollowedStaffed();
    StoreAcceptsPlan(FollowedFacts, FollowedSnap, Submitted(), 0, isSpace, Followed().p, PickOn);
  }

  lemma FirstOfThree(names: UserId -> string)
    ensures RoutingRow(Followed(), 2, PickOn, names, Row(9, AssigneeChanged, Some(7), None, Some(NameFact(names(8))), None))
  {
    var c := Followed();
    assert HolderBefore(c, 0, PickOn) == Some(5);
    assert HolderBefore(c, 1, PickOn) == Some(5);
    assert HolderBefore(c, 2, PickOn) == Some(5);
    assert Moved(c, 2, PickOn);
    assert c.people.followers[0].user == 9;
  }

  lemma LastIsSix()
    ensures Routed(Followed().p.ops) && Followed().LastPick(PickOn) == Some(6)
  {
    LastRoutingIs(Followed().p.ops);
    assert Followed().p.ops[4].LeastLoadedAssignment?;
  }

  lemma RoutingRowStored(c: Case, snap: Snapshot, cmd: Command, now: Instant, isSpace: char -> bool, pick: Selection,
      names: UserId -> string, a: Access, i: nat, row: Row)
    requires Planned(c, snap, cmd, now, isSpace) && RoutingRow(c, i, pick, names, row) && Opens(c, a, pick, row.user)
    ensures row in Stored(c, a, pick, names) && (Routed(c.p.ops) ==> StoredTicket(c, pick).assignee == c.LastPick(pick))
  {
    StoredRowsExactly(c, snap, cmd, now, isSpace, pick, names, a, row);
    FinalHolder(c, snap, cmd, now, isSpace, pick, names);
  }

  lemma FollowerOpens()
    ensures Opens(Followed(), Access(StaffOf, Known, 0), PickOn, 9)
  {
  }

  // A plan the store accepts whose routing gives the ticket to 8, then to 5, and in the
  // end to 6, and which tells a follower that 8 holds it.
  lemma FollowersHearFirst(isSpace: char -> bool, names: UserId -> string)
    ensures var c := Followed();
            && Planned(c, FollowedSnap, Submitted(), 0, isSpace)
            && Accepts(FollowedFacts, Submission(FollowedSnap, Submitted(), c.p), PickOn)
            && StoredTicket(c, PickOn).assignee == Some(6)
            && Row(9, AssigneeChanged, Some(7), None, Some(NameFact(names(8))), None) in Stored(c, Access(StaffOf, Known, 0), PickOn, names)
  {
    FollowedPlanned(isSpace);
    FollowedAccepted(isSpace);
    FirstOfThree(names);
    FollowerOpens();
    LastIsSix();
    RoutingRowStored(Followed(), FollowedSnap, Submitted(), 0, isSpace, PickOn, names, Access(StaffOf, Known, 0), 2,
                     Row(9, AssigneeChanged, Some(7), None, Some(NameFact(names(8))), None));
  }
}
