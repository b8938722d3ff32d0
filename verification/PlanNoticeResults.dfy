/**
The rows a completion collects, for every plan of the runner and every selection
inside the transaction, before their recipients' access is proved again
(PlanStoredNotices says which of them are stored): who gets how many of each kind,
and that at most one person is told that the run waits on them, who may answer.
*/
module PlanNoticeResults {
  import opened Core
  import opened Tickets
  import opened Workflow
  import opened Runner
  import opened PlanFacts
  import opened WorkflowRuns
  import opened Notifications
  import opened PlanNotices
  import opened PlanNoticeFacts

  // ---- The submission as a whole ---------------------------------------------

  // One planned completion and the facts its notices were decided on.
  datatype Case = Case(d: Definition, p: CorePlan, actor: UserId, name: Option<Fact>, people: People)
  {
    function Notices(): Notices { NoticesOf(d, p, actor, name, people) }
    function Batch(): seq<Row> { Undivided(d, p, actor, name, people) }
    function Holder(): Option<Recipient> { AssigneeFacts(p.after, people.assignee) }
    function Form(): Option<nat> { if PendingForm(d, p.nextCursor) == Some(ByAssignee) then Some(p.nextCursor) else None }
    function Told(): seq<UserId> {
      var fs := Without(people.followers, p.before.assignee);
      seq(|fs|, j requires 0 <= j < |fs| => fs[j].user)
    }
    function End(pick: Selection, names: UserId -> string): Routing { Final(p, Notices(), pick, names) }
    function Rows(pick: Selection, names: UserId -> string): seq<Row> { AllRows(p, Notices(), pick, names) }
    // The person the last routing step selects.
    function LastPick(pick: Selection): Option<UserId> {
      var last := LastRouting(p.ops);
      if last >= 0 then Some(pick(p.ops[last].step)) else None
    }
    // How often the transaction moves the ticket onto a person.
    function MovedOnto(who: UserId, pick: Selection, names: UserId -> string): nat {
      Moves(Start(p, Notices()), Notices().ops, |Notices().ops|, who, pick, names)
    }
  }

  // The case comes from the runner, on a snapshot whose policy facts are about the
  // people its ticket names.
  ghost predicate Planned(c: Case, snap: Snapshot, cmd: Command, now: Instant, isSpace: char -> bool) {
    && PlanOf(snap, cmd, now, isSpace, c.p) && snap.workflow == c.d && ValidDefinition(c.d) && c.actor == cmd.actor
    && (c.people.requester.Some? ==> c.p.before.requester == Some(c.people.requester.value.user))
    && (c.people.assignee.Some? ==> c.p.before.assignee == Some(c.people.assignee.value.user))
  }

  lemma StampedTemplates(c: Case)
    ensures Templated(c.Notices().ops, c.actor, c.Told(), c.Form())
    ensures LastRouting(c.Notices().ops) == LastRouting(c.p.ops)
    ensures |c.Notices().ops| == |c.p.ops|
    ensures forall i :: 0 <= i < |c.p.ops| ==>
              c.Notices().ops[i].step == c.p.ops[i].step &&
              (c.Notices().ops[i].LeastLoadedAssignment? <==> c.p.ops[i].LeastLoadedAssignment?) &&
              (!c.p.ops[i].LeastLoadedAssignment? ==> c.Notices().ops[i] == c.p.ops[i])
  {
    var ops := c.Notices().ops;
    LastRoutingIs(ops);
    LastRoutingIs(c.p.ops);
    var a, b := LastRouting(ops), LastRouting(c.p.ops);
    if a >= 0 { assert c.p.ops[a].LeastLoadedAssignment?; }
    if b >= 0 { assert ops[b].LeastLoadedAssignment?; }
  }

  // The transaction starts from everybody the undivided batch addresses.
  lemma StartTold(c: Case)
    ensures Start(c.p, c.Notices()).told == UsersOf(c.Batch())
  {
    var all := c.Batch();
    if c.Holder().Some? && Routed(c.p.ops) {
      var h := c.Holder().value.user;
      UsersSplit(all, h);
      if RowsTo(all, h) == [] {
        assert UsersOf(RowsTo(all, h)) == {};
      }
    }
  }

  lemma {:induction false} UsersSplit(all: seq<Row>, holder: UserId)
    ensures UsersOf(RowsToOthers(all, holder)) + UsersOf(RowsTo(all, holder)) == UsersOf(all)
  {
    if all != [] {
      UsersSplit(all[1..], holder);
      UsersAppend([all[0]], all[1..]);
      assert all == [all[0]] + all[1..];
      UsersAppend([all[0]], RowsTo(all[1..], holder));
      UsersAppend([all[0]], RowsToOthers(all[1..], holder));
    }
  }

  // How many rows of each kind a person gets, in closed form.
  lemma RowCount(c: Case, who: UserId, kind: Kind, pick: Selection, names: UserId -> string)
    ensures var held := Routed(c.p.ops) && c.Holder().Some? && c.Holder().value.user == who && c.End(pick, names).assignee != Some(who);
            Count(c.Rows(pick, names), who, kind) ==
              Count(c.End(pick, names).rows, who, kind) + (if held then 0 else Count(c.Batch(), who, kind))
  {
    var n, end := c.Notices(), c.End(pick, names);
    var tail := if n.held.Some? && end.assignee == Some(n.held.value.holder) then n.held.value.rows else [];
    assert c.Rows(pick, names) == end.rows + n.rows + tail;
    CountAppend(end.rows + n.rows, tail, who, kind);
    CountAppend(end.rows, n.rows, who, kind);
    if c.Holder().Some? && Routed(c.p.ops) {
      CountSplit(c.Batch(), c.Holder().value.user, who, kind);
    }
  }

  // The counts of the rows the routing operations write.
  lemma EndCounts(c: Case, who: UserId, pick: Selection, names: UserId -> string)
    ensures var rows := c.End(pick, names).rows;
            && Count(rows, who, AssignedKind) == (if who == c.actor then 0 else c.MovedOnto(who, pick, names))
            && Count(rows, who, FormWaiting) ==
                 (if c.Form().Some? && c.LastPick(pick) == Some(who) && who != c.actor then 1 else 0)
            && Count(rows, who, AssigneeChanged) <=
                 (if who !in UsersOf(c.Batch()) && who in c.Told() && who != c.actor then 1 else 0)
            && OnlyKinds(rows, {AssignedKind, FormWaiting, AssigneeChanged})
    ensures Routed(c.p.ops) <==> c.LastPick(pick).Some?
  {
    var n := c.Notices();
    StampedTemplates(c);
    StartTold(c);
    LastRoutingIs(c.p.ops);
    RoutedRows(Start(c.p, n), n.ops, |n.ops|, c.actor, c.Told(), c.Form(), who, pick, names);
    RoutedTold(Start(c.p, n), n.ops, |n.ops|, pick, names);
  }

  // ---- Nobody hears one thing twice ------------------------------------------

  // Of every kind of row a person gets at most one, and the actor none; except
  // that a person is told `assigned` once for every time the routing moves the
  // ticket onto them.
  lemma CollectedPairs(c: Case, who: UserId, kind: Kind, pick: Selection, names: UserId -> string)
    ensures who == c.actor ==> Count(c.Rows(pick, names), who, kind) == 0
    ensures kind == AssignedKind && who != c.actor ==> Count(c.Rows(pick, names), who, kind) == c.MovedOnto(who, pick, names)
    ensures kind != AssignedKind ==> Count(c.Rows(pick, names), who, kind) <= 1
  {
    RowCount(c, who, kind, pick, names);
    EndCounts(c, who, pick, names);
    UndividedPairs(c.d, c.p, c.actor, c.name, c.people, who, kind);
    CountPositive(c.Batch(), who, kind);
    if kind !in {AssignedKind, FormWaiting, AssigneeChanged} {
      NoneOfKind(c.End(pick, names).rows, who, kind);
    }
  }

  // ---- Who holds the ticket in the end ----------------------------------------

  // The notices' transaction, the plan's replay and the stored row agree on it.
  lemma {:induction false} HolderAgrees(c: Case, k: nat, pick: Selection, names: UserId -> string)
    requires k <= |c.p.ops| && Replay(Facts(c.p.before), c.p.ops[..k], pick).Some?
    ensures |c.Notices().ops| == |c.p.ops|
    ensures After(Start(c.p, c.Notices()), c.Notices().ops, k, pick, names).assignee
         == Replay(Facts(c.p.before), c.p.ops[..k], pick).value.assignee
    decreases k
  {
    StampedTemplates(c);
    if k > 0 {
      ReplayPrefix(c.p, k, pick);
      HolderAgrees(c, k - 1, pick, names);
      HolderStep(After(Start(c.p, c.Notices()), c.Notices().ops, k - 1, pick, names), c.Notices().ops[k - 1],
                 Replay(Facts(c.p.before), c.p.ops[..k - 1], pick).value, c.p.ops[k - 1], pick, names);
    }
  }

  // One operation, with its template or without, moves the ticket to the same person.
  lemma HolderStep(r: Routing, stamped: Operation, at: Position, op: Operation, pick: Selection, names: UserId -> string)
    requires r.assignee == at.assignee && ApplyOp(at, op, pick).Some?
    requires stamped == op || (stamped.LeastLoadedAssignment? && op.LeastLoadedAssignment? && stamped.step == op.step)
    ensures RouteOp(r, stamped, pick, names).assignee == ApplyOp(at, op, pick).value.assignee
  {
  }

  // Replaying one operation more.
  lemma ReplayPrefix(p: CorePlan, k: nat, pick: Selection)
    requires 0 < k <= |p.ops| && Replay(Facts(p.before), p.ops[..k], pick).Some?
    ensures var before := Replay(Facts(p.before), p.ops[..k - 1], pick);
            before.Some? && Replay(Facts(p.before), p.ops[..k], pick) == ApplyOp(before.value, p.ops[k - 1], pick)
  {
    assert p.ops[..k] == p.ops[..k - 1] + [p.ops[k - 1]];
    ReplayAppend(Facts(p.before), p.ops[..k - 1], [p.ops[k - 1]], pick);
    ReplayShort(Replay(Facts(p.before), p.ops[..k - 1], pick).value, [p.ops[k - 1]], pick);
  }

  lemma {:induction false} StoredHolderAgrees(t: TicketRow, ops: seq<Operation>, pick: Selection)
    requires Replay(Facts(t), ops, pick).Some?
    ensures Facts(PersistedAll(t, ops, pick)) == Replay(Facts(t), ops, pick).value
    ensures PersistedAll(t, ops, pick).requester == t.requester
    decreases |ops|
  {
    if ops != [] {
      assert Facts(Persisted(t, ops[0], pick)) == ApplyOp(Facts(t), ops[0], pick).value;
      StoredHolderAgrees(Persisted(t, ops[0], pick), ops[1..], pick);
    }
  }

  // A claim is only ever the submitted step's own first operation.
  lemma ClaimsComeFirst(snap: Snapshot, cmd: Command, now: Instant, isSpace: char -> bool, p: CorePlan)
    requires PlanOf(snap, cmd, now, isSpace, p)
    ensures forall i :: 0 < i < |p.ops| ==> !p.ops[i].ClaimAssignment?
  {
    var d, t, step := snap.workflow, snap.ticket.value, p.expected;
    if !IsTerminal(d[step]) {
      var own, mid :| OwnStep(t, d[step], step, cmd, now, isSpace, own, mid) &&
                      Prepend(own, Advance(d, mid, step + 1, now)) == Ok(Walk(p.ops, p.nextCursor, p.after));
      AdvanceShape(d, mid, step + 1, now);
    }
  }

  // Without an assignment after operation `k`, the holder stays.
  lemma {:induction false} HolderStays(start: Routing, ops: seq<Operation>, j: nat, k: nat, pick: Selection,
      names: UserId -> string)
    requires j <= k <= |ops| && forall i :: j <= i < k ==> !Assigns(ops[i])
    ensures After(start, ops, k, pick, names).assignee == After(start, ops, j, pick, names).assignee
    decreases k - j
  {
    if j < k {
      HolderStays(start, ops, j, k - 1, pick, names);
    }
  }

  lemma LastPickHolds(c: Case, pick: Selection, names: UserId -> string)
    requires forall i :: 0 < i < |c.p.ops| ==> !c.p.ops[i].ClaimAssignment?
    ensures Routed(c.p.ops) <==> c.LastPick(pick).Some?
    ensures Routed(c.p.ops) ==> c.End(pick, names).assignee == c.LastPick(pick)
  {
    StampedTemplates(c);
    LastRoutingIs(c.p.ops);
    if Routed(c.p.ops) {
      HolderStays(Start(c.p, c.Notices()), c.Notices().ops, LastRouting(c.p.ops) + 1, |c.p.ops|, pick, names);
    }
  }

  // A routed ticket ends with the last routing step's selection, an unrouted one
  // with the planned assignee; and so does the stored row.
  lemma FinalHolder(c: Case, snap: Snapshot, cmd: Command, now: Instant, isSpace: char -> bool, pick: Selection,
      names: UserId -> string)
    requires Planned(c, snap, cmd, now, isSpace)
    ensures Routed(c.p.ops) <==> c.LastPick(pick).Some?
    ensures c.End(pick, names).assignee == if Routed(c.p.ops) then c.LastPick(pick) else c.p.after.assignee
    ensures c.End(pick, names).assignee == PersistedAll(c.p.before, c.p.ops, pick).assignee
    ensures PersistedAll(c.p.before, c.p.ops, pick).requester == c.p.before.requester == c.p.after.requester
    ensures PersistedAll(c.p.before, c.p.ops, pick).state == c.p.after.state
  {
    ClaimsComeFirst(snap, cmd, now, isSpace, c.p);
    LastPickHolds(c, pick, names);
    PlanReplays(c, snap, cmd, now, isSpace, pick);
    assert c.p.ops[..|c.p.ops|] == c.p.ops;
    HolderAgrees(c, |c.p.ops|, pick, names);
    StoredHolderAgrees(c.p.before, c.p.ops, pick);
  }

  lemma PlanReplays(c: Case, snap: Snapshot, cmd: Command, now: Instant, isSpace: char -> bool, pick: Selection)
    requires Planned(c, snap, cmd, now, isSpace)
    ensures var r := Replay(Facts(c.p.before), c.p.ops, pick);
            && r.Some? && r.value.state == c.p.after.state
            && (!Routed(c.p.ops) ==> r.value.assignee == c.p.after.assignee)
            && c.p.after.requester == c.p.before.requester
  {
    CompletionKeepsPromise(snap, cmd, now, isSpace, c.p, pick);
  }

  // ---- The person a routing step takes the ticket from ---------------------------

  lemma {:induction false} WithoutLacks(rs: seq<Recipient>, who: Option<UserId>)
    ensures forall r :: r in Without(rs, who) <==> r in rs && Some(r.user) != who
  {
    if rs != [] {
      WithoutLacks(rs[1..], who);
      assert rs == [rs[0]] + rs[1..];
    }
  }

  lemma NotTold(c: Case, who: UserId)
    requires c.p.before.assignee == Some(who)
    ensures who !in c.Told()
  {
    WithoutLacks(c.people.followers, c.p.before.assignee);
    var fs := Without(c.people.followers, c.p.before.assignee);
    assert forall j :: 0 <= j < |fs| ==> fs[j] in fs;
  }

  lemma AddressedByCount(rows: seq<Row>, who: UserId)
    ensures Addresses(rows, who) <==> exists kind: Kind :: Count(rows, who, kind) > 0
  {
    if i :| 0 <= i < |rows| && rows[i].user == who {
      CountPositive(rows, who, rows[i].kind);
    }
    if kind: Kind :| Count(rows, who, kind) > 0 {
      CountPositive(rows, who, kind);
    }
  }

  // The selections take the ticket away from `who` and later back to them.
  ghost predicate AwayAndBack(ops: seq<Operation>, k: nat, who: UserId, pick: Selection)
    requires k <= |ops|
  {
    exists i, j :: 0 <= i < j < k && Away(ops, i, who, pick) && Back(ops, j, who, pick)
  }

  predicate Away(ops: seq<Operation>, i: nat, who: UserId, pick: Selection)
    requires i < |ops|
  {
    ops[i].LeastLoadedAssignment? && pick(ops[i].step) != who
  }

  predicate Back(ops: seq<Operation>, i: nat, who: UserId, pick: Selection)
    requires i < |ops|
  {
    ops[i].LeastLoadedAssignment? && pick(ops[i].step) == who
  }

  lemma {:induction false} MovesAreReturns(start: Routing, ops: seq<Operation>, k: nat, who: UserId, pick: Selection,
      names: UserId -> string)
    requires k <= |ops| && start.assignee == Some(who)
    requires forall i :: 0 <= i < |ops| ==> !ops[i].ClaimAssignment?
    ensures After(start, ops, k, pick, names).assignee != Some(who) ==> exists i :: 0 <= i < k && Away(ops, i, who, pick)
    ensures After(start, ops, k, pick, names).assignee == Some(who) && (exists i :: 0 <= i < k && Away(ops, i, who, pick)) ==>
              Moves(start, ops, k, who, pick, names) > 0
    ensures Moves(start, ops, k, who, pick, names) > 0 <==> AwayAndBack(ops, k, who, pick)
    decreases k
  {
    if k > 0 {
      MovesAreReturns(start, ops, k - 1, who, pick, names);
      var before := After(start, ops, k - 1, pick, names);
      assert ops[k - 1].LeastLoadedAssignment? ==> Away(ops, k - 1, who, pick) || Back(ops, k - 1, who, pick);
      if MovesOnto(start, ops, k - 1, who, pick, names) {
        var i :| 0 <= i < k - 1 && Away(ops, i, who, pick);
        assert Back(ops, k - 1, who, pick);
      }
      if AwayAndBack(ops, k, who, pick) {
        var i, j :| 0 <= i < j < k && Away(ops, i, who, pick) && Back(ops, j, who, pick);
        if j < k - 1 {
          assert AwayAndBack(ops, k - 1, who, pick);
        } else if before.assignee != Some(who) {
          assert MovesOnto(start, ops, k - 1, who, pick, names);
        }
      }
    }
  }

  lemma ClaimAssignsActor(snap: Snapshot, cmd: Command, now: Instant, isSpace: char -> bool, p: CorePlan, i: nat)
    requires PlanOf(snap, cmd, now, isSpace, p) && i < |p.ops| && p.ops[i].ClaimAssignment?
    ensures p.after.assignee == Some(cmd.actor)
  {
    var d, t, step := snap.workflow, snap.ticket.value, p.expected;
    if !IsTerminal(d[step]) {
      ClaimsComeFirst(snap, cmd, now, isSpace, p);
      var own, mid :| OwnStep(t, d[step], step, cmd, now, isSpace, own, mid) &&
                      Prepend(own, Advance(d, mid, step + 1, now)) == Ok(Walk(p.ops, p.nextCursor, p.after));
      AdvanceShape(d, mid, step + 1, now);
      AdvanceEffect(d, mid, step + 1, now, n => 0);
      assert own[0] == p.ops[0];
    }
  }

  // A routed plan and the person who held the ticket when it was planned.  If the
  // ticket ends elsewhere they get no row at all, unless the selections took it
  // away from them and back on the way; then they get one `assigned` row for each
  // return and nothing else.  If the ticket ends with them, they get everything
  // the plan held back.
  lemma CollectedHolder(c: Case, snap: Snapshot, cmd: Command, now: Instant, isSpace: char -> bool, pick: Selection,
      names: UserId -> string)
    requires Planned(c, snap, cmd, now, isSpace) && Routed(c.p.ops) && c.Holder().Some?
    ensures var h := c.Holder().value.user;
            && (h != c.actor ==> (c.MovedOnto(h, pick, names) > 0 <==> AwayAndBack(c.p.ops, |c.p.ops|, h, pick)))
            && (c.LastPick(pick) != Some(h) ==>
                  && (Addresses(c.Rows(pick, names), h) <==> h != c.actor && AwayAndBack(c.p.ops, |c.p.ops|, h, pick))
                  && (forall kind: Kind :: Count(c.Rows(pick, names), h, kind) > 0 ==> kind == AssignedKind))
            && (c.LastPick(pick) == Some(h) ==>
                  forall kind: Kind :: kind != AssignedKind && kind != FormWaiting ==>
                    Count(c.Rows(pick, names), h, kind) == Count(c.Batch(), h, kind))
  {
    FinalHolder(c, snap, cmd, now, isSpace, pick, names);
    if c.Holder().value.user != c.actor {
      HolderMoves(c, snap, cmd, now, isSpace, pick, names);
    }
    HolderHears(c, pick, names);
  }

  lemma HolderHears(c: Case, pick: Selection, names: UserId -> string)
    requires Routed(c.p.ops) && c.Holder().Some? && c.p.before.assignee == Some(c.Holder().value.user)
    requires c.End(pick, names).assignee == c.LastPick(pick)
    ensures var h := c.Holder().value.user;
            && (c.LastPick(pick) != Some(h) ==>
                  && (Addresses(c.Rows(pick, names), h) <==> h != c.actor && c.MovedOnto(h, pick, names) > 0)
                  && (forall kind: Kind :: Count(c.Rows(pick, names), h, kind) > 0 ==> kind == AssignedKind))
            && (c.LastPick(pick) == Some(h) ==>
                  forall kind: Kind :: kind != AssignedKind && kind != FormWaiting ==>
                    Count(c.Rows(pick, names), h, kind) == Count(c.Batch(), h, kind))
  {
    var h := c.Holder().value.user;
    var rows := c.Rows(pick, names);
    forall kind: Kind
      ensures c.LastPick(pick) != Some(h) ==>
                Count(rows, h, kind) == if kind == AssignedKind && h != c.actor then c.MovedOnto(h, pick, names) else 0
      ensures c.LastPick(pick) == Some(h) && kind != AssignedKind && kind != FormWaiting ==>
                Count(rows, h, kind) == Count(c.Batch(), h, kind)
    {
      HolderCounts(c, kind, pick, names);
    }
    AddressedByCount(rows, h);
    if c.LastPick(pick) != Some(h) {
      CountPositive(rows, h, AssignedKind);
      HolderCounts(c, AssignedKind, pick, names);
      if Addresses(rows, h) {
        var kind: Kind :| Count(rows, h, kind) > 0;
        HolderCounts(c, kind, pick, names);
      } else {
        assert Count(rows, h, AssignedKind) == 0;
      }
    }
  }

  // The holder's rows of one kind.
  ghost predicate HolderCount(c: Case, kind: Kind, pick: Selection, names: UserId -> string)
    requires c.Holder().Some?
  {
    var h := c.Holder().value.user;
    var n := Count(c.Rows(pick, names), h, kind);
    && (c.LastPick(pick) != Some(h) ==> n == if kind == AssignedKind && h != c.actor then c.MovedOnto(h, pick, names) else 0)
    && (c.LastPick(pick) == Some(h) && kind != AssignedKind && kind != FormWaiting ==> n == Count(c.Batch(), h, kind))
  }

  lemma HolderCounts(c: Case, kind: Kind, pick: Selection, names: UserId -> string)
    requires Routed(c.p.ops) && c.Holder().Some? && c.p.before.assignee == Some(c.Holder().value.user)
    requires c.End(pick, names).assignee == c.LastPick(pick)
    ensures HolderCount(c, kind, pick, names)
  {
    var h := c.Holder().value.user;
    NotTold(c, h);
    EndCounts(c, h, pick, names);
    RowCount(c, h, kind, pick, names);
    if kind !in {AssignedKind, FormWaiting, AssigneeChanged} {
      NoneOfKind(c.End(pick, names).rows, h, kind);
    }
  }

  lemma HolderMoves(c: Case, snap: Snapshot, cmd: Command, now: Instant, isSpace: char -> bool, pick: Selection,
      names: UserId -> string)
    requires Planned(c, snap, cmd, now, isSpace) && c.Holder().Some? && c.Holder().value.user != c.actor
    ensures var h := c.Holder().value.user;
            c.MovedOnto(h, pick, names) > 0 <==> AwayAndBack(c.p.ops, |c.p.ops|, h, pick)
  {
    var h, ops := c.Holder().value.user, c.Notices().ops;
    StampedTemplates(c);
    forall i | 0 <= i < |ops|
      ensures !ops[i].ClaimAssignment?
    {
      if ops[i].ClaimAssignment? {
        ClaimAssignsActor(snap, cmd, now, isSpace, c.p, i);
      }
    }
    MovesAreReturns(Start(c.p, c.Notices()), ops, |ops|, h, pick, names);
    assert forall i :: 0 <= i < |ops| ==> (Away(ops, i, h, pick) <==> Away(c.p.ops, i, h, pick)) && (Back(ops, i, h, pick) <==> Back(c.p.ops, i, h, pick));
    if AwayAndBack(ops, |ops|, h, pick) {
      var i, j :| 0 <= i < j < |ops| && Away(ops, i, h, pick) && Back(ops, j, h, pick);
      assert Away(c.p.ops, i, h, pick) && Back(c.p.ops, j, h, pick);
    }
    if AwayAndBack(c.p.ops, |ops|, h, pick) {
      var i, j :| 0 <= i < j < |ops| && Away(c.p.ops, i, h, pick) && Back(c.p.ops, j, h, pick);
      assert Away(ops, i, h, pick) && Back(ops, j, h, pick);
    }
  }

  // ---- Whose turn it is -----------------------------------------------------------

  ghost predicate FormsOnly(rows: seq<Row>, form: Option<nat>, who: Option<UserId>) {
    forall row :: row in rows && row.kind == FormWaiting ==> form.Some? && row.step == form && who == Some(row.user)
  }

  lemma {:induction false} RoutedForms(start: Routing, ops: seq<Operation>, k: nat, actor: UserId,
      followers: seq<UserId>, form: Option<nat>, pick: Selection, names: UserId -> string)
    requires k <= |ops| && start.rows == [] && Templated(ops, actor, followers, form)
    ensures FormsOnly(After(start, ops, k, pick, names).rows, form,
                      if LastRouting(ops) >= 0 then Some(pick(ops[LastRouting(ops)].step)) else None)
    decreases k
  {
    if k > 0 {
      RoutedForms(start, ops, k - 1, actor, followers, form, pick, names);
      if ops[k - 1].LeastLoadedAssignment? {
        LastRoutingIs(ops);
        var r, template, selected := After(start, ops, k - 1, pick, names), ops[k - 1].template.value, pick(ops[k - 1].step);
        RouteOpAdds(r, ops[k - 1], pick, names);
        var (own, more) := AddedRows(r, template, selected, names);
        assert FormsOnly(more, form, None);
        assert FormsOnly(own, template.formWaitingStep, Some(selected));
      }
    }
  }

  lemma {:induction false} PartOf(all: seq<Row>, holder: UserId)
    ensures forall row :: row in RowsTo(all, holder) || row in RowsToOthers(all, holder) ==> row in all
  {
    if all != [] {
      PartOf(all[1..], holder);
    }
  }

  // The person may answer the pending form on the ticket the transaction leaves.
  predicate Answerable(c: Case, row: Row, pick: Selection) {
    && row.step == Some(c.p.nextCursor)
    && var form := PendingForm(c.d, c.p.nextCursor);
       form.Some? && MayAnswer(PersistedAll(c.p.before, c.p.ops, pick), form.value, row.user).Ok?
  }

  // Every `form_waiting` row names the pending form, and the person it tells is one
  // the planner accepts an answer from on the ticket the transaction leaves; and a
  // submission writes at most one.
  lemma FormRowAnswerable(c: Case, snap: Snapshot, cmd: Command, now: Instant, isSpace: char -> bool, pick: Selection,
      names: UserId -> string, row: Row)
    requires Planned(c, snap, cmd, now, isSpace) && row in c.Rows(pick, names) && row.kind == FormWaiting
    ensures Answerable(c, row, pick)
  {
    FinalHolder(c, snap, cmd, now, isSpace, pick, names);
    if row in c.End(pick, names).rows {
      EndForm(c, row, pick, names);
    } else {
      RowFromBatch(c, row, pick, names);
      BatchFormAnswerable(c, row, pick);
    }
  }

  lemma EndForm(c: Case, row: Row, pick: Selection, names: UserId -> string)
    requires row in c.End(pick, names).rows && row.kind == FormWaiting
    requires c.LastPick(pick).Some? ==> PersistedAll(c.p.before, c.p.ops, pick).assignee == c.LastPick(pick)
    ensures Answerable(c, row, pick)
  {
    var n := c.Notices();
    StampedTemplates(c);
    RoutedForms(Start(c.p, n), n.ops, |n.ops|, c.actor, c.Told(), c.Form(), pick, names);
  }

  lemma RowFromBatch(c: Case, row: Row, pick: Selection, names: UserId -> string)
    requires row in c.Rows(pick, names) && row !in c.End(pick, names).rows
    ensures row in c.Batch()
  {
    if c.Holder().Some? {
      PartOf(c.Batch(), c.Holder().value.user);
    }
  }

  lemma BatchFormAnswerable(c: Case, row: Row, pick: Selection)
    requires row in c.Batch() && row.kind == FormWaiting
    requires c.people.requester.Some? ==> c.p.before.requester == Some(c.people.requester.value.user)
    requires PersistedAll(c.p.before, c.p.ops, pick).requester == c.p.before.requester
    requires !Routed(c.p.ops) ==> PersistedAll(c.p.before, c.p.ops, pick).assignee == c.p.after.assignee
    ensures Answerable(c, row, pick)
  {
    BatchForm(c, row);
  }

  lemma BatchForm(c: Case, row: Row)
    requires row in c.Batch() && row.kind == FormWaiting
    ensures var who := WaitsOn(c.d, c.p.nextCursor, c.people.requester, FormAssignee(c.d, c.p, c.people));
            who.Some? && row.user == who.value.user && row.step == Some(c.p.nextCursor)
  {
    var change, waiting, claim := ChangePart(c.p, c.actor, c.people), WaitingPart(c.d, c.p, c.actor, c.people), ClaimPart(c.d, c.p, c.actor, c.name, c.people);
    assert c.Batch() == change + waiting + claim;
    ChangeKinds(c.p, c.actor, c.people);
    ClaimKinds(c.d, c.p, c.actor, c.name, c.people);
    WaitingRow(c.p.after, c.d, c.p.nextCursor, c.actor, c.people.requester, FormAssignee(c.d, c.p, c.people));
    assert row in waiting;
  }

  lemma {:induction false} TwoRowsCount(rows: seq<Row>, i: nat, j: nat)
    requires i < j < |rows| && rows[i].user == rows[j].user && rows[i].kind == rows[j].kind
    ensures Count(rows, rows[i].user, rows[i].kind) >= 2
  {
    if i > 0 {
      TwoRowsCount(rows[1..], i - 1, j - 1);
    } else {
      CountPositive(rows[1..], rows[j].user, rows[j].kind);
      assert rows[1..][j - 1] == rows[j];
    }
  }

  lemma AtMostOneFormRow(c: Case, snap: Snapshot, cmd: Command, now: Instant, isSpace: char -> bool, pick: Selection,
      names: UserId -> string, i: nat, j: nat)
    requires Planned(c, snap, cmd, now, isSpace)
    requires i < j < |c.Rows(pick, names)|
    ensures !(c.Rows(pick, names)[i].kind == FormWaiting && c.Rows(pick, names)[j].kind == FormWaiting)
  {
    var rows := c.Rows(pick, names);
    if rows[i].kind == FormWaiting && rows[j].kind == FormWaiting {
      FormRowAnswerable(c, snap, cmd, now, isSpace, pick, names, rows[i]);
      FormRowAnswerable(c, snap, cmd, now, isSpace, pick, names, rows[j]);
      TwoRowsCount(rows, i, j);
      CollectedPairs(c, rows[i].user, FormWaiting, pick, names);
    }
  }

  // A pending requester form: the requester is told so if and only if they are a
  // person who may open the result, not the actor, and not the holder a routing
  // step takes the ticket from.  (A rerouted holder loses the rows owed to them as
  // the requester too.)
  lemma CollectedRequesterForm(c: Case, snap: Snapshot, cmd: Command, now: Instant, isSpace: char -> bool,
      pick: Selection, names: UserId -> string, who: UserId)
    requires Planned(c, snap, cmd, now, isSpace) && PendingForm(c.d, c.p.nextCursor) == Some(ByRequester)
    ensures Count(c.Rows(pick, names), who, FormWaiting) > 0 <==>
              && c.people.requester.Some? && c.people.requester.value.user == who
              && !c.people.requester.value.service && CanOpen(c.people.requester.value, c.p.after)
              && who != c.actor
              && !(Routed(c.p.ops) && c.Holder().Some? && c.Holder().value.user == who && c.LastPick(pick) != Some(who))
  {
    FinalHolder(c, snap, cmd, now, isSpace, pick, names);
    RowCount(c, who, FormWaiting, pick, names);
    EndCounts(c, who, pick, names);
    UndividedPairs(c.d, c.p, c.actor, c.name, c.people, who, FormWaiting);
    WaitingRow(c.p.after, c.d, c.p.nextCursor, c.actor, c.people.requester, FormAssignee(c.d, c.p, c.people));
    CountPositive(WaitingPart(c.d, c.p, c.actor, c.people), who, FormWaiting);
    if |WaitingPart(c.d, c.p, c.actor, c.people)| > 0 {
      assert WaitingPart(c.d, c.p, c.actor, c.people)[0].kind == FormWaiting;
    }
  }
}
