/**
What a completion's notification rows promise, for every plan and every selection
the transaction may make.
*/
module PlanNoticeFacts {
  import opened Core
  import opened Tickets
  import opened Workflow
  import opened Runner
  import opened PlanFacts
  import opened Notifications
  import opened PlanNotices

  // ---- Dividing the batch ------------------------------------------------------

  // The conditional block and the unconditional rows are the undivided batch: no
  // row is lost, invented or repeated, and exactly the holder's rows are held.
  lemma {:induction false} DivisionPartitions(all: seq<Row>, who: UserId)
    ensures multiset(RowsToOthers(all, who)) + multiset(RowsTo(all, who)) == multiset(all)
    ensures !Addresses(RowsToOthers(all, who), who)
    ensures forall i :: 0 <= i < |RowsTo(all, who)| ==> RowsTo(all, who)[i].user == who
  {
    if all != [] {
      DivisionPartitions(all[1..], who);
      assert all == [all[0]] + all[1..];
    }
  }

  // ---- Counting rows of one person and kind ------------------------------------

  function Count(rows: seq<Row>, who: UserId, kind: Kind): nat {
    if rows == [] then 0
    else (if rows[0].user == who && rows[0].kind == kind then 1 else 0) + Count(rows[1..], who, kind)
  }

  lemma {:induction false} CountAppend(a: seq<Row>, b: seq<Row>, who: UserId, kind: Kind)
    ensures Count(a + b, who, kind) == Count(a, who, kind) + Count(b, who, kind)
  {
    if a == [] {
      assert a + b == b;
    } else {
      assert (a + b)[1..] == a[1..] + b;
      CountAppend(a[1..], b, who, kind);
    }
  }

  lemma CountCons(first: Row, rest: seq<Row>, who: UserId, kind: Kind)
    ensures Count([first] + rest, who, kind) == (if first.user == who && first.kind == kind then 1 else 0) + Count(rest, who, kind)
  {
    assert ([first] + rest)[1..] == rest;
  }

  lemma {:induction false} CountSplit(all: seq<Row>, holder: UserId, who: UserId, kind: Kind)
    ensures Count(RowsToOthers(all, holder), who, kind) == (if who == holder then 0 else Count(all, who, kind))
    ensures Count(RowsTo(all, holder), who, kind) == (if who == holder then Count(all, who, kind) else 0)
  {
    if all != [] {
      var others, mine := RowsToOthers(all[1..], holder), RowsTo(all[1..], holder);
      CountSplit(all[1..], holder, who, kind);
      if all[0].user == holder {
        assert RowsToOthers(all, holder) == others && RowsTo(all, holder) == [all[0]] + mine;
        CountCons(all[0], mine, who, kind);
      } else {
        assert RowsTo(all, holder) == mine && RowsToOthers(all, holder) == [all[0]] + others;
        CountCons(all[0], others, who, kind);
      }
    }
  }

  lemma {:induction false} CountPositive(rows: seq<Row>, who: UserId, kind: Kind)
    ensures Count(rows, who, kind) > 0 <==> exists i :: 0 <= i < |rows| && rows[i].user == who && rows[i].kind == kind
  {
    if rows != [] {
      var rest := rows[1..];
      CountPositive(rest, who, kind);
      if i :| 0 <= i < |rows| && rows[i].user == who && rows[i].kind == kind {
        if i > 0 {
          assert rest[i - 1].user == who && rest[i - 1].kind == kind;
        }
      }
      if i :| 0 <= i < |rest| && rest[i].user == who && rest[i].kind == kind {
        assert rows[i + 1] == rest[i];
      }
    }
  }

  lemma {:induction false} DistinctCount(rows: seq<Row>, who: UserId, kind: Kind)
    requires Distinct(rows)
    ensures Count(rows, who, kind) <= 1
  {
    if rows != [] {
      DistinctCount(rows[1..], who, kind);
      CountPositive(rows[1..], who, kind);
    }
  }

  lemma NoneOfKind(rows: seq<Row>, who: UserId, kind: Kind)
    requires forall i :: 0 <= i < |rows| ==> rows[i].kind != kind || rows[i].user != who
    ensures Count(rows, who, kind) == 0
  {
    CountPositive(rows, who, kind);
  }

  // ---- The planner's own rows --------------------------------------------------

  predicate OnlyKinds(rows: seq<Row>, kinds: set<Kind>) {
    forall i :: 0 <= i < |rows| ==> rows[i].kind in kinds
  }

  lemma {:induction false} BatchKinds(t: TicketRow, actor: Option<UserId>, seen: set<UserId>, cs: seq<Candidate>,
      kinds: set<Kind>)
    requires forall i :: 0 <= i < |cs| ==> cs[i].kind in kinds
    ensures OnlyKinds(Batched(t, actor, seen, cs), kinds)
    decreases |cs|
  {
    if cs != [] {
      BatchKinds(t, actor, if Admissible(t, actor, seen, cs[0]) then seen + {Person(cs[0]).value.user} else seen, cs[1..], kinds);
    }
  }

  // The parts of the undivided batch.
  function ChangePart(p: CorePlan, actor: UserId, people: People): seq<Row> {
    StateChangeRows(p.after, p.before.state, p.after.state, Some(actor),
                    Recipients(people.requester, AssigneeFacts(p.after, people.assignee), people.followers, []))
  }

  function FormAssignee(d: Definition, p: CorePlan, people: People): Option<Recipient> {
    if Routed(p.ops) && PendingForm(d, p.nextCursor) == Some(ByAssignee) then None else AssigneeFacts(p.after, people.assignee)
  }

  function WaitingPart(d: Definition, p: CorePlan, actor: UserId, people: People): seq<Row> {
    FormWaitingRows(p.after, d, p.nextCursor, actor, people.requester, FormAssignee(d, p, people))
  }

  function ClaimPart(d: Definition, p: CorePlan, actor: UserId, name: Option<Fact>, people: People): seq<Row> {
    ClaimRows(p, actor, name, Without(people.followers, p.before.assignee), ChangePart(p, actor, people) + WaitingPart(d, p, actor, people))
  }

  lemma ChangeKinds(p: CorePlan, actor: UserId, people: People)
    ensures OnlyKinds(ChangePart(p, actor, people), {StateChanged, AwaitingConfirmation})
    ensures Distinct(ChangePart(p, actor, people))
    ensures !Addresses(ChangePart(p, actor, people), actor)
  {
    var r := Recipients(people.requester, AssigneeFacts(p.after, people.assignee), people.followers, []);
    var cs := StateChangeCandidates(p.before.state, p.after.state, r);
    BatchKinds(p.after, Some(actor), {}, cs, {StateChanged, AwaitingConfirmation});
    BatchDistinct(p.after, Some(actor), {}, cs);
  }

  // The form-waiting batch has one row, for the eligible person the form waits on,
  // or none.
  lemma WaitingRow(after: TicketRow, d: Definition, cursor: nat, actor: UserId, requester: Option<Recipient>,
      assignee: Option<Recipient>)
    ensures var who := WaitsOn(d, cursor, requester, assignee);
            FormWaitingRows(after, d, cursor, actor, requester, assignee) ==
              if Eligible(after, Named(FormWaiting, who, None, None)) && who.value.user != actor
              then [Row(who.value.user, FormWaiting, Some(actor), None, None, Some(cursor))] else []
  {
    var c := Named(FormWaiting, WaitsOn(d, cursor, requester, assignee), None, None);
    var cs: seq<Candidate> := [c];
    assert cs[1..] == [];
    assert Batched(after, Some(actor), {}, cs) == if Admissible(after, Some(actor), {}, c) then [RowFor(Some(actor), c)] else [];
  }

  lemma ClaimKinds(d: Definition, p: CorePlan, actor: UserId, name: Option<Fact>, people: People)
    ensures var rows := ClaimPart(d, p, actor, name, people);
            && OnlyKinds(rows, {AssigneeChanged}) && Distinct(rows)
            && !Addresses(rows, actor)
  {
    var cs := VerifiedAll(AssigneeChanged, Without(people.followers, p.before.assignee), None, name);
    var seen := UsersOf(ChangePart(p, actor, people) + WaitingPart(d, p, actor, people));
    BatchKinds(p.after, Some(actor), seen, cs, {AssigneeChanged});
    BatchDistinct(p.after, Some(actor), seen, cs);
  }

  // The planner's rows name each (person, kind) pair at most once, never name the
  // actor, and never contain an `assigned` row.
  lemma UndividedPairs(d: Definition, p: CorePlan, actor: UserId, name: Option<Fact>, people: People, who: UserId,
      kind: Kind)
    ensures Count(Undivided(d, p, actor, name, people), who, kind) <= (if who == actor || kind == AssignedKind then 0 else 1)
    ensures Count(Undivided(d, p, actor, name, people), who, FormWaiting) == Count(WaitingPart(d, p, actor, people), who, FormWaiting)
    ensures kind == FormWaiting && Routed(p.ops) && PendingForm(d, p.nextCursor) == Some(ByAssignee) ==>
              Count(Undivided(d, p, actor, name, people), who, kind) == 0
  {
    var change, waiting, claim := ChangePart(p, actor, people), WaitingPart(d, p, actor, people), ClaimPart(d, p, actor, name, people);
    assert Undivided(d, p, actor, name, people) == change + waiting + claim;
    ChangeKinds(p, actor, people);
    WaitingRow(p.after, d, p.nextCursor, actor, people.requester, FormAssignee(d, p, people));
    ClaimKinds(d, p, actor, name, people);
    forall k: Kind
      ensures Count(change + waiting + claim, who, k) == Count(change, who, k) + Count(waiting, who, k) + Count(claim, who, k)
    {
      CountAppend(change + waiting, claim, who, k);
      CountAppend(change, waiting, who, k);
    }
    PartCount(change, {StateChanged, AwaitingConfirmation}, actor, who, kind);
    PartCount(waiting, {FormWaiting}, actor, who, kind);
    PartCount(claim, {AssigneeChanged}, actor, who, kind);
    PartCount(change, {StateChanged, AwaitingConfirmation}, actor, who, FormWaiting);
    PartCount(claim, {AssigneeChanged}, actor, who, FormWaiting);
  }

  lemma PartCount(rows: seq<Row>, kinds: set<Kind>, actor: UserId, who: UserId, kind: Kind)
    requires OnlyKinds(rows, kinds) && Distinct(rows) && !Addresses(rows, actor)
    ensures Count(rows, who, kind) <= (if kind in kinds && who != actor then 1 else 0)
  {
    if kind in kinds && who != actor {
      DistinctCount(rows, who, kind);
    } else {
      assert forall i :: 0 <= i < |rows| && rows[i].user == actor ==> Addresses(rows, actor);
      NoneOfKind(rows, who, kind);
    }
  }

  // ---- The routing rows ---------------------------------------------------------

  // Operation `i` takes the ticket from somebody else (or nobody) to `who`.
  predicate MovesOnto(start: Routing, ops: seq<Operation>, i: nat, who: UserId, pick: Selection, names: UserId -> string)
    requires i < |ops|
  {
    && ops[i].LeastLoadedAssignment? && pick(ops[i].step) == who
    && After(start, ops, i, pick, names).assignee != Some(who)
  }

  // How many of the first `k` operations do.
  function Moves(start: Routing, ops: seq<Operation>, k: nat, who: UserId, pick: Selection, names: UserId -> string): nat
    requires k <= |ops|
  {
    if k == 0 then 0
    else Moves(start, ops, k - 1, who, pick, names) + if MovesOnto(start, ops, k - 1, who, pick, names) then 1 else 0
  }

  // Every routing operation carries its template: one actor, the same followers,
  // the pending form on the last one only.
  ghost predicate Templated(ops: seq<Operation>, actor: UserId, followers: seq<UserId>, form: Option<nat>) {
    forall i :: 0 <= i < |ops| && ops[i].LeastLoadedAssignment? ==>
      ops[i].template == Some(AssigneeTemplate(actor, followers, if i == LastRouting(ops) then form else None))
  }

  lemma {:induction false} LastRoutingIs(ops: seq<Operation>)
    ensures var last := LastRouting(ops);
            && -1 <= last < |ops| && (last >= 0 <==> Routed(ops))
            && (last >= 0 ==> ops[last].LeastLoadedAssignment?)
            && (forall i :: last < i < |ops| ==> !ops[i].LeastLoadedAssignment?)
    decreases |ops|
  {
    if ops != [] {
      var init := ops[..|ops| - 1];
      LastRoutingIs(init);
      assert ops == init + [ops[|ops| - 1]];
      RoutedAppend(init, [ops[|ops| - 1]]);
      assert forall i :: 0 <= i < |init| ==> init[i] == ops[i];
      if ops[|ops| - 1].LeastLoadedAssignment? {
        assert [ops[|ops| - 1]][0].LeastLoadedAssignment?;
      }
    }
  }

  lemma {:induction false} FollowerRowsShape(template: AssigneeTemplate, selected: UserId, name: string,
      told: set<UserId>, k: nat)
    requires k <= |template.followers|
    ensures var (rows, told') := FollowerRows(template, selected, name, told, k);
            && OnlyKinds(rows, {AssigneeChanged}) && Distinct(rows)
            && told' == told + UsersOf(rows)
            && (forall i :: 0 <= i < |rows| ==>
                  rows[i].user !in told && rows[i].user != template.actor && rows[i].user != selected && rows[i].user in template.followers)
  {
    if k > 0 {
      FollowerRowsShape(template, selected, name, told, k - 1);
      var (before, seen) := FollowerRows(template, selected, name, told, k - 1);
      var (rows, told') := FollowerRows(template, selected, name, told, k);
      assert forall i :: 0 <= i < |before| ==> before[i].user in UsersOf(before);
      if rows != before {
        assert rows[..|rows| - 1] == before && rows[|rows| - 1].user == template.followers[k - 1];
        assert UsersOf(rows) == UsersOf(before) + {template.followers[k - 1]};
      }
    }
  }

  // What the first `k` routing operations have written, person by person.
  ghost predicate RoutedCounts(start: Routing, ops: seq<Operation>, k: nat, actor: UserId, followers: seq<UserId>,
      form: Option<nat>, who: UserId, pick: Selection, names: UserId -> string)
    requires k <= |ops|
  {
    var r := After(start, ops, k, pick, names);
    && Count(r.rows, who, AssignedKind) == (if who == actor then 0 else Moves(start, ops, k, who, pick, names))
    && Count(r.rows, who, FormWaiting) ==
         (if form.Some? && 0 <= LastRouting(ops) < k && pick(ops[LastRouting(ops)].step) == who && who != actor then 1 else 0)
    && Count(r.rows, who, AssigneeChanged) <= 1
    && (Count(r.rows, who, AssigneeChanged) == 1 ==> who !in start.told && who in followers && who != actor)
  }

  // The rows one routing operation adds: the selected person's, and the followers'.
  function AddedRows(r: Routing, template: AssigneeTemplate, selected: UserId, names: UserId -> string): (seq<Row>,
      seq<Row>) {
    var moved := r.assignee != Some(selected);
    var own := OwnRows(template, selected, moved);
    var told := if own == [] then r.told else r.told + {selected};
    (own, if moved then FollowerRows(template, selected, names(selected), told, |template.followers|).0 else [])
  }

  lemma RouteOpAdds(r: Routing, op: Operation, pick: Selection, names: UserId -> string)
    requires op.LeastLoadedAssignment? && op.template.Some?
    ensures var r' := RouteOp(r, op, pick, names);
            var (own, more) := AddedRows(r, op.template.value, pick(op.step), names);
            && r'.rows == r.rows + own + more
            && r'.told == r.told + UsersOf(own + more)
            && OnlyKinds(own, {AssignedKind, FormWaiting}) && OnlyKinds(more, {AssigneeChanged})
            && Distinct(more)
            && forall i :: 0 <= i < |more| ==>
                 more[i].user !in r.told && more[i].user != op.template.value.actor && more[i].user in op.template.value.followers
  {
    var template, selected := op.template.value, pick(op.step);
    var moved := r.assignee != Some(selected);
    var own := OwnRows(template, selected, moved);
    var told := if own == [] then r.told else r.told + {selected};
    FollowerRowsShape(template, selected, names(selected), told, |template.followers|);
    OwnUsers(template, selected, moved);
    UsersAppend(own, AddedRows(r, template, selected, names).1);
  }

  // One routing operation's share.
  lemma RouteOpCounts(r: Routing, op: Operation, who: UserId, kind: Kind, pick: Selection, names: UserId -> string)
    requires op.LeastLoadedAssignment? && op.template.Some?
    ensures var r' := RouteOp(r, op, pick, names);
            var t := op.template.value;
            var told := pick(op.step) == who && who != t.actor;
            var added := Count(r'.rows, who, kind) - Count(r.rows, who, kind);
            && (kind == AssignedKind ==> added == if told && r.assignee != Some(who) then 1 else 0)
            && (kind == FormWaiting ==> added == if told && t.formWaitingStep.Some? then 1 else 0)
            && (kind == AssigneeChanged ==> 0 <= added <= if who !in r.told && who in t.followers && who != t.actor then 1 else 0)
  {
    var template := op.template.value;
    var (own, more) := AddedRows(r, template, pick(op.step), names);
    RouteOpAdds(r, op, pick, names);
    CountAppend(r.rows + own, more, who, kind);
    CountAppend(r.rows, own, who, kind);
    OwnCounts(template, pick(op.step), r.assignee != Some(pick(op.step)), who);
    if kind == AssigneeChanged && who !in r.told && who in template.followers && who != template.actor {
      DistinctCount(more, who, kind);
    } else if kind == AssigneeChanged || kind == AssignedKind || kind == FormWaiting {
      NoneOfKind(more, who, kind);
    }
  }

  lemma OwnUsers(template: AssigneeTemplate, selected: UserId, moved: bool)
    ensures var own := OwnRows(template, selected, moved);
            UsersOf(own) == (if own == [] then {} else {selected}) && OnlyKinds(own, {AssignedKind, FormWaiting})
  {
    var own := OwnRows(template, selected, moved);
    if own != [] {
      assert own[0].user == selected;
    }
  }

  lemma UsersAppend(a: seq<Row>, b: seq<Row>)
    ensures UsersOf(a + b) == UsersOf(a) + UsersOf(b)
  {
    forall who | who in UsersOf(b)
      ensures who in UsersOf(a + b)
    {
      var i :| 0 <= i < |b| && b[i].user == who;
      assert (a + b)[|a| + i].user == who;
    }
    forall who | who in UsersOf(a)
      ensures who in UsersOf(a + b)
    {
      var i :| 0 <= i < |a| && a[i].user == who;
      assert (a + b)[i].user == who;
    }
  }

  lemma OwnCounts(template: AssigneeTemplate, selected: UserId, moved: bool, who: UserId)
    ensures var own := OwnRows(template, selected, moved);
            var told := selected == who && who != template.actor;
            && Count(own, who, AssignedKind) == (if told && moved then 1 else 0)
            && Count(own, who, FormWaiting) == (if told && template.formWaitingStep.Some? then 1 else 0)
            && Count(own, who, AssigneeChanged) == 0
  {
    if template.actor != selected {
      var movedRow: seq<Row> := if moved then [Row(selected, AssignedKind, Some(template.actor), None, None, None)] else [];
      var waiting: seq<Row> := if template.formWaitingStep.Some?
                               then [Row(selected, FormWaiting, Some(template.actor), None, None, template.formWaitingStep)] else [];
      assert OwnRows(template, selected, moved) == movedRow + waiting;
      forall k: Kind
        ensures Count(OwnRows(template, selected, moved), who, k) == Count(movedRow, who, k) + Count(waiting, who, k)
      {
        CountAppend(movedRow, waiting, who, k);
      }
      assert |movedRow| == 1 ==> movedRow[1..] == [];
      assert |waiting| == 1 ==> waiting[1..] == [];
    }
  }

  // Whoever a routing operation addressed counts as told from then on.
  lemma {:induction false} RoutedTold(start: Routing, ops: seq<Operation>, k: nat, pick: Selection, names: UserId -> string)
    requires k <= |ops| && start.rows == []
    requires forall i :: 0 <= i < |ops| && ops[i].LeastLoadedAssignment? ==> ops[i].template.Some?
    ensures ToldSoFar(start, After(start, ops, k, pick, names))
    decreases k
  {
    if k > 0 {
      RoutedTold(start, ops, k - 1, pick, names);
      if ops[k - 1].LeastLoadedAssignment? {
        RouteOpTold(start, After(start, ops, k - 1, pick, names), ops[k - 1], pick, names);
      }
    }
  }

  ghost predicate ToldSoFar(start: Routing, r: Routing) {
    r.told == start.told + UsersOf(r.rows) && OnlyKinds(r.rows, {AssignedKind, FormWaiting, AssigneeChanged})
  }

  lemma RouteOpTold(start: Routing, r: Routing, op: Operation, pick: Selection, names: UserId -> string)
    requires op.LeastLoadedAssignment? && op.template.Some? && ToldSoFar(start, r)
    ensures ToldSoFar(start, RouteOp(r, op, pick, names))
  {
    RouteOpAdds(r, op, pick, names);
    var (own, more) := AddedRows(r, op.template.value, pick(op.step), names);
    assert r.rows + own + more == r.rows + (own + more);
    UsersAppend(r.rows, own + more);
  }

  // The routing operations, in order: `assigned` once for every time a person was
  // moved onto, `form_waiting` once for the final selection, `assignee_changed` at
  // most once, and only for a follower nothing else tells.
  lemma RoutedRows(start: Routing, ops: seq<Operation>, k: nat, actor: UserId, followers: seq<UserId>,
      form: Option<nat>, who: UserId, pick: Selection, names: UserId -> string)
    requires k <= |ops| && Templated(ops, actor, followers, form) && start.rows == []
    ensures RoutedCounts(start, ops, k, actor, followers, form, who, pick, names)
  {
    AssignedRows(start, ops, k, actor, followers, form, who, pick, names);
    WaitingRows(start, ops, k, actor, followers, form, who, pick, names);
    ChangedRows(start, ops, k, actor, followers, form, who, pick, names);
  }

  lemma {:induction false} AssignedRows(start: Routing, ops: seq<Operation>, k: nat, actor: UserId,
      followers: seq<UserId>, form: Option<nat>, who: UserId, pick: Selection, names: UserId -> string)
    requires k <= |ops| && Templated(ops, actor, followers, form) && start.rows == []
    ensures Count(After(start, ops, k, pick, names).rows, who, AssignedKind) == if who == actor then 0 else Moves(start, ops, k, who, pick, names)
    decreases k
  {
    if k > 0 {
      AssignedRows(start, ops, k - 1, actor, followers, form, who, pick, names);
      if ops[k - 1].LeastLoadedAssignment? {
        RouteOpCounts(After(start, ops, k - 1, pick, names), ops[k - 1], who, AssignedKind, pick, names);
      }
    }
  }

  lemma {:induction false} WaitingRows(start: Routing, ops: seq<Operation>, k: nat, actor: UserId,
      followers: seq<UserId>, form: Option<nat>, who: UserId, pick: Selection, names: UserId -> string)
    requires k <= |ops| && Templated(ops, actor, followers, form) && start.rows == []
    ensures Count(After(start, ops, k, pick, names).rows, who, FormWaiting) ==
              if form.Some? && 0 <= LastRouting(ops) < k && pick(ops[LastRouting(ops)].step) == who && who != actor then 1 else 0
    decreases k
  {
    LastRoutingIs(ops);
    if k > 0 {
      WaitingRows(start, ops, k - 1, actor, followers, form, who, pick, names);
      if ops[k - 1].LeastLoadedAssignment? {
        RouteOpCounts(After(start, ops, k - 1, pick, names), ops[k - 1], who, FormWaiting, pick, names);
      }
    }
  }

  lemma {:induction false} ChangedRows(start: Routing, ops: seq<Operation>, k: nat, actor: UserId,
      followers: seq<UserId>, form: Option<nat>, who: UserId, pick: Selection, names: UserId -> string)
    requires k <= |ops| && Templated(ops, actor, followers, form) && start.rows == []
    ensures var n := Count(After(start, ops, k, pick, names).rows, who, AssigneeChanged);
            n <= 1 && (n == 1 ==> who !in start.told && who in followers && who != actor)
    decreases k
  {
    if k > 0 {
      ChangedRows(start, ops, k - 1, actor, followers, form, who, pick, names);
      if ops[k - 1].LeastLoadedAssignment? {
        var r := After(start, ops, k - 1, pick, names);
        RoutedTold(start, ops, k - 1, pick, names);
        ToldOnce(r.rows, who);
        RouteOpCounts(r, ops[k - 1], who, AssigneeChanged, pick, names);
      }
    }
  }

  lemma ToldOnce(rows: seq<Row>, who: UserId)
    ensures Count(rows, who, AssigneeChanged) > 0 ==> who in UsersOf(rows)
  {
    CountPositive(rows, who, AssigneeChanged);
  }
}
