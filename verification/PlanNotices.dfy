/**
The notification rows of a workflow completion: what the planner decides
(internal/application/workflow_runner.go, the tail of PlanComplete, and
notification_form.go) and what the transaction adds once a routing step has
selected its assignee (internal/adapters/sqlite/workflow_uow.go).

The planner cannot know a routing step's selection.  Rows that describe the
person who held the ticket before travel in a conditional block, and each routing
operation carries a template for the person it will select.
*/
module PlanNotices {
  import opened Core
  import opened Tickets
  import opened Workflow
  import opened Runner
  import opened PlanFacts
  import opened Notifications

  // ---- What the planner decides ---------------------------------------------

  // The snapshot's policy facts, and the followers who may open the result.
  datatype People = People(requester: Option<Recipient>, assignee: Option<Recipient>, followers: seq<Recipient>)

  datatype Held = Held(holder: UserId, rows: seq<Row>)

  datatype Notices = Notices(rows: seq<Row>, held: Option<Held>, ops: seq<Operation>)

  // The snapshot's assignee, when the planned ticket still names them.
  function AssigneeFacts(after: TicketRow, assignee: Option<Recipient>): Option<Recipient> {
    if assignee.Some? && after.assignee != Some(assignee.value.user) then None else assignee
  }

  // The pending step is a form somebody has to answer.
  function PendingForm(d: Definition, cursor: nat): Option<FormActor> {
    if cursor < |d| && d[cursor].Form? && d[cursor].form.Some? then Some(d[cursor].form.value.actor) else None
  }

  function WaitsOn(d: Definition, cursor: nat, requester: Option<Recipient>,
      assignee: Option<Recipient>): Option<Recipient> {
    match PendingForm(d, cursor)
    case Some(ByRequester) => requester
    case Some(ByAssignee) => assignee
    case _ => None
  }

  function WithStep(rows: seq<Row>, step: nat): seq<Row> {
    seq(|rows|, i requires 0 <= i < |rows| => rows[i].(step := Some(step)))
  }

  function FormWaitingRows(after: TicketRow, d: Definition, cursor: nat, actor: UserId, requester: Option<Recipient>,
      assignee: Option<Recipient>): seq<Row> {
    WithStep(Batched(after, Some(actor), {}, [Named(FormWaiting, WaitsOn(d, cursor, requester, assignee), None, None)]), cursor)
  }

  method FormWaitingNotifications(after: TicketRow, d: Definition, cursor: nat, actor: UserId,
      requester: Option<Recipient>, assignee: Option<Recipient>)
      returns (rows: seq<Row>)
    ensures rows == FormWaitingRows(after, d, cursor, actor, requester, assignee)
  {
    ghost var nobody: seq<Candidate> := [Named(FormWaiting, None, None, None)];
    assert nobody[1..] == [] && Batched(after, Some(actor), {}, nobody) == [];
    if cursor >= |d| || !d[cursor].Form? || d[cursor].form.None? {
      return [];
    }
    var waitingOn: Option<Recipient> := None;
    match d[cursor].form.value.actor {
      case ByRequester => waitingOn := requester;
      case ByAssignee => waitingOn := assignee;
      case ByOther => return [];
    }
    var b := new NotificationBatch(after, Some(actor), {});
    b.Add({}, [], FormWaiting, waitingOn, None, None);
    assert [] + [Named(FormWaiting, waitingOn, None, None)] == [Named(FormWaiting, waitingOn, None, None)];
    rows := b.rows;
    for i := 0 to |rows|
      invariant |rows| == |b.rows|
      invariant forall j :: 0 <= j < i ==> rows[j] == b.rows[j].(step := Some(cursor))
      invariant forall j :: i <= j < |rows| ==> rows[j] == b.rows[j]
    {
      rows := rows[i := rows[i].(step := Some(cursor))];
    }
  }

  // The person a claim of the plan assigns the ticket to.
  function Claimant(ops: seq<Operation>): Option<UserId>
    decreases |ops|
  {
    if ops == [] then None
    else if ops[0].ClaimAssignment? then Some(ops[0].assignee)
    else Claimant(ops[1..])
  }

  function UsersOf(rows: seq<Row>): set<UserId> { set i | 0 <= i < |rows| :: rows[i].user }

  // The followers' rows of a claim; whoever the plan already tells keeps that row.
  function ClaimRows(p: CorePlan, actor: UserId, name: Option<Fact>, followers: seq<Recipient>,
      existing: seq<Row>): seq<Row> {
    var claimant := Claimant(p.ops);
    if claimant.None? || p.before.assignee == claimant then []
    else Batched(p.after, Some(actor), UsersOf(existing), VerifiedAll(AssigneeChanged, followers, None, name))
  }

  // A proven list without one person.
  function Without(rs: seq<Recipient>, who: Option<UserId>): seq<Recipient> {
    if rs == [] then []
    else (if Some(rs[0].user) != who then [rs[0]] else []) + Without(rs[1..], who)
  }

  // Everything the planner would write if nothing were deferred.
  function Undivided(d: Definition, p: CorePlan, actor: UserId, name: Option<Fact>, people: People): seq<Row> {
    var facts := AssigneeFacts(p.after, people.assignee);
    var formAssignee := if Routed(p.ops) && PendingForm(d, p.nextCursor) == Some(ByAssignee) then None else facts;
    var change := StateChangeRows(p.after, p.before.state, p.after.state, Some(actor), Recipients(people.requester, facts, people.followers, []));
    var waiting := FormWaitingRows(p.after, d, p.nextCursor, actor, people.requester, formAssignee);
    change + waiting + ClaimRows(p, actor, name, Without(people.followers, p.before.assignee), change + waiting)
  }

  function RowsTo(rows: seq<Row>, who: UserId): seq<Row> {
    if rows == [] then []
    else if rows[0].user == who then [rows[0]] + RowsTo(rows[1..], who)
    else RowsTo(rows[1..], who)
  }

  function RowsToOthers(rows: seq<Row>, who: UserId): seq<Row> {
    if rows == [] then []
    else if rows[0].user != who then [rows[0]] + RowsToOthers(rows[1..], who)
    else RowsToOthers(rows[1..], who)
  }

  function LastRouting(ops: seq<Operation>): (last: int)
    ensures -1 <= last < |ops|
  {
    if ops == [] then -1
    else if ops[|ops| - 1].LeastLoadedAssignment? then |ops| - 1
    else LastRouting(ops[..|ops| - 1])
  }

  // The template of routing operation `i`.
  function TemplateAt(d: Definition, p: CorePlan, actor: UserId, followers: seq<Recipient>, i: nat): AssigneeTemplate {
    AssigneeTemplate(actor, seq(|followers|, j requires 0 <= j < |followers| => followers[j].user),
                     if PendingForm(d, p.nextCursor) == Some(ByAssignee) && i == LastRouting(p.ops) then Some(p.nextCursor) else None)
  }

  function Stamped(d: Definition, p: CorePlan, actor: UserId, followers: seq<Recipient>): seq<Operation> {
    seq(|p.ops|, i requires 0 <= i < |p.ops| =>
      if p.ops[i].LeastLoadedAssignment? then p.ops[i].(template := Some(TemplateAt(d, p, actor, followers, i))) else p.ops[i])
  }

  function NoticesOf(d: Definition, p: CorePlan, actor: UserId, name: Option<Fact>, people: People): Notices {
    var all := Undivided(d, p, actor, name, people);
    var facts := AssigneeFacts(p.after, people.assignee);
    var ops := Stamped(d, p, actor, Without(people.followers, p.before.assignee));
    if facts.Some? && Routed(p.ops) then
      var holder := facts.value.user;
      var mine := RowsTo(all, holder);
      Notices(RowsToOthers(all, holder), if mine == [] then None else Some(Held(holder, mine)), ops)
    else Notices(all, None, ops)
  }

  // Splits a batch into one person's rows and everybody else's.
  method Divide(all: seq<Row>, holder: UserId) returns (kept: seq<Row>, mine: seq<Row>)
    ensures kept == RowsToOthers(all, holder) && mine == RowsTo(all, holder)
  {
    kept, mine := [], [];
    assert all[0..] == all;
    for i := 0 to |all|
      invariant kept + RowsToOthers(all[i..], holder) == RowsToOthers(all, holder)
      invariant mine + RowsTo(all[i..], holder) == RowsTo(all, holder)
    {
      assert all[i..][1..] == all[i + 1..];
      if all[i].user == holder {
        mine := mine + [all[i]];
        continue;
      }
      kept := kept + [all[i]];
    }
  }

  method StampTemplates(d: Definition, p: CorePlan, actor: UserId, followers: seq<Recipient>) returns (ops: seq<Operation>)
    ensures ops == Stamped(d, p, actor, followers)
  {
    var lastRouting := -1;
    for i := 0 to |p.ops|
      invariant lastRouting == LastRouting(p.ops[..i])
    {
      assert p.ops[..i + 1][..i] == p.ops[..i] && p.ops[..i + 1][i] == p.ops[i];
      if p.ops[i].LeastLoadedAssignment? {
        lastRouting := i;
      }
    }
    assert p.ops[..|p.ops|] == p.ops;
    var ids := seq(|followers|, j requires 0 <= j < |followers| => followers[j].user);
    var pending := PendingForm(d, p.nextCursor) == Some(ByAssignee);
    ops := p.ops;
    for i := 0 to |ops|
      invariant |ops| == |p.ops|
      invariant forall j :: 0 <= j < i ==> ops[j] == Stamped(d, p, actor, followers)[j]
      invariant forall j :: i <= j < |ops| ==> ops[j] == p.ops[j]
    {
      if !ops[i].LeastLoadedAssignment? {
        continue;
      }
      var template := AssigneeTemplate(actor, ids, None);
      if pending && i == lastRouting {
        template := template.(formWaitingStep := Some(p.nextCursor));
      }
      ops := ops[i := ops[i].(template := Some(template))];
    }
  }

  method PlanNotices(d: Definition, p: CorePlan, actor: UserId, name: Option<Fact>, people: People) returns (n: Notices)
    ensures n == NoticesOf(d, p, actor, name, people)
  {
    var facts := people.assignee;
    if facts.Some? && p.after.assignee != Some(facts.value.user) {
      facts := None;
    }
    var rows := StateChangeNotifications(p.after, p.before.state, p.after.state, Some(actor),
                                         Recipients(people.requester, facts, people.followers, []));
    var routed := Routed(p.ops);
    var formAssignee := facts;
    if routed && PendingForm(d, p.nextCursor) == Some(ByAssignee) {
      formAssignee := None;
    }
    var waiting := FormWaitingNotifications(p.after, d, p.nextCursor, actor, people.requester, formAssignee);
    rows := rows + waiting;
    var assignable := Without(people.followers, p.before.assignee);
    var claimant := Claimant(p.ops);
    if claimant.Some? && p.before.assignee != claimant {
      var b := new NotificationBatch(p.after, Some(actor), UsersOf(rows));
      AddAll(b, UsersOf(rows), [], AssigneeChanged, assignable, None, name);
      assert [] + VerifiedAll(AssigneeChanged, assignable, None, name) == VerifiedAll(AssigneeChanged, assignable, None, name);
      rows := rows + b.rows;
    }
    assert rows == Undivided(d, p, actor, name, people);
    var held: Option<Held> := None;
    if facts.Some? && routed {
      var kept, mine := Divide(rows, facts.value.user);
      rows := kept;
      if mine != [] {
        held := Some(Held(facts.value.user, mine));
      }
    }
    var ops := StampTemplates(d, p, actor, assignable);
    return Notices(rows, held, ops);
  }

  // ---- What the transaction adds ----------------------------------------------

  // The holder so far, whom this submission already tells, and the rows the
  // routing operations built.
  datatype Routing = Routing(assignee: Option<UserId>, told: set<UserId>, rows: seq<Row>)

  // The followers a move tells, in order: never the selected person, the actor, or
  // somebody already told.
  function FollowerRows(template: AssigneeTemplate, selected: UserId, name: string, told: set<UserId>,
      k: nat): (seq<Row>, set<UserId>)
    requires k <= |template.followers|
  {
    if k == 0 then ([], told)
    else
      var (rows, told') := FollowerRows(template, selected, name, told, k - 1);
      var who := template.followers[k - 1];
      if who == selected || who in told' || who == template.actor then (rows, told')
      else (rows + [Row(who, AssigneeChanged, Some(template.actor), None, Some(NameFact(name)), None)], told' + {who})
  }

  function OwnRows(template: AssigneeTemplate, selected: UserId, moved: bool): seq<Row> {
    if template.actor == selected then []
    else
      (if moved then [Row(selected, AssignedKind, Some(template.actor), None, None, None)] else []) +
      (if template.formWaitingStep.Some? then [Row(selected, FormWaiting, Some(template.actor), None, None, template.formWaitingStep)] else [])
  }

  function RouteOp(r: Routing, op: Operation, pick: Selection, names: UserId -> string): Routing {
    match op
    case ClaimAssignment(_, _, who, _, _) => r.(assignee := Some(who))
    case LeastLoadedAssignment(step, _, template) =>
      var selected := pick(step);
      if template.None? then r.(assignee := Some(selected))
      else
        var moved := r.assignee != Some(selected);
        var own := OwnRows(template.value, selected, moved);
        var told := if own == [] then r.told else r.told + {selected};
        if moved then
          var (more, told') := FollowerRows(template.value, selected, names(selected), told, |template.value.followers|);
          Routing(Some(selected), told', r.rows + own + more)
        else Routing(Some(selected), told, r.rows + own)
    case _ => r
  }

  function After(start: Routing, ops: seq<Operation>, k: nat, pick: Selection, names: UserId -> string): Routing
    requires k <= |ops|
  {
    if k == 0 then start else RouteOp(After(start, ops, k - 1, pick, names), ops[k - 1], pick, names)
  }

  method RouteAll(start: Routing, ops: seq<Operation>, pick: Selection, names: UserId -> string) returns (r: Routing)
    ensures r == After(start, ops, |ops|, pick, names)
  {
    var assignee, addressed, planned := start.assignee, start.told, start.rows;
    for i := 0 to |ops|
      invariant Routing(assignee, addressed, planned) == After(start, ops, i, pick, names)
    {
      if ops[i].ClaimAssignment? {
        assignee := Some(ops[i].assignee);
      } else if ops[i].LeastLoadedAssignment? {
        var selected := pick(ops[i].step);
        var moved := assignee != Some(selected);
        assignee := Some(selected);
        if ops[i].template.Some? {
          var template := ops[i].template.value;
          ghost var own: seq<Row> := [];
          if template.actor != selected {
            if moved {
              planned := planned + [Row(selected, AssignedKind, Some(template.actor), None, None, None)];
              own := own + [Row(selected, AssignedKind, Some(template.actor), None, None, None)];
              addressed := addressed + {selected};
            }
            if template.formWaitingStep.Some? {
              planned := planned + [Row(selected, FormWaiting, Some(template.actor), None, None, template.formWaitingStep)];
              own := own + [Row(selected, FormWaiting, Some(template.actor), None, None, template.formWaitingStep)];
              addressed := addressed + {selected};
            }
          }
          assert own == OwnRows(template, selected, moved);
          if moved {
            var rows, told := AssigneeChangedRows(template, selected, names(selected), addressed);
            planned, addressed := planned + rows, told;
          }
        }
      }
    }
    return Routing(assignee, addressed, planned);
  }

  method AssigneeChangedRows(template: AssigneeTemplate, selected: UserId, name: string, addressed: set<UserId>)
      returns (rows: seq<Row>, told: set<UserId>)
    ensures (rows, told) == FollowerRows(template, selected, name, addressed, |template.followers|)
  {
    rows, told := [], addressed;
    for k := 0 to |template.followers|
      invariant (rows, told) == FollowerRows(template, selected, name, addressed, k)
    {
      var who := template.followers[k];
      if who == selected || who in told {
        continue;
      }
      if template.actor == who {
        continue;
      }
      rows := rows + [Row(who, AssigneeChanged, Some(template.actor), None, Some(NameFact(name)), None)];
      told := told + {who};
    }
  }

  // Where the transaction starts: the stored holder, and everybody the plan tells.
  function Start(p: CorePlan, n: Notices): Routing {
    Routing(p.before.assignee, UsersOf(n.rows) + (if n.held.Some? then UsersOf(n.held.value.rows) else {}), [])
  }

  function Final(p: CorePlan, n: Notices, pick: Selection, names: UserId -> string): Routing {
    After(Start(p, n), n.ops, |n.ops|, pick, names)
  }

  // Every row of the submission, in write order, before the recipients' access to
  // the result is proved again.
  function AllRows(p: CorePlan, n: Notices, pick: Selection, names: UserId -> string): seq<Row> {
    var end := Final(p, n, pick, names);
    end.rows + n.rows + if n.held.Some? && end.assignee == Some(n.held.value.holder) then n.held.value.rows else []
  }
}
