/**
Service accounts named by a ticket: the workflow snapshot's reader
(notificationRecipientByID of internal/adapters/sqlite/workflow_run_store.go) leaves
the account kind out, so the planner takes a service requester or assignee for a
person.
*/
module ServiceAccounts {
  import opened Core
  import opened Tickets
  import opened Runner
  import opened PlanFacts
  import opened Notifications
  import opened PlanNotices
  import opened PlanNoticeFacts
  import opened PlanNoticeResults
  import opened PlanStoredNotices

  // Which accounts are services.
  type Accounts = UserId -> bool

  function Marked(r: Option<Recipient>, services: Accounts): Option<Recipient> {
    if r.Some? then Some(r.value.(service := services(r.value.user))) else None
  }

  // The case with the account kinds its reader left out.
  function WithKinds(c: Case, services: Accounts): Case {
    c.(people := c.people.(requester := Marked(c.people.requester, services), assignee := Marked(c.people.assignee, services)))
  }

  // The requester and the assignee read as people; followers carry their kind.
  predicate ReadAsPeople(c: Case, services: Accounts) {
    && (c.people.requester.Some? ==> !c.people.requester.value.service)
    && (c.people.assignee.Some? ==> !c.people.assignee.value.service)
    && forall i :: 0 <= i < |c.people.followers| ==> c.people.followers[i].service == services(c.people.followers[i].user)
  }

  function ToPeople(rows: seq<Row>, services: Accounts): seq<Row> {
    if rows == [] then []
    else if services(rows[0].user) then ToPeople(rows[1..], services)
    else [rows[0]] + ToPeople(rows[1..], services)
  }

  lemma {:induction false} ToPeopleAppend(a: seq<Row>, b: seq<Row>, services: Accounts)
    ensures ToPeople(a + b, services) == ToPeople(a, services) + ToPeople(b, services)
  {
    if a == [] {
      assert a + b == b;
    } else {
      assert (a + b)[1..] == a[1..] + b;
      ToPeopleAppend(a[1..], b, services);
    }
  }

  lemma {:induction false} PeopleKept(rows: seq<Row>, services: Accounts)
    ensures forall u :: !services(u) ==> (u in UsersOf(ToPeople(rows, services)) <==> u in UsersOf(rows))
  {
    if rows != [] {
      PeopleKept(rows[1..], services);
      assert rows == [rows[0]] + rows[1..];
      UsersAppend([rows[0]], rows[1..]);
      UsersAppend([rows[0]], ToPeople(rows[1..], services));
      assert UsersOf([rows[0]]) == {rows[0].user} by {
        assert [rows[0]][0].user == rows[0].user;
      }
    }
  }

  // ---- The batch with and without the kinds --------------------------------------------

  // The same candidate, or a service's, who is not eligible.
  predicate SameButServices(t: TicketRow, c: Candidate, marked: Candidate, services: Accounts) {
    if Person(c).Some? && services(Person(c).value.user) then
      Person(marked).Some? && Person(marked).value.user == Person(c).value.user && !Eligible(t, marked)
    else marked == c
  }

  lemma {:induction false} BatchedMarked(
      t: TicketRow, actor: Option<UserId>, seen: set<UserId>, seen': set<UserId>, cs: seq<Candidate>, marked: seq<Candidate>, services: Accounts)
    requires |cs| == |marked| && forall i :: 0 <= i < |cs| ==> SameButServices(t, cs[i], marked[i], services)
    requires forall u :: !services(u) ==> (u in seen <==> u in seen')
    ensures Batched(t, actor, seen', marked) == ToPeople(Batched(t, actor, seen, cs), services)
    decreases |cs|
  {
    if cs != [] {
      var now := if Admissible(t, actor, seen, cs[0]) then seen + {Person(cs[0]).value.user} else seen;
      var now' := if Admissible(t, actor, seen', marked[0]) then seen' + {Person(marked[0]).value.user} else seen';
      assert SameButServices(t, cs[0], marked[0], services);
      BatchedMarked(t, actor, now, now', cs[1..], marked[1..], services);
      BatchHead(t, actor, seen, cs);
      BatchHead(t, actor, seen', marked);
      if Admissible(t, actor, seen, cs[0]) {
        ToPeopleAppend([RowFor(actor, cs[0])], Batched(t, actor, now, cs[1..]), services);
      }
    }
  }

  lemma BatchHead(t: TicketRow, actor: Option<UserId>, seen: set<UserId>, cs: seq<Candidate>)
    requires cs != []
    ensures Batched(t, actor, seen, cs) ==
            if Admissible(t, actor, seen, cs[0])
            then [RowFor(actor, cs[0])] + Batched(t, actor, seen + {Person(cs[0]).value.user}, cs[1..])
            else Batched(t, actor, seen, cs[1..])
  {
  }

  lemma ChangeMarked(c: Case, services: Accounts)
    requires ReadAsPeople(c, services)
    ensures var c' := WithKinds(c, services);
            ChangePart(c'.p, c'.actor, c'.people) == ToPeople(ChangePart(c.p, c.actor, c.people), services)
  {
    var c' := WithKinds(c, services);
    var r := Recipients(c.people.requester, AssigneeFacts(c.p.after, c.people.assignee), c.people.followers, []);
    var r' := Recipients(c'.people.requester, AssigneeFacts(c.p.after, c'.people.assignee), c.people.followers, []);
    var cs, marked := StateChangeCandidates(c.p.before.state, c.p.after.state, r), StateChangeCandidates(c.p.before.state, c.p.after.state, r');
    forall i | 0 <= i < |cs|
      ensures SameButServices(c.p.after, cs[i], marked[i], services)
    {
      if i >= 2 {
        assert Person(cs[i]).value == c.people.followers[i - 2];
      }
    }
    BatchedMarked(c.p.after, Some(c.actor), {}, {}, cs, marked, services);
  }

  lemma WaitingMarked(c: Case, services: Accounts)
    requires ReadAsPeople(c, services)
    ensures var c' := WithKinds(c, services);
            WaitingPart(c'.d, c'.p, c'.actor, c'.people) == ToPeople(WaitingPart(c.d, c.p, c.actor, c.people), services)
  {
    var c' := WithKinds(c, services);
    WaitingRow(c.p.after, c.d, c.p.nextCursor, c.actor, c.people.requester, FormAssignee(c.d, c.p, c.people));
    WaitingRow(c.p.after, c.d, c.p.nextCursor, c.actor, c'.people.requester, FormAssignee(c.d, c.p, c'.people));
  }

  lemma ClaimMarked(c: Case, services: Accounts)
    requires ReadAsPeople(c, services)
    ensures var c' := WithKinds(c, services);
            ClaimPart(c'.d, c'.p, c'.actor, c'.name, c'.people) == ToPeople(ClaimPart(c.d, c.p, c.actor, c.name, c.people), services)
  {
    var c' := WithKinds(c, services);
    var fs := Without(c.people.followers, c.p.before.assignee);
    var existing := ChangePart(c.p, c.actor, c.people) + WaitingPart(c.d, c.p, c.actor, c.people);
    ChangeMarked(c, services);
    WaitingMarked(c, services);
    ToPeopleAppend(ChangePart(c.p, c.actor, c.people), WaitingPart(c.d, c.p, c.actor, c.people), services);
    PeopleKept(existing, services);
    WithoutLacks(c.people.followers, c.p.before.assignee);
    var cs := VerifiedAll(AssigneeChanged, fs, None, c.name);
    forall i | 0 <= i < |cs|
      ensures SameButServices(c.p.after, cs[i], cs[i], services)
    {
      assert fs[i] in fs;
    }
    BatchedMarked(c.p.after, Some(c.actor), UsersOf(existing), UsersOf(ToPeople(existing, services)), cs, cs, services);
  }

  // Leaving the kinds out adds exactly the rows to service accounts: with them, the
  // planner writes the same rows in the same order to everybody else.
  lemma ServiceRowsExactly(c: Case, services: Accounts)
    requires ReadAsPeople(c, services)
    ensures WithKinds(c, services).Batch() == ToPeople(c.Batch(), services)
  {
    var c' := WithKinds(c, services);
    var change, waiting, claim := ChangePart(c.p, c.actor, c.people), WaitingPart(c.d, c.p, c.actor, c.people), ClaimPart(c.d, c.p, c.actor, c.name, c.people);
    ChangeMarked(c, services);
    WaitingMarked(c, services);
    ClaimMarked(c, services);
    assert c.Batch() == change + waiting + claim;
    assert c'.Batch() == ChangePart(c'.p, c'.actor, c'.people) + WaitingPart(c'.d, c'.p, c'.actor, c'.people) + ClaimPart(c'.d, c'.p, c'.actor, c'.name, c'.people);
    ToPeopleAppend(change + waiting, claim, services);
    ToPeopleAppend(change, waiting, services);
  }

  // ---- Which rows they are ---------------------------------------------------------------

  // The recipient is this account and may open the planned result.
  predicate Reaches(c: Case, r: Option<Recipient>, who: UserId) {
    r.Some? && r.value.user == who && CanOpen(r.value, c.p.after)
  }

  // A service account is told of a state change or asked to confirm a resolution as the
  // requester, told of a state change as the assignee, and told that a form waits.
  predicate ServiceTold(c: Case, who: UserId, kind: Kind) {
    var moved := c.p.before.state != c.p.after.state;
    var asRequester := Reaches(c, c.people.requester, who);
    match kind
    case AwaitingConfirmation => moved && asRequester && c.p.after.state == Resolved
    case StateChanged => moved && if asRequester then c.p.after.state != Resolved else Reaches(c, c.Holder(), who)
    case FormWaiting => Reaches(c, WaitsOn(c.d, c.p.nextCursor, c.people.requester, FormAssignee(c.d, c.p, c.people)), who)
    case _ => false
  }

  // A service account gets a row of a kind exactly when the ticket names it so and
  // somebody else acts.
  lemma ServiceToldExactly(c: Case, services: Accounts, who: UserId, kind: Kind)
    requires ReadAsPeople(c, services) && services(who)
    ensures Count(c.Batch(), who, kind) > 0 <==> who != c.actor && ServiceTold(c, who, kind)
  {
    var change, waiting, claim := ChangePart(c.p, c.actor, c.people), WaitingPart(c.d, c.p, c.actor, c.people), ClaimPart(c.d, c.p, c.actor, c.name, c.people);
    assert c.Batch() == change + waiting + claim;
    CountAppend(change + waiting, claim, who, kind);
    CountAppend(change, waiting, who, kind);
    ChangeTold(c, services, who, kind);
    WaitingTold(c, who, kind);
    ClaimToldNone(c, services, who, kind);
  }

  lemma WaitingTold(c: Case, who: UserId, kind: Kind)
    requires c.people.requester.Some? ==> !c.people.requester.value.service
    requires c.people.assignee.Some? ==> !c.people.assignee.value.service
    ensures Count(WaitingPart(c.d, c.p, c.actor, c.people), who, kind) > 0 <==>
            who != c.actor && kind == FormWaiting && ServiceTold(c, who, FormWaiting)
  {
    WaitingRow(c.p.after, c.d, c.p.nextCursor, c.actor, c.people.requester, FormAssignee(c.d, c.p, c.people));
    CountPositive(WaitingPart(c.d, c.p, c.actor, c.people), who, kind);
    if |WaitingPart(c.d, c.p, c.actor, c.people)| > 0 {
      assert WaitingPart(c.d, c.p, c.actor, c.people)[0].kind == FormWaiting;
    }
  }

  lemma ClaimToldNone(c: Case, services: Accounts, who: UserId, kind: Kind)
    requires ReadAsPeople(c, services) && services(who)
    ensures Count(ClaimPart(c.d, c.p, c.actor, c.name, c.people), who, kind) == 0
  {
    var rows := ClaimPart(c.d, c.p, c.actor, c.name, c.people);
    forall row | row in rows
      ensures row.user != who
    {
      var fs := Without(c.people.followers, c.p.before.assignee);
      var existing := ChangePart(c.p, c.actor, c.people) + WaitingPart(c.d, c.p, c.actor, c.people);
      var i := RowSource(c.p.after, Some(c.actor), UsersOf(existing), VerifiedAll(AssigneeChanged, fs, None, c.name), row);
      WithoutLacks(c.people.followers, c.p.before.assignee);
      assert fs[i] in fs;
    }
    NoneOfKind(rows, who, kind);
  }

  lemma ChangeTold(c: Case, services: Accounts, who: UserId, kind: Kind)
    requires ReadAsPeople(c, services) && services(who)
    ensures Count(ChangePart(c.p, c.actor, c.people), who, kind) > 0 <==>
            who != c.actor && kind in {AwaitingConfirmation, StateChanged} && ServiceTold(c, who, kind)
  {
    var rows := ChangePart(c.p, c.actor, c.people);
    CountPositive(rows, who, kind);
    ChangeRowsTo(c, services, who);
    var cs := ChangeCandidates(c);
    if ServiceTold(c, who, kind) && who != c.actor && kind in {AwaitingConfirmation, StateChanged} {
      var row := RowFor(Some(c.actor), if Reaches(c, c.people.requester, who) then cs[0] else cs[1]);
      assert row in rows && row.user == who && row.kind == kind;
    }
    if i :| 0 <= i < |rows| && rows[i].user == who && rows[i].kind == kind {
      assert rows[i] in rows;
    }
  }

  function ChangeCandidates(c: Case): (cs: seq<Candidate>)
    ensures |cs| == 2 + |c.people.followers|
  {
    StateChangeCandidates(c.p.before.state, c.p.after.state, Recipients(c.people.requester, c.Holder(), c.people.followers, []))
  }

  lemma FollowersSkipped(c: Case, services: Accounts, who: UserId, i: int)
    requires ReadAsPeople(c, services) && services(who) && 0 <= i < |ChangeCandidates(c)|
    requires Eligible(c.p.after, ChangeCandidates(c)[i]) && Person(ChangeCandidates(c)[i]).value.user == who
    ensures i < 2
  {
  }

  // The account's row, if any, is its candidate's as requester, or else as assignee.
  lemma ChangeRowsTo(c: Case, services: Accounts, who: UserId)
    requires ReadAsPeople(c, services) && services(who)
    ensures var rows, cs := ChangePart(c.p, c.actor, c.people), ChangeCandidates(c); var moved := c.p.before.state != c.p.after.state;
            forall row: Row :: row.user == who ==>
              (row in rows <==>
                && moved && who != c.actor
                && (Reaches(c, c.people.requester, who) || Reaches(c, c.Holder(), who))
                && row == RowFor(Some(c.actor), if Reaches(c, c.people.requester, who) then cs[0] else cs[1]))
  {
    var t, actor, cs := c.p.after, Some(c.actor), ChangeCandidates(c);
    var rows := ChangePart(c.p, c.actor, c.people);
    if c.p.before.state != c.p.after.state {
      forall row | row in rows && row.user == who
        ensures who != c.actor && (Reaches(c, c.people.requester, who) || Reaches(c, c.Holder(), who))
        ensures row == RowFor(actor, if Reaches(c, c.people.requester, who) then cs[0] else cs[1])
      {
        var i := RowSource(t, actor, {}, cs, row);
        FollowersSkipped(c, services, who, i);
      }
      if who != c.actor {
        if Reaches(c, c.people.requester, who) {
          FirstHasRow(t, actor, {}, cs, 0);
        } else if Reaches(c, c.Holder(), who) {
          FirstHasRow(t, actor, {}, cs, 1);
        }
      }
    }
  }

  // And it is stored, unless a routing step takes the ticket from the account, or the
  // account may not open the stored result.  (Rows for the person a routing step
  // selects are not these.)
  lemma ServiceRowStored(
      c: Case, snap: Snapshot, cmd: Command, now: Instant, isSpace: char -> bool, pick: Selection, names: UserId -> string, a: Access,
      services: Accounts, who: UserId, kind: Kind)
    requires Planned(c, snap, cmd, now, isSpace) && ReadAsPeople(c, services) && services(who)
    requires kind in {AwaitingConfirmation, StateChanged} || (kind == FormWaiting && c.LastPick(pick) != Some(who))
    ensures Count(Stored(c, a, pick, names), who, kind) > 0 <==>
              && who != c.actor && ServiceTold(c, who, kind) && Opens(c, a, pick, who)
              && !(Routed(c.p.ops) && c.Holder().Some? && c.Holder().value.user == who && c.LastPick(pick) != Some(who))
  {
    StoredCount(c, snap, cmd, now, isSpace, pick, names, a, who, kind);
    FinalHolder(c, snap, cmd, now, isSpace, pick, names);
    RowCount(c, who, kind, pick, names);
    EndCounts(c, who, pick, names);
    if kind != FormWaiting {
      NoneOfKind(c.End(pick, names).rows, who, kind);
    }
    ServiceToldExactly(c, services, who, kind);
  }
}
