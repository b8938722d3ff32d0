/**
Who of a ticket's followers hears about a claim (internal/application/
workflow_runner.go, the tail of PlanComplete, with follow_service.go and
workflow_notification_access.go): the followers who may still open what the claim
leaves behind, but for the person it takes the ticket from.
*/
module ClaimNotices {
  import opened Core
  import opened Tickets
  import opened Workflow
  import opened Runner
  import opened PlanFacts
  import opened Policy
  import opened Notifications
  import opened NotificationFacts
  import opened PlanNotices
  import opened PlanNoticeFacts
  import opened PlanNoticeResults
  import opened PlanAccess
  import opened PlanStoredNotices

  // ---- Followers ---------------------------------------------------------------------

  // The followers of the ticket, as the plan was made with them.
  ghost predicate FollowedBy(c: Case, a: Access, fs: seq<User>) {
    var desk := ClaimableDesk(c.d, c.p.nextCursor, c.p.nextStatus, c.p.after.state);
    && c.people.followers == KeepOpen(fs, c.p.after, desk.Some?, if desk.Some? then a.members(desk.value) else {})
    && forall i :: 0 <= i < |fs| ==> a.users(fs[i].id) == Some(fs[i])
  }

  lemma {:induction false} KeepOpenIs(fs: seq<User>, after: TicketRow, claimPending: bool, members: set<UserId>)
    ensures forall r :: r in KeepOpen(fs, after, claimPending, members) <==>
              exists i :: 0 <= i < |fs| && KeepsOne(fs[i], after, claimPending, members, r)
  {
    if fs != [] {
      KeepOpenIs(fs[1..], after, claimPending, members);
      forall r
        ensures r in KeepOpen(fs, after, claimPending, members) <==>
                KeepsOne(fs[0], after, claimPending, members, r) || r in KeepOpen(fs[1..], after, claimPending, members)
      {
      }
      forall r | exists i :: 0 <= i < |fs| && KeepsOne(fs[i], after, claimPending, members, r)
        ensures r in KeepOpen(fs, after, claimPending, members)
      {
        var i :| 0 <= i < |fs| && KeepsOne(fs[i], after, claimPending, members, r);
        assert i > 0 ==> fs[1..][i - 1] == fs[i];
      }
      forall r | r in KeepOpen(fs, after, claimPending, members)
        ensures exists i :: 0 <= i < |fs| && KeepsOne(fs[i], after, claimPending, members, r)
      {
        if !KeepsOne(fs[0], after, claimPending, members, r) {
          var i :| 0 <= i < |fs[1..]| && KeepsOne(fs[1..][i], after, claimPending, members, r);
          assert fs[i + 1] == fs[1..][i];
        }
      }
    }
  }

  predicate KeepsOne(u: User, after: TicketRow, claimPending: bool, members: set<UserId>, r: Recipient) {
    CanStaffOpenResulting(u, after, claimPending, members) && r == RecipientOf(u)
  }

  // Somebody the planner may tell as a follower.
  predicate ToldAsFollower(c: Case, a: Access, u: User) { PlanTimeTest(u, c, a.members) && !u.service }

  // A follower is one of the plan's recipients if and only if they pass its test.
  lemma FollowerListed(c: Case, a: Access, fs: seq<User>, u: User, r: Recipient)
    requires FollowedBy(c, a, fs) && u in fs && r.user == u.id
    ensures r in c.people.followers <==> PlanTimeTest(u, c, a.members) && r == RecipientOf(u)
  {
    var desk := ClaimableDesk(c.d, c.p.nextCursor, c.p.nextStatus, c.p.after.state);
    var members := if desk.Some? then a.members(desk.value) else {};
    KeepOpenIs(fs, c.p.after, desk.Some?, members);
    var k :| 0 <= k < |fs| && fs[k] == u;
    if r in c.people.followers {
      var i :| 0 <= i < |fs| && KeepsOne(fs[i], c.p.after, desk.Some?, members, r);
      assert a.users(fs[i].id) == Some(fs[i]) && a.users(fs[k].id) == Some(fs[k]);
    } else {
      assert !KeepsOne(fs[k], c.p.after, desk.Some?, members, r);
    }
  }

  lemma FollowerOffered(c: Case, a: Access, fs: seq<User>, u: User, rs: seq<Recipient>, kind: Kind, from: Option<Fact>,
      to: Option<Fact>)
    requires FollowedBy(c, a, fs) && u in fs
    requires forall r :: r in rs && r.user == u.id <==> r in c.people.followers && r.user == u.id
    ensures Offered(c.p.after, VerifiedAll(kind, rs, from, to), u.id) <==> ToldAsFollower(c, a, u)
  {
    var cs := VerifiedAll(kind, rs, from, to);
    FollowerListed(c, a, fs, u, RecipientOf(u));
    if ToldAsFollower(c, a, u) {
      var k :| 0 <= k < |rs| && rs[k] == RecipientOf(u);
      assert OffersTo(c.p.after, cs[k], u.id);
    }
    if k :| 0 <= k < |cs| && OffersTo(c.p.after, cs[k], u.id) {
      assert rs[k] in rs;
      FollowerListed(c, a, fs, u, rs[k]);
    }
  }

  // ---- A claim -----------------------------------------------------------------------

  // The submission claims the ticket.
  predicate Claims(c: Case) { c.p.ops != [] && c.p.ops[0].ClaimAssignment? }

  lemma ClaimIsActors(c: Case, snap: Snapshot, cmd: Command, now: Instant, isSpace: char -> bool)
    requires Planned(c, snap, cmd, now, isSpace) && Claims(c)
    ensures c.p.ops[0].assignee == c.actor && c.p.after.assignee == Some(c.actor)
    ensures c.Holder().Some? ==> c.Holder().value.user == c.actor
  {
    ClaimAssignsActor(snap, cmd, now, isSpace, c.p, 0);
    var d, t, step := snap.workflow, snap.ticket.value, c.p.expected;
    if !IsTerminal(d[step]) {
      var own, mid :| OwnStep(t, d[step], step, cmd, now, isSpace, own, mid) &&
                      Prepend(own, Advance(d, mid, step + 1, now)) == Ok(Walk(c.p.ops, c.p.nextCursor, c.p.after));
      assert own[0] == c.p.ops[0];
    }
  }

  // The requester hears of the state, or that a form waits on them.
  predicate ToldAsRequester(c: Case, who: UserId) {
    && RequesterListens(c, who)
    && (c.p.before.state != c.p.after.state || PendingForm(c.d, c.p.nextCursor) == Some(ByRequester))
  }

  // The follower's row from the plan: of the state, or of the claim, which the person
  // it takes the ticket from does not get.
  predicate ToldByPlan(c: Case, a: Access, u: User) {
    && ToldAsFollower(c, a, u)
    && (c.p.before.state != c.p.after.state || (c.p.before.assignee != Some(c.actor) && c.p.before.assignee != Some(u.id)))
  }

  lemma ChangeAddresses(c: Case, a: Access, fs: seq<User>, u: User)
    requires FollowedBy(c, a, fs) && u in fs && u.id != c.actor
    requires c.Holder().Some? ==> c.Holder().value.user == c.actor
    ensures Addresses(ChangePart(c.p, c.actor, c.people), u.id) <==>
            c.p.before.state != c.p.after.state && (ToldAsFollower(c, a, u) || RequesterListens(c, u.id))
  {
    var f, t := Some(StateFact(c.p.before.state)), Some(StateFact(c.p.after.state));
    var cs := StateChangeCandidates(c.p.before.state, c.p.after.state, Recipients(c.people.requester, c.Holder(), c.people.followers, []));
    AddressedIff(c.p.after, Some(c.actor), {}, cs, u.id);
    FollowerOffered(c, a, fs, u, c.people.followers, StateChanged, f, t);
    var tail := VerifiedAll(StateChanged, c.people.followers, f, t);
    assert cs[1..][1..] == tail;
    OfferedHead(c.p.after, cs, u.id);
    OfferedHead(c.p.after, cs[1..], u.id);
  }

  lemma WaitingAddresses(c: Case, who: UserId)
    requires who != c.actor && (c.Holder().Some? ==> c.Holder().value.user == c.actor)
    ensures Addresses(WaitingPart(c.d, c.p, c.actor, c.people), who) <==>
            RequesterListens(c, who) && PendingForm(c.d, c.p.nextCursor) == Some(ByRequester)
  {
    WaitingRow(c.p.after, c.d, c.p.nextCursor, c.actor, c.people.requester, FormAssignee(c.d, c.p, c.people));
    var rows := WaitingPart(c.d, c.p, c.actor, c.people);
    assert |rows| > 0 ==> rows[0].user == WaitsOn(c.d, c.p.nextCursor, c.people.requester, FormAssignee(c.d, c.p, c.people)).value.user;
  }

  lemma ClaimAddresses(c: Case, a: Access, fs: seq<User>, u: User)
    requires FollowedBy(c, a, fs) && u in fs && u.id != c.actor
    requires Claims(c) && c.p.ops[0].assignee == c.actor
    ensures var existing := ChangePart(c.p, c.actor, c.people) + WaitingPart(c.d, c.p, c.actor, c.people);
            Addresses(ClaimPart(c.d, c.p, c.actor, c.name, c.people), u.id) <==>
              && c.p.before.assignee != Some(c.actor) && c.p.before.assignee != Some(u.id)
              && ToldAsFollower(c, a, u) && !Addresses(existing, u.id)
  {
    var existing := ChangePart(c.p, c.actor, c.people) + WaitingPart(c.d, c.p, c.actor, c.people);
    var rs := Without(c.people.followers, c.p.before.assignee);
    var cs := VerifiedAll(AssigneeChanged, rs, None, c.name);
    WithoutLacks(c.people.followers, c.p.before.assignee);
    assert Claimant(c.p.ops) == Some(c.actor);
    if c.p.before.assignee != Some(c.actor) {
      AddressedIff(c.p.after, Some(c.actor), UsersOf(existing), cs, u.id);
      if c.p.before.assignee != Some(u.id) {
        FollowerOffered(c, a, fs, u, rs, AssigneeChanged, None, c.name);
      } else {
        assert forall i :: 0 <= i < |rs| ==> rs[i] in rs;
      }
    }
  }

  lemma BatchAddresses(c: Case, a: Access, fs: seq<User>, u: User)
    requires FollowedBy(c, a, fs) && u in fs && u.id != c.actor
    requires Claims(c) && c.p.ops[0].assignee == c.actor && (c.Holder().Some? ==> c.Holder().value.user == c.actor)
    ensures Addresses(c.Batch(), u.id) <==> ToldByPlan(c, a, u) || ToldAsRequester(c, u.id)
  {
    var change, waiting, claim := ChangePart(c.p, c.actor, c.people), WaitingPart(c.d, c.p, c.actor, c.people), ClaimPart(c.d, c.p, c.actor, c.name, c.people);
    assert c.Batch() == change + waiting + claim;
    AddressesAppend(change + waiting, claim, u.id);
    AddressesAppend(change, waiting, u.id);
    ChangeAddresses(c, a, fs, u);
    WaitingAddresses(c, u.id);
    ClaimAddresses(c, a, fs, u);
  }

  // ---- The rows of routing steps behind the claim ------------------------------------

  lemma {:induction false} HoldsOnlyMoved(start: Routing, ops: seq<Operation>, k: nat, who: UserId, pick: Selection,
      names: UserId -> string)
    requires 0 < k <= |ops| && ops[0].ClaimAssignment? && ops[0].assignee != who
    requires forall i :: 0 < i < |ops| ==> !ops[i].ClaimAssignment?
    ensures After(start, ops, k, pick, names).assignee == Some(who) ==> Moves(start, ops, k, who, pick, names) > 0
    decreases k
  {
    if k > 1 {
      HoldsOnlyMoved(start, ops, k - 1, who, pick, names);
    } else {
      assert After(start, ops, 0, pick, names) == start;
    }
  }

  lemma PickedWasMoved(c: Case, snap: Snapshot, cmd: Command, now: Instant, isSpace: char -> bool, pick: Selection,
      names: UserId -> string, who: UserId)
    requires Planned(c, snap, cmd, now, isSpace) && Claims(c) && c.p.ops[0].assignee != who && c.LastPick(pick) == Some(who)
    ensures c.MovedOnto(who, pick, names) > 0
  {
    StampedTemplates(c);
    ClaimsComeFirst(snap, cmd, now, isSpace, c.p);
    LastPickHolds(c, pick, names);
    HoldsOnlyMoved(Start(c.p, c.Notices()), c.Notices().ops, |c.Notices().ops|, who, pick, names);
  }

  // What is collected for a follower: the plan's rows, and `assigned` when a routing
  // step behind the claim reaches them.
  lemma CollectedFollower(c: Case, snap: Snapshot, cmd: Command, now: Instant, isSpace: char -> bool, pick: Selection,
      names: UserId -> string, a: Access, fs: seq<User>, u: User)
    requires Planned(c, snap, cmd, now, isSpace) && FollowedBy(c, a, fs) && u in fs && u.id != c.actor && Claims(c)
    requires Routed(c.p.ops) ==> !u.service && c.p.before.assignee != Some(c.actor)
    ensures Addresses(c.Rows(pick, names), u.id) <==>
            ToldByPlan(c, a, u) || ToldAsRequester(c, u.id) || c.MovedOnto(u.id, pick, names) > 0
  {
    ClaimIsActors(c, snap, cmd, now, isSpace);
    BatchAddresses(c, a, fs, u);
    if c.LastPick(pick) == Some(u.id) {
      PickedWasMoved(c, snap, cmd, now, isSpace, pick, names, u.id);
    }
    forall kind: Kind | Count(c.End(pick, names).rows, u.id, kind) > 0
      ensures Addresses(c.Batch(), u.id) || c.MovedOnto(u.id, pick, names) > 0
    {
      EndOfKind(c, a, fs, u, kind, pick, names);
    }
    RowsAddress(c, u.id, pick, names);
  }

  lemma RowsAddress(c: Case, who: UserId, pick: Selection, names: UserId -> string)
    requires who != c.actor && (c.Holder().Some? ==> c.Holder().value.user == c.actor)
    requires forall kind: Kind :: Count(c.End(pick, names).rows, who, kind) > 0 ==>
               Addresses(c.Batch(), who) || c.MovedOnto(who, pick, names) > 0
    ensures Addresses(c.Rows(pick, names), who) <==> Addresses(c.Batch(), who) || c.MovedOnto(who, pick, names) > 0
  {
    var rows := c.Rows(pick, names);
    forall kind: Kind
      ensures Count(rows, who, kind) == Count(c.End(pick, names).rows, who, kind) + Count(c.Batch(), who, kind)
    {
      RowCount(c, who, kind, pick, names);
    }
    AddressedByCount(rows, who);
    AddressedByCount(c.Batch(), who);
    MovedIsAssigned(c, who, pick, names);
    if Addresses(rows, who) {
      var kind: Kind :| Count(rows, who, kind) > 0;
      if Count(c.Batch(), who, kind) > 0 {
        CountPositive(c.Batch(), who, kind);
        assert Addresses(c.Batch(), who);
      } else {
        assert Count(c.End(pick, names).rows, who, kind) > 0;
      }
    }
    if Addresses(c.Batch(), who) {
      var kind: Kind :| Count(c.Batch(), who, kind) > 0;
      assert Count(rows, who, kind) > 0;
      assert Addresses(rows, who);
    }
    if c.MovedOnto(who, pick, names) > 0 {
      assert Count(rows, who, AssignedKind) > 0;
      assert Addresses(rows, who);
    }
  }

  lemma MovedIsAssigned(c: Case, who: UserId, pick: Selection, names: UserId -> string)
    requires who != c.actor
    ensures Count(c.End(pick, names).rows, who, AssignedKind) == c.MovedOnto(who, pick, names)
  {
    EndCounts(c, who, pick, names);
  }

  // A routing row of a follower the plan does not tell is `assigned`.
  lemma EndOfKind(c: Case, a: Access, fs: seq<User>, u: User, kind: Kind, pick: Selection, names: UserId -> string)
    requires FollowedBy(c, a, fs) && u in fs && u.id != c.actor
    requires Routed(c.p.ops) ==> !u.service && c.p.before.assignee != Some(c.actor)
    requires Addresses(c.Batch(), u.id) <==> ToldByPlan(c, a, u) || ToldAsRequester(c, u.id)
    requires c.LastPick(pick) == Some(u.id) ==> c.MovedOnto(u.id, pick, names) > 0
    requires Count(c.End(pick, names).rows, u.id, kind) > 0
    ensures Addresses(c.Batch(), u.id) || c.MovedOnto(u.id, pick, names) > 0
  {
    EndCounts(c, u.id, pick, names);
    if kind !in {AssignedKind, FormWaiting, AssigneeChanged} {
      NoneOfKind(c.End(pick, names).rows, u.id, kind);
    }
    if kind == AssigneeChanged && u.id !in UsersOf(c.Batch()) {
      ToldIsFollower(c, a, fs, u);
      if !Routed(c.p.ops) {
        StampedTemplates(c);
        UnroutedNothing(Start(c.p, c.Notices()), c.Notices().ops, |c.p.ops|, pick, names);
      }
    }
  }

  lemma ToldIsFollower(c: Case, a: Access, fs: seq<User>, u: User)
    requires FollowedBy(c, a, fs) && u in fs && u.id in c.Told()
    ensures PlanTimeTest(u, c, a.members) && c.p.before.assignee != Some(u.id)
  {
    var rs := Without(c.people.followers, c.p.before.assignee);
    WithoutLacks(c.people.followers, c.p.before.assignee);
    var k :| 0 <= k < |rs| && rs[k].user == u.id;
    assert rs[k] in rs;
    FollowerListed(c, a, fs, u, rs[k]);
  }

  // ---- The theorem -------------------------------------------------------------------

  // A follower who did not act hears about a claim if and only if they may open what
  // the transaction leaves and the plan tells them: every follower who passed the
  // plan-time test, except the person the claim takes the ticket from while its state
  // stays.  The requester, and whoever a later routing step reaches, hears too.
  lemma FollowerHearsClaim(c: Case, snap: Snapshot, cmd: Command, now: Instant, isSpace: char -> bool, pick: Selection,
      names: UserId -> string, a: Access, fs: seq<User>, u: User)
    requires Planned(c, snap, cmd, now, isSpace) && FollowedBy(c, a, fs) && u in fs && Claims(c)
    requires Routed(c.p.ops) ==> !u.service && c.p.before.assignee != Some(c.actor)
    ensures Addresses(Stored(c, a, pick, names), u.id) <==>
              && u.id != c.actor && Opens(c, a, pick, u.id)
              && (ToldByPlan(c, a, u) || ToldAsRequester(c, u.id) || c.MovedOnto(u.id, pick, names) > 0)
  {
    StoredAddresses(c, snap, cmd, now, isSpace, pick, names, a, u.id);
    if u.id == c.actor {
      AddressedByCount(c.Rows(pick, names), u.id);
      forall kind: Kind
        ensures Count(c.Rows(pick, names), u.id, kind) == 0
      {
        CollectedPairs(c, u.id, kind, pick, names);
      }
    } else {
      CollectedFollower(c, snap, cmd, now, isSpace, pick, names, a, fs, u);
    }
  }

  // With nothing routed behind it, that is: a person who follows and is not the
  // requester hears about the claim exactly when they may still open the ticket as
  // staff, except the one it is taken from while its state stays.
  lemma FollowerHearsPlainClaim(c: Case, snap: Snapshot, cmd: Command, now: Instant, isSpace: char -> bool, pick: Selection,
      names: UserId -> string, a: Access, fs: seq<User>, u: User)
    requires Planned(c, snap, cmd, now, isSpace) && FollowedBy(c, a, fs) && u in fs && Claims(c) && !Routed(c.p.ops)
    requires u.id != c.actor && !u.service && c.p.before.requester != Some(u.id) && c.p.before.assignee != Some(c.actor)
    ensures Addresses(Stored(c, a, pick, names), u.id) <==>
              && StaffCanOpen(u, StoredTicket(c, pick), c.d, StoredRun(c, a.startedAt), a.members)
              && !(c.p.before.assignee == Some(u.id) && c.p.before.state == c.p.after.state)
  {
    FollowerHearsClaim(c, snap, cmd, now, isSpace, pick, names, a, fs, u);
    FollowerTestAgrees(c, snap, cmd, now, isSpace, pick, names, u, a.members, a.startedAt);
    OpensIff(c, snap, cmd, now, isSpace, pick, names, a, u.id);
    FinalHolder(c, snap, cmd, now, isSpace, pick, names);
    assert a.users(u.id) == Some(u);
    UnroutedMoves(c, u.id, pick, names);
  }

  lemma UnroutedMoves(c: Case, who: UserId, pick: Selection, names: UserId -> string)
    requires !Routed(c.p.ops)
    ensures c.MovedOnto(who, pick, names) == 0
  {
    StampedTemplates(c);
    NoMoves(Start(c.p, c.Notices()), c.Notices().ops, |c.Notices().ops|, who, pick, names);
  }

  lemma {:induction false} NoMoves(start: Routing, ops: seq<Operation>, k: nat, who: UserId, pick: Selection, names: UserId -> string)
    requires k <= |ops| && forall i :: 0 <= i < |ops| ==> !ops[i].LeastLoadedAssignment?
    ensures Moves(start, ops, k, who, pick, names) == 0
  {
    if k > 0 {
      NoMoves(start, ops, k - 1, who, pick, names);
    }
  }
}
